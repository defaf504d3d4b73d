/**
 The reservation protocol among any number of processes: driver processes that
 answer and ask as audio_reservation.cpp does, and peers that may answer a
 request as they like but replace an owner only after an acceptance. A name is
 held by at most one process. Names are replaceable, so an acceptance given by
 one owner can still be used against the next.
 */
module ReservationProtocol {
  import opened AudioReservation

  type Process = nat
  type Name = nat

  /** `accepted`: replacements still allowed by an answer, as (name, asker). */
  datatype World = World(owner: map<Name, Process>, accepted: set<(Name, Process)>)

  datatype Action =
    | Request(p: Process, n: Name)                                // request_name, no replacement
    | Ask(p: Process, n: Name, priority: int, answer: bool)       // RequestRelease and its answer
    | Replace(p: Process, n: Name, granted: bool)                 // request_name with REPLACE_EXISTING
    | Abandon(p: Process, n: Name)                                // gives up after an acceptance
    | Release(p: Process, n: Name)

  predicate Int32(i: int) {
    -0x8000_0000 <= i < 0x8000_0000
  }

  predicate Step(drivers: set<Process>, w: World, a: Action, v: World) {
    match a
    case Request(p, n) =>
      v == if n in w.owner then w else w.(owner := w.owner[n := p])
    case Ask(p, n, priority, answer) =>
      && n in w.owner && w.owner[n] != p && Int32(priority)
      && (w.owner[n] in drivers ==> answer == Accepts(priority))
      && v == if answer then w.(accepted := w.accepted + {(n, p)}) else w
    case Replace(p, n, granted) =>
      && (n, p) in w.accepted
      // Drivers own their names with ALLOW_REPLACEMENT; a peer may not.
      && (n !in w.owner || w.owner[n] in drivers ==> granted)
      && v == World(if granted then w.owner[n := p] else w.owner, w.accepted - {(n, p)})
    case Abandon(p, n) =>
      v == w.(accepted := w.accepted - {(n, p)})
    case Release(p, n) =>
      n in w.owner && w.owner[n] == p && v == w.(owner := w.owner - {n})
  }

  ghost predicate IsRun(drivers: set<Process>, ws: seq<World>, acts: seq<Action>) {
    && |ws| == |acts| + 1
    && forall i :: 0 <= i < |acts| ==> Step(drivers, ws[i], acts[i], ws[i + 1])
  }

  /** Some other process may still use an acceptance given by an earlier owner. */
  ghost predicate Contested(w: World, p: Process, n: Name) {
    exists q :: q != p && (n, q) in w.accepted
  }

  ghost predicate Owns(w: World, p: Process, n: Name) {
    n in w.owner && w.owner[n] == p
  }

  lemma OwnershipStep(drivers: set<Process>, w: World, a: Action, v: World, p: Process, n: Name)
    requires p in drivers && Owns(w, p, n) && !Contested(w, p, n)
    requires Step(drivers, w, a, v) && a != Release(p, n)
    ensures Owns(v, p, n) && !Contested(v, p, n)
  {
    if a.Ask? {
      NeverPreempted(a.priority);
    }
  }

  /** A driver that gained an uncontested name keeps it, whatever anybody asks
      and with whatever priority, until it releases the name itself. */
  lemma {:induction false} UncontestedOwnerStays(drivers: set<Process>, ws: seq<World>, acts: seq<Action>,
                                                 p: Process, n: Name)
    requires IsRun(drivers, ws, acts) && p in drivers
    requires Owns(ws[0], p, n) && !Contested(ws[0], p, n)
    requires Release(p, n) !in acts
    ensures forall i :: 0 <= i < |ws| ==> Owns(ws[i], p, n) && !Contested(ws[i], p, n)
    decreases |acts|
  {
    if acts != [] {
      var k := |acts| - 1;
      UncontestedOwnerStays(drivers, ws[..k + 1], acts[..k], p, n);
      assert ws[..k + 1][k] == ws[k];
      OwnershipStep(drivers, ws[k], acts[k], ws[k + 1], p, n);
      forall i | 0 <= i < |ws|
        ensures Owns(ws[i], p, n) && !Contested(ws[i], p, n)
      {
        if i <= k {
          assert ws[..k + 1][i] == ws[i];
        }
      }
    }
  }

  /** In every run, a driver keeps a name for as long as it does not release it. */
  ghost predicate Secure(drivers: set<Process>, w: World, p: Process, n: Name) {
    forall ws, acts ::
      IsRun(drivers, ws, acts) && ws[0] == w && Release(p, n) !in acts ==> Owns(ws[|acts|], p, n)
  }

  /** The reservation of an owner is secure exactly when nobody else holds an
      acceptance for the name at that moment. */
  lemma SecureExactlyWhenUncontested(drivers: set<Process>, w: World, p: Process, n: Name)
    requires p in drivers && Owns(w, p, n)
    ensures Secure(drivers, w, p, n) <==> !Contested(w, p, n)
  {
    if Contested(w, p, n) {
      var q :| q != p && (n, q) in w.accepted;
      var v := World(w.owner[n := q], w.accepted - {(n, q)});
      var ws, acts := [w, v], [Replace(q, n, true)];
      assert IsRun(drivers, ws, acts) && !Owns(ws[|acts|], p, n);
    } else {
      forall ws, acts | IsRun(drivers, ws, acts) && ws[0] == w && Release(p, n) !in acts
        ensures Owns(ws[|acts|], p, n)
      {
        UncontestedOwnerStays(drivers, ws, acts, p, n);
      }
    }
  }

  /** In every run, a driver that releases none of these names holds them all. */
  ghost predicate AllSecure(drivers: set<Process>, w: World, p: Process, ns: set<Name>) {
    forall ws, acts ::
      IsRun(drivers, ws, acts) && ws[0] == w && (forall n <- ns :: Release(p, n) !in acts) ==>
        forall n <- ns :: Owns(ws[|acts|], p, n)
  }

  /** A reservation of several cards is complete for good exactly when nobody else
      holds an acceptance for any of their names. */
  lemma AllSecureExactlyWhenUncontested(drivers: set<Process>, w: World, p: Process, ns: set<Name>)
    requires p in drivers && forall n <- ns :: Owns(w, p, n)
    ensures AllSecure(drivers, w, p, ns) <==> forall n <- ns :: !Contested(w, p, n)
  {
    if n :| n in ns && Contested(w, p, n) {
      var q :| q != p && (n, q) in w.accepted;
      var v := World(w.owner[n := q], w.accepted - {(n, q)});
      var ws, acts := [w, v], [Replace(q, n, true)];
      assert IsRun(drivers, ws, acts) && !Owns(ws[|acts|], p, n);
    } else {
      forall ws, acts, n | IsRun(drivers, ws, acts) && ws[0] == w && n in ns && Release(p, n) !in acts
        ensures Owns(ws[|acts|], p, n)
      {
        UncontestedOwnerStays(drivers, ws, acts, p, n);
      }
    }
  }

  /** The premise matters: two drivers that ask the same peer both succeed in
      taking the name, and the first loses it without having released it. */
  lemma StaleAcceptanceTakesTheName(first: Process, second: Process, peer: Process, n: Name)
    requires first != second && peer !in {first, second}
    ensures exists ws, acts ::
              && IsRun({first, second}, ws, acts)
              && ws[0] == World(map[], {})
              && Release(first, n) !in acts
              && (exists i :: 0 <= i < |ws| && Owns(ws[i], first, n))
              && Owns(ws[|acts|], second, n)
  {
    var acts := [Request(peer, n), Ask(first, n, RESERVATION_PRIORITY, true),
                 Ask(second, n, RESERVATION_PRIORITY, true),
                 Replace(first, n, true), Replace(second, n, true)];
    var held := map[n := peer];
    var ws := [World(map[], {}), World(held, {}), World(held, {(n, first)}), World(held, {(n, first), (n, second)}),
               World(map[n := first], {(n, second)}), World(map[n := second], {})];
    assert ws[3].accepted - {(n, first)} == {(n, second)};
    assert IsRun({first, second}, ws, acts);
    assert Owns(ws[4], first, n);
  }
}
