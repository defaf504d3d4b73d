/**
 linux/src/audio_reservation.cpp: taking and giving back the reservation of
 the sound cards in use, all of them or none.
 */
module AudioReservation {
  import opened CardNames
  import opened Dbus
  import opened Wrappers

  const RESERVATION_PRIORITY := 0x7fff_ffff

  datatype Reservation = Reservation(card: nat, deviceName: string)

  ghost function Names(rs: seq<Reservation>): set<string> {
    set r | r in rs :: ServiceName(r.card)
  }

  ghost function Paths(rs: seq<Reservation>): set<string> {
    set r | r in rs :: ObjectPath(r.card)
  }

  /** The answer given to every RequestRelease from another process. */
  function Accepts(priority: int): bool {
    priority > RESERVATION_PRIORITY
  }

  lemma NeverPreempted(priority: int)
    requires -0x8000_0000 <= priority < 0x8000_0000
    ensures !Accepts(priority)
  {
  }

  /** The cards behind a device name: none for "(None)", for a name without a
      card part and for a card the system does not know. */
  ghost function CardsOf(cards: map<string, nat>, device: string): set<nat> {
    if device == "(None)" then {}
    else match CardNameOf(device)
      case None => {}
      case Some(name) => if name in cards then {cards[name]} else {}
  }

  /** A device takes a card exactly when its name has a card part that is known. */
  lemma CardOfDevice(cards: map<string, nat>, device: string, card: nat)
    ensures card in CardsOf(cards, device) <==>
            exists name :: HasCard(device, name) && name in cards && cards[name] == card
  {
    HasCardExactly(device);
    hide HasCard, FirstOf;
    if device == "(None)" {
      FirstIsUnique(device, ':', 6);
    }
  }

  class Reservations {
    const cards: map<string, nat>  // snd_card_get_index

    var bus: Connection?
    var reservations: seq<Reservation>
    var threadJoinable: bool
    ghost var unreachable: nat  // how often the bus could not be reached

    ghost function Connections(): set<object>
      reads this
    {
      if bus == null then {} else {bus}
    }

    ghost predicate Valid()
      reads this, Connections()
    {
      && (bus == null ==> reservations == [] && !threadJoinable)
      && (bus != null ==>
            && bus.handle && bus.serviced == threadJoinable && bus.names !! bus.taken
            && bus.slots == Paths(reservations))
    }

    /** One name was granted for each card on record and no other; those that other
        processes did not take since are held. */
    ghost predicate Exact()
      reads this, Connections()
    {
      && (bus != null ==> bus.names !! bus.taken && bus.names + bus.taken == Names(reservations))
      && forall i, j :: 0 <= i < j < |reservations| ==> reservations[i].card != reservations[j].card
    }

    /** The names of these cards and no others, except those taken by other processes. */
    ghost predicate HoldsNamesOf(cs: set<nat>)
      reads this, Connections()
    {
      var all := set c | c in cs :: ServiceName(c);
      bus != null && bus.taken <= all && bus.names == all - bus.taken
    }

    /** The cards of these two devices are reserved, each under the device that led to
        it, and requests are served; nothing else is. */
    ghost predicate Reserves(playback: string, capture: string)
      reads this, Connections()
    {
      var cs := CardsOf(cards, playback) + CardsOf(cards, capture);
      && Exact() && (set r | r in reservations :: r.card) == cs
      && (bus == null <==> cs == {}) && threadJoinable == (bus != null)
      && (bus != null ==> HoldsNamesOf(cs))
      && forall r <- reservations :: r.deviceName == if r.card in CardsOf(cards, playback) then playback else capture
    }

    ghost predicate Idle()
      reads this
    {
      bus == null && reservations == [] && !threadJoinable
    }

    constructor (cards: map<string, nat>)
      ensures Valid() && Idle() && this.cards == cards
    {
      this.cards := cards;
      bus, reservations, threadJoinable, unreachable := null, [], false, 0;
    }

    method GetCardIndex(device: string) returns (index: int)
      ensures index >= 0 <==> exists name :: CardNameOf(device) == Some(name) && name in cards
      ensures index >= 0 ==> CardNameOf(device).Some? && CardNameOf(device).value in cards
                             && index == cards[CardNameOf(device).value]
    {
      var name := CardName(device);
      match name {
        case None => return -1;
        case Some(n) => return if n in cards then cards[n] else -1;
      }
    }

    /** Gives everything back. The connection is gone afterwards, whichever
        calls fail, because no slot is left to keep it open. */
    method Cleanup()
      requires Valid()
      modifies this, Connections()
      ensures Valid() && Idle() && unreachable == old(unreachable)
      ensures old(bus) != null ==> old(bus).Closed() && old(bus).refused == old(bus.refused)
    {
      if threadJoinable {
        bus.serviced := false;
        threadJoinable := false;
      }

      if bus != null {
        for i := 0 to |reservations|
          invariant Valid() && unchanged(this`bus) && unchanged(this`reservations) && !threadJoinable
          invariant unreachable == old(unreachable)
          invariant bus.refused == old(bus.refused)
        {
          bus.ReleaseName(ServiceName(reservations[i].card));
        }
      }

      ghost var conn := bus;
      for i := 0 to |reservations|
        invariant bus == conn && reservations == old(reservations) && !threadJoinable
        invariant unreachable == old(unreachable)
        invariant bus == null ==> reservations == []
        invariant bus != null ==> bus.InUse() && bus.refused == old(bus.refused)
        invariant bus != null ==> bus.slots <= Paths(reservations[i..])
      {
        bus.SlotUnref(ObjectPath(reservations[i].card));
      }

      reservations := [];

      if bus != null {
        bus.Unref();
        bus := null;
      }
    }

    /** Registers the object of one card and takes its name, asking a present
        owner to let go of it first. */
    method Acquire(card: nat, device: string) returns (ok: bool)
      requires Valid() && bus != null && !threadJoinable && Exact()
      requires forall r :: r in reservations ==> r.card != card
      modifies this`reservations, bus
      ensures Valid()
      ensures ok ==> Exact() && reservations == old(reservations) + [Reservation(card, device)]
      ensures !ok ==> reservations == old(reservations)
      ensures bus.refused == (old(bus.refused) || !ok)
      ensures bus.asked == old(bus.asked)
              || bus.asked == old(bus.asked) + [Question(ServiceName(card), ObjectPath(card), 0x7fff_ffff)]
    {
      var name := ServiceName(card);
      var path := ObjectPath(card);
      FreshPath(reservations, card);

      ok := bus.AddObject(path);
      if !ok {
        return;
      }

      var result := bus.RequestName(name, false);

      if result == -EEXIST {
        var r, accepted := bus.CallRequestRelease(name, path, RESERVATION_PRIORITY);

        if r < 0 || !accepted {
          bus.SlotUnref(path);
          return false;
        }

        result := bus.RequestName(name, true);
      }

      if result < 0 {
        bus.SlotUnref(path);
        return false;
      }

      reservations := reservations + [Reservation(card, device)];
    }

    static lemma FreshPath(rs: seq<Reservation>, card: nat)
      requires forall r :: r in rs ==> r.card != card
      ensures ObjectPath(card) !in Paths(rs)
    {
      forall r | r in rs
        ensures ObjectPath(r.card) != ObjectPath(card)
      {
        NamesDistinguishCards(r.card, card);
      }
    }

    /** The loop over the cards, for a list of any length: all of them or none. */
    method AcquireAll(wanted: seq<Reservation>) returns (ok: bool)
      requires Valid() && bus != null && !threadJoinable && reservations == [] && bus.names == bus.taken == {}
      requires forall i, j :: 0 <= i < j < |wanted| ==> wanted[i].card != wanted[j].card
      modifies this, bus
      ensures Valid()
      ensures ok ==> bus == old(bus) && Exact() && reservations == wanted && threadJoinable == old(threadJoinable)
      ensures !ok ==> Idle() && old(bus).Closed()
      ensures old(bus).refused == (old(bus.refused) || !ok) && unreachable == old(unreachable)
    {
      for i := 0 to |wanted|
        invariant Valid() && bus == old(bus) && !threadJoinable && Exact()
        invariant reservations == wanted[..i] && bus.refused == old(bus.refused) && unreachable == old(unreachable)
      {
        ok := Acquire(wanted[i].card, wanted[i].deviceName);
        if !ok {
          Cleanup();
          return;
        }
      }
      return true;
    }

    /** Adds the card of a device unless it is already on the list. */
    method AddCard(wanted: seq<Reservation>, device: string) returns (r: seq<Reservation>)
      requires forall i, j :: 0 <= i < j < |wanted| ==> wanted[i].card != wanted[j].card
      ensures forall i, j :: 0 <= i < j < |r| ==> r[i].card != r[j].card
      ensures (set x | x in r :: x.card) == (set x | x in wanted :: x.card) + CardsOf(cards, device)
      ensures wanted <= r && forall x <- r[|wanted|..] :: x.deviceName == device && x.card in CardsOf(cards, device)
    {
      if device == "(None)" {
        return wanted;
      }

      var index := GetCardIndex(device);
      if index < 0 {
        return wanted;
      }

      if exists x :: x in wanted && x.card == index {
        return wanted;
      }
      r := wanted + [Reservation(index, device)];
      assert (set x | x in r :: x.card) == (set x | x in wanted :: x.card) + {index};
    }

    /** One reservation for each card behind the two devices, the card of playback first. */
    method Wanted(playback: string, capture: string) returns (wanted: seq<Reservation>)
      ensures forall i, j :: 0 <= i < j < |wanted| ==> wanted[i].card != wanted[j].card
      ensures (set x | x in wanted :: x.card) == CardsOf(cards, playback) + CardsOf(cards, capture)
      ensures forall x <- wanted ::
                x.deviceName == if x.card in CardsOf(cards, playback) then playback else capture
    {
      wanted := AddCard([], playback);
      ghost var first := wanted;
      assert CardsOf(cards, playback) == set x | x in first :: x.card;
      wanted := AddCard(wanted, capture);
      assert forall k :: 0 <= k < |first| ==> wanted[k] == first[k];
      forall x | x in wanted
        ensures x.deviceName == if x.card in CardsOf(cards, playback) then playback else capture
      {
        var i :| 0 <= i < |wanted| && wanted[i] == x;
        if i < |first| {
          assert first[i] == x;
        } else {
          assert wanted[|first|..][i - |first|] == x;
        }
      }
    }

    /** sd_bus_open_user. */
    method OpenBus() returns (ok: bool)
      requires bus == null
      modifies this`bus, this`unreachable
      ensures if ok then unreachable == old(unreachable) && bus != null && fresh(bus)
                         && bus.InUse() && bus.names == bus.taken == bus.slots == {} && !bus.refused && bus.asked == []
              else unreachable == old(unreachable) + 1 && bus == null
    {
      ok := *;
      if ok {
        bus := new Connection.OpenUser();
      } else {
        unreachable := unreachable + 1;
      }
    }

    /** Opens a connection, takes all the cards wanted and serves requests from then on. */
    method OpenAndAcquire(wanted: seq<Reservation>) returns (ok: bool, ghost conn: Connection?)
      requires Valid() && Idle()
      requires forall i, j :: 0 <= i < j < |wanted| ==> wanted[i].card != wanted[j].card
      modifies this
      ensures Valid() && (conn != null ==> fresh(conn) && (ok <==> !conn.refused))
      ensures unreachable == old(unreachable) + if conn == null then 1 else 0
      ensures ok ==> bus != null && bus == conn && threadJoinable && Exact() && reservations == wanted
      ensures !ok ==> Idle() && (conn != null ==> conn.Closed())
    {
      conn := null;
      var connected := OpenBus();
      if !connected {
        return false, conn;
      }
      conn := bus;

      ok := AcquireAll(wanted);
      if !ok {
        return;
      }

      threadJoinable := true;
      bus.serviced := true;
    }

    /** On success one bus name was granted for each card behind the two devices and
        nothing else, and all are held that no other process took since; on failure
        no name, no object and no connection remain. It fails exactly when the bus
        could not be reached or refused something. `conn` is the connection opened
        meanwhile, if any. */
    method RequestAcquire(playback: string, capture: string) returns (ok: bool, ghost conn: Connection?)
      requires Valid()
      modifies this, Connections()
      ensures Valid()
      ensures old(bus) != null ==> old(bus).Closed()
      ensures ok ==> Reserves(playback, capture) && bus == conn && (bus != null ==> fresh(bus))
      ensures !ok ==> Idle() && (conn != null ==> conn.Closed())
      ensures conn != null ==> fresh(conn) && (ok <==> !conn.refused)
      ensures !ok ==> CardsOf(cards, playback) + CardsOf(cards, capture) != {}
      ensures !ok ==> unreachable > old(unreachable) || (conn != null && conn.refused)
    {
      Cleanup();
      conn := null;

      var wanted := Wanted(playback, capture);
      ghost var cs := CardsOf(cards, playback) + CardsOf(cards, capture);

      if wanted == [] {
        assert cs == {};
        return true, conn;
      }

      assert wanted[0].card in cs;
      ok, conn := OpenAndAcquire(wanted);
      assert ok ==> Names(reservations) == set c | c in cs :: ServiceName(c);
    }
  }
}
