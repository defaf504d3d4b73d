/**
 What one run of the audio worker looks like from outside: the callbacks the
 host saw, the frames the card accepted and the frames it handed out. This is
 the specification of the streaming loop in windows/src/CASIO.cpp.
 */
module Session {
  import opened Samples
  import opened Wrappers

  const ASIO_BUFFER_SIZE := 64
  const ALSA_PERIOD_SIZE := 32
  const ALSA_BUFFER_SIZE := 128

  // The latencies reported by getLatencies.
  const INPUT_LATENCY := ASIO_BUFFER_SIZE
  const OUTPUT_LATENCY := ALSA_BUFFER_SIZE - ALSA_PERIOD_SIZE

  /** The channels in use, and whether the two PCM streams advance in lock step. */
  datatype Channels = Channels(outputs: seq<bool>, inputs: seq<bool>, linked: bool) {
    predicate Ok() {
      |outputs| == 2 && |inputs| == 2
    }

    predicate Capture()
      requires Ok()
    {
      inputs[0] || inputs[1]
    }
  }

  /** A bufferSwitch: its index, the sample position the host can read meanwhile, the
      frames still queued for playback, the input halves the host finds and the output
      halves it leaves behind. */
  datatype Call = Call(index: nat, position: nat, queued: nat, inputs: seq<seq<Sample>>, outputs: seq<seq<Sample>>)

  /** How a pass of the loop ended: with the whole block accepted, with a
      successful recovery from an xrun, or with the end of the worker. */
  datatype End = Good | Recovered | Ended

  /** One pass of the loop: the samples read from the card, the callback if the
      pass came that far, the frames accepted of the block it produced, and the
      frames of silence accepted by the recovery. */
  datatype Turn = Turn(input: seq<Sample>, call: Option<Call>, kept: nat, silent: nat, end: End)

  /** The start: the first callback, then the frames accepted of half 1 and of half 0. */
  datatype Prime = Prime(call: Call, first: nat, second: nat)

  datatype Run = Run(prime: Prime, turns: seq<Turn>)

  // ---------- Well-formed runs ----------

  ghost predicate CallOk(c: Call, ch: Channels) {
    && ch.Ok() && c.index < 2
    && Halves(c.outputs, ch.outputs, ASIO_BUFFER_SIZE) && Halves(c.inputs, ch.inputs, ASIO_BUFFER_SIZE)
  }

  /** The active input halves handed to a callback are the two channels of one
      complete block. */
  ghost predicate Delivers(input: seq<Sample>, c: Call, ch: Channels)
    requires CallOk(c, ch)
  {
    && |input| == 2 * ASIO_BUFFER_SIZE
    && (ch.inputs[0] ==> c.inputs[Slot(0, c.index)] == Channel(input, 0))
    && (ch.inputs[1] ==> c.inputs[Slot(1, c.index)] == Channel(input, 1))
  }

  /** No more is queued ahead of the next block than the reported output latency;
      with linked streams no more than one block. */
  ghost predicate InTime(c: Call, ch: Channels)
    requires ch.Ok()
  {
    && (!ch.Capture() ==> c.queued <= OUTPUT_LATENCY)
    && (ch.linked ==> c.queued <= ASIO_BUFFER_SIZE)
  }

  /** Silence is only ever accepted after an xrun: the block that met it was not
      read, or not accepted, whole. */
  ghost predicate TurnOk(t: Turn, ch: Channels) {
    && ch.Ok()
    && t.kept <= ASIO_BUFFER_SIZE && t.silent <= ALSA_BUFFER_SIZE
    && |t.input| % 2 == 0 && |t.input| <= 2 * ASIO_BUFFER_SIZE && (!ch.Capture() ==> t.input == [])
    && (match t.call
        case None =>
          t.kept == 0 && t.end != Good && (t.silent > 0 ==> |t.input| < 2 * ASIO_BUFFER_SIZE)
        case Some(c) => CallOk(c, ch) && InTime(c, ch) && (ch.Capture() ==> Delivers(t.input, c, ch)))
    && (t.end == Good ==> t.kept == ASIO_BUFFER_SIZE && t.silent == 0)
    && (t.end == Recovered ==> t.silent == ALSA_BUFFER_SIZE)
    && (t.silent > 0 ==> t.kept < ASIO_BUFFER_SIZE)
  }

  ghost predicate PrimeOk(p: Prime, ch: Channels) {
    && CallOk(p.call, ch) && p.call.index == 0 && p.call.position == 0
    && (ch.inputs[0] ==> p.call.inputs[Slot(0, 0)] == Zeros(ASIO_BUFFER_SIZE))
    && (ch.inputs[1] ==> p.call.inputs[Slot(1, 0)] == Zeros(ASIO_BUFFER_SIZE))
    && p.first <= ASIO_BUFFER_SIZE && p.second <= ASIO_BUFFER_SIZE
    && (p.second > 0 ==> p.first == ASIO_BUFFER_SIZE)
  }

  ghost function Calls(turns: seq<Turn>): (cs: seq<Call>)
    ensures |cs| <= |turns|
  {
    if turns == [] then []
    else
      var n := |turns| - 1;
      Calls(turns[..n]) + if turns[n].call.Some? then [turns[n].call.value] else []
  }

  /** The callbacks alternate between the two halves, starting with half 0. */
  ghost predicate Alternates(calls: seq<Call>) {
    forall k :: 0 <= k < |calls| ==> calls[k].index == k % 2
  }

  /** A callback of the loop sees the position advanced by its own block already. */
  predicate SeesPosition(t: Turn, before: nat) {
    t.call.Some? ==> t.call.value.position == before + ASIO_BUFFER_SIZE
  }

  ghost predicate PositionsSeen(turns: seq<Turn>) {
    turns != [] ==>
      var n := |turns| - 1;
      PositionsSeen(turns[..n]) && SeesPosition(turns[n], Position(turns[..n]))
  }

  ghost predicate RunOk(r: Run, ch: Channels) {
    && PrimeOk(r.prime, ch)
    && (forall i :: 0 <= i < |r.turns| ==> TurnOk(r.turns[i], ch))
    && (forall i :: 0 <= i < |r.turns| - 1 ==> r.turns[i].end != Ended)
    && Alternates([r.prime.call] + Calls(r.turns))
    && PositionsSeen(r.turns)
    && (r.turns != [] ==> r.prime.first == r.prime.second == ASIO_BUFFER_SIZE)
  }

  /** A run that stands at the head of the loop. */
  ghost predicate AtLoopHead(r: Run, ch: Channels) {
    && RunOk(r, ch)
    && r.prime.first == r.prime.second == ASIO_BUFFER_SIZE
    && forall i :: 0 <= i < |r.turns| ==> r.turns[i].end != Ended
  }

  // ---------- The stream ----------

  ghost function PrimeSent(p: Prime, ch: Channels): (s: seq<Sample>)
    requires PrimeOk(p, ch)
    ensures |s| == 2 * (p.first + p.second)
  {
    Outgoing(p.call.outputs, ch.outputs, 1, ASIO_BUFFER_SIZE)[..2 * p.first] +
    Outgoing(p.call.outputs, ch.outputs, 0, ASIO_BUFFER_SIZE)[..2 * p.second]
  }

  ghost function TurnSent(t: Turn, ch: Channels): (s: seq<Sample>)
    requires TurnOk(t, ch)
    ensures |s| == 2 * (t.kept + t.silent)
  {
    (match t.call
     case None => []
     case Some(c) => Outgoing(c.outputs, ch.outputs, c.index, ASIO_BUFFER_SIZE)[..2 * t.kept])
    + Zeros(2 * t.silent)
  }

  lemma SentInTurn(t: Turn, ch: Channels, before: seq<Sample>)
    requires TurnOk(t, ch) && t.call.Some?
    ensures before + TurnSent(t, ch) ==
              before + Outgoing(t.call.value.outputs, ch.outputs, t.call.value.index, ASIO_BUFFER_SIZE)[..2 * t.kept]
              + Zeros(2 * t.silent)
  {
  }

  /** The frames accepted in the loop: for each callback the half it was handed,
      as the host left it, cut to a prefix where a write met an xrun, and a ring
      full of silence for every recovery. */
  ghost function Sent(turns: seq<Turn>, ch: Channels): seq<Sample>
    requires forall i :: 0 <= i < |turns| ==> TurnOk(turns[i], ch)
  {
    if turns == [] then []
    else
      var n := |turns| - 1;
      Sent(turns[..n], ch) + TurnSent(turns[n], ch)
  }

  ghost function Accepted(r: Run, ch: Channels): seq<Sample>
    requires RunOk(r, ch)
  {
    PrimeSent(r.prime, ch) + Sent(r.turns, ch)
  }

  /** Everything read from the card, whole blocks and torn ones, in order. */
  ghost function Taken(turns: seq<Turn>): seq<Sample> {
    if turns == [] then []
    else
      var n := |turns| - 1;
      Taken(turns[..n]) + turns[n].input
  }

  // ---------- Counting frames ----------

  function TurnPosition(t: Turn): nat {
    (if t.call.Some? then ASIO_BUFFER_SIZE else 0) + (if t.silent == ALSA_BUFFER_SIZE then ALSA_BUFFER_SIZE else 0)
  }

  /** The value of sample_position. */
  function Position(turns: seq<Turn>): nat {
    if turns == [] then 0
    else
      var n := |turns| - 1;
      Position(turns[..n]) + TurnPosition(turns[n])
  }

  /** Frames of blocks that were produced but not accepted. */
  function Refused(turns: seq<Turn>): int {
    if turns == [] then 0
    else
      var n := |turns| - 1;
      Refused(turns[..n]) + if turns[n].call.Some? then ASIO_BUFFER_SIZE - turns[n].kept else 0
  }

  lemma {:induction false} SentLength(turns: seq<Turn>, ch: Channels)
    requires forall i :: 0 <= i < |turns| ==> TurnOk(turns[i], ch) && turns[i].end != Ended
    ensures |Sent(turns, ch)| + 2 * Refused(turns) == 2 * Position(turns)
  {
    if turns != [] {
      var n := |turns| - 1;
      SentLength(turns[..n], ch);
      assert TurnOk(turns[n], ch);
    }
  }

  /** At every loop head the frames accepted and the frames refused add up to
      the two priming blocks and the sample position. */
  lemma Conservation(r: Run, ch: Channels)
    requires AtLoopHead(r, ch)
    ensures |Accepted(r, ch)| + 2 * Refused(r.turns) == 2 * (ALSA_BUFFER_SIZE + Position(r.turns))
  {
    SentLength(r.turns, ch);
  }

  // ---------- Consequences for a whole run ----------

  lemma {:induction false} CallsOfPrefix(turns: seq<Turn>, i: nat)
    requires i <= |turns|
    ensures Calls(turns[..i]) <= Calls(turns)
  {
    if i < |turns| {
      var n := |turns| - 1;
      CallsOfPrefix(turns[..n], i);
      assert turns[..n][..i] == turns[..i];
    } else {
      assert turns[..i] == turns;
    }
  }

  /** The half sent after a loop callback is the one the callback was handed,
      and its index is the parity of the callback, whatever xruns came before. */
  lemma IndexOfTurn(r: Run, ch: Channels, i: nat)
    requires RunOk(r, ch) && i < |r.turns| && r.turns[i].call.Some?
    ensures r.turns[i].call.value.index == (1 + |Calls(r.turns[..i])|) % 2
  {
    CallsOfPrefix(r.turns, i + 1);
    var k := |Calls(r.turns[..i])|;
    assert r.turns[..i + 1][..i] == r.turns[..i];
    assert Calls(r.turns[..i + 1])[k] == r.turns[i].call.value;
    assert ([r.prime.call] + Calls(r.turns))[1 + k] == r.turns[i].call.value;
  }

  /** The position the host can read in a callback of the loop: all the blocks and
      recoveries before it, and its own block. */
  lemma {:induction false} PositionOfTurn(turns: seq<Turn>, i: nat)
    requires PositionsSeen(turns) && i < |turns| && turns[i].call.Some?
    ensures turns[i].call.value.position == Position(turns[..i]) + ASIO_BUFFER_SIZE
  {
    var n := |turns| - 1;
    if i < n {
      PositionOfTurn(turns[..n], i);
      assert turns[..n][..i] == turns[..i];
    }
  }

  /** In a run the host sees position 0 first, then the block's worth of frames for
      every callback so far and the ring's worth for every recovery, and never the same
      position twice. */
  lemma PositionsOfRun(r: Run, ch: Channels, i: nat, j: nat)
    requires RunOk(r, ch) && i < j < |r.turns| && r.turns[i].call.Some? && r.turns[j].call.Some?
    ensures r.prime.call.position == 0 < r.turns[i].call.value.position
    ensures r.turns[i].call.value.position + ASIO_BUFFER_SIZE <= r.turns[j].call.value.position
  {
    PositionOfTurn(r.turns, i);
    PositionOfTurn(r.turns, j);
    PositionOfPrefix(r.turns[..j], i + 1);
    assert r.turns[..j][..i + 1] == r.turns[..i + 1];
    assert r.turns[..i + 1][..i] == r.turns[..i];
  }

  lemma {:induction false} PositionOfPrefix(turns: seq<Turn>, i: nat)
    requires i <= |turns|
    ensures Position(turns[..i]) <= Position(turns)
  {
    if i < |turns| {
      var n := |turns| - 1;
      PositionOfPrefix(turns[..n], i);
      assert turns[..n][..i] == turns[..i];
    } else {
      assert turns[..i] == turns;
    }
  }

  lemma {:induction false} TakenOfPrefix(turns: seq<Turn>, i: nat)
    requires i <= |turns|
    ensures Taken(turns[..i]) <= Taken(turns)
  {
    if i < |turns| {
      var n := |turns| - 1;
      TakenOfPrefix(turns[..n], i);
      assert turns[..n][..i] == turns[..i];
    } else {
      assert turns[..i] == turns;
    }
  }

  lemma DeliveredBlock(r: Run, ch: Channels, i: nat)
    requires RunOk(r, ch) && ch.Capture() && i < |r.turns| && r.turns[i].call.Some?
    ensures var from := |Taken(r.turns[..i])|;
            && from + 2 * ASIO_BUFFER_SIZE == |Taken(r.turns[..i + 1])| <= |Taken(r.turns)|
            && CallOk(r.turns[i].call.value, ch)
            && Delivers(Taken(r.turns)[from..from + 2 * ASIO_BUFFER_SIZE], r.turns[i].call.value, ch)
  {
    TakenAt(r.turns, i);
    assert TurnOk(r.turns[i], ch);
  }

  /** Each delivered block is a stretch of consecutive frames of the device's own
      stream, later callbacks get later frames, and the frames of a torn read lie
      between the blocks that are delivered. */
  lemma DeliveredInDeviceOrder(r: Run, ch: Channels, i: nat, j: nat)
    requires RunOk(r, ch) && ch.Capture() && i < j < |r.turns|
    requires r.turns[i].call.Some? && r.turns[j].call.Some?
    ensures CallOk(r.turns[i].call.value, ch) && CallOk(r.turns[j].call.value, ch)
    ensures var from, next := |Taken(r.turns[..i])|, |Taken(r.turns[..j])|;
            && from + 2 * ASIO_BUFFER_SIZE <= next
            && next + 2 * ASIO_BUFFER_SIZE <= |Taken(r.turns)|
            && Delivers(Taken(r.turns)[from..from + 2 * ASIO_BUFFER_SIZE], r.turns[i].call.value, ch)
            && Delivers(Taken(r.turns)[next..next + 2 * ASIO_BUFFER_SIZE], r.turns[j].call.value, ch)
  {
    hide RunOk, Delivers, CallOk;
    DeliveredBlock(r, ch, i);
    DeliveredBlock(r, ch, j);
    TakenOfPrefix(r.turns[..j], i + 1);
    assert r.turns[..j][..i + 1] == r.turns[..i + 1];
  }

  lemma TakenAt(turns: seq<Turn>, i: nat)
    requires i < |turns|
    ensures var from := |Taken(turns[..i])|;
            && from + |turns[i].input| == |Taken(turns[..i + 1])| <= |Taken(turns)|
            && Taken(turns)[from..from + |turns[i].input|] == turns[i].input
  {
    TakenOfPrefix(turns, i + 1);
    assert turns[..i + 1][..i] == turns[..i];
    assert Taken(turns[..i + 1]) == Taken(turns[..i]) + turns[i].input;
  }

  /** A turn that did not come to a callback. */
  lemma WithoutCall(input: seq<Sample>, silent: nat, end: End, ch: Channels)
    requires ch.Ok() && |input| % 2 == 0 && |input| <= 2 * ASIO_BUFFER_SIZE && (!ch.Capture() ==> input == [])
    requires silent <= ALSA_BUFFER_SIZE && (silent > 0 ==> |input| < 2 * ASIO_BUFFER_SIZE)
    requires end != Good && (end == Recovered ==> silent == ALSA_BUFFER_SIZE)
    ensures var t := Turn(input, None, 0, silent, end);
            && TurnOk(t, ch) && TurnSent(t, ch) == Zeros(2 * silent)
            && TurnPosition(t) == if silent == ALSA_BUFFER_SIZE then ALSA_BUFFER_SIZE else 0
  {
  }

  /** Every callback of the loop comes in time. */
  lemma {:induction false} CallsInTime(turns: seq<Turn>, ch: Channels, k: nat)
    requires forall i :: 0 <= i < |turns| ==> TurnOk(turns[i], ch)
    requires k < |Calls(turns)|
    ensures ch.Ok() && InTime(Calls(turns)[k], ch)
  {
    var n := |turns| - 1;
    assert TurnOk(turns[n], ch);
    if k < |Calls(turns[..n])| {
      CallsInTime(turns[..n], ch, k);
    }
  }

  /** The block that a callback leaves behind for the card. */
  ghost function Offered(t: Turn, ch: Channels): (block: seq<Sample>)
    requires TurnOk(t, ch) && t.call.Some?
    ensures |block| == 2 * ASIO_BUFFER_SIZE
  {
    Outgoing(t.call.value.outputs, ch.outputs, t.call.value.index, ASIO_BUFFER_SIZE)
  }

  lemma {:induction false} SentOfPrefix(turns: seq<Turn>, ch: Channels, i: nat)
    requires i <= |turns| && forall k :: 0 <= k < |turns| ==> TurnOk(turns[k], ch)
    ensures Sent(turns[..i], ch) <= Sent(turns, ch)
  {
    hide TurnOk;
    if i < |turns| {
      var n := |turns| - 1;
      SentOfPrefix(turns[..n], ch, i);
      assert turns[..n][..i] == turns[..i];
    } else {
      assert turns[..i] == turns;
    }
  }

  /** What the card plays first is half 1 and then half 0 as the first callback left
      them, cut to what was accepted. */
  lemma PlayedFirst(r: Run, ch: Channels)
    requires RunOk(r, ch)
    ensures var a, c := Accepted(r, ch), r.prime.call;
            var end := 2 * (r.prime.first + r.prime.second);
            && end <= |a|
            && a[..2 * r.prime.first] == Outgoing(c.outputs, ch.outputs, 1, ASIO_BUFFER_SIZE)[..2 * r.prime.first]
            && a[2 * r.prime.first..end] == Outgoing(c.outputs, ch.outputs, 0, ASIO_BUFFER_SIZE)[..2 * r.prime.second]
  {
  }

  lemma SentAt(turns: seq<Turn>, ch: Channels, i: nat)
    requires i < |turns| && forall k :: 0 <= k < |turns| ==> TurnOk(turns[k], ch)
    ensures var from, sent := |Sent(turns[..i], ch)|, TurnSent(turns[i], ch);
            && from + |sent| == |Sent(turns[..i + 1], ch)| <= |Sent(turns, ch)|
            && Sent(turns, ch)[from..from + |sent|] == sent
  {
    hide TurnOk, TurnSent;
    SentOfPrefix(turns, ch, i + 1);
    assert turns[..i + 1][..i] == turns[..i];
    assert Sent(turns[..i + 1], ch) == Sent(turns[..i], ch) + TurnSent(turns[i], ch);
  }

  lemma TurnSentParts(t: Turn, ch: Channels)
    requires TurnOk(t, ch) && t.call.Some?
    ensures t.kept <= ASIO_BUFFER_SIZE
    ensures TurnSent(t, ch) == Offered(t, ch)[..2 * t.kept] + Zeros(2 * t.silent)
  {
  }

  lemma Parts(a: seq<Sample>, b: seq<Sample>, from: nat, one: seq<Sample>, two: seq<Sample>)
    requires from + |one + two| <= |b| && b[from..from + |one + two|] == one + two
    ensures var k := |a| + from;
            && (a + b)[k..k + |one|] == one && (a + b)[k + |one|..k + |one + two|] == two
  {
    assert one == (one + two)[..|one|] && two == (one + two)[|one|..];
  }

  /** Behind all that was sent before it, the card plays the half that callback was
      handed, as the host left it and cut to what was accepted, and then the silence of
      a recovery. */
  lemma PlayedBlock(r: Run, ch: Channels, i: nat)
    requires RunOk(r, ch) && i < |r.turns| && r.turns[i].call.Some?
    ensures var t, a := r.turns[i], Accepted(r, ch);
            var from := |PrimeSent(r.prime, ch)| + |Sent(r.turns[..i], ch)|;
            var to := from + 2 * t.kept;
            && to + 2 * t.silent == |PrimeSent(r.prime, ch)| + |Sent(r.turns[..i + 1], ch)| <= |a|
            && TurnOk(t, ch)
            && a[from..to] == Offered(t, ch)[..2 * t.kept]
            && a[to..to + 2 * t.silent] == Zeros(2 * t.silent)
  {
    hide TurnOk, TurnSent, Offered, PrimeOk, PositionsSeen, Alternates, PrimeSent, Sent;
    var t := r.turns[i];
    assert TurnOk(t, ch);
    SentAt(r.turns, ch, i);
    TurnSentParts(t, ch);
    Parts(PrimeSent(r.prime, ch), Sent(r.turns, ch), |Sent(r.turns[..i], ch)|,
          Offered(t, ch)[..2 * t.kept], Zeros(2 * t.silent));
  }

  // ---------- Building a run ----------

  lemma Begin(p: Prime, ch: Channels)
    requires PrimeOk(p, ch)
    ensures var r := Run(p, []);
            && RunOk(r, ch) && (p.first == p.second == ASIO_BUFFER_SIZE ==> AtLoopHead(r, ch))
            && Accepted(r, ch) == PrimeSent(p, ch)
            && Taken([]) == [] && Calls([]) == [] && Position([]) == 0
  {
    assert [p.call] + Calls([]) == [p.call];
  }

  lemma OneCallMore(first: Call, turns: seq<Turn>, t: Turn)
    requires Alternates([first] + Calls(turns))
    requires t.call.Some? ==> t.call.value.index == (1 + |Calls(turns)|) % 2
    ensures Alternates([first] + Calls(turns + [t]))
    ensures |Calls(turns + [t])| == |Calls(turns)| + if t.call.Some? then 1 else 0
  {
    assert (turns + [t])[..|turns|] == turns;
    assert Calls(turns + [t]) == Calls(turns) + if t.call.Some? then [t.call.value] else [];
    assert [first] + Calls(turns + [t]) ==
           ([first] + Calls(turns)) + if t.call.Some? then [t.call.value] else [];
  }

  lemma OneTurnMore(turns: seq<Turn>, t: Turn, ch: Channels)
    requires PositionsSeen(turns) && SeesPosition(t, Position(turns))
    requires TurnOk(t, ch) && forall i :: 0 <= i < |turns| ==> TurnOk(turns[i], ch)
    ensures PositionsSeen(turns + [t])
    ensures Sent(turns + [t], ch) == Sent(turns, ch) + TurnSent(t, ch)
    ensures Taken(turns + [t]) == Taken(turns) + t.input
    ensures Position(turns + [t]) == Position(turns) + TurnPosition(t)
  {
    hide TurnOk, TurnSent, TurnPosition, SeesPosition;
    assert (turns + [t])[..|turns|] == turns;
  }

  /** A turn taken at the loop head, with the half whose turn it is, extends the run. */
  lemma Extend(r: Run, t: Turn, ch: Channels)
    requires AtLoopHead(r, ch) && TurnOk(t, ch)
    requires t.call.Some? ==> t.call.value.index == (1 + |Calls(r.turns)|) % 2
    requires SeesPosition(t, Position(r.turns))
    ensures var s := Run(r.prime, r.turns + [t]);
            && RunOk(s, ch) && (t.end != Ended ==> AtLoopHead(s, ch))
            && Accepted(s, ch) == Accepted(r, ch) + TurnSent(t, ch)
            && Taken(s.turns) == Taken(r.turns) + t.input
            && Position(s.turns) == Position(r.turns) + TurnPosition(t)
            && |Calls(s.turns)| == |Calls(r.turns)| + if t.call.Some? then 1 else 0
  {
    hide Calls, Alternates, Sent, Taken, Position, PositionsSeen, TurnOk, TurnSent, PrimeOk, PrimeSent;
    OneCallMore(r.prime.call, r.turns, t);
    OneTurnMore(r.turns, t, ch);
    var turns := r.turns + [t];
    assert PrimeSent(r.prime, ch) + (Sent(r.turns, ch) + TurnSent(t, ch)) ==
           PrimeSent(r.prime, ch) + Sent(r.turns, ch) + TurnSent(t, ch);
  }
}
