/**
 windows/src/CASIO.cpp: one driver instance. The host's methods and the worker
 thread act on the same fields; the worker is a method of its own, and what the
 host does meanwhile reaches it as interference on the card and through the
 stop request. The interleavings themselves are the subject of `StopRace`.
 */
module CasioDriver {
  import opened Alsa
  import opened AlsaControl
  import opened Dbus
  import opened Samples
  import opened Session
  import StopRace
  import opened Timestamps
  import opened Unixlib
  import opened Wrappers

  datatype State = Created | Initialized | Prepared | Running

  datatype AsioError = OK | InvalidMode | InvalidParameter | HWMalfunction | SPNotAdvancing

  datatype BufferInfo = BufferInfo(isInput: bool, channelNum: int)

  /** What the registry holds when `init` looks for the two device names. */
  datatype Registry = NoKey | NoInput | NoOutput | Devices(input: string, output: string)

  const SAMPLE_RATE := 48_000

  // ---------- createBuffers: which requests are acceptable ----------

  function Asked(infos: seq<BufferInfo>, isInput: bool, channel: int): bool {
    exists i :: 0 <= i < |infos| && infos[i] == BufferInfo(isInput, channel)
  }

  predicate Acceptable(infos: seq<BufferInfo>, captureAvailable: bool) {
    && (forall i :: 0 <= i < |infos| ==> 0 <= infos[i].channelNum < 2 && (infos[i].isInput ==> captureAvailable))
    && (forall i, j :: 0 <= i < j < |infos| ==> infos[i] != infos[j])
  }

  /** The channel n is the first that cannot be added to those before it. */
  ghost predicate FirstRefused(infos: seq<BufferInfo>, n: nat, captureAvailable: bool)
    requires n < |infos|
  {
    Acceptable(infos[..n], captureAvailable) && !Acceptable(infos[..n + 1], captureAvailable)
  }

  lemma AskedNext(infos: seq<BufferInfo>, i: nat, captureAvailable: bool)
    requires i < |infos| && Acceptable(infos[..i], captureAvailable)
    ensures forall isInput, c :: Asked(infos[..i + 1], isInput, c) <==>
              Asked(infos[..i], isInput, c) || infos[i] == BufferInfo(isInput, c)
    ensures var x := infos[i];
            Acceptable(infos[..i + 1], captureAvailable) <==>
              0 <= x.channelNum < 2 && (x.isInput ==> captureAvailable) && !Asked(infos[..i], x.isInput, x.channelNum)
    ensures !Acceptable(infos[..i + 1], captureAvailable) ==> !Acceptable(infos, captureAvailable)
  {
    var was, now := infos[..i], infos[..i + 1];
    assert now == was + [infos[i]];
    assert forall k :: 0 <= k < i ==> now[k] == was[k];
    forall isInput, c
      ensures Asked(now, isInput, c) <==> Asked(was, isInput, c) || infos[i] == BufferInfo(isInput, c)
    {
      if infos[i] == BufferInfo(isInput, c) {
        assert now[i] == infos[i];
      }
      if k :| 0 <= k < |was| && was[k] == BufferInfo(isInput, c) {
        assert now[k] == was[k];
      }
    }
    assert Acceptable(infos, captureAvailable) ==> Acceptable(now, captureAvailable);
  }

  lemma NothingAsked(captureAvailable: bool)
    ensures Acceptable([], captureAvailable) && forall isInput, c :: !Asked([], isInput, c)
  {
  }

  lemma AskedInputsAreAvailable(infos: seq<BufferInfo>, captureAvailable: bool)
    requires Acceptable(infos, captureAvailable)
    ensures forall c :: Asked(infos, true, c) ==> captureAvailable
  {
  }

  // ---------- The buffers of an instance ----------

  /** Four halves in each direction and three interleaved buffers, all distinct. */
  ghost predicate Distinct(inputs: seq<array<Sample>>, outputs: seq<array<Sample>>,
                           captured: array<Sample>, interleaved: array<Sample>, silence: array<Sample>)
    requires |inputs| == |outputs| == 4
  {
    && (forall i, j :: 0 <= i < j < 4 ==> inputs[i] != inputs[j] && outputs[i] != outputs[j])
    && (forall i, j :: 0 <= i < 4 && 0 <= j < 4 ==> inputs[i] != outputs[j])
    && (forall i :: 0 <= i < 4 ==> inputs[i] !in {captured, interleaved, silence})
    && (forall i :: 0 <= i < 4 ==> outputs[i] !in {captured, interleaved, silence})
    && captured != interleaved && captured != silence && interleaved != silence
  }

  ghost predicate HalfSizes(halves: seq<array<Sample>>, active: seq<bool>)
    requires |halves| == 4 && |active| == 2
  {
    && (active[0] ==> halves[0].Length == halves[1].Length == ASIO_BUFFER_SIZE)
    && (active[1] ==> halves[2].Length == halves[3].Length == ASIO_BUFFER_SIZE)
  }

  /** The halves of the channels in use are all zero. */
  ghost predicate Blank(halves: seq<array<Sample>>, active: seq<bool>)
    requires |halves| == 4 && |active| == 2
    reads halves
  {
    && (active[0] ==> halves[0][..] == halves[1][..] == Zeros(ASIO_BUFFER_SIZE))
    && (active[1] ==> halves[2][..] == halves[3][..] == Zeros(ASIO_BUFFER_SIZE))
  }

  ghost function Contents(halves: seq<array<Sample>>): seq<seq<Sample>>
    requires |halves| == 4
    reads halves
  {
    [halves[0][..], halves[1][..], halves[2][..], halves[3][..]]
  }

  // ---------- The card while a worker uses it ----------

  /** Every stream in use is prepared and empty. */
  predicate Fresh(c: Card, capture: bool) {
    c.playback == Stream(PcmState.Prepared, 0) && (capture ==> c.capture == Stream(PcmState.Prepared, 0))
  }

  /** Prepared with exactly `frames` queued and nothing captured, unless dropped meanwhile. */
  predicate Filled(c: Card, frames: nat, capture: bool) {
    && c.playback in {Stream(PcmState.Prepared, frames), Stream(Setup, c.playback.fill)}
    && (capture ==> c.capture in {Stream(PcmState.Prepared, 0), Stream(Setup, c.capture.fill)})
  }

  /** Started, and possibly stopped again since. While linked streams run, what is
      queued and what is captured but unread make up one ring. */
  predicate Started(c: Card, capture: bool) {
    && c.playback.state != PcmState.Prepared && (capture ==> c.capture.state != PcmState.Prepared)
    && (c.linked && c.playback.state == PcmState.Running ==> c.playback.fill + c.capture.fill == ALSA_BUFFER_SIZE)
  }

  /** The frames queued at the starts in a turn: none, or one start on a full ring. */
  function StartsOf(t: Turn): seq<nat> {
    if t.end == Recovered then [ALSA_BUFFER_SIZE] else []
  }

  lemma FilledLater(c: Card, frames: nat, d: Card, written: nat, capture: bool)
    requires Sound(c) && Filled(c, frames, capture) && Later(c, d, written, 0)
    ensures Filled(d, frames + written, capture) && d.playback.state != XRun
  {
  }

  /** The card between the read of a block and the write of the next. */
  predicate Mid(c: Card, capture: bool) {
    && c.playback.state != PcmState.Prepared && (capture ==> c.capture.state != PcmState.Prepared)
    && (c.linked ==> c.playback.fill + c.capture.fill == ASIO_BUFFER_SIZE)
  }

  lemma StartedAfterBlock(c: Card, d: Card, capture: bool)
    requires Mid(c, capture) && Later(c, d, ASIO_BUFFER_SIZE, 0)
    ensures Started(d, capture)
  {
  }

  /** Where a stop finds the worker: at a check of the token, or at or before calls
      with a check behind them. */
  datatype Standing =
    | Returned | AtCheck | ForMutex
    | Callback(first: bool)   // and the write of the half, unless it is the first
    | Transfer(frames: nat) | Read(frames: nat) | Wait
    | Preparing | PreparingCapture

  class Casio {
    const unix: Unixlib

    var state: State
    var backendInitialized: bool
    var isCaptureAvailable: bool
    var captureActive: bool
    var inputActive: seq<bool>
    var outputActive: seq<bool>
    var inputs: seq<array<Sample>>   // four halves in Slot order
    var outputs: seq<array<Sample>>
    var samplePosition: nat
    var captureInterleaved: array<Sample>
    var interleaved: array<Sample>
    var silence: array<Sample>

    // The audio thread: whether it is joinable, whether its function has returned,
    // and its stop token. The token answers true from some point on; `patience`
    // bounds how many more checks of the worker may go by before it does.
    var threadJoinable: bool
    var threadReturned: bool
    var stopRequested: bool
    var patience: nat

    // The worker found no stop request at its last check, and has neither
    // prepared a stream nor waited for the mutex since.
    ghost var clear: bool

    // Every buffer the instance ever used.
    ghost var arrays: set<array<Sample>>

    // ---------- Shape of the buffers ----------

    ghost predicate Shaped()
      reads this`inputs, this`outputs, this`inputActive, this`outputActive
      reads this`captureInterleaved, this`interleaved, this`silence
    {
      && |inputActive| == |outputActive| == 2 && |inputs| == |outputs| == 4
      && Distinct(inputs, outputs, captureInterleaved, interleaved, silence)
    }

    /** Every access of the worker is in bounds. */
    ghost predicate Sized()
      reads this`inputs, this`outputs, this`inputActive, this`outputActive
      reads this`captureInterleaved, this`interleaved, this`silence
    {
      && Shaped()
      && HalfSizes(inputs, inputActive) && HalfSizes(outputs, outputActive)
      && captureInterleaved.Length == interleaved.Length == silence.Length == 2 * ASIO_BUFFER_SIZE
    }

    ghost predicate Covered()
      reads this`inputs, this`outputs, this`captureInterleaved, this`interleaved, this`silence, this`arrays
    {
      && (forall a <- inputs :: a in arrays) && (forall a <- outputs :: a in arrays)
      && {captureInterleaved, interleaved, silence} <= arrays
    }

    twostate predicate OnlyFreshAdded()
      reads this`arrays
    {
      old(arrays) <= arrays && fresh(arrays - old(arrays))
    }

    ghost predicate Silent()
      reads this`silence, silence
    {
      silence[..] == Zeros(silence.Length)
    }

    ghost function Channels(): Channels
      reads this`outputActive, this`inputActive, unix`ac, unix.ac
      requires unix.ac != null
    {
      Session.Channels(outputActive, inputActive, unix.ac.linked)
    }

    // ---------- Invariant ----------

    ghost predicate Mine()
      reads this, unix
    {
      backendInitialized <==> unix.owner == this
    }

    ghost predicate Configured()
      reads this`inputActive, this`captureActive, unix`ac, unix.ac
    {
      && unix.ac != null && |inputActive| == 2
      && captureActive == (inputActive[0] || inputActive[1])
      && unix.ac.captureEnabled == captureActive
      && (unix.ac.linked ==> captureActive)
      && unix.ac.card.buffer == ALSA_BUFFER_SIZE && unix.ac.card.availMin == ALSA_PERIOD_SIZE
      && unix.ac.card.rate == SAMPLE_RATE
      && (captureActive ==> unix.ac.card.captureParams == Params(SAMPLE_RATE, ALSA_PERIOD_SIZE, ALSA_BUFFER_SIZE))
      && NeverAutoStarts(unix.ac.card)
    }

    /** 48 kHz, periods of 32 frames and a ring of 128, in every direction in use. */
    ghost predicate CardIsSetUp()
      reads this`captureActive, unix`ac, unix.ac
    {
      && unix.ac != null
      && unix.ac.card.rate == 48_000 && unix.ac.card.availMin == 32 && unix.ac.card.buffer == 128
      && (captureActive ==> unix.ac.card.captureParams == Params(48_000, 32, 128))
    }

    ghost predicate Valid()
      reads this, unix, unix.reservations, unix.Repr(), silence
    {
      && unix.Valid() && Shaped() && Covered() && Mine()
      && (state == Created <==> !backendInitialized)
      && (state != Created ==> isCaptureAvailable == unix.ac.captureInitialized)
      && (threadJoinable <==> state.Running?)
      && (state.Prepared? || state.Running? ==> Working())
    }

    constructor (unix: Unixlib)
      requires unix.Valid()
      ensures Valid() && state == Created && this.unix == unix
      ensures fresh(arrays)
    {
      this.unix := unix;
      state, backendInitialized, isCaptureAvailable, captureActive := Created, false, false, false;
      inputActive, outputActive := [false, false], [false, false];
      ghost var used, more;
      var ins, outs;
      ins, used := FourEmpty();
      outs, more := FourEmpty();
      inputs, outputs := ins, outs;
      var a, b, c := new Sample[0], new Sample[0], new Sample[0];
      captureInterleaved, interleaved, silence := a, b, c;
      arrays := used + more + {a, b, c};
      samplePosition, threadJoinable, threadReturned := 0, false, false;
      stopRequested, patience, clear := false, 0, false;
    }

    static method FourEmpty() returns (halves: seq<array<Sample>>, ghost used: set<array<Sample>>)
      ensures |halves| == 4 && fresh(used) && forall a <- halves :: a in used
      ensures forall i, j :: 0 <= i < j < 4 ==> halves[i] != halves[j]
      ensures forall i :: 0 <= i < 4 ==> fresh(halves[i]) && halves[i].Length == 0
    {
      var a, b, c, d := new Sample[0], new Sample[0], new Sample[0], new Sample[0];
      halves, used := [a, b, c, d], {a, b, c, d};
    }

    // ---------- Interleaving ----------

    /** Frame i of the interleaved block is sample i of the two halves, left first, and
        zero for a channel that is not in use. */
    ghost predicate FrameIsMixed(index: nat, i: nat)
      requires Sized() && index < 2 && i < ASIO_BUFFER_SIZE
      reads this, interleaved, outputs
    {
      && interleaved[2 * i] == (if outputActive[0] then outputs[index][i] else 0)
      && interleaved[2 * i + 1] == (if outputActive[1] then outputs[2 + index][i] else 0)
    }

    method Interleave(index: nat)
      requires Sized() && index < 2
      modifies interleaved
      ensures interleaved[..] == Outgoing(Contents(outputs), outputActive, index, ASIO_BUFFER_SIZE)
      ensures forall i :: 0 <= i < ASIO_BUFFER_SIZE ==> FrameIsMixed(index, i)
    {
      var left, right := outputs[index], outputs[2 + index];
      ghost var l := Lane(outputActive[0], left[..], ASIO_BUFFER_SIZE);
      ghost var r := Lane(outputActive[1], right[..], ASIO_BUFFER_SIZE);

      for i := 0 to ASIO_BUFFER_SIZE
        invariant interleaved[..2 * i] == Interleaved(l[..i], r[..i])
      {
        interleaved[2 * i] := if outputActive[0] then left[i] else 0;
        interleaved[2 * i + 1] := if outputActive[1] then right[i] else 0;
        assert l[..i + 1][..i] == l[..i] && r[..i + 1][..i] == r[..i];
        assert interleaved[..2 * (i + 1)] == interleaved[..2 * i] + [l[i], r[i]];
      }
      assert l[..ASIO_BUFFER_SIZE] == l && r[..ASIO_BUFFER_SIZE] == r;
      forall i | 0 <= i < ASIO_BUFFER_SIZE
        ensures FrameIsMixed(index, i)
      {
        OutgoingAt(Contents(outputs), outputActive, index, ASIO_BUFFER_SIZE, i);
      }
    }

    method Deinterleave(index: nat)
      requires Sized() && index < 2
      modifies inputs[index], inputs[2 + index]
      ensures Contents(inputs) == Delivered(old(Contents(inputs)), inputActive, captureInterleaved[..], index)
      ensures inputActive[0] ==>
                forall i :: 0 <= i < ASIO_BUFFER_SIZE ==> inputs[index][i] == captureInterleaved[2 * i]
      ensures inputActive[1] ==>
                forall i :: 0 <= i < ASIO_BUFFER_SIZE ==> inputs[2 + index][i] == captureInterleaved[2 * i + 1]
    {
      var left, right, src := inputs[index], inputs[2 + index], captureInterleaved;

      for i := 0 to ASIO_BUFFER_SIZE
        invariant if inputActive[0] then forall k :: 0 <= k < i ==> left[k] == src[2 * k]
                  else left[..] == old(left[..])
        invariant if inputActive[1] then forall k :: 0 <= k < i ==> right[k] == src[2 * k + 1]
                  else right[..] == old(right[..])
      {
        if inputActive[0] {
          left[i] := src[2 * i];
        }
        if inputActive[1] {
          right[i] := src[2 * i + 1];
        }
      }
      assert inputActive[0] ==> left[..] == Channel(src[..], 0);
      assert inputActive[1] ==> right[..] == Channel(src[..], 1);
    }

    // ---------- What the worker shares with the host ----------

    /** All the worker needs; nothing it does can break it. */
    ghost predicate Working()
      reads this`inputs, this`outputs, this`inputActive, this`outputActive
      reads this`captureInterleaved, this`interleaved, this`silence, this`captureActive
      reads unix`ac, unix.ac, silence
    {
      unix.ac != null && unix.Ready() && Sized() && Configured() && Silent()
    }

    /** stop_requested, as the worker sees it. */
    method StopRequested() returns (now: bool)
      modifies this`stopRequested, this`patience, this`clear
      ensures now == stopRequested && (old(stopRequested) ==> now)
      ensures patience <= old(patience) && (!now ==> patience < old(patience))
      ensures clear == !now
    {
      var asked: bool := *;
      if patience == 0 || asked {
        stopRequested := true;
      }
      if patience > 0 {
        patience := patience - 1;
      }
      clear := !stopRequested;
      return stopRequested;
    }

    /** The host writes whatever it likes into a buffer it was given. */
    static method Scribble(a: array<Sample>)
      modifies a
    {
      for i := 0 to a.Length {
        a[i] := *;
      }
    }

    /** The host callback: it may leave anything behind in any of its buffers. */
    method BufferSwitch(index: nat) returns (ghost call: Call)
      requires Sized() && unix.ac != null && index < 2
      modifies inputs, outputs
      ensures CallOk(call, Channels())
      ensures call.index == index && call.position == samplePosition && call.queued == unix.ac.card.playback.fill
      ensures call.inputs == old(Contents(inputs)) && call.outputs == Contents(outputs)
    {
      ghost var found := Contents(inputs);
      for i := 0 to 4 {
        Scribble(inputs[i]);
        Scribble(outputs[i]);
      }
      call := Call(index, samplePosition, unix.ac.card.playback.fill, found, Contents(outputs));
    }

    /** Why the worker may end: it saw a stop request, or a call failed. */
    twostate predicate Excused()
      requires unix.ac != null && old(unix.ac) == unix.ac
      reads this`stopRequested, unix`ac, unix.ac
    {
      stopRequested || unix.ac.failures > old(unix.ac.failures)
    }

    /** write_backend: nothing is sent without a check since the last prepare. */
    method WriteBackend(samples: array<Sample>) returns (result: AudioResult, ghost written: nat)
      requires Working() && clear && samples.Length == 2 * ASIO_BUFFER_SIZE
      modifies unix.Backend()`card, unix.Backend()`failures, unix.Backend()`accepted
      ensures Working() && unix.ac.WriteDone(samples, ASIO_BUFFER_SIZE, result, written)
    {
      hide HalfSizes, Distinct, Silent;
      result, written := unix.WriteAlsa(samples, ASIO_BUFFER_SIZE);
    }

    /** start_backend: nothing is started without a check since the mutex was taken. */
    method StartBackend() returns (ok: bool)
      requires Working() && clear
      modifies unix.Backend()`card, unix.Backend()`failures, unix.Backend()`starts
      ensures Working() && unix.ac.StartDone(ok)
    {
      hide HalfSizes, Distinct, Silent;
      ok := unix.StartAlsa();
    }

    // ---------- The worker ----------

    /** A ring full of silence, then the start, under the mutex that also guards
        the drop in `Stop`. A stop request at any check ends the recovery. */
    method RecoverXrun() returns (ok: bool, ghost silent: nat)
      requires Working()
      modifies this`samplePosition, this`stopRequested, this`patience, this`clear
      modifies unix.Backend()`card, unix.Backend()`failures, unix.Backend()`accepted, unix.Backend()`starts
      ensures unix.ac.failures >= old(unix.ac.failures) && (ok || Excused())
      ensures Working() && patience <= old(patience)
      ensures silent <= ALSA_BUFFER_SIZE
      ensures unix.ac.accepted == old(unix.ac.accepted) + Zeros(2 * silent)
      ensures samplePosition == old(samplePosition) + if silent == ALSA_BUFFER_SIZE then ALSA_BUFFER_SIZE else 0
      ensures unix.ac.starts == old(unix.ac.starts) + if ok then [ALSA_BUFFER_SIZE] else []
      ensures ok ==> silent == ALSA_BUFFER_SIZE && Started(unix.ac.card, captureActive)
    {
      hide HalfSizes, Distinct, Silent;
      var stop := StopRequested();
      if stop {
        return false, 0;
      }

      ok := PrepareBackend(false);
      if !ok {
        return false, 0;
      }

      ok, silent := FillWithSilence();
      if !ok {
        return;
      }

      samplePosition := samplePosition + ALSA_BUFFER_SIZE;
      ok := StartUnderMutex();
    }

    /** `alone`: there is no other thread to drop the streams meanwhile. */
    method PrepareBackend(alone: bool) returns (ok: bool)
      requires Working()
      modifies this`clear, unix.Backend()`card, unix.Backend()`failures
      ensures Working() && !clear && unix.ac.Failed(!ok)
      ensures ok ==> Filled(unix.ac.card, 0, captureActive)
      ensures ok && alone ==> Fresh(unix.ac.card, captureActive)
    {
      hide HalfSizes, Distinct, Silent;
      clear := false;
      ok := unix.PrepareAlsa(alone);
    }

    /** Writes a ring full of silence into a prepared stream, block by block. */
    method FillWithSilence() returns (ok: bool, ghost silent: nat)
      requires Working() && Filled(unix.ac.card, 0, captureActive)
      modifies this`stopRequested, this`patience, this`clear
      modifies unix.Backend()`card, unix.Backend()`failures, unix.Backend()`accepted
      ensures unix.ac.failures >= old(unix.ac.failures) && (ok || Excused())
      ensures Working() && patience <= old(patience)
      ensures silent <= ALSA_BUFFER_SIZE && (ok <==> silent == ALSA_BUFFER_SIZE)
      ensures unix.ac.accepted == old(unix.ac.accepted) + Zeros(2 * silent)
      ensures ok ==> Filled(unix.ac.card, ALSA_BUFFER_SIZE, captureActive)
    {
      hide Distinct, HalfSizes, Filled, Silent;
      silent := 0;
      for i := 0 to ALSA_BUFFER_SIZE / ASIO_BUFFER_SIZE
        invariant Working() && Channels() == old(Channels()) && patience <= old(patience)
        invariant silent == i * ASIO_BUFFER_SIZE
        invariant Filled(unix.ac.card, silent, captureActive)
        invariant unix.ac.accepted == old(unix.ac.accepted) + Zeros(2 * silent)
        invariant unix.ac.failures == old(unix.ac.failures)
      {
        var stop := StopRequested();
        if stop {
          return false, silent;
        }

        ghost var written;
        ok, written := WriteSilence(silent);
        ZerosAdd(2 * silent, 2 * written);
        silent := silent + written;
        if !ok {
          return false, silent;
        }
      }
      return true, silent;
    }

    /** Queues a block of silence behind `queued` frames of a stream that has not started. */
    method WriteSilence(ghost queued: nat) returns (ok: bool, ghost written: nat)
      requires Working() && clear && Filled(unix.ac.card, queued, captureActive)
      modifies unix.Backend()`card, unix.Backend()`failures, unix.Backend()`accepted
      ensures Working() && Channels() == old(Channels())
      ensures unix.ac.Failed(!ok)
      ensures written <= ASIO_BUFFER_SIZE && (ok <==> written == ASIO_BUFFER_SIZE)
      ensures unix.ac.accepted == old(unix.ac.accepted) + Zeros(2 * written)
      ensures Filled(unix.ac.card, queued + written, captureActive)
    {
      hide Distinct, HalfSizes;
      ghost var card := unix.ac.card;
      var result;
      result, written := WriteBackend(silence);
      FilledLater(card, queued, unix.ac.card, written, captureActive);
      ZerosAdd(2 * written, silence.Length - 2 * written);
      assert silence[..2 * written] == silence[..][..2 * written];
      ok := result == Ok;
    }

    /** The re-check and the start, with the mutex held: from here to the start
        no other thread can drop the streams. */
    method StartUnderMutex() returns (ok: bool)
      requires Working() && Filled(unix.ac.card, ALSA_BUFFER_SIZE, captureActive)
      modifies this`stopRequested, this`patience, this`clear
      modifies unix.Backend()`card, unix.Backend()`failures, unix.Backend()`starts
      ensures Channels() == old(Channels()) && unix.ac.accepted == old(unix.ac.accepted)
      ensures unix.ac.failures >= old(unix.ac.failures) && (ok || Excused())
      ensures Working() && patience <= old(patience)
      ensures unix.ac.starts == old(unix.ac.starts) + if ok then [ALSA_BUFFER_SIZE] else []
      ensures ok ==> Started(unix.ac.card, captureActive)
      ensures old(stopRequested) ==> stopRequested && !ok && Interference(old(unix.ac.card), unix.ac.card)
    {
      hide HalfSizes, Distinct, Silent;
      TakeMutex();

      var stop := StopRequested();
      if stop {
        return false;
      }
      ok := StartBackend();
    }

    /** Waiting for the mutex, during which the host may drop the streams. */
    method TakeMutex()
      requires Working() && Filled(unix.ac.card, ALSA_BUFFER_SIZE, captureActive)
      modifies this`clear, unix.Backend()`card
      ensures Working() && Channels() == old(Channels()) && !clear
      ensures Interference(old(unix.ac.card), unix.ac.card)
      ensures Filled(unix.ac.card, ALSA_BUFFER_SIZE, captureActive)
    {
      hide HalfSizes, Distinct, Silent;
      clear := false;
      unix.ac.Interfere();
      InterferenceIsLater(old(unix.ac.card), unix.ac.card);
      FilledLater(old(unix.ac.card), ALSA_BUFFER_SIZE, unix.ac.card, 0, captureActive);
    }

    /** Reads a block, or waits for a period of free space when nothing is captured. */
    method NextBlock() returns (result: AudioResult, ghost input: seq<Sample>)
      requires Working() && Started(unix.ac.card, captureActive)
      modifies unix.Backend()`card, unix.Backend()`failures, unix.Backend()`handedOut, captureInterleaved
      ensures Channels() == old(Channels())
      ensures unix.ac.accepted == old(unix.ac.accepted) && unix.ac.starts == old(unix.ac.starts)
      ensures unix.ac.Failed(result == Error)
      ensures Working() && |input| % 2 == 0 && |input| <= 2 * ASIO_BUFFER_SIZE
      ensures result == Xrun ==> |input| < 2 * ASIO_BUFFER_SIZE
      ensures Channels().Ok() && Channels().Capture() == captureActive && (!captureActive ==> input == [])
      ensures unix.ac.handedOut == old(unix.ac.handedOut) + input
      ensures Later(old(unix.ac.card), unix.ac.card, 0, |input| / 2)
      ensures result == Ok && captureActive ==> input == captureInterleaved[..]
      ensures result == Ok && !captureActive ==> unix.ac.card.playback.fill <= OUTPUT_LATENCY
      ensures result == Ok && unix.ac.linked ==>
                unix.ac.card.playback.fill + unix.ac.card.capture.fill == ASIO_BUFFER_SIZE
      ensures result == Ok ==> Mid(unix.ac.card, captureActive)
    {
      if captureActive {
        ghost var got;
        result, got := unix.ReadAlsa(captureInterleaved, ASIO_BUFFER_SIZE);
        input := captureInterleaved[..2 * got];
      } else {
        result := unix.WaitAlsaPeriod();
        input := [];
      }
    }

    /** Delivers the captured block into the half `index` and hands that half to the host. */
    method Present(index: nat, ghost input: seq<Sample>) returns (ghost call: Call)
      requires Working() && index < 2
      requires captureActive ==> input == captureInterleaved[..]
      modifies inputs, outputs, this`samplePosition
      ensures unchanged(unix.ac) && Channels() == old(Channels())
      ensures Working()
      ensures CallOk(call, Channels()) && call.index == index && call.queued == unix.ac.card.playback.fill
      ensures call.position == old(samplePosition) + ASIO_BUFFER_SIZE
      ensures captureActive ==> Delivers(input, call, Channels())
      ensures call.outputs == Contents(outputs)
      ensures samplePosition == old(samplePosition) + ASIO_BUFFER_SIZE
    {
      if captureActive {
        Deinterleave(index);
      }
      samplePosition := samplePosition + ASIO_BUFFER_SIZE;
      call := BufferSwitch(index);
    }

    /** Sends the half `index` of the output buffers. */
    method Send(index: nat) returns (result: AudioResult, ghost kept: nat)
      requires Working() && clear && index < 2
      modifies unix.Backend()`card, unix.Backend()`failures, unix.Backend()`accepted, interleaved
      ensures unix.ac.starts == old(unix.ac.starts) && Channels() == old(Channels())
      ensures Contents(outputs) == old(Contents(outputs))
      ensures unix.ac.Failed(result == Error) && (result == Xrun ==> unix.ac.card.playback.state == PcmState.XRun)
      ensures Working()
      ensures kept <= ASIO_BUFFER_SIZE && (result == Ok <==> kept == ASIO_BUFFER_SIZE)
      ensures unix.ac.accepted == old(unix.ac.accepted)
                + Outgoing(old(Contents(outputs)), outputActive, index, ASIO_BUFFER_SIZE)[..2 * kept]
      ensures Later(old(unix.ac.card), unix.ac.card, kept, 0)
    {
      Interleave(index);
      result, kept := WriteBackend(interleaved);
    }

    /** One callback and the write of the half it was handed. */
    method Offer(index: nat, ghost input: seq<Sample>) returns (result: AudioResult, ghost call: Call, ghost kept: nat)
      requires Working() && clear && index < 2
      requires captureActive ==> input == captureInterleaved[..]
      modifies inputs, outputs, interleaved, this`samplePosition
      modifies unix.Backend()`card, unix.Backend()`failures, unix.Backend()`accepted
      ensures unix.ac.Failed(result == Error)
      ensures Working() && unix.ac.starts == old(unix.ac.starts) && Channels() == old(Channels())
      ensures CallOk(call, Channels()) && call.index == index && call.queued == old(unix.ac.card.playback.fill)
      ensures call.position == old(samplePosition) + ASIO_BUFFER_SIZE
      ensures captureActive ==> Delivers(input, call, Channels())
      ensures kept <= ASIO_BUFFER_SIZE && (result == Ok <==> kept == ASIO_BUFFER_SIZE)
      ensures unix.ac.accepted == old(unix.ac.accepted)
                + Outgoing(call.outputs, outputActive, index, ASIO_BUFFER_SIZE)[..2 * kept]
      ensures Later(old(unix.ac.card), unix.ac.card, kept, 0)
      ensures samplePosition == old(samplePosition) + ASIO_BUFFER_SIZE
    {
      call := Present(index, input);
      result, kept := Send(index);
    }

    /** One pass of the loop with the half `index`; `next` is the index of the pass after it. */
    method Pass(index: nat) returns (alive: bool, next: nat, ghost turn: Turn)
      requires Working() && index < 2 && Started(unix.ac.card, captureActive)
      modifies this`samplePosition, this`stopRequested, this`patience, this`clear
      modifies unix.Backend()`card, unix.Backend()`failures
      modifies unix.Backend()`accepted, unix.Backend()`handedOut, unix.Backend()`starts
      modifies inputs, outputs, captureInterleaved, interleaved
      ensures Channels() == old(Channels())
      ensures unix.ac.failures >= old(unix.ac.failures) && (alive || Excused())
      ensures Working() && patience <= old(patience) && (alive ==> patience < old(patience))
      ensures TurnOk(turn, Channels()) && (alive <==> turn.end != Ended)
      ensures alive ==> Started(unix.ac.card, captureActive)
      ensures unix.ac.accepted == old(unix.ac.accepted) + TurnSent(turn, Channels())
      ensures unix.ac.handedOut == old(unix.ac.handedOut) + turn.input
      ensures samplePosition == old(samplePosition) + TurnPosition(turn)
      ensures SeesPosition(turn, old(samplePosition))
      ensures unix.ac.starts == old(unix.ac.starts) + StartsOf(turn)
      ensures turn.call.Some? ==> turn.call.value.index == index
      ensures alive ==> next == if turn.call.Some? then 1 - index else index
    {
      hide HalfSizes, Distinct, Silent, Configured, Outgoing, Delivers, Later, Started, Mid;
      hide TurnOk, TurnSent, TurnPosition;
      var ar, input := NextBlock();
      var proceed, end;
      ghost var silent;
      proceed, end, silent := AfterRead(ar);

      if proceed {
        alive, next, turn := Exchange(index, input);
      } else {
        alive, next, turn := !end.Ended?, index, Turn(input, None, 0, silent, end);
        WithoutCall(input, silent, end, Channels());
      }
    }

    /** What the result of a read or a wait leads to: the callback, a recovery, or
        the end. A recovery here keeps the index. */
    method AfterRead(ar: AudioResult) returns (proceed: bool, end: End, ghost silent: nat)
      requires Working()
      modifies this`samplePosition, this`stopRequested, this`patience, this`clear
      modifies unix.Backend()`card, unix.Backend()`failures, unix.Backend()`accepted, unix.Backend()`starts
      ensures unix.ac.failures >= old(unix.ac.failures) && (proceed || end != Ended || ar == Error || Excused())
      ensures proceed ==> clear
      ensures Working() && Channels() == old(Channels())
      ensures patience <= old(patience) && (proceed || end != Ended ==> patience < old(patience))
      ensures silent <= ALSA_BUFFER_SIZE && unix.ac.accepted == old(unix.ac.accepted) + Zeros(2 * silent)
      ensures samplePosition == old(samplePosition) + if silent == ALSA_BUFFER_SIZE then ALSA_BUFFER_SIZE else 0
      ensures unix.ac.starts == old(unix.ac.starts) + if end == Recovered then [ALSA_BUFFER_SIZE] else []
      ensures proceed ==> ar == Ok && unchanged(unix.ac) && silent == 0 && end == Ended
      ensures silent > 0 ==> ar == Xrun
      ensures end != Ended ==>
                end == Recovered && ar == Xrun && silent == ALSA_BUFFER_SIZE && Started(unix.ac.card, captureActive)
    {
      proceed, end, silent := false, Ended, 0;

      var stop := StopRequested();
      if stop {
        return;
      }

      if ar == Xrun {
        var recovered;
        recovered, silent := RecoverXrun();
        end := if recovered then Recovered else Ended;
        return;
      }

      proceed := ar == Ok;
    }

    /** The second half of a pass: the callback, the write, and the recovery from an underrun. */
    method Exchange(index: nat, ghost input: seq<Sample>) returns (alive: bool, next: nat, ghost turn: Turn)
      requires Working() && clear && index < 2
      requires if captureActive then input == captureInterleaved[..] else input == []
      requires !captureActive ==> unix.ac.card.playback.fill <= OUTPUT_LATENCY
      requires Mid(unix.ac.card, captureActive)
      modifies this`samplePosition, this`stopRequested, this`patience, this`clear
      modifies unix.Backend()`card, unix.Backend()`failures, unix.Backend()`accepted, unix.Backend()`starts
      modifies inputs, outputs, interleaved
      ensures unix.ac.failures >= old(unix.ac.failures) && (alive || Excused())
      ensures Working() && patience <= old(patience)
      ensures TurnOk(turn, Channels()) && (alive <==> turn.end != Ended)
      ensures alive ==> Started(unix.ac.card, captureActive)
      ensures unix.ac.accepted == old(unix.ac.accepted) + TurnSent(turn, Channels())
      ensures samplePosition == old(samplePosition) + TurnPosition(turn)
      ensures SeesPosition(turn, old(samplePosition))
      ensures unix.ac.starts == old(unix.ac.starts) + StartsOf(turn)
      ensures turn.input == input && turn.call.Some? && turn.call.value.index == index
      ensures alive ==> next == 1 - index
    {
      ghost var ch, accepted, card := Channels(), unix.ac.accepted, unix.ac.card;
      var ar, end;
      ghost var call, kept, silent;
      ar, call, kept := Offer(index, input);
      if ar == Ok {
        StartedAfterBlock(card, unix.ac.card, captureActive);
      }

      next, end, silent := AfterWrite(ar, index);
      alive := !end.Ended?;
      turn := Turn(input, Some(call), kept, silent, end);
      SentInTurn(turn, ch, accepted);
    }

    /** What the result of a write leads to. The index is flipped before a recovery too. */
    method AfterWrite(ar: AudioResult, index: nat) returns (next: nat, end: End, ghost silent: nat)
      requires Working() && index < 2
      requires ar == Ok ==> Started(unix.ac.card, captureActive)
      modifies this`samplePosition, this`stopRequested, this`patience, this`clear
      modifies unix.Backend()`card, unix.Backend()`failures, unix.Backend()`accepted, unix.Backend()`starts
      ensures Channels() == old(Channels())
      ensures unix.ac.failures >= old(unix.ac.failures) && (end != Ended || ar == Error || Excused())
      ensures Working() && patience <= old(patience)
      ensures silent <= ALSA_BUFFER_SIZE && unix.ac.accepted == old(unix.ac.accepted) + Zeros(2 * silent)
      ensures samplePosition == old(samplePosition) + if silent == ALSA_BUFFER_SIZE then ALSA_BUFFER_SIZE else 0
      ensures unix.ac.starts == old(unix.ac.starts) + if end == Recovered then [ALSA_BUFFER_SIZE] else []
      ensures end == Good ==> ar == Ok && silent == 0
      ensures silent > 0 ==> ar == Xrun
      ensures end == Recovered ==> ar == Xrun && silent == ALSA_BUFFER_SIZE
      ensures end != Ended ==> Started(unix.ac.card, captureActive) && next == 1 - index
    {
      next, silent := index, 0;

      var stop := StopRequested();
      if stop {
        end := Ended;
      } else if ar == Xrun {
        next := 1 - next;
        var recovered;
        recovered, silent := RecoverXrun();
        end := if recovered then Recovered else Ended;
      } else if ar != Ok {
        end := Ended;
      } else {
        next := 1 - next;
        end := Good;
      }
    }

    /** The start of the worker: the first callback, then half 1 as the host left
        it and half 0, which fill the ring exactly, then the start. */
    method PrimeAndStart() returns (alive: bool, ghost prime: Prime)
      requires Working() && Filled(unix.ac.card, 0, captureActive)
      modifies this`samplePosition, this`stopRequested, this`patience, this`clear
      modifies unix.Backend()`card, unix.Backend()`failures, unix.Backend()`accepted, unix.Backend()`starts
      modifies inputs, outputs, interleaved
      ensures unix.ac.failures >= old(unix.ac.failures) && (alive || Excused())
      ensures Working() && Channels() == old(Channels())
      ensures PrimeOk(prime, Channels()) && samplePosition == 0
      ensures unix.ac.accepted == old(unix.ac.accepted) + PrimeSent(prime, Channels())
      ensures unix.ac.starts == old(unix.ac.starts) + if alive then [ALSA_BUFFER_SIZE] else []
      ensures alive ==> prime.first == prime.second == ASIO_BUFFER_SIZE && Started(unix.ac.card, captureActive)
    {
      hide Distinct, Outgoing, Filled;
      ghost var ch, accepted := Channels(), unix.ac.accepted;
      ghost var call, first, second;
      call := FirstSwitch();

      alive, first, second := WriteBothHalves();
      prime := Prime(call, first, second);
      assert unix.ac.accepted == accepted + PrimeSent(prime, ch);

      if alive {
        alive := StartUnderMutex();
      }
    }

    /** The first callback: it finds silence in the input half it is handed. */
    method FirstSwitch() returns (ghost call: Call)
      requires Working()
      modifies this`samplePosition, inputs, outputs
      ensures Working() && Channels() == old(Channels()) && unchanged(unix.ac)
      ensures CallOk(call, Channels()) && call.index == 0 && call.position == samplePosition == 0
      ensures inputActive[0] ==> call.inputs[0] == Zeros(ASIO_BUFFER_SIZE)
      ensures inputActive[1] ==> call.inputs[2] == Zeros(ASIO_BUFFER_SIZE)
      ensures call.outputs == Contents(outputs)
    {
      samplePosition := 0;
      SilenceInputs();
      hide Sized, Silent, Configured;
      call := BufferSwitch(0);
    }

    /** The input halves that the first callback is handed. */
    method SilenceInputs()
      requires Working()
      modifies inputs
      ensures Working()
      ensures inputActive[0] ==> inputs[0][..] == Zeros(ASIO_BUFFER_SIZE)
      ensures inputActive[1] ==> inputs[2][..] == Zeros(ASIO_BUFFER_SIZE)
    {
      if captureActive {
        Clear(inputs[0]);
        Clear(inputs[2]);
      }
    }

    method WriteBothHalves() returns (alive: bool, ghost first: nat, ghost second: nat)
      requires Working() && Filled(unix.ac.card, 0, captureActive)
      modifies this`stopRequested, this`patience, this`clear, interleaved
      modifies unix.Backend()`card, unix.Backend()`failures, unix.Backend()`accepted
      ensures unix.ac.failures >= old(unix.ac.failures) && (alive || Excused())
      ensures Working() && Channels() == old(Channels()) && unix.ac.starts == old(unix.ac.starts)
      ensures first <= ASIO_BUFFER_SIZE && second <= ASIO_BUFFER_SIZE
      ensures second > 0 ==> first == ASIO_BUFFER_SIZE
      ensures alive ==> first == second == ASIO_BUFFER_SIZE && Filled(unix.ac.card, ALSA_BUFFER_SIZE, captureActive)
      ensures unix.ac.accepted == old(unix.ac.accepted)
                + (Outgoing(old(Contents(outputs)), outputActive, 1, ASIO_BUFFER_SIZE)[..2 * first]
                   + Outgoing(old(Contents(outputs)), outputActive, 0, ASIO_BUFFER_SIZE)[..2 * second])
    {
      hide Distinct, Outgoing, Filled, NeverAutoStarts;
      ghost var ch, outs, accepted := Channels(), Contents(outputs), unix.ac.accepted;
      ghost var one := Outgoing(outs, ch.outputs, 1, ASIO_BUFFER_SIZE);
      ghost var two := Outgoing(outs, ch.outputs, 0, ASIO_BUFFER_SIZE);
      first, second := 0, 0;
      var stop := StopRequested();
      alive := !stop;
      if alive {
        alive, first := WriteHalf(1, 0);
      }
      assert unix.ac.accepted == accepted + one[..2 * first];
      if alive {
        assert Contents(outputs) == outs && Channels() == ch;
        alive, second := WriteHalf(0, ASIO_BUFFER_SIZE);
        assert unix.ac.accepted == accepted + one[..2 * first] + two[..2 * second];
      }
      assert unix.ac.accepted == accepted + (one[..2 * first] + two[..2 * second]);
    }

    /** Queues one half behind `queued` frames of a stream that has not started. */
    method WriteHalf(index: nat, ghost queued: nat) returns (alive: bool, ghost kept: nat)
      requires Working() && clear && index < 2 && Filled(unix.ac.card, queued, captureActive)
      modifies this`stopRequested, this`patience, this`clear, interleaved
      modifies unix.Backend()`card, unix.Backend()`failures, unix.Backend()`accepted
      ensures Contents(outputs) == old(Contents(outputs))
      ensures unix.ac.failures >= old(unix.ac.failures) && (alive || Excused())
      ensures alive ==> clear
      ensures Working() && Channels() == old(Channels()) && unix.ac.starts == old(unix.ac.starts)
      ensures kept <= ASIO_BUFFER_SIZE && (alive ==> kept == ASIO_BUFFER_SIZE)
      ensures Filled(unix.ac.card, queued + kept, captureActive)
      ensures unix.ac.accepted == old(unix.ac.accepted)
                + Outgoing(old(Contents(outputs)), outputActive, index, ASIO_BUFFER_SIZE)[..2 * kept]
    {
      hide Outgoing, Distinct;
      ghost var card := unix.ac.card;
      var result;
      result, kept := Send(index);
      FilledLater(card, queued, unix.ac.card, kept, captureActive);
      if result != Ok {
        return false, kept;
      }
      var stop := StopRequested();
      alive := !stop;
    }

    static method Clear(a: array<Sample>)
      modifies a
      ensures a[..] == Zeros(a.Length)
    {
      for i := 0 to a.Length
        invariant forall k :: 0 <= k < i ==> a[k] == 0
      {
        a[i] := 0;
      }
    }

    /** `run` accounts for everything that happened since the card had accepted
        `accepted`, handed out `taken` and been started as in `starts`. */
    ghost predicate Tells(run: Run, accepted: seq<Sample>, taken: seq<Sample>, starts: seq<nat>)
      requires unix.ac != null
      reads this`outputActive, this`inputActive, this`samplePosition, unix`ac, unix.ac
    {
      && RunOk(run, Channels())
      && unix.ac.accepted == accepted + Accepted(run, Channels())
      && unix.ac.handedOut == taken + Taken(run.turns)
      && samplePosition == Position(run.turns)
      && FullStarts(starts, unix.ac.starts, ALSA_BUFFER_SIZE)
    }

    /** At the loop head the next half is the one whose turn it is, and the card was started. */
    ghost predicate AtHead(run: Run, index: nat)
      requires unix.ac != null
      reads this`outputActive, this`inputActive, this`captureActive, unix`ac, unix.ac
    {
      && AtLoopHead(run, Channels())
      && Started(unix.ac.card, captureActive)
      && index == (1 + |Calls(run.turns)|) % 2
    }

    /** A pass, entered into the account of the run. */
    method AccountedPass(index: nat, ghost run: Run,
                         ghost accepted: seq<Sample>, ghost taken: seq<Sample>, ghost starts: seq<nat>)
      returns (alive: bool, next: nat, ghost longer: Run)
      requires Working() && Tells(run, accepted, taken, starts) && AtHead(run, index)
      modifies this`samplePosition, this`stopRequested, this`patience, this`clear
      modifies unix.Backend()`card, unix.Backend()`failures
      modifies unix.Backend()`accepted, unix.Backend()`handedOut, unix.Backend()`starts
      modifies inputs, outputs, captureInterleaved, interleaved
      ensures unix.ac.failures >= old(unix.ac.failures) && (alive || Excused())
      ensures Working() && Channels() == old(Channels())
      ensures patience <= old(patience) && (alive ==> patience < old(patience))
      ensures Tells(longer, accepted, taken, starts)
      ensures alive ==> AtHead(longer, next)
    {
      hide Distinct, Outgoing, Delivers, TurnOk, TurnSent, TurnPosition;
      hide RunOk, Accepted, Taken, Position, Started, AtLoopHead, HalfSizes, Silent, Configured, Calls;
      ghost var turn;
      alive, next, turn := Pass(index);
      Extend(run, turn, old(Channels()));
      longer := Run(run.prime, run.turns + [turn]);
      assert accepted + Accepted(run, Channels()) + TurnSent(turn, Channels()) ==
             accepted + Accepted(longer, Channels());
      assert taken + Taken(run.turns) + turn.input == taken + Taken(longer.turns);
    }

    /** The loop, for as long as neither a stop request nor a failure ends it. */
    method Loop(ghost start: Run, ghost accepted: seq<Sample>, ghost taken: seq<Sample>, ghost starts: seq<nat>)
      returns (ghost run: Run)
      requires Working() && Tells(start, accepted, taken, starts) && AtHead(start, 1)
      modifies this`samplePosition, this`stopRequested, this`patience, this`clear
      modifies unix.Backend()`card, unix.Backend()`failures
      modifies unix.Backend()`accepted, unix.Backend()`handedOut, unix.Backend()`starts
      modifies inputs, outputs, captureInterleaved, interleaved
      ensures unix.ac.failures >= old(unix.ac.failures) && Excused()
      ensures Working() && Channels() == old(Channels())
      ensures Tells(run, accepted, taken, starts)
    {
      hide Distinct, Outgoing, Tells, AtHead;
      run := start;
      var alive, index := true, 1;
      while alive
        invariant Working() && Channels() == old(Channels())
        invariant Tells(run, accepted, taken, starts)
        invariant unix.ac.failures >= old(unix.ac.failures) && (alive || Excused())
        invariant alive ==> AtHead(run, index)
        decreases alive, patience
      {
        var stop := StopRequested();
        if stop {
          break;
        }
        alive, index, run := AccountedPass(index, run, accepted, taken, starts);
      }
    }

    method PrimeAndLoop() returns (ghost run: Run)
      requires Working() && Filled(unix.ac.card, 0, captureActive)
      modifies this`samplePosition, this`stopRequested, this`patience, this`clear
      modifies unix.Backend()`card, unix.Backend()`failures
      modifies unix.Backend()`accepted, unix.Backend()`handedOut, unix.Backend()`starts
      modifies inputs, outputs, captureInterleaved, interleaved
      ensures Excused() && unix.ac.OnlyAdded(ALSA_BUFFER_SIZE)
      ensures Working() && Channels() == old(Channels())
      ensures Tells(run, old(unix.ac.accepted), old(unix.ac.handedOut), old(unix.ac.starts))
    {
      hide HalfSizes, Distinct, Outgoing, RunOk, AtLoopHead, Filled, Started, Accepted, Taken, Position;
      var alive;
      ghost var prime;
      alive, prime := PrimeAndStart();
      run := Run(prime, []);
      Begin(prime, Channels());
      if alive {
        run := Loop(run, old(unix.ac.accepted), old(unix.ac.handedOut), old(unix.ac.starts));
      }
      assert unix.ac.OnlyAdded(ALSA_BUFFER_SIZE);
    }

    /** The audio thread. Whatever the card, the host and the scheduler do, its
        session is a well-formed run, the card accepted exactly the stream of that
        run, the host was handed whole blocks in the card's order, and every start
        found a full ring. The thread leaves the state of the instance alone. */
    method Worker() returns (ghost run: Run)
      requires Valid() && state.Running? && Filled(unix.ac.card, 0, captureActive)
      modifies this`samplePosition, this`stopRequested, this`patience, this`clear, this`threadReturned
      modifies unix.Backend()`card, unix.Backend()`failures
      modifies unix.Backend()`accepted, unix.Backend()`handedOut, unix.Backend()`starts
      modifies inputs, outputs, captureInterleaved, interleaved
      ensures Excused() && unix.ac.OnlyAdded(ALSA_BUFFER_SIZE) && threadReturned
      ensures Valid() && Channels() == old(Channels())
      ensures Tells(run, old(unix.ac.accepted), old(unix.ac.handedOut), old(unix.ac.starts))
    {
      hide Covered, Sized, Filled, Tells, Control.OnlyAdded, Excused;
      run := PrimeAndLoop();
      threadReturned := true;
      assert unix.reservations.Valid();
    }

    // ---------- What is left of the worker when it is asked to stop ----------

    // The worker does nothing any more once its function has returned.

    /** Whatever the worker and a callback do to the buffers and the position. */
    method UseBuffers()
      requires Working()
      modifies this`samplePosition, this`patience, this`clear
      modifies inputs, outputs, captureInterleaved, interleaved
      ensures Working()
    {
      samplePosition, patience, clear := *, *, *;
      for i := 0 to 4
        invariant Working()
      {
        Scribble(inputs[i]);
        Scribble(outputs[i]);
      }
      Scribble(captureInterleaved);
      Scribble(interleaved);
    }

    /** From a stop request on, wherever the worker stands and as long as no drop
        succeeded: it may still do anything that a worker does. `at` is where the
        drop finds it. */
    method WorkOn() returns (at: Standing)
      requires Working()
      modifies this`samplePosition, this`patience, this`clear
      modifies unix.Backend()`card, unix.Backend()`failures
      modifies unix.Backend()`accepted, unix.Backend()`handedOut, unix.Backend()`starts
      modifies inputs, outputs, captureInterleaved, interleaved
      ensures Working() && unix.ac.OnlyAdded(ALSA_BUFFER_SIZE)
      ensures threadReturned ==> unchanged(unix.ac)
      ensures StandingOk(at) && (at.Returned? <==> threadReturned)
    {
      hide HalfSizes;
      if threadReturned {
        return Returned;
      }

      UseBuffers();
      unix.ac.AnyCalls(ALSA_BUFFER_SIZE);
      at := *;
      if at.Returned? || !StandingOk(at) {
        at := AtCheck;
      }
    }

    /** Only a session with capture reads, and only streams that are not linked are
        prepared one by one. */
    predicate StandingOk(at: Standing)
      requires unix.ac != null
      reads this`captureActive, unix`ac, unix.ac
    {
      && (at.Transfer? ==> at.frames <= ASIO_BUFFER_SIZE)
      && (at.Read? ==> at.frames <= ASIO_BUFFER_SIZE && captureActive)
      && (at.PreparingCapture? ==> captureActive && !unix.ac.linked)
    }

    /** What the worker can find when it stands there after a drop of every stream. */
    ghost predicate Meets(at: Standing)
      requires unix.ac != null
      reads this`captureActive, unix`ac, unix.ac
    {
      && Down(unix.ac.card, captureActive)
      && (at.Returned? || at.AtCheck? || at.PreparingCapture? || Dropped(unix.ac.card, captureActive))
    }

    /** From a drop of all streams on: the worker finishes the call it stands at, or
        makes the one it stands before, and ends at the check of the token that comes
        next. Nothing is sent, read or started on the way. */
    method WindDown(at: Standing)
      requires unix.ac != null && Working() && stopRequested && StandingOk(at) && Meets(at)
      modifies this`samplePosition, this`stopRequested, this`patience, this`clear
      modifies unix.Backend()`card, unix.Backend()`failures
      modifies unix.Backend()`accepted, unix.Backend()`handedOut, unix.Backend()`starts
      modifies inputs, outputs, captureInterleaved, interleaved
      ensures Working() && stopRequested && Down(unix.ac.card, captureActive)
      ensures unix.ac.accepted == old(unix.ac.accepted) && unix.ac.handedOut == old(unix.ac.handedOut)
      ensures unix.ac.starts == old(unix.ac.starts) && unix.ac.failures >= old(unix.ac.failures)
      ensures at.Returned? ==> unchanged(unix.ac)
    {
      hide Working;
      if at.Returned? {
        return;
      }

      if at.ForMutex? {
        LockInVain();
      } else {
        FinishCall(at);
      }

      var stop := StopRequested();
      if !stop {
        // The worker would go on from here.
        assert false;
      }
    }

    /** Waiting for the mutex to start the streams; the check comes before the start. */
    method LockInVain()
      requires unix.ac != null && Working() && stopRequested && Dropped(unix.ac.card, captureActive)
      modifies this`stopRequested, this`patience, this`clear
      modifies unix.Backend()`card, unix.Backend()`failures, unix.Backend()`starts
      ensures Working() && stopRequested && Down(unix.ac.card, captureActive)
      ensures unix.ac.starts == old(unix.ac.starts) && unix.ac.failures >= old(unix.ac.failures)
    {
      hide Working, Sound, Started;
      var _ := StartUnderMutex();
    }

    /** The calls that a worker makes between two checks of the token. */
    method FinishCall(at: Standing)
      requires Working() && StandingOk(at) && Meets(at) && !at.Returned? && !at.ForMutex?
      modifies this`samplePosition, this`patience, this`clear
      modifies unix.Backend()`card, unix.Backend()`failures
      modifies unix.Backend()`accepted, unix.Backend()`handedOut
      modifies inputs, outputs, captureInterleaved, interleaved
      ensures Working() && Down(unix.ac.card, captureActive)
      ensures unix.ac.accepted == old(unix.ac.accepted) && unix.ac.handedOut == old(unix.ac.handedOut)
      ensures unix.ac.failures >= old(unix.ac.failures)
    {
      match at
      case AtCheck =>
      case Callback(first) =>
        UseBuffers();
        if !first {
          var _, _ := unix.WriteAlsa(interleaved, ASIO_BUFFER_SIZE);
        }
      case Transfer(frames) => var _, _ := unix.WriteAlsa(interleaved, frames);
      case Read(frames) => var _, _ := unix.ReadAlsa(captureInterleaved, frames);
      case Wait => var _ := unix.WaitAlsaPeriod();
      case Preparing => PrepareAgain();
      case PreparingCapture => var _, _ := unix.ac.PrepareRest(false);
    }

    method PrepareAgain()
      requires Working() && Down(unix.ac.card, captureActive)
      modifies unix.Backend()`card, unix.Backend()`failures
      ensures Working() && Down(unix.ac.card, captureActive) && unix.ac.failures >= old(unix.ac.failures)
    {
      hide HalfSizes, Distinct, Silent;
      var ok := unix.PrepareAlsa(false);
      ghost var found, next :| unix.ac.PrepareDone(ok, found, next, false);
      PreparesKeepsDown(old(unix.ac.card), found, next, unix.ac.card, captureActive, ok);
    }

    /** What the worker does after the drop of `stop`, which found it at `at`. */
    method FinishAfterDrop(stopped: bool, at: Standing)
      requires unix.ac != null && Working() && stopRequested && StandingOk(at) && (stopped ==> Meets(at))
      requires at.Returned? <==> threadReturned
      modifies this`samplePosition, this`stopRequested, this`patience, this`clear
      modifies unix.Backend()`card, unix.Backend()`failures
      modifies unix.Backend()`accepted, unix.Backend()`handedOut, unix.Backend()`starts
      modifies inputs, outputs, captureInterleaved, interleaved
      ensures Working() && stopRequested && unix.ac.OnlyAdded(ALSA_BUFFER_SIZE)
      ensures stopped ==> Down(unix.ac.card, captureActive) && unix.ac.Now() == old(unix.ac.Now())
      ensures threadReturned ==> unchanged(unix.ac)
    {
      hide Working, Down;
      if stopped {
        WindDown(at);
      } else {
        var _ := WorkOn();
      }
    }

    // ---------- The host's calls ----------

    /** Only an instance that finds no backend in the process gets one, for the two
        devices of the registry. With a backend present, its own or another's, nothing
        changes anywhere. It fails only for lack of a device name, because a backend is
        there, or because the backend could not be brought up, as in `InitAlsa`. */
    method Init(registry: Registry, ghost live: set<Casio>)
      returns (ok: bool, ghost conn: Connection?, ghost tried: Control?)
      requires Valid() && this in live && SingleOwner(unix, live)
      modifies this`state, this`backendInitialized, this`isCaptureAvailable
      modifies unix, unix.reservations, unix.reservations.Connections()
      ensures Valid() && SingleOwner(unix, live)
      ensures !ok ==> state == old(state) && backendInitialized == old(backendInitialized) && unix.ac == old(unix.ac)
      ensures old(unix.ac) != null ==>
                && !ok && unchanged(unix) && unchanged(unix.reservations)
                && unchanged(old(unix.reservations.Connections()))
      ensures fresh(unix.Repr() - old(unix.Repr()))
      ensures !ok ==> unchanged(this)
      ensures ok ==> old(state) == Created && state == Initialized && unix.owner == this
      ensures ok ==> registry.Devices? && unix.Serves(registry.output, registry.input)
      ensures !ok && registry.Devices? && old(unix.ac) == null ==>
                || unix.reservations.unreachable > old(unix.reservations.unreachable)
                || (conn != null && fresh(conn) && conn.refused)
                || (tried != null && fresh(tried) && !tried.playbackInitialized && tried.failures > 0)
    {
      hide Shaped, Covered, Working, Unixlib.Serves;
      if !registry.Devices? {
        return false, null, null;
      }

      ok, conn, tried := unix.InitAlsa(registry.input, registry.output, this);
      if !ok {
        return;
      }

      backendInitialized := true;
      isCaptureAvailable := unix.CaptureAvailable();
      state := Initialized;
    }

    /** Takes the halves of one channel into use, all zero. */
    method AddChannel(info: BufferInfo) returns (ok: bool)
      requires Shaped() && Covered() && HalfSizes(inputs, inputActive) && HalfSizes(outputs, outputActive)
      requires Blank(inputs, inputActive) && Blank(outputs, outputActive)
      modifies this`inputs, this`outputs, this`inputActive, this`outputActive, this`arrays
      ensures Shaped() && HalfSizes(inputs, inputActive) && HalfSizes(outputs, outputActive)
      ensures Blank(inputs, inputActive) && Blank(outputs, outputActive)
      ensures Covered() && OnlyFreshAdded()
      ensures ok <==> 0 <= info.channelNum < 2 &&
                      if info.isInput then isCaptureAvailable && !old(inputActive)[info.channelNum]
                      else !old(outputActive)[info.channelNum]
      ensures inputActive == if ok && info.isInput then old(inputActive)[info.channelNum := true]
                             else old(inputActive)
      ensures outputActive == if ok && !info.isInput then old(outputActive)[info.channelNum := true]
                              else old(outputActive)
    {
      var c := info.channelNum;
      if c < 0 || c >= 2 {
        return false;
      }
      if info.isInput && !isCaptureAvailable {
        return false;
      }
      if (if info.isInput then inputActive[c] else outputActive[c]) {
        return false;
      }

      if info.isInput {
        UseInput(c);
      } else {
        UseOutput(c);
      }
      return true;
    }

    static method BlankHalf() returns (half: array<Sample>)
      ensures fresh(half) && half.Length == ASIO_BUFFER_SIZE && half[..] == Zeros(ASIO_BUFFER_SIZE)
    {
      half := new Sample[ASIO_BUFFER_SIZE](_ => 0);
    }

    /** Takes two new input halves into use. */
    method UseInput(c: nat)
      requires Shaped() && Covered() && HalfSizes(inputs, inputActive) && Blank(inputs, inputActive) && c < 2
      modifies this`inputs, this`inputActive, this`arrays
      ensures Shaped() && HalfSizes(inputs, inputActive) && Blank(inputs, inputActive)
      ensures Covered() && OnlyFreshAdded()
      ensures inputActive == old(inputActive)[c := true]
    {
      var first := BlankHalf();
      var second := BlankHalf();
      arrays := arrays + {first, second};
      inputs := inputs[2 * c := first][2 * c + 1 := second];
      inputActive := inputActive[c := true];
    }

    /** Takes two new output halves into use. */
    method UseOutput(c: nat)
      requires Shaped() && Covered() && HalfSizes(outputs, outputActive) && Blank(outputs, outputActive) && c < 2
      modifies this`outputs, this`outputActive, this`arrays
      ensures Shaped() && HalfSizes(outputs, outputActive) && Blank(outputs, outputActive)
      ensures Covered() && OnlyFreshAdded()
      ensures outputActive == old(outputActive)[c := true]
    {
      var first := BlankHalf();
      var second := BlankHalf();
      arrays := arrays + {first, second};
      outputs := outputs[2 * c := first][2 * c + 1 := second];
      outputActive := outputActive[c := true];
    }

    /** The channels in use are exactly those asked for. */
    ghost predicate InUse(infos: seq<BufferInfo>)
      reads this`inputActive, this`outputActive
    {
      && |inputActive| == |outputActive| == 2
      && forall c :: 0 <= c < 2 ==>
           inputActive[c] == Asked(infos, true, c) && outputActive[c] == Asked(infos, false, c)
    }

    /** Adds the channels one after the other until one is not acceptable; those
        added before it stay in use. */
    method AddChannels(infos: seq<BufferInfo>) returns (ok: bool)
      requires Shaped() && Covered()
      modifies this`inputs, this`outputs, this`inputActive, this`outputActive, this`arrays
      ensures Shaped() && HalfSizes(inputs, inputActive) && HalfSizes(outputs, outputActive)
      ensures Covered() && OnlyFreshAdded()
      ensures Blank(inputs, inputActive) && Blank(outputs, outputActive)
      ensures ok <==> Acceptable(infos, isCaptureAvailable)
      ensures ok ==> InUse(infos) && (inputActive[0] || inputActive[1] ==> isCaptureAvailable)
      ensures !ok ==> exists n :: 0 <= n < |infos| && FirstRefused(infos, n, isCaptureAvailable) && InUse(infos[..n])
    {
      hide Distinct, Covered, Acceptable, Asked;
      inputActive, outputActive := [false, false], [false, false];
      NothingAsked(isCaptureAvailable);
      assert infos[..0] == [];
      for i := 0 to |infos|
        invariant Shaped() && HalfSizes(inputs, inputActive) && HalfSizes(outputs, outputActive)
        invariant Acceptable(infos[..i], isCaptureAvailable) && Covered() && OnlyFreshAdded()
        invariant InUse(infos[..i]) && Blank(inputs, inputActive) && Blank(outputs, outputActive)
      {
        ok := AddChannel(infos[i]);
        AskedNext(infos, i, isCaptureAvailable);
        if !ok {
          assert FirstRefused(infos, i, isCaptureAvailable);
          return;
        }
      }
      assert infos[..|infos|] == infos;
      AskedInputsAreAvailable(infos, isCaptureAvailable);
      return true;
    }

    /** Succeeds only on a request in which every channel exists, is available and
        appears once; the channels in use are then exactly those asked for. */
    method CreateBuffers(infos: seq<BufferInfo>, bufferSize: int) returns (r: AsioError)
      requires Valid()
      modifies this, unix.Backend()`card, unix.Backend()`failures
      modifies unix.Backend()`linked, unix.Backend()`captureEnabled, unix.Backend()`refusedLinks
      ensures Valid()
      ensures r == InvalidMode <==> !(old(state) == Initialized && bufferSize == ASIO_BUFFER_SIZE
                                      && 0 < |infos| <= 4 && Acceptable(infos, isCaptureAvailable))
      ensures r in {OK, InvalidMode, HWMalfunction} && (r == HWMalfunction ==> unix.ac.Failed(true))
      ensures r == OK ==> state.Prepared? && unix.ac.Agree()
      ensures r == OK ==> InUse(infos) && Blank(inputs, inputActive) && Blank(outputs, outputActive)
      ensures r == OK ==> CardIsSetUp()
      ensures r != OK ==> state == old(state)
      ensures r == InvalidMode ==> unchanged(old(unix.Backend()))
      ensures old(state) != Initialized ==> unchanged(this)
      ensures backendInitialized == old(backendInitialized) && OnlyFreshAdded()
    {
      hide Acceptable, Working, InUse, Blank, CardIsSetUp;
      if state != Initialized {
        return InvalidMode;
      }
      if bufferSize != ASIO_BUFFER_SIZE {
        return InvalidMode;
      }
      if |infos| == 0 || |infos| > 4 {
        return InvalidMode;
      }

      r := TakeChannels(infos);
    }

    /** The buffers of the channels, then the card. */
    method TakeChannels(infos: seq<BufferInfo>) returns (r: AsioError)
      requires Valid() && state == Initialized
      modifies this, unix.Backend()`card, unix.Backend()`failures
      modifies unix.Backend()`linked, unix.Backend()`captureEnabled, unix.Backend()`refusedLinks
      ensures Valid()
      ensures r == InvalidMode <==> !Acceptable(infos, isCaptureAvailable)
      ensures isCaptureAvailable == old(isCaptureAvailable)
      ensures r in {OK, InvalidMode, HWMalfunction} && (r == HWMalfunction ==> unix.ac.Failed(true))
      ensures r == OK ==> state.Prepared? && unix.ac.Agree() && CardIsSetUp()
      ensures r == OK ==> InUse(infos) && Blank(inputs, inputActive) && Blank(outputs, outputActive)
      ensures r != OK ==> state == old(state)
      ensures r == InvalidMode ==> unchanged(old(unix.Backend()))
      ensures backendInitialized == old(backendInitialized) && OnlyFreshAdded()
    {
      hide Covered, Distinct, HalfSizes, Silent, Acceptable, Asked, Configured, Working, InUse, Blank;
      var ok := AddChannels(infos);
      if !ok {
        return InvalidMode;
      }

      r := Configure();
    }

    /** The end of createBuffers: the card is configured, the interleaved buffers are sized. */
    method Configure() returns (r: AsioError)
      requires Valid() && state == Initialized && HalfSizes(inputs, inputActive) && HalfSizes(outputs, outputActive)
      requires inputActive[0] || inputActive[1] ==> isCaptureAvailable
      modifies this`captureActive, this`captureInterleaved, this`interleaved, this`silence, this`arrays, this`state
      modifies unix.Backend()`card, unix.Backend()`failures
      modifies unix.Backend()`linked, unix.Backend()`captureEnabled, unix.Backend()`refusedLinks
      ensures Valid() && r in {OK, HWMalfunction} && unix.ac.Failed(r == HWMalfunction)
      ensures OnlyFreshAdded()
      ensures if r == OK then state.Prepared? && unix.ac.Agree() else state == Initialized
      ensures r == OK ==> CardIsSetUp()
    {
      hide Covered, HalfSizes, Distinct, Silent, Configured, Shaped;
      var ok := ConfigureBackend();
      if !ok {
        return HWMalfunction;
      }

      Equip();
      return OK;
    }

    method ConfigureBackend() returns (ok: bool)
      requires unix.Valid() && unix.ac != null && Shaped()
      requires inputActive[0] || inputActive[1] ==> unix.ac.captureInitialized
      modifies this`captureActive
      modifies unix.Backend()`card, unix.Backend()`failures
      modifies unix.Backend()`linked, unix.Backend()`captureEnabled, unix.Backend()`refusedLinks
      ensures unix.Valid() && unix.ac.Failed(!ok)
      ensures ok ==> Configured() && unix.ac.Agree()
    {
      captureActive := inputActive[0] || inputActive[1];
      ok := unix.SetAlsaBuffer(SAMPLE_RATE, ALSA_PERIOD_SIZE, ALSA_BUFFER_SIZE, captureActive);
      assert unix.reservations.Valid();
    }

    /** The last step: the instance is ready for a worker. */
    method Equip()
      requires unix.Valid() && Shaped() && Covered() && Mine() && backendInitialized && !threadJoinable
      requires isCaptureAvailable == unix.ac.captureInitialized && Configured()
      requires HalfSizes(inputs, inputActive) && HalfSizes(outputs, outputActive)
      modifies this`captureInterleaved, this`interleaved, this`silence, this`arrays, this`state
      ensures Valid() && state.Prepared? && OnlyFreshAdded()
    {
      hide Shaped, Covered, HalfSizes, Silent;
      SizeInterleaved();
      state := State.Prepared;
    }

    method SizeInterleaved()
      requires Shaped() && Covered()
      modifies this`captureInterleaved, this`interleaved, this`silence, this`arrays
      ensures Shaped() && Silent() && Covered() && OnlyFreshAdded()
      ensures captureInterleaved.Length == interleaved.Length == silence.Length == 2 * ASIO_BUFFER_SIZE
    {
      captureInterleaved := new Sample[2 * ASIO_BUFFER_SIZE];
      interleaved := new Sample[2 * ASIO_BUFFER_SIZE];
      silence := new Sample[2 * ASIO_BUFFER_SIZE](_ => 0);
      arrays := arrays + {captureInterleaved, interleaved, silence};
    }

    /** Sets the stream up anew and starts the audio thread. */
    method Start() returns (r: AsioError)
      requires Valid()
      modifies this`state, this`threadJoinable, this`threadReturned, this`stopRequested, this`patience, this`clear
      modifies unix.Backend()`card, unix.Backend()`failures
      ensures Valid()
      ensures r == InvalidMode <==> !old(state).Prepared?
      ensures r == InvalidMode ==> unchanged(this) && unchanged(old(unix.Backend()))
      ensures r in {OK, InvalidMode, HWMalfunction} && (r == HWMalfunction ==> unix.ac.Failed(true))
      ensures r == OK ==> state.Running? && threadJoinable && !threadReturned && !stopRequested
      ensures r == OK ==> Fresh(unix.ac.card, captureActive) && Filled(unix.ac.card, 0, captureActive)
      ensures r != OK ==> state == old(state) && threadJoinable == old(threadJoinable)
    {
      hide Covered, Shaped, Sized, Configured, Silent, Filled, Fresh;
      if !state.Prepared? {
        return InvalidMode;
      }

      var ok := PrepareBackend(true);
      assert unix.reservations.Valid();
      if !ok {
        return HWMalfunction;
      }

      Launch();
      return OK;
    }

    method Launch()
      requires Valid() && state.Prepared?
      modifies this`state, this`threadJoinable, this`threadReturned, this`stopRequested, this`patience
      ensures Valid() && state.Running? && threadJoinable && !threadReturned && !stopRequested
    {
      hide Shaped, Sized, Covered, Silent;
      state := State.Running;
      threadJoinable, threadReturned, stopRequested := true, false, false;
      patience := *;
    }

    /** stop_backend, which finds the worker at `at`; `now` is where it stands after. */
    method StopBackend(at: Standing) returns (ok: bool, now: Standing)
      requires Working() && StandingOk(at) && stopRequested
      modifies unix.Backend()`card, unix.Backend()`failures, unix.Backend()`drops
      ensures Working() && unix.ac.StopDone(ok, now != at) && StandingOk(now)
      ensures now == if at.Preparing? && now != at then PreparingCapture else at
      ensures unix.ac.captureEnabled == captureActive && unix.ac.playbackInitialized
      ensures ok ==> Meets(now)
    {
      hide HalfSizes, Distinct, Silent;
      var prepared;
      ok, prepared := unix.StopAlsa(at.Preparing?);
      now := if prepared then PreparingCapture else at;
    }

    /** The drop, with what the worker does before and after it. */
    method DropAmidWork() returns (stopped: bool)
      requires unix.ac != null && Working()
      modifies this`stopRequested, this`samplePosition, this`patience, this`clear
      modifies unix.Backend()`card, unix.Backend()`failures
      modifies unix.Backend()`accepted, unix.Backend()`handedOut, unix.Backend()`starts, unix.Backend()`drops
      modifies inputs, outputs, captureInterleaved, interleaved
      ensures Working() && unix.ac.WoundUp(stopped, threadReturned, ALSA_BUFFER_SIZE)
    {
      hide Working, Sound, SameSettings, FullStarts, Stops, StandingOk, Meets;
      stopRequested := true;
      var at := WorkOn();
      ghost var starts := unix.ac.starts;
      stopped, at := StopBackend(at);
      FinishAfterDrop(stopped, at);
      FullStartsTransitive(old(unix.ac.starts), starts, unix.ac.starts, ALSA_BUFFER_SIZE);
    }

    /** The request, the drop and the join, with what the worker does in between. */
    method EndThread() returns (stopped: bool)
      requires Working() && unix.Valid()
      modifies this`threadJoinable, this`threadReturned, this`stopRequested
      modifies this`samplePosition, this`patience, this`clear
      modifies unix.Backend()`card, unix.Backend()`failures
      modifies unix.Backend()`accepted, unix.Backend()`handedOut, unix.Backend()`starts, unix.Backend()`drops
      modifies inputs, outputs, captureInterleaved, interleaved
      ensures Working() && unix.Valid() && !threadJoinable
      ensures unix.ac.WoundUp(stopped, old(threadReturned), ALSA_BUFFER_SIZE)
    {
      hide Shaped, Sized, Silent, Configured, FullStarts, Down;
      stopped := DropAmidWork();
      threadJoinable, threadReturned := false, true;
      assert unix.reservations.Valid();
    }

    /** Asks the thread to stop, drops the streams and waits for the thread. It is
        always gone afterwards, even when the streams could not be dropped. What it
        does between the request and its end is part of this call: up to the drop
        anything, after a drop of all streams nothing but prepare them again. */
    method Stop() returns (r: AsioError)
      requires Valid()
      modifies this`state, this`threadJoinable, this`threadReturned, this`stopRequested
      modifies this`samplePosition, this`patience, this`clear
      modifies unix.Backend()`card, unix.Backend()`failures
      modifies unix.Backend()`accepted, unix.Backend()`handedOut, unix.Backend()`starts, unix.Backend()`drops
      modifies inputs, outputs, captureInterleaved, interleaved
      ensures Valid() && !threadJoinable
      ensures state == if old(state).Running? then State.Prepared else old(state)
      ensures !old(state).Running? ==> r == OK && unchanged(this) && unchanged(old(unix.Backend()))
      ensures old(state).Running? ==>
                r in {OK, HWMalfunction} && unix.ac.WoundUp(r == OK, old(threadReturned), ALSA_BUFFER_SIZE)
    {
      hide Covered, Shaped, Sized, Silent, Configured, Control.WoundUp;
      if !state.Running? {
        return OK;
      }

      var stopped := EndThread();
      state := State.Prepared;
      return if stopped then OK else HWMalfunction;
    }

    /** The thread is gone before the first buffer is cleared. */
    method DisposeBuffers() returns (r: AsioError)
      requires Valid()
      modifies this, unix.Backend()`card, unix.Backend()`failures
      modifies unix.Backend()`accepted, unix.Backend()`handedOut, unix.Backend()`starts, unix.Backend()`drops
      modifies inputs, outputs, captureInterleaved, interleaved
      ensures Valid() && !threadJoinable
      ensures if old(state) in {State.Created, State.Initialized}
              then r == InvalidMode && unchanged(this) && unchanged(old(unix.Backend()))
              else r == OK && state == Initialized
      ensures backendInitialized == old(backendInitialized) && OnlyFreshAdded()
      ensures r == OK ==> forall i :: 0 <= i < 4 ==> inputs[i].Length == outputs[i].Length == 0
      ensures r == OK ==> inputActive == outputActive == [false, false]
    {
      hide Covered, HalfSizes, Distinct, Silent, Configured, Control.OnlyAdded, Down;
      if state.Running? {
        var _ := Stop();
      }

      if !state.Prepared? {
        return InvalidMode;
      }

      assert !threadJoinable;
      ClearHalves();
      state := Initialized;
      return OK;
    }

    method ClearHalves()
      requires Shaped() && Covered()
      modifies this`inputs, this`outputs, this`inputActive, this`outputActive, this`arrays
      ensures Shaped() && inputActive == outputActive == [false, false]
      ensures Covered() && OnlyFreshAdded()
      ensures forall i :: 0 <= i < 4 ==> inputs[i].Length == outputs[i].Length == 0
    {
      ghost var used, more;
      inputs, used := FourEmpty();
      outputs, more := FourEmpty();
      inputActive, outputActive := [false, false], [false, false];
      arrays := arrays + used + more;
    }

    /** What is reported for output bounds what is queued at every callback of the
        loop in every run without capture, and some callback finds just as much. */
    method GetLatencies() returns (input: nat, output: nat)
      ensures input == ASIO_BUFFER_SIZE
      ensures forall r: Run, ch: Channels, k: nat ::
                RunOk(r, ch) && !ch.Capture() && k < |Calls(r.turns)| ==> Calls(r.turns)[k].queued <= output
      ensures exists s :: StopRace.Reachable(s) && s.worker == StopRace.Switch && !s.capture
                          && s.card.playback.fill == output
    {
      forall r: Run, ch: Channels, k: nat | RunOk(r, ch) && !ch.Capture() && k < |Calls(r.turns)|
        ensures Calls(r.turns)[k].queued <= OUTPUT_LATENCY
      {
        CallsInTime(r.turns, ch, k);
      }
      StopRace.LatencyIsReached();
      return INPUT_LATENCY, OUTPUT_LATENCY;
    }

    /** The position and its time stamp, modulo 2^64, while a stream runs. */
    method GetSamplePosition(start: nat) returns (r: AsioError, pos: nat, stamp: nat)
      ensures r == if state.Running? then OK else SPNotAdvancing
      ensures r == OK ==> pos == samplePosition
      ensures r == OK ==> stamp == (start + Nanoseconds(pos, 48_000)) % TWO_64
    {
      pos, stamp := 0, 0;
      if !state.Running? {
        return SPNotAdvancing, pos, stamp;
      }
      pos := samplePosition;
      stamp := Timestamp(start, pos, SAMPLE_RATE);
      ExactModulo(start, pos, SAMPLE_RATE);
      return OK, pos, stamp;
    }

    /** The destructor. The instance that owns the backend takes it down, with its
        reservations; any other leaves both alone. */
    method Destroy(ghost live: set<Casio>)
      requires Valid() && this in live && SingleOwner(unix, live)
      modifies this`state, this`threadJoinable, this`threadReturned, this`stopRequested
      modifies this`samplePosition, this`patience, this`clear, inputs, outputs, captureInterleaved, interleaved
      modifies unix, unix.Backend(), unix.reservations, unix.reservations.Connections()
      ensures unix.Valid() && SingleOwner(unix, live - {this}) && !threadJoinable
      ensures if old(backendInitialized) then unix.ac == null && unix.reservations.Idle()
              else unchanged(unix) && unchanged(unix.reservations) && unchanged(old(unix.Backend()))
                   && unchanged(old(unix.reservations.Connections()))
    {
      hide HalfSizes, Distinct, Silent;
      if state.Running? {
        var _ := Stop();
      } else {
        // The defensive branch of the destructor is never needed.
        assert !threadJoinable;
      }

      if backendInitialized {
        var _ := unix.UninitAlsa();
      } else {
        assert forall c <- live :: c.backendInitialized ==> c in live - {this};
      }
    }

    // ---------- What one instance does to the others ----------

    twostate predicate BackendUntouched()
      reads unix, unix.reservations, unix.Repr()
    {
      && unchanged(unix) && unchanged(unix.reservations)
      && unchanged(old(unix.reservations.Connections())) && unchanged(old(unix.Backend()))
    }

    /** An instance without the backend is not touched by what the others do to it,
        and the owner is not if they leave the backend alone. */
    twostate lemma StaysValid()
      requires old(Valid()) && unchanged(this)
      requires unix.Valid() && (old(unix.owner) != this ==> unix.owner != this)
      requires old(unix.owner) == this ==> BackendUntouched() && silence[..] == old(silence[..])
      ensures Valid()
    {
    }

    /** And so they are after this instance is destroyed. */
    twostate lemma OthersOutlive(live: set<Casio>)
      requires this in live && old(AllValid(unix, live))
      requires unix.Valid() && SingleOwner(unix, live - {this})
      requires unchanged(live - {this})
      requires forall d <- live :: d != this ==> d.silence[..] == old(d.silence[..])
      requires unix.owner in {old(unix.owner), null}
      requires old(unix.owner) !in {null, this} ==> BackendUntouched()
      ensures AllValid(unix, live - {this})
    {
      forall d | d in live && d != this
        ensures d.Valid()
      {
        d.StaysValid();
      }
    }

    /** After a call on this instance all the others are as they should be. */
    twostate lemma OthersStayValid(live: set<Casio>)
      requires this in live && old(AllValid(unix, live))
      requires Valid() && OnlyFreshAdded()
      requires unchanged(live - {this})
      requires forall d <- live :: d != this ==> d.silence[..] == old(d.silence[..])
      requires unix.owner in {old(unix.owner), this}
      requires old(unix.owner) !in {null, this} ==> BackendUntouched()
      ensures AllValid(unix, live)
    {
      forall d | d in live && d != this
        ensures d.Valid()
      {
        d.StaysValid();
      }
    }
  }

  // ---------- Any number of instances in one process ----------

  ghost predicate SingleOwner(u: Unixlib, live: set<Casio>)
    reads u, live
  {
    && (forall c <- live :: c.unix == u && c.Mine())
    && (u.owner != null ==> exists c <- live :: c.backendInitialized)
  }

  /** Different instances share no buffer. */
  ghost predicate Apart(live: set<Casio>)
    reads live
  {
    forall c <- live, d <- live :: c != d ==> c.arrays !! d.arrays
  }

  ghost predicate AllValid(u: Unixlib, live: set<Casio>)
    reads *
  {
    u.Valid() && SingleOwner(u, live) && Apart(live) && forall c <- live :: c.Valid()
  }

  method InitAny(u: Unixlib, c: Casio, ghost live: set<Casio>)
    requires c in live && AllValid(u, live)
    modifies c, c.arrays, u, u.Repr()
    ensures AllValid(u, live) && unchanged(live - {c})
    ensures c.OnlyFreshAdded() && fresh(u.Repr() - old(u.Repr()))
  {
    hide Casio.Valid;
    var registry: Registry := *;
    var _, _, _ := c.Init(registry, live);
    c.OthersStayValid(live);
  }

  method CreateAny(u: Unixlib, c: Casio, ghost live: set<Casio>)
    requires c in live && AllValid(u, live)
    modifies c, c.arrays, u, u.Repr()
    ensures AllValid(u, live) && unchanged(live - {c})
    ensures c.OnlyFreshAdded() && fresh(u.Repr() - old(u.Repr()))
  {
    hide Casio.Shaped, Casio.Working, Acceptable, Asked;
    var infos: seq<BufferInfo>, size: int := *, *;
    var _ := c.CreateBuffers(infos, size);
    c.OthersStayValid(live);
  }

  method DisposeAny(u: Unixlib, c: Casio, ghost live: set<Casio>)
    requires c in live && AllValid(u, live)
    modifies c, c.arrays, u, u.Repr()
    ensures AllValid(u, live) && unchanged(live - {c})
    ensures c.OnlyFreshAdded() && fresh(u.Repr() - old(u.Repr()))
  {
    hide Casio.Shaped, Casio.Working;
    var _ := c.DisposeBuffers();
    c.OthersStayValid(live);
  }

  method StartAny(u: Unixlib, c: Casio, ghost live: set<Casio>) returns (r: AsioError)
    requires c in live && AllValid(u, live)
    modifies c, c.arrays, u, u.Repr()
    ensures AllValid(u, live) && unchanged(live - {c})
    ensures c.OnlyFreshAdded() && fresh(u.Repr() - old(u.Repr()))
    ensures r == OK ==> c.state.Running? && u.ac != null && Filled(u.ac.card, 0, c.captureActive)
  {
    hide Casio.Shaped, Casio.Working, Filled;
    r := c.Start();
    c.OthersStayValid(live);
  }

  /** The whole session of the worker, before the next call of the host. */
  method WorkAny(u: Unixlib, c: Casio, ghost live: set<Casio>)
    requires c in live && AllValid(u, live)
    requires c.state.Running? && u.ac != null && Filled(u.ac.card, 0, c.captureActive)
    modifies c, c.arrays, u, u.Repr()
    ensures AllValid(u, live) && unchanged(live - {c})
    ensures c.OnlyFreshAdded() && fresh(u.Repr() - old(u.Repr()))
  {
    hide Casio.Shaped, Casio.Working, Control.OnlyAdded, Casio.Tells, Filled, Casio.Excused, FullStarts;
    ghost var _ := c.Worker();
    c.OthersStayValid(live);
  }

  method StopAny(u: Unixlib, c: Casio, ghost live: set<Casio>)
    requires c in live && AllValid(u, live)
    modifies c, c.arrays, u, u.Repr()
    ensures AllValid(u, live) && unchanged(live - {c})
    ensures c.OnlyFreshAdded() && fresh(u.Repr() - old(u.Repr()))
  {
    hide Casio.Shaped, Casio.Working, Control.WoundUp;
    var _ := c.Stop();
    c.OthersStayValid(live);
  }

  /** Any call of the host on one of the instances, with any arguments. After a
      start the session of the worker may be over before the next call, or be cut
      short by a stop. */
  method AnyCall(u: Unixlib, c: Casio, ghost live: set<Casio>)
    requires c in live && AllValid(u, live)
    modifies c, c.arrays, u, u.Repr()
    ensures AllValid(u, live) && unchanged(live - {c})
    ensures c.OnlyFreshAdded() && fresh(u.Repr() - old(u.Repr()))
  {
    hide AllValid;
    if
    case true => InitAny(u, c, live);
    case true => CreateAny(u, c, live);
    case true => DisposeAny(u, c, live);
    case true =>
      var r := StartAny(u, c, live);
      var ends: bool := *;
      if r == OK && ends {
        WorkAny(u, c, live);
      }
    case true => StopAny(u, c, live);
  }

  method CreateOne(u: Unixlib, ghost live: set<Casio>) returns (c: Casio)
    requires AllValid(u, live)
    ensures fresh(c) && fresh(c.arrays) && AllValid(u, live + {c})
  {
    hide Casio.Shaped, Casio.Covered, Casio.Working;
    c := new Casio(u);
  }

  method DestroyOne(u: Unixlib, c: Casio, ghost live: set<Casio>)
    requires c in live && AllValid(u, live)
    modifies c, c.arrays, u, u.Repr()
    ensures AllValid(u, live - {c}) && unchanged(live - {c}) && fresh(u.Repr() - old(u.Repr()))
  {
    hide Casio.Shaped, Casio.Working;
    c.Destroy(live);
    c.OthersOutlive(live);
  }

  /** Everything that the instances and their backend use. */
  ghost predicate Within(u: Unixlib, live: set<Casio>, footprint: set<object>)
    reads u, u.reservations, live
  {
    u in footprint && u.Repr() <= footprint && live <= footprint && forall c <- live :: c.arrays <= footprint
  }

  method CreateOrDestroy(u: Unixlib, live: set<Casio>, ghost footprint: set<object>)
    returns (next: set<Casio>, ghost wider: set<object>)
    requires AllValid(u, live) && Within(u, live, footprint)
    modifies footprint
    ensures AllValid(u, next) && Within(u, next, wider) && fresh(wider - footprint)
  {
    hide AllValid;
    if
    case true =>
      var c := CreateOne(u, live);
      next, wider := live + {c}, footprint + {c} + c.arrays;
    case live != {} =>
      var c :| c in live;
      DestroyOne(u, c, live);
      next, wider := live - {c}, footprint + u.Repr();
  }

  method CallOne(u: Unixlib, live: set<Casio>, ghost footprint: set<object>) returns (ghost wider: set<object>)
    requires AllValid(u, live) && Within(u, live, footprint) && live != {}
    modifies footprint
    ensures AllValid(u, live) && Within(u, live, wider) && fresh(wider - footprint)
  {
    hide AllValid;
    var c :| c in live;
    AnyCall(u, c, live);
    wider := footprint + c.arrays + u.Repr();
  }

  /** The life of a process: any number of driver instances, created and destroyed
      at any time, and any sequence of calls on them. */
  method Process(cards: map<string, nat>, calls: nat) returns (u: Unixlib, live: set<Casio>)
    ensures AllValid(u, live)
  {
    u := new Unixlib(cards);
    live := {};
    ghost var footprint: set<object> := u.Repr();
    assert AllValid(u, live) && Within(u, live, footprint);
    hide AllValid, Within;
    for i := 0 to calls
      invariant AllValid(u, live) && Within(u, live, footprint) && fresh(footprint)
    {
      var call: bool := *;
      if call && live != {} {
        footprint := CallOne(u, live, footprint);
      } else {
        live, footprint := CreateOrDestroy(u, live, footprint);
      }
    }
  }

  /** At any moment in the life of a process the backend exists exactly while one
      live instance has it, never two, only that one can be streaming, and cards are
      reserved only then. */
  method BackendHasOneOwner(cards: map<string, nat>, calls: nat) returns (u: Unixlib, live: set<Casio>)
    ensures u.Valid() && (forall c <- live :: c.unix == u && c.Valid())
    ensures u.ac != null <==> exists c <- live :: c.backendInitialized
    ensures forall c <- live, d <- live :: c.backendInitialized && d.backendInitialized ==> c == d
    ensures forall c <- live :: c.threadJoinable ==> c.backendInitialized
    ensures !u.reservations.Idle() ==> exists c <- live :: c.backendInitialized
  {
    hide Casio.Shaped, Casio.Covered, Casio.Working;
    u, live := Process(cards, calls);
  }
}
