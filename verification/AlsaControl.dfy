/**
 linux/src/alsa_control.cpp: the blocking transfers over short reads and
 writes, and the duplex control of two PCM streams that may or may not be
 linked. The methods whose name is that of an ALSA call stand for the foreign
 call: they pick any outcome that the contract in `Alsa` allows.
 */
module AlsaControl {
  import opened Alsa
  import opened Samples

  datatype AudioResult = Ok | Xrun | Error

  /** A PCM device that was opened, and for which direction. */
  datatype Device = PlaybackOf(name: string) | CaptureOf(name: string)

  /** How many samples had been accepted and how many starts had succeeded at some moment. */
  datatype Mark = Mark(accepted: nat, starts: nat)

  /** Starts were only added, each with `full` frames queued. */
  ghost predicate FullStarts(before: seq<nat>, after: seq<nat>, full: nat) {
    before <= after && forall i :: |before| <= i < |after| ==> after[i] == full
  }

  lemma FullStartsTransitive(a: seq<nat>, b: seq<nat>, c: seq<nat>, full: nat)
    requires FullStarts(a, b, full) && FullStarts(b, c, full)
    ensures FullStarts(a, c, full)
  {
  }

  // ---------- Start and prepare as relations on the card ----------

  /** A whole start from `c` to `d`. Streams that are not linked are started one
      after the other, capture first, and capture runs while playback does not. */
  ghost predicate Starts(c: Card, d: Card, capture: bool, ok: bool) {
    if c.linked || !capture then StartPlayback(c, d, ok)
    else
      || (!ok && StartCapture(c, d, false))
      || exists first, next :: StartCapture(c, first, true) && Elapsed(first, next) && StartPlayback(next, d, ok)
  }

  predicate Startable(c: Card, capture: bool) {
    c.playback.state == Prepared && (capture ==> c.capture.state == Prepared)
  }

  /** Which starts can succeed, and when a success is sure to leave the streams in
      agreement: only when one call starts all of them. */
  lemma StartAgreement(c: Card, capture: bool)
    requires Sound(c)
    ensures (exists d :: Starts(c, d, capture, true)) <==> Startable(c, capture)
    ensures (forall d :: Starts(c, d, capture, true) ==> Agreeing(d, capture)) <==>
            c.linked || !capture || !Startable(c, capture)
  {
    if Startable(c, capture) {
      if c.linked || !capture {
        assert Starts(c, WithPlayback(c, c.playback.(state := Running)), capture, true);
      } else {
        var first := c.(capture := c.capture.(state := Running));
        var overrun := c.(capture := c.capture.(state := XRun));
        var d := overrun.(playback := c.playback.(state := Running));
        assert StartCapture(c, first, true) && Elapsed(first, overrun) && StartPlayback(overrun, d, true);
        assert Starts(c, d, capture, true) && !Agreeing(d, capture);
      }
    }
  }

  /** A whole prepare to `d`. `found` is the card as the first call met it and
      `next` as the second did, which prepares a capture stream that is not linked. */
  predicate Prepares(found: Card, next: Card, d: Card, capture: bool, ok: bool) {
    || (!ok && d == found)
    || (&& found.playback.state != Running
        && var first := WithPlayback(found, Stream(Prepared, 0));
           if found.linked || !capture then ok && d == first
           else Interference(first, next) && !next.linked && PrepareCapture(next, d, ok))
  }

  /** A successful prepare is sure to leave the streams in agreement exactly when
      one call prepares them all, or when no other thread drops one in between. */
  lemma PrepareAgreement(c: Card, capture: bool)
    requires Sound(c)
    ensures (forall found, next, d :: Interference(c, found) && Prepares(found, next, d, capture, true) ==>
               Agreeing(d, capture)) <==> c.linked || !capture
    ensures forall found, next, d ::
              && Elapsed(c, found) && Elapsed(WithPlayback(found, Stream(Prepared, 0)), next)
              && Prepares(found, next, d, capture, true)
              ==> Agreeing(d, capture)
  {
    if capture && !c.linked {
      var found := c.(playback := EMPTY, capture := EMPTY);
      var d := found.(capture := Stream(Prepared, 0));
      assert Interference(c, found) && Prepares(found, found, d, capture, true) && !Agreeing(d, capture);
    }
  }

  /** A prepare that is not disturbed succeeds exactly when no stream it prepares runs. */
  lemma PrepareNeedsStoppedStreams(c: Card, capture: bool)
    requires Sound(c)
    ensures (exists d :: Prepares(c, WithPlayback(c, Stream(Prepared, 0)), d, capture, true)) <==>
            NothingRuns(c, capture)
  {
    var first := WithPlayback(c, Stream(Prepared, 0));
    if NothingRuns(c, capture) {
      var d := if c.linked || !capture then first else first.(capture := Stream(Prepared, 0));
      assert Prepares(c, first, d, capture, true);
    }
  }

  /** Between the drops of two streams time passes, and a worker that stands before
      a prepare of playback may make it. */
  predicate AmidDrops(c: Card, d: Card, preparing: bool) {
    || Elapsed(c, d)
    || (&& preparing && SameSettings(c, d) && d.patience == c.patience && !c.linked
        && d.playback == Stream(Prepared, 0) && CaptureElapsed(c.capture, d.capture))
  }

  /** A whole stop from `c` to `d`. Capture is dropped even when playback was not. */
  ghost predicate Stops(c: Card, d: Card, capture: bool, preparing: bool, ok: bool) {
    if c.linked || !capture then DropPlayback(c, d, ok)
    else exists first, next, one, two ::
           && DropPlayback(c, first, one) && AmidDrops(first, next, preparing)
           && !next.linked && DropCapture(next, d, two) && ok == (one && two)
  }

  lemma StopSucceeds(c: Card, capture: bool, preparing: bool)
    requires Sound(c)
    ensures exists d :: Stops(c, d, capture, preparing, true) && Dropped(d, capture)
  {
    var first := WithPlayback(c, EMPTY);
    if c.linked || !capture {
      assert Stops(c, first, capture, preparing, true);
    } else {
      var d := first.(capture := EMPTY);
      assert DropPlayback(c, first, true) && AmidDrops(first, first, preparing) && DropCapture(first, d, true);
      assert Stops(c, d, capture, preparing, true);
    }
  }

  /** A stop can always succeed, and a success always brings the card to rest. It is
      sure to leave the streams in agreement exactly when one call drops them all, or
      when no worker stands before a prepare. */
  lemma StopAgreement(c: Card, capture: bool, preparing: bool)
    requires Sound(c) && (c.linked ==> capture)
    ensures exists d :: Stops(c, d, capture, preparing, true)
    ensures forall d :: Stops(c, d, capture, preparing, true) ==> Down(d, capture)
    ensures (forall d :: Stops(c, d, capture, preparing, true) ==> Agreeing(d, capture)) <==>
            c.linked || !capture || !preparing
  {
    StopSucceeds(c, capture, preparing);
    if !c.linked && capture && preparing {
      var first := WithPlayback(c, EMPTY);
      var next := first.(playback := Stream(Prepared, 0));
      var d := next.(capture := EMPTY);
      assert DropPlayback(c, first, true) && AmidDrops(first, next, preparing) && DropCapture(next, d, true);
      assert Stops(c, d, capture, preparing, true) && !Agreeing(d, capture);
    }
  }

  /** Preparing streams that were dropped, successfully or not, starts and queues nothing. */
  lemma PreparesKeepsDown(c: Card, found: Card, next: Card, d: Card, capture: bool, ok: bool)
    requires Sound(c) && Down(c, capture) && Interference(c, found) && Prepares(found, next, d, capture, ok)
    requires c.linked ==> capture
    ensures Down(d, capture)
  {
  }

  class Control {
    var playbackInitialized: bool
    var captureInitialized: bool
    var linked: bool
    var captureEnabled: bool

    // The card behind the two handles.
    var card: Card

    // Histories: every sample the card accepted, every sample it handed out, the
    // number of frames queued at each successful start of playback, what had been
    // accepted and started at each successful drop of playback, and how many calls
    // failed other than by an interruption or an xrun.
    ghost var accepted: seq<Sample>
    ghost var handedOut: seq<Sample>
    ghost var starts: seq<nat>
    ghost var drops: seq<Mark>
    ghost var failures: nat

    // The devices opened, and how often linking the streams was refused.
    ghost var devices: seq<Device>
    ghost var refusedLinks: nat

    ghost predicate Valid()
      reads this
    {
      && Sound(card)
      && linked == card.linked
      && (linked || captureEnabled ==> captureInitialized)
    }

    /** An error is reported exactly when some call failed. */
    twostate predicate Failed(error: bool)
      reads this
    {
      if error then failures > old(failures) else failures == old(failures)
    }

    /** The histories were only added to, and every start found `full` frames queued. */
    twostate predicate OnlyAdded(full: nat)
      reads this
    {
      && old(accepted) <= accepted && old(handedOut) <= handedOut && failures >= old(failures)
      && FullStarts(old(starts), starts, full)
    }

    /** Both streams are in the same state, or capture is not in use. */
    ghost predicate Agree()
      reads this
    {
      Agreeing(card, captureEnabled)
    }

    /** Opened for these two devices: capture unless it is "(None)" or could not be opened. */
    ghost predicate Uses(playback: string, capture: string)
      reads this
    {
      && playbackInitialized
      && devices == [PlaybackOf(playback)] + (if captureInitialized then [CaptureOf(capture)] else [])
      && (captureInitialized ==> capture != "(None)")
      && (!captureInitialized ==> capture == "(None)" || failures > 0)
    }

    ghost function Now(): Mark
      reads this
    {
      Mark(|accepted|, |starts|)
    }

    // ---------- What the operations promise ----------

    /** What was sent is a prefix of `samples`, all of it exactly when the result is Ok. */
    twostate predicate WriteDone(samples: array<Sample>, frames: nat, result: AudioResult, written: nat)
      requires 2 * frames <= samples.Length
      reads this, samples
    {
      && Failed(result == Error)
      && Valid() && SameSettings(old(card), card)
      && written <= frames && (result == Ok <==> written == frames)
      && accepted == old(accepted) + samples[..2 * written]
      && (result == Ok && frames > 0 ==> card.playback.state in {Prepared, Running})
      && (result == Xrun ==> card.playback.state == XRun)
      && (NeverAutoStarts(old(card)) ==> Later(old(card), card, written, 0))
      && (Dropped(old(card), captureEnabled) ==> written == 0 && Dropped(card, captureEnabled))
    }

    /** What was read fills `samples` from the start; nothing past it is touched. */
    twostate predicate ReadDone(samples: array<Sample>, frames: nat, result: AudioResult, got: nat)
      requires 2 * frames <= samples.Length
      reads this, samples
    {
      && Failed(result == Error)
      && Valid() && SameSettings(old(card), card)
      && got <= frames && (result == Ok <==> got == frames)
      && samples[2 * got..] == old(samples[2 * got..])
      && handedOut == old(handedOut) + samples[..2 * got]
      && (result == Ok && frames > 0 ==> card.capture.state == Running)
      && (result == Xrun ==> card.capture.state == XRun)
      && (old(card).capture.state != Prepared ==> Later(old(card), card, 0, got))
      && (old(card).capture == EMPTY ==> got == 0 && (frames > 0 ==> result == Error) && card.capture == EMPTY)
      && (old(card).playback == EMPTY ==> card.playback == EMPTY)
    }

    twostate predicate WaitDone(result: AudioResult)
      reads this
    {
      && Failed(result == Error)
      && Valid() && Later(old(card), card, 0, 0)
      && (result == Ok ==> card.playback.fill + card.availMin <= card.buffer)
      && (result == Ok ==> card.playback.state != XRun)
      && (result == Xrun ==> card.playback.state == XRun)
      && (Dropped(old(card), captureEnabled) ==> Dropped(card, captureEnabled))
    }

    /** `found` is the card as the first call met it, `next` as the second did. No
        stream that runs when its turn comes can be prepared, and only a drop by
        another thread, between the two calls, can separate the streams. */
    twostate predicate PrepareDone(ok: bool, found: Card, next: Card, alone: bool)
      reads this
    {
      && Failed(!ok)
      && Valid() && SameSettings(old(card), card)
      && Interference(old(card), found) && Prepares(found, next, card, captureEnabled, ok)
      && (ok ==>
            && found.playback.state != Running
            && (captureEnabled && !linked ==> next.capture.state != Running)
            && card.playback in {Stream(Prepared, 0), EMPTY}
            && (captureEnabled ==> card.capture == Stream(Prepared, 0))
            && (linked || !captureEnabled || card.playback != EMPTY ==>
                  card.playback == Stream(Prepared, 0) && Agree())
            && (alone ==> card.playback == Stream(Prepared, 0) && Agree()))
    }

    /** Unlinked, capture runs alone for a moment: the streams agree unless it
        overran. A start that fails leaves playback as it was. */
    twostate predicate StartDone(ok: bool)
      reads this
    {
      && Failed(!ok)
      && Valid() && SameSettings(old(card), card)
      && Starts(old(card), card, captureEnabled, ok)
      && starts == (if ok then old(starts) + [old(card).playback.fill] else old(starts))
      && (!ok && old(card).playback.state != Running ==> card.playback == old(card).playback)
      && (ok ==>
            && old(card).playback.state == Prepared
            && card.playback == old(card).playback.(state := Running)
            && (linked ==> card.capture == old(card).capture.(state := Running))
            && (captureEnabled ==> card.capture.state in {Running, XRun} && (Agree() <==> card.capture.state != XRun)))
    }

    /** A successful stop leaves every stream in use in Setup, whatever their states
        were, and the drop is on record; but playback may have been `prepared` before
        a capture stream that is not linked was dropped. Every stream in use that was
        not dropped is a call that failed. */
    twostate predicate StopDone(ok: bool, prepared: bool)
      reads this
    {
      && Failed(!ok)
      && Valid() && SameSettings(old(card), card)
      && (playbackInitialized ==> Stops(old(card), card, captureEnabled, prepared, ok))
      && (prepared ==> !linked && captureEnabled)
      && (ok && playbackInitialized ==>
            && card.playback == (if prepared then Stream(Prepared, 0) else EMPTY)
            && (linked || captureEnabled ==> card.capture == EMPTY) && (Agree() <==> !prepared)
            && drops == old(drops) + [Now()])
      && (!ok ==> drops == old(drops) || drops == old(drops) + [Now()])
      && (!playbackInitialized ==> ok && card == old(card) && drops == old(drops))
      && (playbackInitialized && captureEnabled && !linked && card.capture != EMPTY && drops == old(drops) ==>
            failures >= old(failures) + 2)
    }

    /** A stop among the last calls of a worker, which makes none if it was `done`
        before: whatever went on up to a successful drop, nothing was sent or started
        after it, and the streams are at rest. */
    twostate predicate WoundUp(ok: bool, done: bool, full: nat)
      reads this
    {
      && OnlyAdded(full) && (!ok ==> Failed(true))
      && (ok ==> Down(card, captureEnabled) && drops == old(drops) + [Now()])
      && (done ==>
            && accepted == old(accepted) && handedOut == old(handedOut) && starts == old(starts) && Failed(!ok)
            && (ok ==> card.playback == EMPTY && (captureEnabled ==> card.capture == EMPTY)))
    }

    /** After a success no write can start playback by itself, and only streams in use are linked. */
    twostate predicate BufferSet(sampleRate: int, periodSize: int, bufferSize: int, enableCapture: bool, ok: bool)
      reads this
    {
      && (playbackInitialized && sampleRate > 0 && periodSize > 0 && bufferSize > 0 ==> Failed(!ok))
      && Valid()
      && (!playbackInitialized || sampleRate <= 0 || periodSize <= 0 || bufferSize <= 0 ==>
            !ok && card == old(card) && linked == old(linked) && captureEnabled == old(captureEnabled))
      && (ok ==>
            && captureEnabled == (enableCapture && captureInitialized)
            && (linked ==> captureEnabled)
            && card.buffer == bufferSize && card.availMin == periodSize && NeverAutoStarts(card)
            && card.rate == sampleRate
            && (captureEnabled ==> card.captureParams == Params(sampleRate, periodSize, bufferSize))
            && (captureEnabled && !linked ==> refusedLinks > old(refusedLinks))
            && card.playback == Stream(Prepared, 0)
            && Agree())
      && (old(linked) && !linked ==> captureEnabled == (enableCapture && captureInitialized))
    }

    /** Opens playback, and capture unless it is "(None)". A device that cannot
        be opened leaves its flag false; capture is not tried without playback. */
    constructor (playback: string, capture: string)
      ensures Valid() && !linked && !captureEnabled
      ensures captureInitialized ==> capture != "(None)" && playbackInitialized
      ensures devices == (if playbackInitialized then [PlaybackOf(playback)] else [])
                        + (if captureInitialized then [CaptureOf(capture)] else [])
      ensures failures == if playbackInitialized && (capture == "(None)" || captureInitialized) then 0 else 1
      ensures accepted == [] && handedOut == [] && starts == [] && drops == []
      ensures card.playback == EMPTY && card.capture == EMPTY
    {
      var buffer: nat, patience: nat := *, *;
      playbackInitialized, captureInitialized := false, false;
      linked, captureEnabled := false, false;
      card := Card(EMPTY, EMPTY, false, buffer, 1, 1, patience, 0, Params(0, 0, 0));
      accepted, handedOut, starts, drops, failures := [], [], [], [], 0;
      devices, refusedLinks := [], 0;
      new;

      playbackInitialized := SndPcmOpen(PlaybackOf(playback));
      if !playbackInitialized {
        return;
      }

      if capture != "(None)" {
        captureInitialized := SndPcmOpen(CaptureOf(capture));
      }
    }

    /** snd_pcm_open, with all its retries. */
    method SndPcmOpen(device: Device) returns (ok: bool)
      modifies this`devices, this`failures
      ensures Failed(!ok)
      ensures devices == if ok then old(devices) + [device] else old(devices)
      ensures failures <= old(failures) + 1
    {
      ok := *;
      if ok {
        devices := devices + [device];
      } else {
        failures := failures + 1;
      }
    }

    // ---------- The card on its own ----------

    method Elapse()
      requires Valid()
      modifies this`card
      ensures Valid() && Elapsed(old(card), card)
    {
      var c: Card := *;
      if Elapsed(card, c) {
        card := c;
      }
    }

    method Interfere()
      requires Valid()
      modifies this`card
      ensures Valid() && Interference(old(card), card)
    {
      var c: Card := *;
      if Interference(card, c) {
        card := c;
      }
    }

    method SndPcmWritei(samples: array<Sample>, offset: nat, frames: nat) returns (r: int)
      requires Valid() && 0 < frames && 2 * (offset + frames) <= samples.Length
      modifies this`card, this`failures, this`accepted
      ensures Failed(r <= 0 && r != -EINTR && r != -EPIPE)
      ensures Valid() && Writei(old(card), frames, card, r)
      ensures accepted == old(accepted) + if r > 0 then samples[2 * offset..2 * (offset + r)] else []
    {
      var c: Card := *;
      r := *;
      if Writei(card, frames, c, r) {
        if r > 0 {
          accepted := accepted + samples[2 * offset..2 * (offset + r)];
        }
        card := c;
      } else {
        r := if card.playback.state == XRun then -EPIPE else -1;
      }
      failures := if r <= 0 && r != -EINTR && r != -EPIPE then failures + 1 else failures;
    }

    method SndPcmReadi(samples: array<Sample>, offset: nat, frames: nat) returns (r: int)
      requires Valid() && 0 < frames && 2 * (offset + frames) <= samples.Length
      modifies this`card, this`failures, this`handedOut, samples
      ensures Failed(r <= 0 && r != -EINTR && r != -EPIPE)
      ensures Valid() && Readi(old(card), frames, card, r)
      ensures var n := 2 * (offset + if r > 0 then r else 0);
              && samples[..2 * offset] == old(samples[..2 * offset])
              && samples[n..] == old(samples[n..])
              && handedOut == old(handedOut) + samples[2 * offset..n]
    {
      var c: Card := *;
      r := *;
      if Readi(card, frames, c, r) {
        card := c;
      } else {
        r := if card.capture.state == XRun then -EPIPE else -1;
        if card.capture.state == Prepared {
          card := card.(capture := card.capture.(state := Running),
                        playback := if card.linked then card.playback.(state := Running) else card.playback);
        }
      }
      failures := if r <= 0 && r != -EINTR && r != -EPIPE then failures + 1 else failures;
      if r > 0 {
        Arrive(samples, 2 * offset, 2 * (offset + r));
        handedOut := handedOut + samples[2 * offset..2 * (offset + r)];
      }
    }

    /** Captured samples, whatever they are, land in samples[from..to]. */
    static method Arrive(samples: array<Sample>, from: nat, to: nat)
      requires from <= to <= samples.Length
      modifies samples
      ensures samples[..from] == old(samples[..from]) && samples[to..] == old(samples[to..])
    {
      for i := from to to
        invariant samples[..from] == old(samples[..from]) && samples[to..] == old(samples[to..])
      {
        samples[i] := *;
      }
    }

    method SndPcmWait() returns (r: int)
      requires Valid()
      modifies this`card, this`failures
      ensures Failed(r <= 0 && r != -EINTR && r != -EPIPE)
      ensures Valid() && Wait(old(card), card, r)
    {
      var c: Card := *;
      r := *;
      if Wait(card, c, r) {
        card := c;
      } else {
        r := if card.playback.state == XRun then -EPIPE else -1;
      }
      failures := if r <= 0 && r != -EINTR && r != -EPIPE then failures + 1 else failures;
    }

    method SndPcmPrepare() returns (ok: bool)
      requires Valid()
      modifies this`card, this`failures
      ensures Failed(!ok)
      ensures Valid() && PreparePlayback(old(card), card, ok)
    {
      ok := *;
      ok := ok && card.playback.state != Running;
      if ok {
        card := WithPlayback(card, Stream(Prepared, 0));
      }
      failures := if ok then failures else failures + 1;
    }

    method SndPcmPrepareCapture() returns (ok: bool)
      requires Valid() && !linked
      modifies this`card, this`failures
      ensures Failed(!ok)
      ensures Valid() && PrepareCapture(old(card), card, ok)
    {
      ok := *;
      ok := ok && card.capture.state != Running;
      if ok {
        card := card.(capture := Stream(Prepared, 0));
      }
      failures := if ok then failures else failures + 1;
    }

    method SndPcmStart() returns (ok: bool)
      requires Valid()
      modifies this`card, this`failures, this`starts
      ensures Failed(!ok)
      ensures Valid() && StartPlayback(old(card), card, ok)
      ensures starts == if ok then old(starts) + [old(card).playback.fill] else old(starts)
    {
      ok := *;
      ok := ok && card.playback.state == Prepared;
      if ok {
        starts := starts + [card.playback.fill];
        card := WithPlayback(card, card.playback.(state := Running));
      }
      failures := if ok then failures else failures + 1;
    }

    method SndPcmStartCapture() returns (ok: bool)
      requires Valid() && !linked
      modifies this`card, this`failures
      ensures Failed(!ok)
      ensures Valid() && StartCapture(old(card), card, ok)
    {
      ok := *;
      ok := ok && card.capture.state == Prepared;
      if ok {
        card := card.(capture := card.capture.(state := Running));
      }
      failures := if ok then failures else failures + 1;
    }

    method SndPcmDrop() returns (ok: bool)
      requires Valid()
      modifies this`card, this`failures, this`drops
      ensures Failed(!ok)
      ensures Valid() && DropPlayback(old(card), card, ok)
      ensures drops == if ok then old(drops) + [Now()] else old(drops)
    {
      ok := *;
      if ok {
        drops := drops + [Now()];
        card := WithPlayback(card, EMPTY);
      }
      failures := if ok then failures else failures + 1;
    }

    method SndPcmDropCapture() returns (ok: bool)
      requires Valid() && !linked
      modifies this`card, this`failures
      ensures Failed(!ok)
      ensures Valid() && DropCapture(old(card), card, ok)
    {
      ok := *;
      if ok {
        card := card.(capture := EMPTY);
      }
      failures := if ok then failures else failures + 1;
    }

    method SndPcmParams(rate: int, period: nat, buffer: nat) returns (ok: bool)
      requires Valid() && !linked
      modifies this`card, this`failures
      ensures Failed(!ok)
      ensures Valid() && ConfigurePlayback(old(card), rate, period, buffer, card, ok)
    {
      var c: Card := *;
      ok := *;
      if Sound(c) && ConfigurePlayback(card, rate, period, buffer, c, ok) {
        card := c;
      } else {
        ok := false;
      }
      failures := if ok then failures else failures + 1;
    }

    method SndPcmCaptureParams(params: Params) returns (ok: bool)
      requires Valid() && !linked
      modifies this`card, this`failures
      ensures Failed(!ok)
      ensures Valid() && ConfigureCapture(old(card), params, card, ok)
    {
      var c: Card := *;
      ok := *;
      if ConfigureCapture(card, params, c, ok) {
        card := c;
      } else {
        ok := false;
      }
      failures := if ok then failures else failures + 1;
    }

    method SndPcmLink() returns (ok: bool)
      requires Valid() && !linked
      modifies this`card, this`refusedLinks
      ensures Sound(card) && Link(old(card), card, ok)
      ensures refusedLinks == old(refusedLinks) + if ok then 0 else 1
    {
      ok := *;
      ok := ok && card.playback.state == card.capture.state;
      if ok {
        card := card.(linked := true);
      }
      refusedLinks := if ok then refusedLinks else refusedLinks + 1;
    }

    method SndPcmUnlink() returns (ok: bool)
      requires Valid() && linked
      modifies this`card, this`failures
      ensures Failed(!ok)
      ensures Sound(card) && Unlink(old(card), card, ok)
    {
      ok := *;
      if ok {
        card := card.(linked := false);
      }
      failures := if ok then failures else failures + 1;
    }

    // ---------- Transfers ----------

    /** One pass of the write loop, which began on the card `start` and `sent` frames. */
    method WriteSome(samples: array<Sample>, sent: nat, frames: nat, ghost start: Card) returns (r: int)
      requires Valid() && sent < frames && 2 * frames <= samples.Length && Sound(start)
      requires NeverAutoStarts(start) ==> Later(start, card, sent, 0)
      modifies this`card, this`failures, this`accepted
      ensures Failed(r <= 0 && r != -EINTR && r != -EPIPE)
      ensures Valid() && SameSettings(old(card), card)
      ensures r > 0 ==> sent + r <= frames
      ensures r > 0 || r == -EINTR ==> card.playback.state in {Prepared, Running}
      ensures r == -EPIPE ==> card.playback.state == XRun
      ensures card.patience <= old(card.patience) && (r == -EINTR ==> card.patience < old(card.patience))
      ensures var now := sent + if r > 0 then r else 0;
              && accepted == old(accepted) + samples[2 * sent..2 * now]
              && (NeverAutoStarts(start) ==> Later(start, card, now, 0))
      ensures Dropped(old(card), captureEnabled) ==> r <= 0 && r != -EINTR && Dropped(card, captureEnabled)
    {
      hide Later;
      Interfere();
      ghost var at := card;
      r := SndPcmWritei(samples, sent, frames - sent);
      if NeverAutoStarts(start) {
        WriteiExtends(start, old(card), at, card, sent, frames - sent, r);
      }
    }

    method Write(samples: array<Sample>, frames: nat) returns (result: AudioResult, ghost written: nat)
      requires Valid() && 2 * frames <= samples.Length
      modifies this`card, this`failures, this`accepted
      ensures WriteDone(samples, frames, result, written)
    {
      NothingIsLater(card);
      hide Later;
      var sent := 0;
      while sent < frames
        invariant Valid() && SameSettings(old(card), card) && sent <= frames && failures == old(failures)
        invariant accepted == old(accepted) + samples[..2 * sent]
        invariant 0 < sent ==> card.playback.state in {Prepared, Running}
        invariant NeverAutoStarts(old(card)) ==> Later(old(card), card, sent, 0)
        invariant Dropped(old(card), captureEnabled) ==> sent == 0 && Dropped(card, captureEnabled)
        decreases frames - sent, card.patience
      {
        var r := WriteSome(samples, sent, frames, old(card));

        if r > 0 {
          assert samples[..2 * sent] + samples[2 * sent..2 * (sent + r)] == samples[..2 * (sent + r)];
          sent := sent + r;
          continue;
        }

        if r == -EINTR {
          continue;
        }

        if r == -EPIPE {
          return Xrun, sent;
        }

        return Error, sent;
      }
      return Ok, sent;
    }

    /** One pass of the read loop, which began on the card `start` and has `have` frames. */
    method ReadSome(samples: array<Sample>, have: nat, frames: nat, ghost start: Card) returns (r: int)
      requires Valid() && have < frames && 2 * frames <= samples.Length && Sound(start)
      requires start.capture.state != Prepared ==> Later(start, card, 0, have)
      modifies this`card, this`failures, this`handedOut, samples
      ensures Failed(r <= 0 && r != -EINTR && r != -EPIPE)
      ensures Valid() && SameSettings(old(card), card)
      ensures r > 0 ==> have + r <= frames
      ensures r > 0 || r == -EINTR ==> card.capture.state == Running
      ensures r == -EPIPE ==> card.capture.state == XRun
      ensures card.patience <= old(card.patience) && (r == -EINTR ==> card.patience < old(card.patience))
      ensures var now := have + if r > 0 then r else 0;
              && samples[..2 * have] == old(samples[..2 * have])
              && samples[2 * now..] == old(samples[2 * now..])
              && handedOut == old(handedOut) + samples[2 * have..2 * now]
              && (start.capture.state != Prepared ==> Later(start, card, 0, now))
      ensures old(card).capture == EMPTY ==> r <= 0 && card.capture == EMPTY
      ensures old(card).playback == EMPTY ==> card.playback == EMPTY
    {
      hide Later;
      Interfere();
      ghost var at := card;
      r := SndPcmReadi(samples, have, frames - have);
      if start.capture.state != Prepared {
        ReadiExtends(start, old(card), at, card, have, frames - have, r);
      }
    }

    method Read(samples: array<Sample>, frames: nat) returns (result: AudioResult, ghost got: nat)
      requires Valid() && 2 * frames <= samples.Length
      modifies this`card, this`failures, this`handedOut, samples
      ensures ReadDone(samples, frames, result, got)
    {
      NothingIsLater(card);
      hide Later;
      var have := 0;
      while have < frames
        invariant Valid() && SameSettings(old(card), card) && have <= frames && failures == old(failures)
        invariant samples[2 * have..] == old(samples[2 * have..])
        invariant handedOut == old(handedOut) + samples[..2 * have]
        invariant 0 < have ==> card.capture.state == Running
        invariant old(card).capture.state != Prepared ==> Later(old(card), card, 0, have)
        invariant old(card).capture == EMPTY ==> have == 0 && card.capture == EMPTY
        invariant old(card).playback == EMPTY ==> card.playback == EMPTY
        decreases frames - have, card.patience
      {
        ghost var prefix, rest := samples[..2 * have], samples[2 * have..];
        var r := ReadSome(samples, have, frames, old(card));

        if r > 0 {
          assert samples[..2 * (have + r)] == prefix + samples[2 * have..2 * (have + r)];
          assert samples[2 * (have + r)..] == rest[2 * r..] == old(samples[2 * (have + r)..]);
          have := have + r;
          continue;
        }

        if r == -EINTR {
          continue;
        }

        if r == -EPIPE {
          return Xrun, have;
        }

        return Error, have;
      }
      return Ok, have;
    }

    /** Waits until a period of the playback ring is free. */
    method WaitPeriod() returns (result: AudioResult)
      requires Valid()
      modifies this`card, this`failures
      ensures WaitDone(result)
    {
      NothingIsLater(card);
      while true
        invariant Valid() && Later(old(card), card, 0, 0) && failures == old(failures)
        invariant Dropped(old(card), captureEnabled) ==> Dropped(card, captureEnabled)
        decreases card.patience
      {
        ghost var before := card;
        Interfere();
        ghost var at := card;
        var r := SndPcmWait();

        WaitExtends(old(card), before, at, card, r);

        if r > 0 {
          return Ok;
        }

        if r == -EINTR {
          continue;
        }

        if r == -EPIPE {
          return Xrun;
        }

        return Error;
      }
    }

    /** Any number of transfers, prepares and starts, in any order and with anything
        in between, as far as every start finds `full` frames. */
    method AnyCalls(full: nat)
      requires Valid()
      modifies this`card, this`failures, this`accepted, this`handedOut, this`starts
      ensures Valid() && SameSettings(old(card), card) && OnlyAdded(full)
    {
      var c: Card := *;
      if Sound(c) && SameSettings(card, c) {
        card := c;
      }
      ghost var sent: seq<Sample>, got: seq<Sample>, started: nat, failed: nat := *, *, *, *;
      accepted, handedOut := accepted + sent, handedOut + got;
      starts, failures := starts + seq(started, _ => full), failures + failed;
    }

    // ---------- Duplex control ----------

    method SetBuffer(sampleRate: int, periodSize: int, bufferSize: int, enableCapture: bool) returns (ok: bool)
      requires Valid()
      modifies this`card, this`failures, this`linked, this`captureEnabled, this`refusedLinks
      ensures BufferSet(sampleRate, periodSize, bufferSize, enableCapture, ok)
    {
      if !playbackInitialized || sampleRate <= 0 || periodSize <= 0 || bufferSize <= 0 {
        return false;
      }

      captureEnabled := enableCapture && captureInitialized;

      if linked {
        var unlinked := SndPcmUnlink();
        if !unlinked {
          return false;
        }
        linked := false;
      }

      var configured := SndPcmParams(sampleRate, periodSize, bufferSize);
      if !configured {
        return false;
      }

      if captureEnabled {
        configured := SndPcmCaptureParams(Params(sampleRate, periodSize, bufferSize));
        if !configured {
          return false;
        }

        linked := SndPcmLink();
      }

      return true;
    }

    /** Lets time pass and, unless this thread is alone, others do what they may. */
    method Wobble(alone: bool)
      requires Valid()
      modifies this`card
      ensures Valid() && Interference(old(card), card) && (alone ==> Elapsed(old(card), card))
    {
      if alone {
        Elapse();
      } else {
        Interfere();
      }
    }

    /** `alone`: no other thread uses the card meanwhile. */
    method Prepare(alone: bool) returns (ok: bool, ghost found: Card, ghost next: Card)
      requires Valid()
      modifies this`card, this`failures
      ensures PrepareDone(ok, found, next, alone)
    {
      Wobble(alone);
      found, next := card, card;
      ok := SndPcmPrepare();
      if !ok {
        return;
      }

      if !linked && captureEnabled {
        ok, next := PrepareRest(alone);
      }
    }

    /** The second call of a prepare of streams that are not linked. */
    method PrepareRest(alone: bool) returns (ok: bool, ghost next: Card)
      requires Valid() && !linked
      modifies this`card, this`failures
      ensures Valid() && Failed(!ok)
      ensures Interference(old(card), next) && (alone ==> Elapsed(old(card), next))
      ensures !next.linked && PrepareCapture(next, card, ok)
    {
      Wobble(alone);
      next := card;
      ok := SndPcmPrepareCapture();
    }

    method Start() returns (ok: bool)
      requires Valid()
      modifies this`card, this`failures, this`starts
      ensures StartDone(ok)
    {
      if linked {
        ok := SndPcmStart();
        return;
      }

      ghost var first, next := card, card;
      if captureEnabled {
        ok := SndPcmStartCapture();
        if !ok {
          return;
        }
        first := card;
        Elapse();
        next := card;
      }

      ok := SndPcmStart();
      assert captureEnabled ==>
               StartCapture(old(card), first, true) && Elapsed(first, next) && StartPlayback(next, card, ok);
    }

    /** Between the drops of two streams. */
    method AmidTwoDrops(preparing: bool) returns (prepared: bool)
      requires Valid() && !linked
      modifies this`card
      ensures Valid() && AmidDrops(old(card), card, prepared)
      ensures if prepared then preparing && card.playback == Stream(Prepared, 0) else Elapsed(old(card), card)
    {
      Elapse();
      prepared := *;
      prepared := prepared && preparing && card.playback.state != Running;
      if prepared {
        card := WithPlayback(card, Stream(Prepared, 0));
      }
    }

    /** Drops every stream in use, whatever their states: a start that failed
        half-way is undone. Capture is dropped even when dropping playback failed.
        `preparing`: a worker stands before a prepare, for which it takes no mutex;
        `prepared`: it made it between the two drops. */
    method Stop(preparing: bool) returns (ok: bool, prepared: bool)
      requires Valid()
      modifies this`card, this`failures, this`drops
      ensures StopDone(ok, prepared) && (prepared ==> preparing)
    {
      prepared := false;
      if !playbackInitialized {
        return true, false;
      }

      if linked {
        ok := SndPcmDrop();
        return;
      }

      ok := SndPcmDrop();
      ghost var first, one := card, ok;
      if captureEnabled {
        prepared := AmidTwoDrops(preparing);
        ghost var next := card;
        var dropped := SndPcmDropCapture();
        assert DropPlayback(old(card), first, one) && AmidDrops(first, next, prepared)
               && DropCapture(next, card, dropped);
        ok := dropped && ok;
      }
    }

    /** The destructor: playback is stopped before its handle is closed. */
    method Close()
      requires Valid()
      modifies this
      ensures !playbackInitialized && !captureInitialized
      ensures accepted == old(accepted) && handedOut == old(handedOut) && starts == old(starts)
      ensures devices == old(devices) && failures >= old(failures)
      ensures old(playbackInitialized) ==> drops != old(drops) || failures > old(failures)
    {
      if playbackInitialized {
        var _, _ := Stop(false);
        playbackInitialized := false;
      }
      captureInitialized := false;
    }
  }
}
