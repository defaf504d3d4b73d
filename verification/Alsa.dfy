/**
 What the driver relies on from the ALSA kernel and library, as relations
 between the state of a sound card before and after one call. Every call may
 also fail for reasons of its own; a call that fails changes nothing, except
 that a finite number of interruptions (`patience`) is used up one by one.
 */
module Alsa {

  const EINTR: int := 4
  const EPIPE: int := 32

  datatype PcmState = Setup | Prepared | Running | XRun

  /** `fill`: frames queued and not yet played (playback), or captured and not yet read (capture). */
  datatype Stream = Stream(state: PcmState, fill: nat)

  /** Hardware parameters of a stream. */
  datatype Params = Params(rate: int, period: int, buffer: int)

  datatype Card = Card(
    playback: Stream,
    capture: Stream,
    linked: bool,          // start, stop and prepare act on both streams at once
    buffer: nat,           // size of the playback ring in frames
    availMin: nat,         // free playback frames that wake a waiter
    startThreshold: nat,   // queued frames at which a write starts the stream by itself
    patience: nat,         // interruptions (-EINTR) still to come
    rate: int,             // playback frames per second
    captureParams: Params
  )

  predicate Sound(c: Card) {
    && c.playback.fill <= c.buffer
    && (c.linked ==> c.playback.state == c.capture.state)
  }

  predicate NeverAutoStarts(c: Card) {
    c.buffer < c.startThreshold
  }

  predicate SameSettings(c: Card, d: Card) {
    && d.linked == c.linked && d.buffer == c.buffer
    && d.availMin == c.availMin && d.startThreshold == c.startThreshold
    && d.rate == c.rate && d.captureParams == c.captureParams
  }

  // ---------- What happens between two calls ----------

  /** A running playback stream plays queued frames and may run dry. */
  predicate PlaybackElapsed(s: Stream, t: Stream) {
    t == s || (s.state == Running && t.state in {Running, XRun} && t.fill <= s.fill)
  }

  /** A running capture stream gains frames and may run over. */
  predicate CaptureElapsed(s: Stream, t: Stream) {
    t == s || (s.state == Running && t.state in {Running, XRun} && s.fill <= t.fill)
  }

  /** Time passes. Linked streams advance in lock step and stop together. */
  predicate Elapsed(c: Card, d: Card) {
    && SameSettings(c, d) && d.patience == c.patience
    && PlaybackElapsed(c.playback, d.playback)
    && CaptureElapsed(c.capture, d.capture)
    && (c.linked ==>
          && d.playback.state == d.capture.state
          && d.playback.fill + d.capture.fill == c.playback.fill + c.capture.fill)
  }

  const EMPTY := Stream(Setup, 0)

  /** Time passes and another thread may drop either stream (both when linked). */
  predicate Interference(c: Card, d: Card) {
    || Elapsed(c, d)
    || (&& SameSettings(c, d) && d.patience == c.patience
        && (d.playback == EMPTY || PlaybackElapsed(c.playback, d.playback))
        && (d.capture == EMPTY || CaptureElapsed(c.capture, d.capture))
        && (c.linked ==> d.playback == EMPTY && d.capture == EMPTY))
  }

  // ---------- Calls ----------

  /** A group holds both streams when they are linked, else just the one named. */
  function WithPlayback(c: Card, s: Stream): Card {
    if c.linked
    then c.(playback := s, capture := Stream(s.state, if s.state == Running then c.capture.fill else 0))
    else c.(playback := s)
  }

  predicate Interrupted(c: Card, d: Card, r: int) {
    r == -EINTR && c.patience > 0 && d == c.(patience := c.patience - 1)
  }

  predicate Refused(c: Card, d: Card, r: int) {
    r <= 0 && r != -EINTR && r != -EPIPE && d == c
  }

  /** snd_pcm_writei of n > 0 frames. */
  predicate Writei(c: Card, n: nat, d: Card, r: int) {
    match c.playback.state
    case Setup => Refused(c, d, r)
    case XRun => r == -EPIPE && d == c
    case _ =>
      || Refused(c, d, r)
      || Interrupted(c, d, r)
      || (0 < r <= n && c.playback.fill + r <= c.buffer && d == Queued(c, r))
  }

  /** The card after accepting n frames: it starts by itself at the threshold, and only there. */
  function Queued(c: Card, n: nat): Card {
    var fill := c.playback.fill + n;
    if c.playback.state == Prepared && fill >= c.startThreshold
    then WithPlayback(c, Stream(Running, fill))
    else c.(playback := c.playback.(fill := fill))
  }

  /** snd_pcm_readi of n > 0 frames. Reading a prepared stream starts it, and its
      group with it: nobody raised the capture start threshold. The driver never
      reads a prepared stream, so what such a call would go on to deliver is not
      stated. */
  predicate Readi(c: Card, n: nat, d: Card, r: int) {
    match c.capture.state
    case Setup => Refused(c, d, r)
    case XRun => r == -EPIPE && d == c
    case Prepared =>
      Refused(c.(capture := c.capture.(state := Running),
                 playback := if c.linked then c.playback.(state := Running) else c.playback), d, r)
    case Running =>
      || Refused(c, d, r)
      || Interrupted(c, d, r)
      || (0 < r <= n && r <= c.capture.fill && d == c.(capture := c.capture.(fill := c.capture.fill - r)))
  }

  /** snd_pcm_wait without a timeout. A stream in Setup may be reported ready too. */
  predicate Wait(c: Card, d: Card, r: int) {
    match c.playback.state
    case Setup => Refused(c, d, r) || (r > 0 && c.playback.fill + c.availMin <= c.buffer && d == c)
    case XRun => r == -EPIPE && d == c
    case _ =>
      || Refused(c, d, r)
      || Interrupted(c, d, r)
      || (r > 0 && c.playback.fill + c.availMin <= c.buffer && d == c)
  }

  /** snd_pcm_prepare on playback: empties the ring, refused while anything in the group runs. */
  predicate PreparePlayback(c: Card, d: Card, ok: bool) {
    if ok then c.playback.state != Running && d == WithPlayback(c, Stream(Prepared, 0)) else d == c
  }

  predicate PrepareCapture(c: Card, d: Card, ok: bool)
    requires !c.linked
  {
    if ok then c.capture.state != Running && d == c.(capture := Stream(Prepared, 0)) else d == c
  }

  predicate StartPlayback(c: Card, d: Card, ok: bool) {
    if ok then c.playback.state == Prepared && d == WithPlayback(c, c.playback.(state := Running)) else d == c
  }

  predicate StartCapture(c: Card, d: Card, ok: bool)
    requires !c.linked
  {
    if ok then c.capture.state == Prepared && d == c.(capture := c.capture.(state := Running)) else d == c
  }

  predicate DropPlayback(c: Card, d: Card, ok: bool) {
    if ok then d == WithPlayback(c, EMPTY) else d == c
  }

  predicate DropCapture(c: Card, d: Card, ok: bool)
    requires !c.linked
  {
    if ok then d == c.(capture := EMPTY) else d == c
  }

  /** Hardware and software parameters of playback. A successful call empties
      and prepares the ring; one that fails half-way may have done so too. */
  predicate ConfigurePlayback(c: Card, rate: int, period: nat, buffer: nat, d: Card, ok: bool) {
    && d.linked == c.linked && d.capture == c.capture && d.patience == c.patience
    && d.captureParams == c.captureParams
    && if ok
       then
         && c.playback.state != Running && d.playback == Stream(Prepared, 0)
         && d.buffer == buffer && d.availMin == period && d.startThreshold == buffer + 1 && d.rate == rate
       else
         d == c || d.playback == Stream(Prepared, 0)
  }

  predicate ConfigureCapture(c: Card, params: Params, d: Card, ok: bool) {
    && d.(capture := c.capture, captureParams := c.captureParams) == c
    && if ok then c.capture.state != Running && d.capture == Stream(Prepared, 0) && d.captureParams == params
       else d.capture == c.capture || d.capture == Stream(Prepared, 0)
  }

  /** Only streams in the same state can be linked. */
  predicate Link(c: Card, d: Card, ok: bool) {
    if ok then c.playback.state == c.capture.state && d == c.(linked := true) else d == c
  }

  predicate Unlink(c: Card, d: Card, ok: bool) {
    d == if ok then c.(linked := false) else c
  }

  // ---------- Calls that may sleep ----------

  /** A stream that neither stopped nor was dropped. */
  predicate Live(s: Stream) {
    s.state in {Prepared, Running}
  }

  /** A write of n frames sleeps only on a live stream without room for them all,
      a read only on one that has not captured them all, a wait only on one with
      less than `availMin` frames of room. */
  predicate WriteMaySleep(c: Card, n: nat) {
    Live(c.playback) && c.playback.fill + n > c.buffer
  }

  predicate ReadMaySleep(c: Card, n: nat) {
    Live(c.capture) && c.capture.fill < n
  }

  predicate WaitMaySleep(c: Card) {
    Live(c.playback) && c.playback.fill + c.availMin > c.buffer
  }

  // ---------- Cards at rest ----------

  /** Both streams are in the same state, or capture is not in use. */
  predicate Agreeing(c: Card, capture: bool) {
    capture ==> c.capture.state == c.playback.state
  }

  predicate NothingRuns(c: Card, capture: bool) {
    c.playback.state != Running && (capture ==> c.capture.state != Running)
  }

  predicate AtRest(s: Stream) {
    s.fill == 0 && s.state in {Setup, Prepared}
  }

  /** As a drop of every stream in use leaves the card. */
  predicate Dropped(c: Card, capture: bool) {
    c.playback == EMPTY && (capture ==> c.capture == EMPTY)
  }

  /** Dropped, and perhaps prepared again since: nothing runs, nothing is queued or captured. */
  predicate Down(c: Card, capture: bool) {
    AtRest(c.playback) && (capture ==> AtRest(c.capture))
  }

  // ---------- Any number of transfers and anything in between ----------

  predicate Evolved(s: PcmState, t: PcmState) {
    match s
    case Setup => t == Setup
    case Prepared => t == Prepared || t == Setup
    case Running => t != Prepared
    case XRun => t == XRun || t == Setup
  }

  /** What can be said after some interference, `written` frames queued and `taken` frames read. */
  predicate Later(c: Card, d: Card, written: nat, taken: nat) {
    && Sound(d) && SameSettings(c, d) && d.patience <= c.patience
    && Evolved(c.playback.state, d.playback.state)
    && Evolved(c.capture.state, d.capture.state)
    && (c.playback.state == d.playback.state == Prepared ==> d.playback.fill == c.playback.fill + written)
    && (c.capture.state == d.capture.state == Prepared ==> d.capture.fill == c.capture.fill)
    && (c.linked && c.playback.state == d.playback.state == Running ==>
          d.playback.fill + d.capture.fill + taken == c.playback.fill + c.capture.fill + written)
  }

  lemma NothingIsLater(c: Card)
    requires Sound(c)
    ensures Later(c, c, 0, 0)
  {
  }

  lemma InterferenceIsLater(c: Card, d: Card)
    requires Sound(c) && Interference(c, d)
    ensures Later(c, d, 0, 0)
  {
  }

  lemma LaterTransitive(c: Card, d: Card, e: Card, w1: nat, t1: nat, w2: nat, t2: nat)
    requires Sound(c) && Later(c, d, w1, t1) && Later(d, e, w2, t2)
    ensures Later(c, e, w1 + w2, t1 + t2)
  {
  }

  lemma WriteiIsLater(c: Card, n: nat, d: Card, r: int)
    requires Sound(c) && NeverAutoStarts(c) && Writei(c, n, d, r)
    ensures Later(c, d, if r > 0 then r else 0, 0)
  {
  }

  lemma ReadiIsLater(c: Card, n: nat, d: Card, r: int)
    requires Sound(c) && c.capture.state != Prepared && Readi(c, n, d, r)
    ensures Later(c, d, 0, if r > 0 then r else 0)
  {
  }

  // One pass of a transfer loop: some interference, then one call.

  lemma WriteiExtends(c: Card, before: Card, at: Card, after: Card, sent: nat, n: nat, r: int)
    requires Sound(c) && NeverAutoStarts(c) && Later(c, before, sent, 0)
    requires Interference(before, at) && Writei(at, n, after, r)
    ensures Later(c, after, sent + if r > 0 then r else 0, 0)
  {
    InterferenceIsLater(before, at);
    LaterTransitive(c, before, at, sent, 0, 0, 0);
    WriteiIsLater(at, n, after, r);
    LaterTransitive(c, at, after, sent, 0, if r > 0 then r else 0, 0);
  }

  lemma ReadiExtends(c: Card, before: Card, at: Card, after: Card, have: nat, n: nat, r: int)
    requires Sound(c) && c.capture.state != Prepared && Later(c, before, 0, have)
    requires Interference(before, at) && Readi(at, n, after, r)
    ensures Later(c, after, 0, have + if r > 0 then r else 0)
  {
    InterferenceIsLater(before, at);
    LaterTransitive(c, before, at, 0, have, 0, 0);
    ReadiIsLater(at, n, after, r);
    LaterTransitive(c, at, after, 0, have, 0, if r > 0 then r else 0);
  }

  lemma WaitExtends(c: Card, before: Card, at: Card, after: Card, r: int)
    requires Sound(c) && Later(c, before, 0, 0)
    requires Interference(before, at) && Wait(at, after, r)
    ensures Later(c, after, 0, 0)
  {
    InterferenceIsLater(before, at);
    LaterTransitive(c, before, at, 0, 0, 0, 0);
  }
}
