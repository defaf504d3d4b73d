/**
 Interleaved stereo blocks and the per-channel halves of the ASIO double
 buffer, as plain sequences. A sample is only ever copied or zeroed, so its
 32-bit width never matters and it is modelled as an integer.
 */
module Samples {

  type Sample = int

  function Zeros(n: nat): (z: seq<Sample>)
    ensures |z| == n && forall i :: 0 <= i < n ==> z[i] == 0
  {
    seq(n, _ => 0)
  }

  lemma ZerosAdd(m: nat, n: nat)
    ensures Zeros(m) + Zeros(n) == Zeros(m + n)
    ensures Zeros(m + n)[..m] == Zeros(m)
  {
  }

  /** Position of a half in the four halves of a direction: channel-major. */
  function Slot(channel: nat, half: nat): nat {
    2 * channel + half
  }

  /** What a channel contributes to an outgoing block: its half, or silence. */
  function Lane(active: bool, half: seq<Sample>, frames: nat): (lane: seq<Sample>)
    requires active ==> |half| == frames
    ensures |lane| == frames
  {
    if active then half else Zeros(frames)
  }

  function Interleaved(left: seq<Sample>, right: seq<Sample>): (block: seq<Sample>)
    requires |left| == |right|
    ensures |block| == 2 * |left|
  {
    if left == [] then []
    else
      var n := |left| - 1;
      Interleaved(left[..n], right[..n]) + [left[n], right[n]]
  }

  function Channel(block: seq<Sample>, channel: nat): (half: seq<Sample>)
    requires |block| % 2 == 0 && channel < 2
    ensures |half| == |block| / 2
  {
    seq(|block| / 2, i requires 0 <= i < |block| / 2 => block[2 * i + channel])
  }

  /** Four halves, in `Slot` order, of which the active ones hold `frames` samples. */
  ghost predicate Halves(halves: seq<seq<Sample>>, active: seq<bool>, frames: nat) {
    && |halves| == 4 && |active| == 2
    && (active[0] ==> |halves[0]| == |halves[1]| == frames)
    && (active[1] ==> |halves[2]| == |halves[3]| == frames)
  }

  /** The block sent for one half of the output buffers. */
  ghost function Outgoing(outputs: seq<seq<Sample>>, active: seq<bool>, half: nat, frames: nat): (block: seq<Sample>)
    requires half < 2 && Halves(outputs, active, frames)
    ensures |block| == 2 * frames
  {
    Interleaved(Lane(active[0], outputs[Slot(0, half)], frames), Lane(active[1], outputs[Slot(1, half)], frames))
  }

  /** The input halves after a captured block was delivered to one of the two halves. */
  ghost function Delivered(inputs: seq<seq<Sample>>, active: seq<bool>, block: seq<Sample>, half: nat)
    : (r: seq<seq<Sample>>)
    requires |inputs| == 4 && |active| == 2 && |block| % 2 == 0 && half < 2
    ensures |r| == 4
  {
    [if active[0] && half == 0 then Channel(block, 0) else inputs[0],
     if active[0] && half == 1 then Channel(block, 0) else inputs[1],
     if active[1] && half == 0 then Channel(block, 1) else inputs[2],
     if active[1] && half == 1 then Channel(block, 1) else inputs[3]]
  }

  lemma {:induction false} InterleavedAt(left: seq<Sample>, right: seq<Sample>, i: nat)
    requires |left| == |right| && i < |left|
    ensures Interleaved(left, right)[2 * i] == left[i]
    ensures Interleaved(left, right)[2 * i + 1] == right[i]
  {
    var n := |left| - 1;
    if i < n {
      InterleavedAt(left[..n], right[..n], i);
    }
  }

  lemma SplitOfInterleaved(left: seq<Sample>, right: seq<Sample>)
    requires |left| == |right|
    ensures Channel(Interleaved(left, right), 0) == left
    ensures Channel(Interleaved(left, right), 1) == right
  {
    var block := Interleaved(left, right);
    forall i | 0 <= i < |left|
      ensures Channel(block, 0)[i] == left[i] && Channel(block, 1)[i] == right[i]
    {
      InterleavedAt(left, right, i);
    }
  }

  lemma InterleavedOfSplit(block: seq<Sample>)
    requires |block| % 2 == 0
    ensures Interleaved(Channel(block, 0), Channel(block, 1)) == block
  {
    forall i | 0 <= i < |block|
      ensures Interleaved(Channel(block, 0), Channel(block, 1))[i] == block[i]
    {
      InterleavedAt(Channel(block, 0), Channel(block, 1), i / 2);
      assert i == 2 * (i / 2) || i == 2 * (i / 2) + 1;
    }
  }

  /** The block sent, sample by sample: the left channel of the half at even
      positions and the right one at odd positions, zero for an inactive channel. */
  lemma OutgoingAt(outputs: seq<seq<Sample>>, active: seq<bool>, half: nat, frames: nat, i: nat)
    requires half < 2 && Halves(outputs, active, frames) && i < frames
    ensures Outgoing(outputs, active, half, frames)[2 * i] == if active[0] then outputs[half][i] else 0
    ensures Outgoing(outputs, active, half, frames)[2 * i + 1] == if active[1] then outputs[2 + half][i] else 0
  {
    InterleavedAt(Lane(active[0], outputs[Slot(0, half)], frames), Lane(active[1], outputs[Slot(1, half)], frames), i);
  }

  /** Playing one half back into the inputs, for every pair of channel masks:
      a channel active on both sides is restored, one silent on the way out
      comes back as zeros, inactive inputs and the other half are untouched. */
  lemma Loopback(outputs: seq<seq<Sample>>, outActive: seq<bool>, from: nat,
                 inputs: seq<seq<Sample>>, inActive: seq<bool>, to: nat, frames: nat)
    requires from < 2 && to < 2
    requires Halves(outputs, outActive, frames) && Halves(inputs, inActive, frames)
    ensures var r := Delivered(inputs, inActive, Outgoing(outputs, outActive, from, frames), to);
            && Halves(r, inActive, frames)
            && LoopedBack(outputs, outActive, from, inputs, inActive, to, frames, r, 0)
            && LoopedBack(outputs, outActive, from, inputs, inActive, to, frames, r, 1)
  {
    SplitOfInterleaved(Lane(outActive[0], outputs[Slot(0, from)], frames),
                       Lane(outActive[1], outputs[Slot(1, from)], frames));
    if to == 0 {} else {}
  }

  ghost predicate LoopedBack(outputs: seq<seq<Sample>>, outActive: seq<bool>, from: nat,
                             inputs: seq<seq<Sample>>, inActive: seq<bool>, to: nat, frames: nat,
                             r: seq<seq<Sample>>, ch: nat)
    requires from < 2 && to < 2 && ch < 2 && |r| == 4
    requires Halves(outputs, outActive, frames) && Halves(inputs, inActive, frames)
  {
    && r[2 * ch + 1 - to] == inputs[2 * ch + 1 - to]
    && r[2 * ch + to] == if !inActive[ch] then inputs[2 * ch + to]
                         else if outActive[ch] then outputs[2 * ch + from]
                         else seq(frames, _ => 0)
  }
}
