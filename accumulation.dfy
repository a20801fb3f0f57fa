/**
 * The frame accumulator of Renderer::Render, as functions of whole
 * buffers: what one frame does to the running sums, what the image then
 * shows, how the frame index moves on, and what a run of frames adds up to.
 */
module Accumulation {
  import opened Geometry
  import opened Pixel

  /**
   * The running sums after one frame: cleared first when the frame index
   * is 1, then every slot gets its own pixel's colour added.
   */
  function AccumulateFrame(sums: seq<Vec4>, frame: seq<Vec4>, frameIndex: nat): (r: seq<Vec4>)
    requires |sums| == |frame|
    ensures |r| == |frame|
    ensures frameIndex == 1 ==> r == frame
    ensures frameIndex != 1 ==> forall j :: 0 <= j < |frame| ==> r[j] == Add4(sums[j], frame[j])
  {
    var r := seq(|frame|, j requires 0 <= j < |frame| => Add4(if frameIndex == 1 then Zero4 else sums[j], frame[j]));
    assert frameIndex == 1 ==> forall j :: 0 <= j < |frame| ==> r[j] == frame[j];
    r
  }

  /**
   * What one pixel shows: its sum divided by the frame index, clamped to
   * [0, 1] and packed.
   */
  function Shown(sum: Vec4, frameIndex: nat): Word
    requires 1 <= frameIndex
  {
    ConvertToRGBA(Clamp(Div4(sum, frameIndex as real)))
  }

  /** Each byte lane of a shown pixel is the truncated byte of its channel's mean, clamped to [0, 1]. */
  lemma ShownChannels(sum: Vec4, frameIndex: nat)
    requires 1 <= frameIndex
    ensures var w, k := Shown(sum, frameIndex), frameIndex as real;
            && Red(w) == ToByte(ClampUnit(sum.r / k)) && Green(w) == ToByte(ClampUnit(sum.g / k))
            && Blue(w) == ToByte(ClampUnit(sum.b / k)) && Alpha(w) == ToByte(ClampUnit(sum.a / k))
  {
    ConvertToRGBAChannels(Clamp(Div4(sum, frameIndex as real)));
  }

  /** The whole image for the given sums. */
  function Display(sums: seq<Vec4>, frameIndex: nat): (image: seq<Word>)
    requires 1 <= frameIndex
    ensures |image| == |sums|
  {
    seq(|sums|, j requires 0 <= j < |sums| => Shown(sums[j], frameIndex))
  }

  /** The frame index after a frame: one more while accumulating, otherwise back to 1. */
  function NextFrameIndex(frameIndex: nat, accumulate: bool): (next: nat)
    ensures 1 <= next
    ensures accumulate ==> next == frameIndex + 1
    ensures !accumulate ==> next == 1
  {
    if accumulate then frameIndex + 1 else 1
  }

  predicate SameSize(frames: seq<seq<Vec4>>, n: nat)
  {
    forall i :: 0 <= i < |frames| ==> |frames[i]| == n
  }

  /** Slot j of the colours of a run of frames, added up in order. */
  function SlotSum(frames: seq<seq<Vec4>>, j: nat): Vec4
    requires forall i :: 0 <= i < |frames| ==> j < |frames[i]|
    decreases |frames|
  {
    if frames == [] then Zero4
    else Add4(SlotSum(frames[..|frames| - 1], j), frames[|frames| - 1][j])
  }

  /**
   * The running sums after rendering `frames` in order, accumulation on,
   * the first of them at frame index `first`.
   */
  function Replay(sums: seq<Vec4>, frames: seq<seq<Vec4>>, first: nat): (r: seq<Vec4>)
    requires SameSize(frames, |sums|)
    ensures |r| == |sums|
    decreases |frames|
  {
    if frames == [] then sums
    else AccumulateFrame(Replay(sums, frames[..|frames| - 1], first), frames[|frames| - 1], first + |frames| - 1)
  }

  /** Starting from frame index 1, the sums are exactly the frames added up, whatever was in the buffer. */
  lemma {:induction false} ReplayIsSum(sums: seq<Vec4>, frames: seq<seq<Vec4>>)
    requires frames != [] && SameSize(frames, |sums|)
    ensures forall j :: 0 <= j < |sums| ==> Replay(sums, frames, 1)[j] == SlotSum(frames, j)
    decreases |frames|
  {
    var k := |frames|;
    var prefix := frames[..k - 1];
    if k > 1 {
      ReplayIsSum(sums, prefix);
    }
    forall j | 0 <= j < |sums| ensures Replay(sums, frames, 1)[j] == SlotSum(frames, j) {
      if k == 1 {
        assert prefix == [];
      }
    }
  }

  /** The mean colour of slot j over a non-empty run of frames. */
  function Mean(frames: seq<seq<Vec4>>, j: nat): Vec4
    requires frames != []
    requires forall i :: 0 <= i < |frames| ==> j < |frames[i]|
  {
    Div4(SlotSum(frames, j), |frames| as real)
  }

  /**
   * After k frames accumulated from frame index 1 the k-th frame is shown
   * at frame index k, so every pixel shows its clamped mean colour.
   */
  lemma DisplayIsClampedMean(sums: seq<Vec4>, frames: seq<seq<Vec4>>)
    requires frames != [] && SameSize(frames, |sums|)
    ensures forall j :: 0 <= j < |sums| ==>
              Display(Replay(sums, frames, 1), |frames|)[j] == ConvertToRGBA(Clamp(Mean(frames, j)))
  {
    ReplayIsSum(sums, frames);
  }

  /** Every frame opaque (PerPixel's alpha is 1): the sum of alphas counts the frames. */
  lemma {:induction false} OpaqueAlphaSum(frames: seq<seq<Vec4>>, j: nat)
    requires forall i :: 0 <= i < |frames| ==> j < |frames[i]| && frames[i][j].a == 1.0
    ensures SlotSum(frames, j).a == |frames| as real
    decreases |frames|
  {
    if frames != [] {
      OpaqueAlphaSum(frames[..|frames| - 1], j);
    }
  }

  /** So the alpha byte of an accumulated image of opaque frames is 255. */
  lemma OpaqueFramesShowOpaque(sums: seq<Vec4>, frames: seq<seq<Vec4>>, j: nat)
    requires frames != [] && SameSize(frames, |sums|) && j < |sums|
    requires forall i :: 0 <= i < |frames| ==> frames[i][j].a == 1.0
    ensures Alpha(Display(Replay(sums, frames, 1), |frames|)[j]) == 255
  {
    ReplayIsSum(sums, frames);
    OpaqueAlphaSum(frames, j);
    AlphaCountShowsOpaque(Replay(sums, frames, 1)[j], |frames|);
  }

  /** An alpha sum equal to the frame index divides to exactly 1. */
  lemma AlphaCountShowsOpaque(sum: Vec4, frameIndex: nat)
    requires 1 <= frameIndex && sum.a == frameIndex as real
    ensures Alpha(Shown(sum, frameIndex)) == 255
  {
    var k := frameIndex as real;
    assert sum.a / k == 1.0;
  }

  /**
   * The frame index is not reset when the buffers are reallocated. At
   * frame index 2, a white frame over freshly allocated sums that happen
   * to read zero shows mid-grey instead of white.
   */
  lemma StaleIndexHalvesFirstFrame()
    ensures var white := Vec4(1.0, 1.0, 1.0, 1.0);
            && Display(AccumulateFrame([Zero4], [white], 2), 2) == [Pack(127, 127, 127, 127)]
            && Display(AccumulateFrame([Zero4], [white], 1), 1) == [Pack(255, 255, 255, 255)]
  {
    var white := Vec4(1.0, 1.0, 1.0, 1.0);
    assert AccumulateFrame([Zero4], [white], 2)[0] == white;
    assert Div4(white, 2.0) == Vec4(0.5, 0.5, 0.5, 0.5);
    assert ToByte(0.5) == 127;
    assert Div4(white, 1.0) == white;
  }
}
