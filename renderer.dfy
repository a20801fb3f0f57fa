/**
 * The renderer's state and the operations that change it: OnResize,
 * Render (its sequential row-by-row branch) and the frame index reset.
 */
module Rendering {
  import opened Geometry
  import opened Pixel
  import opened Accumulation

  /** 0, 1, ..., n - 1: the contents of a filled iterator vector. */
  function Range(n: nat): (r: seq<nat>)
    ensures |r| == n && forall i :: 0 <= i < n ==> r[i] == i
  {
    seq(n, i => i)
  }

  /** std::vector::resize: keep the first n elements, pad with zeros. */
  function Resized(s: seq<nat>, n: nat): (r: seq<nat>)
    ensures |r| == n
    ensures forall i :: 0 <= i < n && i < |s| ==> r[i] == s[i]
  {
    if n <= |s| then s[..n] else s + seq(n - |s|, _ => 0)
  }

  /**
   * An iterator vector resized to n entries and then numbered: entry i
   * holds i, whatever the vector held before.
   */
  method ResizeAndNumber(s: seq<nat>, n: nat) returns (r: seq<nat>)
    ensures r == Range(n)
  {
    r := Resized(s, n);
    for i := 0 to n
      invariant |r| == n
      invariant forall k :: 0 <= k < i ==> r[k] == k
    {
      r := r[i := i];
    }
  }

  /** Slot x + y * width of a pixel inside the image is inside the buffers. */
  lemma SlotInBounds(x: nat, y: nat, width: nat, height: nat)
    requires x < width && y < height
    ensures x + y * width < width * height
  {
    assert x + y * width < (y + 1) * width;
    assert (y + 1) * width <= height * width;
  }

  /** The row after row y still starts inside the buffers. */
  lemma RowFits(y: nat, width: nat, height: nat)
    requires y < height
    ensures y * width + width == (y + 1) * width <= width * height
  {
  }

  /** Two different pixels never share a slot, so each slot is written once per frame. */
  lemma SlotsDistinct(x1: nat, y1: nat, x2: nat, y2: nat, width: nat)
    requires x1 < width && x2 < width && (x1, y1) != (x2, y2)
    ensures x1 + y1 * width != x2 + y2 * width
  {
    if y1 < y2 {
      assert x1 + y1 * width < (y1 + 1) * width <= y2 * width;
    } else if y2 < y1 {
      assert x2 + y2 * width < (y2 + 1) * width <= y1 * width;
    }
  }

  /** And every slot of the buffers belongs to a pixel. */
  lemma SlotOfPixel(j: nat, width: nat, height: nat)
    requires j < width * height
    ensures j % width < width && j / width < height && j == j % width + (j / width) * width
  {
    assert 0 < width;
  }

  class Renderer {
    /** Whether the final image exists yet (m_FinalImage is not null). */
    var hasImage: bool
    var width: nat
    var height: nat
    /** m_ImageData: one packed word per pixel, row-major. */
    var imageData: array<Word>
    /** m_AccumulationData: the running colour sum per pixel, row-major. */
    var accumulationData: array<Vec4>
    var horizontalIterator: seq<nat>
    var verticalIterator: seq<nat>
    /** m_FrameIndex */
    var frameIndex: nat
    /** m_Settings.Accumulate, set by the caller. */
    var accumulate: bool

    ghost predicate Valid()
      reads this
    {
      && imageData.Length == width * height
      && accumulationData.Length == width * height
      && horizontalIterator == Range(width)
      && verticalIterator == Range(height)
      && 1 <= frameIndex
      && (!hasImage ==> width == 0 && height == 0)
    }

    /** A renderer with no image and no buffers yet, at frame index 1. */
    constructor (accumulate: bool)
      ensures Valid() && !hasImage && frameIndex == 1 && this.accumulate == accumulate
    {
      hasImage := false;
      width, height := 0, 0;
      imageData := new Word[0];
      accumulationData := new Vec4[0];
      horizontalIterator, verticalIterator := [], [];
      frameIndex := 1;
      this.accumulate := accumulate;
    }

    /**
     * Renderer::OnResize. Same size: nothing happens. Otherwise both
     * buffers are reallocated to one slot per pixel, their contents left
     * unspecified, and the iterator vectors are refilled; the frame index
     * is kept.
     */
    method OnResize(newWidth: nat, newHeight: nat)
      requires Valid()
      modifies this
      ensures Valid() && hasImage && width == newWidth && height == newHeight
      ensures frameIndex == old(frameIndex) && accumulate == old(accumulate)
      ensures old(hasImage) && newWidth == old(width) && newHeight == old(height) ==>
                imageData == old(imageData) && accumulationData == old(accumulationData)
                && horizontalIterator == old(horizontalIterator) && verticalIterator == old(verticalIterator)
      ensures !(old(hasImage) && newWidth == old(width) && newHeight == old(height)) ==>
                fresh(imageData) && fresh(accumulationData)
                && horizontalIterator == Range(newWidth) && verticalIterator == Range(newHeight)
    {
      if hasImage {
        if width == newWidth && height == newHeight {
          return;
        }
      } else {
        hasImage := true;
      }
      width, height := newWidth, newHeight;

      imageData := new Word[newWidth * newHeight];
      accumulationData := new Vec4[newWidth * newHeight];

      horizontalIterator := ResizeAndNumber(horizontalIterator, newWidth);
      verticalIterator := ResizeAndNumber(verticalIterator, newHeight);
    }

    /** Renderer::ResetFrameIndex: the next frame starts a new accumulation. */
    method ResetFrameIndex()
      requires Valid()
      modifies this`frameIndex
      ensures Valid() && frameIndex == 1
    {
      frameIndex := 1;
    }

    /**
     * Renderer::Render, sequential branch. `frame` lists, row-major, the
     * colour PerPixel returns for every pixel this frame.
     */
    method Render(frame: seq<Vec4>)
      requires Valid() && hasImage
      requires |frame| == width * height
      modifies this`frameIndex, accumulationData, imageData
      ensures Valid()
      ensures accumulationData[..] == AccumulateFrame(old(accumulationData[..]), frame, old(frameIndex))
      ensures imageData[..] == Display(accumulationData[..], old(frameIndex))
      ensures frameIndex == NextFrameIndex(old(frameIndex), accumulate)
    {
      if frameIndex == 1 {
        ClearAccumulation();
      }
      ghost var base := accumulationData[..];
      AccumulateRows(frame);
      assert forall k :: 0 <= k < |frame| ==>
        accumulationData[..][k] == AccumulateFrame(old(accumulationData[..]), frame, frameIndex)[k];
      assert forall k :: 0 <= k < |frame| ==>
        imageData[..][k] == Display(accumulationData[..], frameIndex)[k];
      if accumulate {
        frameIndex := frameIndex + 1;
      } else {
        frameIndex := 1;
      }
    }

    /** `memset(m_AccumulationData, 0, ...)`: every slot back to zero. */
    method ClearAccumulation()
      modifies accumulationData
      ensures forall k :: 0 <= k < accumulationData.Length ==> accumulationData[k] == Zero4
    {
      for j := 0 to accumulationData.Length
        invariant forall k :: 0 <= k < j ==> accumulationData[k] == Zero4
      {
        accumulationData[j] := Zero4;
      }
    }

    /**
     * The nested loops of Render: row by row, pixel by pixel, the pixel's
     * colour is added into slot x + y * width and the slot's mean is shown.
     */
    method AccumulateRows(frame: seq<Vec4>)
      requires 1 <= frameIndex
      requires accumulationData.Length == imageData.Length == |frame| == width * height
      modifies accumulationData, imageData
      ensures forall k :: 0 <= k < |frame| ==> accumulationData[k] == Add4(old(accumulationData[k]), frame[k])
      ensures forall k :: 0 <= k < |frame| ==> imageData[k] == Shown(accumulationData[k], frameIndex)
    {
      ghost var base := accumulationData[..];
      ghost var n := width * height;
      ghost var rowStart := 0;
      var y := 0;
      while y < height
        invariant 0 <= y <= height
        invariant rowStart == y * width && rowStart <= n
        invariant forall k :: 0 <= k < rowStart ==> accumulationData[k] == Add4(base[k], frame[k])
        invariant forall k :: 0 <= k < rowStart ==> imageData[k] == Shown(accumulationData[k], frameIndex)
        invariant forall k :: rowStart <= k < n ==> accumulationData[k] == base[k]
      {
        RowFits(y, width, height);
        AccumulateRow(frame, y);
        rowStart := rowStart + width;
        y := y + 1;
      }
    }

    /** One pass of the inner loop: row y, slots y * width up to (y + 1) * width. */
    method AccumulateRow(frame: seq<Vec4>, y: nat)
      requires 1 <= frameIndex && y < height
      requires accumulationData.Length == imageData.Length == |frame| == width * height
      modifies accumulationData, imageData
      ensures forall k :: y * width <= k < y * width + width && k < |frame| ==>
                accumulationData[k] == Add4(old(accumulationData[k]), frame[k])
                && imageData[k] == Shown(accumulationData[k], frameIndex)
      ensures forall k :: 0 <= k < |frame| && !(y * width <= k < y * width + width) ==>
                accumulationData[k] == old(accumulationData[k]) && imageData[k] == old(imageData[k])
    {
      RowFits(y, width, height);
      ghost var rowStart := y * width;
      var x := 0;
      while x < width
        invariant 0 <= x <= width
        invariant rowStart + x <= |frame|
        invariant forall k :: rowStart <= k < rowStart + x ==>
                    accumulationData[k] == Add4(old(accumulationData[k]), frame[k])
                    && imageData[k] == Shown(accumulationData[k], frameIndex)
        invariant forall k :: 0 <= k < |frame| && !(rowStart <= k < rowStart + x) ==>
                    accumulationData[k] == old(accumulationData[k]) && imageData[k] == old(imageData[k])
      {
        var i := x + y * width;
        accumulationData[i] := Add4(accumulationData[i], frame[i]);
        imageData[i] := Shown(accumulationData[i], frameIndex);
        x := x + 1;
      }
    }
  }

  /**
   * OnResize followed by a reset of the frame index whenever the buffers
   * were reallocated, so that the first frame after a resize starts a new
   * accumulation.
   */
  method OnResizeRestarting(r: Renderer, newWidth: nat, newHeight: nat)
    requires r.Valid()
    modifies r
    ensures r.Valid() && r.hasImage && r.width == newWidth && r.height == newHeight
    ensures r.accumulate == old(r.accumulate)
    ensures old(r.hasImage) && newWidth == old(r.width) && newHeight == old(r.height) ==>
              r.frameIndex == old(r.frameIndex)
              && r.imageData == old(r.imageData) && r.accumulationData == old(r.accumulationData)
    ensures !(old(r.hasImage) && newWidth == old(r.width) && newHeight == old(r.height)) ==>
              r.frameIndex == 1 && fresh(r.imageData) && fresh(r.accumulationData)
  {
    var reallocates := !(r.hasImage && newWidth == r.width && newHeight == r.height);
    r.OnResize(newWidth, newHeight);
    if reallocates {
      r.ResetFrameIndex();
    }
  }

  /**
   * With the restarting resize, the first frame after a change of size
   * shows exactly its own clamped colours, whatever the new buffer held.
   */
  method ResizeThenRender(r: Renderer, newWidth: nat, newHeight: nat, frame: seq<Vec4>)
    requires r.Valid()
    requires !(r.hasImage && newWidth == r.width && newHeight == r.height)
    requires |frame| == newWidth * newHeight
    modifies r
    ensures r.Valid()
    ensures r.accumulationData[..] == frame
    ensures r.imageData[..] == Display(frame, 1)
  {
    OnResizeRestarting(r, newWidth, newHeight);
    ghost var reallocated := r.accumulationData[..];
    r.Render(frame);
  }

  /**
   * OnResize as written, in the middle of an accumulation: one frame at
   * 1 x 1, then a resize to 2 x 1. The frame index stays at 2, so the next
   * frame is added to whatever the new buffer held and divided by 2. The
   * clause about the sums fixes only their length, since `stale` stands for
   * the unspecified contents of the new buffer; the discrepancy is the stale
   * divisor 2 in the image and the final frame index 3.
   */
  method ResizeMidAccumulation(r: Renderer, first: Vec4, next: seq<Vec4>) returns (ghost stale: seq<Vec4>)
    requires r.Valid() && r.accumulate && r.frameIndex == 1
    requires |next| == 2
    modifies r, r.imageData, r.accumulationData
    ensures r.Valid() && r.width == 2 && r.height == 1 && r.frameIndex == 3
    ensures |stale| == 2 && r.accumulationData[..] == AccumulateFrame(stale, next, 2)
    ensures r.imageData[..] == Display(r.accumulationData[..], 2)
  {
    r.OnResize(1, 1);
    r.Render([first]);
    r.OnResize(2, 1);
    stale := r.accumulationData[..];
    r.Render(next);
  }
}
