// The resolution comparison: each selected megapixel count is drawn as a block
// proportional to its image size, with the 100 MP image's width mapped to the
// container's width (or to its own width in pixels, whichever is smaller);
// the blocks are either stacked, centred, largest at the bottom, or shown in a
// column, smallest first.
module PixelComparison {
  import opened Js
  import opened Layout
  import App

  /** The image size in pixels of each megapixel count the app offers. */
  const PIXEL_DIMENSIONS: map<nat, Size> := map[
    10 := Size(3888.0, 2592.0),
    20 := Size(5472.0, 3648.0),
    30 := Size(6720.0, 4480.0),
    40 := Size(7744.0, 5163.0),
    60 := Size(9504.0, 6336.0),
    100 := Size(11648.0, 8736.0)
  ]

  /** The resolution whose width the scale is taken from. */
  const REFERENCE_MEGAPIXELS: nat := 100

  /** The horizontal padding subtracted from the container's width. */
  const PADDING: real := 48.0

  /** The app offers exactly the resolutions the table has sizes for. */
  lemma OptionsHaveDimensions()
    ensures forall p :: p in App.MEGAPIXEL_OPTIONS <==> p in PIXEL_DIMENSIONS
  {
  }

  /** The reference image is the widest and tallest in the table, and a higher
      megapixel count is never narrower or shorter. */
  lemma DimensionsGrowWithMegapixels(a: nat, b: nat)
    requires a in PIXEL_DIMENSIONS && b in PIXEL_DIMENSIONS && a <= b
    ensures PIXEL_DIMENSIONS[a].width <= PIXEL_DIMENSIONS[b].width
    ensures PIXEL_DIMENSIONS[a].height <= PIXEL_DIMENSIONS[b].height
    ensures PIXEL_DIMENSIONS[a].width <= PIXEL_DIMENSIONS[REFERENCE_MEGAPIXELS].width
    ensures PIXEL_DIMENSIONS[a].height <= PIXEL_DIMENSIONS[REFERENCE_MEGAPIXELS].height
  {
  }

  /** `calculateDimensions`: the table size scaled by
      min(containerWidth, 11648) / 11648. */
  function CalculateDimensions(containerWidth: real, megapixels: nat): (r: Size)
    requires megapixels in PIXEL_DIMENSIONS
    ensures r.width * PIXEL_DIMENSIONS[megapixels].height == r.height * PIXEL_DIMENSIONS[megapixels].width
    ensures megapixels == REFERENCE_MEGAPIXELS ==>
      r.width == Min(containerWidth, PIXEL_DIMENSIONS[REFERENCE_MEGAPIXELS].width)
    ensures 0.0 <= containerWidth ==>
      && 0.0 <= r.width <= Min(containerWidth, PIXEL_DIMENSIONS[REFERENCE_MEGAPIXELS].width)
      && 0.0 <= r.height
  {
    var dimensions := PIXEL_DIMENSIONS[megapixels];
    var maxImageWidth := PIXEL_DIMENSIONS[REFERENCE_MEGAPIXELS].width;
    var baseWidth := Min(containerWidth, maxImageWidth);
    var scaleFactor := baseWidth / maxImageWidth;
    DimensionsGrowWithMegapixels(megapixels, REFERENCE_MEGAPIXELS);
    assert 0.0 <= containerWidth ==> dimensions.width * scaleFactor <= maxImageWidth * scaleFactor;
    Size(dimensions.width * scaleFactor, dimensions.height * scaleFactor)
  }

  /** All blocks share one scale: any two resolutions are drawn in the
      proportions of their image sizes, width to width and height to height. */
  lemma SameScale(containerWidth: real, a: nat, b: nat)
    requires a in PIXEL_DIMENSIONS && b in PIXEL_DIMENSIONS
    ensures CalculateDimensions(containerWidth, a).width * PIXEL_DIMENSIONS[b].width
         == CalculateDimensions(containerWidth, b).width * PIXEL_DIMENSIONS[a].width
    ensures CalculateDimensions(containerWidth, a).height * PIXEL_DIMENSIONS[b].height
         == CalculateDimensions(containerWidth, b).height * PIXEL_DIMENSIONS[a].height
  {
    var scaleFactor := Min(containerWidth, 11648.0) / 11648.0;
    assert CalculateDimensions(containerWidth, a).width == PIXEL_DIMENSIONS[a].width * scaleFactor;
    assert CalculateDimensions(containerWidth, b).width == PIXEL_DIMENSIONS[b].width * scaleFactor;
    assert CalculateDimensions(containerWidth, a).height == PIXEL_DIMENSIONS[a].height * scaleFactor;
    assert CalculateDimensions(containerWidth, b).height == PIXEL_DIMENSIONS[b].height * scaleFactor;
  }

  /** At a non-negative container width, a higher megapixel count gives a
      block at least as wide and as tall. */
  lemma HigherResolutionNotSmaller(containerWidth: real, a: nat, b: nat)
    requires 0.0 <= containerWidth
    requires a in PIXEL_DIMENSIONS && b in PIXEL_DIMENSIONS && a <= b
    ensures CalculateDimensions(containerWidth, a).width <= CalculateDimensions(containerWidth, b).width
    ensures CalculateDimensions(containerWidth, a).height <= CalculateDimensions(containerWidth, b).height
  {
    DimensionsGrowWithMegapixels(a, b);
    var scaleFactor := Min(containerWidth, 11648.0) / 11648.0;
    assert 0.0 <= scaleFactor;
    assert PIXEL_DIMENSIONS[a].width * scaleFactor <= PIXEL_DIMENSIONS[b].width * scaleFactor;
    assert PIXEL_DIMENSIONS[a].height * scaleFactor <= PIXEL_DIMENSIONS[b].height * scaleFactor;
  }

  /** The sort key of `(a, b) => b - a`: larger counts first. */
  function Descending(p: nat): real {
    -(p as real)
  }

  /** `sortedPixels`: the selection, largest first. */
  function SortedPixels(selected: seq<nat>): (r: seq<nat>)
    ensures multiset(r) == multiset(selected)
    ensures forall i, j :: 0 <= i < j < |r| ==> r[j] <= r[i]
  {
    var r := SortBy(selected, Descending);
    assert forall i, j :: 0 <= i < j < |r| ==> Descending(r[i]) <= Descending(r[j]);
    r
  }

  /** The column view's order, `[...sortedPixels].reverse()`: the same
      resolutions, smallest first. */
  lemma ColumnIsAscending(selected: seq<nat>)
    ensures multiset(Reverse(SortedPixels(selected))) == multiset(selected)
    ensures var r := Reverse(SortedPixels(selected));
      forall i, j :: 0 <= i < j < |r| ==> r[i] <= r[j]
  {
    var s := SortedPixels(selected);
    var r := Reverse(s);
    assert multiset(r) == multiset(s) by {
      ReverseMultiset(s);
    }
  }

  /** The block sizes of a sequence of resolutions. */
  function Blocks(containerWidth: real, pixels: seq<nat>): (r: seq<Size>)
    requires forall p :: p in pixels ==> p in PIXEL_DIMENSIONS
    ensures |r| == |pixels|
    ensures forall i :: 0 <= i < |r| ==> r[i] == CalculateDimensions(containerWidth, pixels[i])
  {
    seq(|pixels|, i requires 0 <= i < |pixels| => CalculateDimensions(containerWidth, pixels[i]))
  }

  /** The `forEach` over the selection that keeps the largest width and the
      largest height seen, starting from 0. */
  method MaxExtent(containerWidth: real, selected: seq<nat>) returns (frame: Size)
    requires forall p :: p in selected ==> p in PIXEL_DIMENSIONS
    ensures IsMaxExtent(frame, Blocks(containerWidth, selected))
  {
    ghost var blocks := Blocks(containerWidth, selected);
    var maxWidth := 0.0;
    var maxHeight := 0.0;
    // the blocks whose width and height the maxima currently are
    ghost var widest, tallest := 0, 0;
    for k := 0 to |selected|
      invariant PrefixExtent(Size(maxWidth, maxHeight), blocks, k, widest, tallest)
    {
      var size := CalculateDimensions(containerWidth, selected[k]);
      assert size == blocks[k];
      PrefixExtentStep(Size(maxWidth, maxHeight), blocks, k, widest, tallest);
      if maxWidth < size.width {
        widest := k;
      }
      if maxHeight < size.height {
        tallest := k;
      }
      maxWidth := Max(maxWidth, size.width);
      maxHeight := Max(maxHeight, size.height);
    }
    PrefixExtentDone(Size(maxWidth, maxHeight), blocks, widest, tallest);
    frame := Size(maxWidth, maxHeight);
  }

  /** The frame of the stacked view is never wider than the container (nor
      than the reference image), and is exactly that wide when the reference
      resolution is selected. */
  lemma FrameWidth(containerWidth: real, selected: seq<nat>, frame: Size)
    requires 0.0 <= containerWidth
    requires forall p :: p in selected ==> p in PIXEL_DIMENSIONS
    requires IsMaxExtent(frame, Blocks(containerWidth, selected))
    ensures frame.width <= Min(containerWidth, PIXEL_DIMENSIONS[REFERENCE_MEGAPIXELS].width)
    ensures REFERENCE_MEGAPIXELS in selected ==>
      frame.width == Min(containerWidth, PIXEL_DIMENSIONS[REFERENCE_MEGAPIXELS].width)
  {
    var blocks := Blocks(containerWidth, selected);
    if frame.width != 0.0 {
      var i :| 0 <= i < |blocks| && frame.width == blocks[i].width;
      assert frame.width == CalculateDimensions(containerWidth, selected[i]).width;
    }
    if REFERENCE_MEGAPIXELS in selected {
      var i :| 0 <= i < |selected| && selected[i] == REFERENCE_MEGAPIXELS;
      assert blocks[i].width <= frame.width;
    }
  }

  /** In the stacked view every block lies inside the frame, each smaller
      resolution lies inside every larger one and is drawn above it, so every
      selected block stays visible. */
  lemma StackedBlocksNest(containerWidth: real, selected: seq<nat>, frame: Size, i: int, j: int)
    requires 0.0 <= containerWidth
    requires forall p :: p in selected ==> p in PIXEL_DIMENSIONS
    requires IsMaxExtent(frame, Blocks(containerWidth, selected))
    requires 0 <= i < j < |selected|
    ensures var keys := SortedPixels(selected);
      var placements := Stack(Blocks(containerWidth, keys), frame);
      && |placements| == |selected|
      && Inside(placements[i], Placement(0.0, 0.0, frame, 0))
      && Inside(placements[j], placements[i])
      && placements[i].zIndex < placements[j].zIndex
  {
    var keys := SortedPixels(selected);
    assert forall p :: p in keys ==> p in selected by {
      forall p | p in keys ensures p in selected {
        assert p in multiset(keys);
      }
    }
    var blocks := Blocks(containerWidth, keys);
    var selectedBlocks := Blocks(containerWidth, selected);
    assert Bounds(frame, blocks) by {
      forall k | 0 <= k < |blocks|
        ensures blocks[k].width <= frame.width && blocks[k].height <= frame.height
      {
        assert keys[k] in selected;
        var m :| 0 <= m < |selected| && selected[m] == keys[k];
        assert blocks[k] == selectedBlocks[m];
      }
    }
    assert LargestFirst(blocks) by {
      forall a, b | 0 <= a < b < |blocks|
        ensures blocks[b].width <= blocks[a].width && blocks[b].height <= blocks[a].height
      {
        HigherResolutionNotSmaller(containerWidth, keys[b], keys[a]);
      }
    }
    StackCentred(blocks, frame, i);
    StackNested(blocks, frame, i, j);
  }

  /** The resolution comparison's state: whether the blocks are stacked, and
      the container's width less its padding. */
  class PixelComparisonView {
    var isStacked: bool
    var containerWidth: real

    constructor()
      ensures !isStacked && containerWidth == 0.0
    {
      isStacked := false;
      containerWidth := 0.0;
    }

    /** The "Stack Blocks" switch. */
    method ToggleStacked()
      modifies this
      ensures isStacked == !old(isStacked)
      ensures containerWidth == old(containerWidth)
    {
      isStacked := !isStacked;
    }

    /** `updateWidth`, run on mount and on every window resize. */
    method UpdateWidth(containerPresent: bool, offsetWidth: nat)
      modifies this
      ensures isStacked == old(isStacked)
      ensures containerPresent ==> containerWidth == offsetWidth as real - PADDING
      ensures !containerPresent ==> containerWidth == old(containerWidth)
    {
      if containerPresent {
        containerWidth := offsetWidth as real - PADDING;
      }
    }

    /** What the component draws for a selection: stacked, the largest block
        first (lowest) in a frame of the largest width and height; otherwise a
        column, smallest first. */
    method Render(selected: seq<nat>) returns (v: View<nat>)
      requires forall p :: p in selected ==> p in PIXEL_DIMENSIONS
      ensures isStacked ==>
        && v.Stacked?
        && IsMaxExtent(v.frame, Blocks(containerWidth, selected))
        && v.keys == SortedPixels(selected)
        && v.placements == Stack(Blocks(containerWidth, v.keys), v.frame)
      ensures !isStacked ==>
        && v.Column?
        && v.keys == Reverse(SortedPixels(selected))
        && v.blocks == Blocks(containerWidth, v.keys)
    {
      var sortedPixels := SortedPixels(selected);
      assert forall p :: p in sortedPixels ==> p in selected by {
        forall p | p in sortedPixels ensures p in selected {
          assert p in multiset(sortedPixels);
        }
      }
      var frame := MaxExtent(containerWidth, selected);
      if isStacked {
        v := Stacked(frame, sortedPixels, Stack(Blocks(containerWidth, sortedPixels), frame));
      } else {
        var column := Reverse(sortedPixels);
        assert forall p :: p in column ==> p in sortedPixels;
        v := Column(column, Blocks(containerWidth, column));
      }
    }
  }
}
