// The sensor comparison: each selected sensor format is drawn as a block
// proportional to its size in millimetres, with the medium-format width mapped
// to the container's width or to 600 pixels, whichever is smaller; the blocks
// are either stacked, centred, largest area at the bottom, or shown in a
// column, smallest area first.
module SensorComparison {
  import opened Js
  import opened Layout
  import App

  /** A sensor format's size in millimetres and the name printed on its block. */
  datatype SensorSpec = SensorSpec(width: real, height: real, name: string)

  const SENSOR_DIMENSIONS: map<string, SensorSpec> := map[
    "medium-format" := SensorSpec(53.0, 40.0, "Medium Format"),
    "full-frame" := SensorSpec(36.0, 24.0, "Full Frame (35mm)"),
    "aps-c" := SensorSpec(23.6, 15.6, "APS-C"),
    "m43" := SensorSpec(17.3, 13.0, "M43"),
    "1-inch" := SensorSpec(13.2, 8.8, "1 inch"),
    "2-3-inch" := SensorSpec(8.8, 6.6, "2/3 inch"),
    "1-1.7-inch" := SensorSpec(7.6, 5.7, "1/1.7 inch"),
    "1-2.3-inch" := SensorSpec(6.3, 4.7, "1/2.3 inch"),
    "1-3-inch" := SensorSpec(4.8, 3.6, "1/3 inch")
  ]

  /** The format whose width the scale is taken from. */
  const REFERENCE_SENSOR: string := "medium-format"

  /** The widest the reference format is ever drawn, in pixels. */
  const MAX_DISPLAY_WIDTH: real := 600.0

  /** The horizontal padding subtracted from the container's width. */
  const PADDING: real := 48.0

  /** The area in square millimetres, the sort key of `sortedSensors`. A key
      outside the table would make the comparator throw; it is given 0 here
      and never occurs in a selection the app builds. */
  function Area(key: string): (r: real)
    ensures key in SENSOR_DIMENSIONS ==> 0.0 < r
  {
    if key in SENSOR_DIMENSIONS then SENSOR_DIMENSIONS[key].width * SENSOR_DIMENSIONS[key].height else 0.0
  }

  /** The table entry of the `i`-th offered format. */
  function OptionSpec(i: nat): SensorSpec
    requires i < |App.SENSOR_OPTIONS|
  {
    SENSOR_DIMENSIONS[App.SENSOR_OPTIONS[i]]
  }

  /** The app offers exactly the formats the table has sizes for, and each
      block is labelled with the English name the app's controls use. */
  lemma OptionsHaveDimensions()
    ensures forall k :: k in App.SENSOR_OPTIONS <==> k in SENSOR_DIMENSIONS
    ensures forall k :: k in SENSOR_DIMENSIONS ==>
      k in App.ENGLISH_SENSOR_NAMES && SENSOR_DIMENSIONS[k].name == App.ENGLISH_SENSOR_NAMES[k]
  {
  }

  /** Each offered format is narrower, shorter and smaller in area than the one
      offered before it. */
  lemma NextIsSmaller(i: nat)
    requires i + 1 < |App.SENSOR_OPTIONS|
    ensures OptionSpec(i + 1).width < OptionSpec(i).width
    ensures OptionSpec(i + 1).height < OptionSpec(i).height
    ensures Area(App.SENSOR_OPTIONS[i + 1]) < Area(App.SENSOR_OPTIONS[i])
  {
    if i == 0 {
    } else if i == 1 {
    } else if i == 2 {
    } else if i == 3 {
    } else if i == 4 {
    } else if i == 5 {
    } else if i == 6 {
    } else {
    }
  }

  /** The offered formats are in strictly decreasing width, height and area. */
  lemma {:induction false} LaterIsSmaller(i: nat, j: nat)
    requires i < j < |App.SENSOR_OPTIONS|
    ensures OptionSpec(j).width < OptionSpec(i).width
    ensures OptionSpec(j).height < OptionSpec(i).height
    ensures Area(App.SENSOR_OPTIONS[j]) < Area(App.SENSOR_OPTIONS[i])
    decreases j - i
  {
    NextIsSmaller(i);
    if i + 1 < j {
      LaterIsSmaller(i + 1, j);
    }
  }

  /** The position of a format among the offered ones. */
  lemma OptionIndex(key: string) returns (i: nat)
    requires key in SENSOR_DIMENSIONS
    ensures i < |App.SENSOR_OPTIONS| && App.SENSOR_OPTIONS[i] == key
  {
    OptionsHaveDimensions();
    i :| i < |App.SENSOR_OPTIONS| && App.SENSOR_OPTIONS[i] == key;
  }

  /** Among the formats, a smaller area means a smaller width and a smaller
      height: ordering by area orders by both sides. */
  lemma AreaOrderIsSizeOrder(a: string, b: string)
    requires a in SENSOR_DIMENSIONS && b in SENSOR_DIMENSIONS
    requires Area(a) <= Area(b)
    ensures SENSOR_DIMENSIONS[a].width <= SENSOR_DIMENSIONS[b].width
    ensures SENSOR_DIMENSIONS[a].height <= SENSOR_DIMENSIONS[b].height
  {
    var i := OptionIndex(a);
    var j := OptionIndex(b);
    if i < j {
      LaterIsSmaller(i, j);
    } else if j < i {
      LaterIsSmaller(j, i);
    }
  }

  /** Medium format is the widest and the tallest format, which is why its width
      serves as the reference. */
  lemma ReferenceIsLargest(key: string)
    requires key in SENSOR_DIMENSIONS
    ensures SENSOR_DIMENSIONS[key].width <= SENSOR_DIMENSIONS[REFERENCE_SENSOR].width
    ensures SENSOR_DIMENSIONS[key].height <= SENSOR_DIMENSIONS[REFERENCE_SENSOR].height
  {
    var i := OptionIndex(key);
    if 0 < i {
      LaterIsSmaller(0, i);
    }
  }

  /** `calculateDimensions`: the format's size scaled by
      min(containerWidth, 600) / 53. */
  function CalculateDimensions(containerWidth: real, key: string): (r: Size)
    requires key in SENSOR_DIMENSIONS
    ensures r.width * SENSOR_DIMENSIONS[key].height == r.height * SENSOR_DIMENSIONS[key].width
    ensures key == REFERENCE_SENSOR ==> r.width == Min(containerWidth, MAX_DISPLAY_WIDTH)
    ensures 0.0 <= containerWidth ==>
      && 0.0 <= r.width <= Min(containerWidth, MAX_DISPLAY_WIDTH)
      && 0.0 <= r.height
  {
    var dimensions := SENSOR_DIMENSIONS[key];
    var maxSensorWidth := SENSOR_DIMENSIONS[REFERENCE_SENSOR].width;
    var baseWidth := Min(containerWidth, MAX_DISPLAY_WIDTH);
    var scaleFactor := baseWidth / maxSensorWidth;
    ReferenceIsLargest(key);
    assert 0.0 <= containerWidth ==> dimensions.width * scaleFactor <= maxSensorWidth * scaleFactor;
    Size(dimensions.width * scaleFactor, dimensions.height * scaleFactor)
  }

  /** All blocks share one scale: any two formats are drawn in the proportions
      of their sizes in millimetres, width to width and height to height. */
  lemma SameScale(containerWidth: real, a: string, b: string)
    requires a in SENSOR_DIMENSIONS && b in SENSOR_DIMENSIONS
    ensures CalculateDimensions(containerWidth, a).width * SENSOR_DIMENSIONS[b].width
         == CalculateDimensions(containerWidth, b).width * SENSOR_DIMENSIONS[a].width
    ensures CalculateDimensions(containerWidth, a).height * SENSOR_DIMENSIONS[b].height
         == CalculateDimensions(containerWidth, b).height * SENSOR_DIMENSIONS[a].height
  {
    var scaleFactor := Min(containerWidth, MAX_DISPLAY_WIDTH) / 53.0;
    assert CalculateDimensions(containerWidth, a).width == SENSOR_DIMENSIONS[a].width * scaleFactor;
    assert CalculateDimensions(containerWidth, b).width == SENSOR_DIMENSIONS[b].width * scaleFactor;
    assert CalculateDimensions(containerWidth, a).height == SENSOR_DIMENSIONS[a].height * scaleFactor;
    assert CalculateDimensions(containerWidth, b).height == SENSOR_DIMENSIONS[b].height * scaleFactor;
  }

  /** At a non-negative container width, a format of larger area gets a block
      at least as wide and as tall. */
  lemma LargerAreaNotSmaller(containerWidth: real, a: string, b: string)
    requires 0.0 <= containerWidth
    requires a in SENSOR_DIMENSIONS && b in SENSOR_DIMENSIONS && Area(a) <= Area(b)
    ensures CalculateDimensions(containerWidth, a).width <= CalculateDimensions(containerWidth, b).width
    ensures CalculateDimensions(containerWidth, a).height <= CalculateDimensions(containerWidth, b).height
  {
    AreaOrderIsSizeOrder(a, b);
    var scaleFactor := Min(containerWidth, MAX_DISPLAY_WIDTH) / 53.0;
    assert 0.0 <= scaleFactor;
    assert SENSOR_DIMENSIONS[a].width * scaleFactor <= SENSOR_DIMENSIONS[b].width * scaleFactor;
    assert SENSOR_DIMENSIONS[a].height * scaleFactor <= SENSOR_DIMENSIONS[b].height * scaleFactor;
  }

  /** The sort key of the area comparator `(a, b) => area(b) - area(a)`. */
  function LargestAreaFirst(key: string): real {
    -Area(key)
  }

  /** `sortedSensors`: the selection, largest area first. */
  function SortedSensors(selected: seq<string>): (r: seq<string>)
    ensures multiset(r) == multiset(selected)
    ensures forall i, j :: 0 <= i < j < |r| ==> Area(r[j]) <= Area(r[i])
  {
    var r := SortBy(selected, LargestAreaFirst);
    assert forall i, j :: 0 <= i < j < |r| ==> LargestAreaFirst(r[i]) <= LargestAreaFirst(r[j]);
    r
  }

  /** The column view's order, `[...sortedSensors].reverse()`: the same
      formats, smallest area first. */
  lemma ColumnIsAscending(selected: seq<string>)
    ensures multiset(Reverse(SortedSensors(selected))) == multiset(selected)
    ensures var r := Reverse(SortedSensors(selected));
      forall i, j :: 0 <= i < j < |r| ==> Area(r[i]) <= Area(r[j])
  {
    ReverseMultiset(SortedSensors(selected));
  }

  /** The block sizes of a sequence of formats. */
  function Blocks(containerWidth: real, keys: seq<string>): (r: seq<Size>)
    requires forall k :: k in keys ==> k in SENSOR_DIMENSIONS
    ensures |r| == |keys|
    ensures forall i :: 0 <= i < |r| ==> r[i] == CalculateDimensions(containerWidth, keys[i])
  {
    seq(|keys|, i requires 0 <= i < |keys| => CalculateDimensions(containerWidth, keys[i]))
  }

  /** The `forEach` over the selection that keeps the largest width and the
      largest height seen, starting from 0. */
  method MaxExtent(containerWidth: real, selected: seq<string>) returns (frame: Size)
    requires forall k :: k in selected ==> k in SENSOR_DIMENSIONS
    ensures IsMaxExtent(frame, Blocks(containerWidth, selected))
  {
    ghost var blocks := Blocks(containerWidth, selected);
    var maxWidth := 0.0;
    var maxHeight := 0.0;
    // the blocks whose width and height the maxima currently are
    ghost var widest, tallest := 0, 0;
    for k := 0 to |selected|
      invariant PrefixExtent(Size(maxWidth, maxHeight), blocks, k, widest, tallest)
    {
      var size := CalculateDimensions(containerWidth, selected[k]);
      assert size == blocks[k];
      PrefixExtentStep(Size(maxWidth, maxHeight), blocks, k, widest, tallest);
      if maxWidth < size.width {
        widest := k;
      }
      if maxHeight < size.height {
        tallest := k;
      }
      maxWidth := Max(maxWidth, size.width);
      maxHeight := Max(maxHeight, size.height);
    }
    PrefixExtentDone(Size(maxWidth, maxHeight), blocks, widest, tallest);
    frame := Size(maxWidth, maxHeight);
  }

  /** The frame of the stacked view is never wider than the container nor than
      600 pixels, and is exactly that wide when medium format is selected. */
  lemma FrameWidth(containerWidth: real, selected: seq<string>, frame: Size)
    requires 0.0 <= containerWidth
    requires forall k :: k in selected ==> k in SENSOR_DIMENSIONS
    requires IsMaxExtent(frame, Blocks(containerWidth, selected))
    ensures frame.width <= Min(containerWidth, MAX_DISPLAY_WIDTH)
    ensures REFERENCE_SENSOR in selected ==> frame.width == Min(containerWidth, MAX_DISPLAY_WIDTH)
  {
    var blocks := Blocks(containerWidth, selected);
    if frame.width != 0.0 {
      var i :| 0 <= i < |blocks| && frame.width == blocks[i].width;
      assert frame.width == CalculateDimensions(containerWidth, selected[i]).width;
    }
    if REFERENCE_SENSOR in selected {
      var i :| 0 <= i < |selected| && selected[i] == REFERENCE_SENSOR;
      assert blocks[i].width <= frame.width;
    }
  }

  /** In the stacked view every block lies inside the frame, each smaller
      format lies inside every larger one and is drawn above it, so every
      selected block stays visible. */
  lemma StackedBlocksNest(containerWidth: real, selected: seq<string>, frame: Size, i: int, j: int)
    requires 0.0 <= containerWidth
    requires forall k :: k in selected ==> k in SENSOR_DIMENSIONS
    requires IsMaxExtent(frame, Blocks(containerWidth, selected))
    requires 0 <= i < j < |selected|
    ensures var keys := SortedSensors(selected);
      var placements := Stack(Blocks(containerWidth, keys), frame);
      && |placements| == |selected|
      && Inside(placements[i], Placement(0.0, 0.0, frame, 0))
      && Inside(placements[j], placements[i])
      && placements[i].zIndex < placements[j].zIndex
  {
    var keys := SortedSensors(selected);
    assert forall k :: k in keys ==> k in selected by {
      forall k | k in keys ensures k in selected {
        assert k in multiset(keys);
      }
    }
    var blocks := Blocks(containerWidth, keys);
    var selectedBlocks := Blocks(containerWidth, selected);
    assert Bounds(frame, blocks) by {
      forall k | 0 <= k < |blocks|
        ensures blocks[k].width <= frame.width && blocks[k].height <= frame.height
      {
        assert keys[k] in selected;
        var m :| 0 <= m < |selected| && selected[m] == keys[k];
        assert blocks[k] == selectedBlocks[m];
      }
    }
    assert LargestFirst(blocks) by {
      forall a, b | 0 <= a < b < |blocks|
        ensures blocks[b].width <= blocks[a].width && blocks[b].height <= blocks[a].height
      {
        LargerAreaNotSmaller(containerWidth, keys[b], keys[a]);
      }
    }
    StackCentred(blocks, frame, i);
    StackNested(blocks, frame, i, j);
  }

  /** The sensor comparison's state: whether the blocks are stacked, and the
      container's width less its padding. */
  class SensorComparisonView {
    var isStacked: bool
    var containerWidth: real

    constructor()
      ensures !isStacked && containerWidth == 0.0
    {
      isStacked := false;
      containerWidth := 0.0;
    }

    /** The stacking switch. */
    method ToggleStacked()
      modifies this
      ensures isStacked == !old(isStacked)
      ensures containerWidth == old(containerWidth)
    {
      isStacked := !isStacked;
    }

    /** `updateWidth`, run on mount and on every window resize. */
    method UpdateWidth(containerPresent: bool, offsetWidth: nat)
      modifies this
      ensures isStacked == old(isStacked)
      ensures containerPresent ==> containerWidth == offsetWidth as real - PADDING
      ensures !containerPresent ==> containerWidth == old(containerWidth)
    {
      if containerPresent {
        containerWidth := offsetWidth as real - PADDING;
      }
    }

    /** What the component draws for a selection: stacked, the largest area
        first (lowest) in a frame of the largest width and height; otherwise a
        column, smallest area first. */
    method Render(selected: seq<string>) returns (v: View<string>)
      requires forall k :: k in selected ==> k in SENSOR_DIMENSIONS
      ensures isStacked ==>
        && v.Stacked?
        && IsMaxExtent(v.frame, Blocks(containerWidth, selected))
        && v.keys == SortedSensors(selected)
        && v.placements == Stack(Blocks(containerWidth, v.keys), v.frame)
      ensures !isStacked ==>
        && v.Column?
        && v.keys == Reverse(SortedSensors(selected))
        && v.blocks == Blocks(containerWidth, v.keys)
    {
      var sortedSensors := SortedSensors(selected);
      assert forall k :: k in sortedSensors ==> k in selected by {
        forall k | k in sortedSensors ensures k in selected {
          assert k in multiset(sortedSensors);
        }
      }
      var frame := MaxExtent(containerWidth, selected);
      if isStacked {
        v := Stacked(frame, sortedSensors, Stack(Blocks(containerWidth, sortedSensors), frame));
      } else {
        var column := Reverse(sortedSensors);
        assert forall k :: k in column ==> k in sortedSensors;
        v := Column(column, Blocks(containerWidth, column));
      }
    }
  }
}
