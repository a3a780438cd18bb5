// Geometry shared by the two comparison views: block sizes, the frame that the
// stacked view draws them in, and where each block sits inside that frame.
module Layout {

  /** A width and a height in CSS pixels (or millimetres for a sensor). */
  datatype Size = Size(width: real, height: real)

  /** A block of the stacked view: its offset inside the frame, its size and its
      CSS `zIndex` (a higher one is drawn above a lower one). */
  datatype Placement = Placement(left: real, top: real, size: Size, zIndex: int)

  /** `Math.max` on two numbers. */
  function Max(a: real, b: real): (r: real)
    ensures a <= r && b <= r
    ensures r == a || r == b
  {
    if a < b then b else a
  }

  /** `Math.min` on two numbers. */
  function Min(a: real, b: real): (r: real)
    ensures r <= a && r <= b
    ensures r == a || r == b
  {
    if a < b then a else b
  }

  /** `frame` is at least as wide and as tall as every block. */
  ghost predicate Bounds(frame: Size, blocks: seq<Size>) {
    forall i :: 0 <= i < |blocks| ==>
      blocks[i].width <= frame.width && blocks[i].height <= frame.height
  }

  /** What a fold of `Math.max` starting from 0 leaves in `maxWidth` and
      `maxHeight`: an upper bound of the blocks that is either 0 or the size of
      one of them. */
  ghost predicate IsMaxExtent(frame: Size, blocks: seq<Size>) {
    && 0.0 <= frame.width
    && 0.0 <= frame.height
    && Bounds(frame, blocks)
    && (frame.width == 0.0 || exists i :: 0 <= i < |blocks| && frame.width == blocks[i].width)
    && (frame.height == 0.0 || exists i :: 0 <= i < |blocks| && frame.height == blocks[i].height)
  }

  /** What the fold has seen after the first `k` blocks: a non-negative upper
      bound of them whose width is 0 or block `widest`'s, and whose height is
      0 or block `tallest`'s. */
  ghost predicate PrefixExtent(frame: Size, blocks: seq<Size>, k: nat, widest: nat, tallest: nat) {
    && k <= |blocks|
    && 0.0 <= frame.width
    && 0.0 <= frame.height
    && (forall i :: 0 <= i < k ==> blocks[i].width <= frame.width && blocks[i].height <= frame.height)
    && (frame.width == 0.0 || (widest < k && frame.width == blocks[widest].width))
    && (frame.height == 0.0 || (tallest < k && frame.height == blocks[tallest].height))
  }

  /** One step of the fold: `Math.max` with the next block's sides. */
  lemma PrefixExtentStep(frame: Size, blocks: seq<Size>, k: nat, widest: nat, tallest: nat)
    requires PrefixExtent(frame, blocks, k, widest, tallest) && k < |blocks|
    ensures PrefixExtent(Size(Max(frame.width, blocks[k].width), Max(frame.height, blocks[k].height)),
                         blocks, k + 1,
                         if frame.width < blocks[k].width then k else widest,
                         if frame.height < blocks[k].height then k else tallest)
  {
  }

  /** Once every block has been seen, the fold holds the maximum extent. */
  lemma PrefixExtentDone(frame: Size, blocks: seq<Size>, widest: nat, tallest: nat)
    requires PrefixExtent(frame, blocks, |blocks|, widest, tallest)
    ensures IsMaxExtent(frame, blocks)
  {
  }

  /** No block has a negative side. */
  ghost predicate NonNegative(blocks: seq<Size>) {
    forall i :: 0 <= i < |blocks| ==> 0.0 <= blocks[i].width && 0.0 <= blocks[i].height
  }

  /** Of an empty selection the extent is 0 by 0; of a non-empty selection of
      blocks with no negative side it is the width of one block and the height of
      one block; and it is the least upper bound. */
  lemma MaxExtentIsTight(frame: Size, blocks: seq<Size>)
    requires IsMaxExtent(frame, blocks)
    ensures blocks == [] ==> frame == Size(0.0, 0.0)
    ensures |blocks| > 0 && NonNegative(blocks) ==>
      (exists i :: 0 <= i < |blocks| && frame.width == blocks[i].width) &&
      (exists i :: 0 <= i < |blocks| && frame.height == blocks[i].height)
    ensures forall other: Size :: Bounds(other, blocks) && 0.0 <= other.width && 0.0 <= other.height ==>
      frame.width <= other.width && frame.height <= other.height
  {
    if |blocks| > 0 && NonNegative(blocks) {
      if frame.width == 0.0 {
        assert blocks[0].width == 0.0;
      }
      if frame.height == 0.0 {
        assert blocks[0].height == 0.0;
      }
    }
  }

  /** The stacked view: block `i` is offset by half the free space on each axis
      and gets `zIndex` `i + 1`. */
  function Stack(blocks: seq<Size>, frame: Size): (r: seq<Placement>)
    ensures |r| == |blocks|
    ensures forall i :: 0 <= i < |r| ==> r[i].size == blocks[i] && r[i].zIndex == i + 1
  {
    seq(|blocks|, i requires 0 <= i < |blocks| =>
      Placement((frame.width - blocks[i].width) / 2.0, (frame.height - blocks[i].height) / 2.0, blocks[i], i + 1))
  }

  /** `inner` lies within `outer`. */
  predicate Inside(inner: Placement, outer: Placement) {
    && outer.left <= inner.left
    && inner.left + inner.size.width <= outer.left + outer.size.width
    && outer.top <= inner.top
    && inner.top + inner.size.height <= outer.top + outer.size.height
  }

  /** Every stacked block has its centre on the frame's centre, and lies inside
      the frame when the frame bounds all blocks. */
  lemma StackCentred(blocks: seq<Size>, frame: Size, i: int)
    requires 0 <= i < |blocks|
    ensures var p := Stack(blocks, frame)[i];
      && p.left + p.size.width / 2.0 == frame.width / 2.0
      && p.top + p.size.height / 2.0 == frame.height / 2.0
    ensures Bounds(frame, blocks) ==> Inside(Stack(blocks, frame)[i], Placement(0.0, 0.0, frame, 0))
  {
  }

  /** Blocks no larger than the ones before them, in both dimensions. */
  ghost predicate LargestFirst(blocks: seq<Size>) {
    forall i, j :: 0 <= i < j < |blocks| ==>
      blocks[j].width <= blocks[i].width && blocks[j].height <= blocks[i].height
  }

  /** In largest-first order each later block lies inside every earlier one and
      is drawn above it: no block hides a smaller one. */
  lemma StackNested(blocks: seq<Size>, frame: Size, i: int, j: int)
    requires LargestFirst(blocks)
    requires 0 <= i < j < |blocks|
    ensures Inside(Stack(blocks, frame)[j], Stack(blocks, frame)[i])
    ensures Stack(blocks, frame)[i].zIndex < Stack(blocks, frame)[j].zIndex
  {
  }

  /** What a comparison view draws, in drawing order: either the blocks
      stacked in a frame, or a column of blocks one under the other. */
  datatype View<K> =
    | Stacked(frame: Size, keys: seq<K>, placements: seq<Placement>)
    | Column(keys: seq<K>, blocks: seq<Size>)
}
