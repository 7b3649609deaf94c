/**
 Sizes and rectangles in a view's pixel coordinate space (x grows rightward,
 y grows downward), as Android's `View.measure` reports and `View.layout`
 accepts them.
 */
module Geometry {

  /** The size a child reports after measurement. */
  datatype Size = Size(width: int, height: int)

  /** An axis-aligned rectangle given by its four edges, in the argument order of `View.layout`. */
  datatype Rect = Rect(left: int, top: int, right: int, bottom: int) {

    function Width(): (r: int) { right - left }

    function Height(): (r: int) { bottom - top }

    function Extent(): (r: Size) { Size(Width(), Height()) }

    /** The rectangle moved by `dx` to the right and `dy` down. */
    function Translate(dx: int, dy: int): (r: Rect)
      ensures r.Extent() == Extent()
      ensures r.left == left + dx && r.top == top + dy
    {
      Rect(left + dx, top + dy, right + dx, bottom + dy)
    }
  }

  /** The size fits an "at most" constraint of `maxWidth` by `maxHeight`. */
  predicate FitsWithin(s: Size, maxWidth: int, maxHeight: int)
  {
    0 <= s.width <= maxWidth && 0 <= s.height <= maxHeight
  }

  /** The rectangle of size `s` whose top-left corner is `(left, top)`: the
      edges a child receives when it is laid out at exactly its measured size. */
  function RectAt(left: int, top: int, s: Size): (r: Rect)
    ensures r.left == left && r.top == top
    ensures r.Extent() == s
  {
    Rect(left, top, left + s.width, top + s.height)
  }

  /** Rectangles of the given sizes stacked top to bottom without gaps,
      left-aligned at `left`, the first starting at `top`: the edges a vertical
      run of children receives when each is laid out at its measured size
      directly below the previous one. */
  function Column(left: int, top: int, sizes: seq<Size>): (r: seq<Rect>)
    ensures |r| == |sizes|
    ensures forall i :: 0 <= i < |r| ==> r[i].left == left && r[i].Extent() == sizes[i]
    ensures |r| > 0 ==> r[0].top == top
    ensures forall i :: 0 < i < |r| ==> r[i].top == r[i - 1].bottom
    decreases |sizes|
  {
    if sizes == [] then [] else [RectAt(left, top, sizes[0])] + Column(left, top + sizes[0].height, sizes[1..])
  }

  /** The total height of a run of sizes. */
  function SumHeights(sizes: seq<Size>): (r: int)
    decreases |sizes|
  {
    if sizes == [] then 0 else sizes[0].height + SumHeights(sizes[1..])
  }

  /** A column ends its total height below where it starts. */
  lemma {:induction false} ColumnBottom(left: int, top: int, sizes: seq<Size>)
    requires sizes != []
    ensures Column(left, top, sizes)[|sizes| - 1].bottom == top + SumHeights(sizes)
    decreases |sizes|
  {
    if |sizes| > 1 {
      ColumnBottom(left, top + sizes[0].height, sizes[1..]);
      assert Column(left, top, sizes)[|sizes| - 1] == Column(left, top + sizes[0].height, sizes[1..])[|sizes| - 2];
    }
  }

  /** A rectangle is recovered from its corner and its extent. */
  lemma RectAtOfExtent(r: Rect)
    ensures RectAt(r.left, r.top, r.Extent()) == r
  {
  }
}
