/**
 Properties of the `MediaView` layout pass that relate several calls or tie
 the computed placement to its declarative description.
 */
module MediaViewProperties {
  import opened JavaInt
  import opened Geometry
  import opened MediaView

  /** The centring condition pins the icon's top to Java's truncated half of the
      slack between the band and the icon. */
  lemma CentredInBandDeterminesTop(icon: Rect, bandTop: int, bandBottom: int)
    requires CentredInBand(icon, bandTop, bandBottom)
    ensures icon.top == bandTop + JavaDiv((bandBottom - bandTop) - icon.Height(), 2)
  {
    var slack := (bandBottom - bandTop) - icon.Height();
    assert IsTruncatedQuotient(slack, 2, icon.top - bandTop);
    TruncatedQuotientIsUnique(slack, 2, icon.top - bandTop);
  }

  /** The layout pass places the children in a given way exactly when that
      placement meets the declarative description: it produces one, and it is
      the only one. */
  lemma LayoutCharacterization(c: Container, attachmentCap: int, children: seq<Measure>, p: Placement)
    requires |children| == ChildCount && Admissible(c, attachmentCap, children)
    ensures Layout(c, attachmentCap, children) == Placed(p) <==> IsMediaLayout(c, attachmentCap, children, p)
  {
    if IsMediaLayout(c, attachmentCap, children, p) {
      CentredInBandDeterminesTop(p.icon, p.title.top, p.description.bottom);
      RectAtOfExtent(p.attachment);
      RectAtOfExtent(p.title);
      RectAtOfExtent(p.description);
    }
  }

  /** The placement depends on the children only through the sizes they report
      for the constraints the layout pass actually gives them: the attachment's
      (available width, cap) and everyone else's (available width, available height). */
  lemma LayoutDependsOnlyOnReports(c: Container, attachmentCap: int, children: seq<Measure>, others: seq<Measure>)
    requires |children| == ChildCount && Admissible(c, attachmentCap, children)
    requires |others| == ChildCount && Admissible(c, attachmentCap, others)
    requires children[0](c.AvailableWidth(), attachmentCap) == others[0](c.AvailableWidth(), attachmentCap)
    requires forall i :: 1 <= i < ChildCount ==>
      children[i](c.AvailableWidth(), c.AvailableHeight()) == others[i](c.AvailableWidth(), c.AvailableHeight())
    ensures Layout(c, attachmentCap, children) == Layout(c, attachmentCap, others)
  {
    assert children[1](c.AvailableWidth(), c.AvailableHeight()) == others[1](c.AvailableWidth(), c.AvailableHeight());
    assert children[2](c.AvailableWidth(), c.AvailableHeight()) == others[2](c.AvailableWidth(), c.AvailableHeight());
    assert children[3](c.AvailableWidth(), c.AvailableHeight()) == others[3](c.AvailableWidth(), c.AvailableHeight());
  }

  /** Growing the left and top paddings by `dx` and `dy` (and the measured size
      with them, so the available area is unchanged) moves every child by
      `(dx, dy)` and changes nothing else. */
  lemma LayoutTranslates(c: Container, attachmentCap: int, children: seq<Measure>, dx: int, dy: int)
    requires |children| == ChildCount && Admissible(c, attachmentCap, children)
    ensures
      var moved := c.(measuredWidth := c.measuredWidth + dx, measuredHeight := c.measuredHeight + dy,
                      paddingLeft := c.paddingLeft + dx, paddingTop := c.paddingTop + dy);
      var p, q := Layout(c, attachmentCap, children).placement, Layout(moved, attachmentCap, children).placement;
      && q.attachment == p.attachment.Translate(dx, dy)
      && q.title == p.title.Translate(dx, dy)
      && q.description == p.description.Translate(dx, dy)
      && q.icon == p.icon.Translate(dx, dy)
  {
  }

  /** Android keeps a measured size in the low 24 bits of an `int` (`View.MEASURED_SIZE_MASK`). */
  const MaxMeasuredSize: int := 0xFF_FFFF

  /** Java's `int` is 32-bit two's complement. */
  predicate InJavaInt(x: int)
  {
    -0x8000_0000 <= x < 0x8000_0000
  }

  /** With a container no larger than a measured size can be and non-negative
      paddings, every coordinate the layout pass computes, and the slack it
      halves, fits in a Java `int`, so the unbounded arithmetic of this model is
      the source's 32-bit arithmetic. */
  lemma CoordinatesFitInJavaInt(c: Container, attachmentCap: int, children: seq<Measure>)
    requires |children| == ChildCount && Admissible(c, attachmentCap, children)
    requires 0 <= c.measuredWidth <= MaxMeasuredSize && 0 <= c.measuredHeight <= MaxMeasuredSize
    requires 0 <= c.paddingLeft && 0 <= c.paddingTop && 0 <= c.paddingRight && 0 <= c.paddingBottom
    ensures
      var p := Layout(c, attachmentCap, children).placement;
      && InJavaInt(p.title.Height() + p.description.Height() - p.icon.Height())
      && forall r :: r in [p.attachment, p.title, p.description, p.icon] ==>
           InJavaInt(r.left) && InJavaInt(r.top) && InJavaInt(r.right) && InJavaInt(r.bottom)
  {
  }
}
