/**
 The layout pass of `MediaView`, a container of exactly four children in fixed
 roles: a media attachment, a title, a description and an image icon.

 The attachment sits at the padding origin; the title and the description are
 stacked left-aligned directly below it; the icon's right edge lines up with
 the attachment's right edge and the icon is centred vertically against the
 band the title and the description occupy.

 A child's `measure` is a call into code this model cannot see. It is modelled
 as a total function from an "at most" constraint to the size the child
 reports; `Honours` states what the framework promises of that size for the
 constraint the child actually receives.
 */
module MediaView {
  import opened JavaInt
  import opened Geometry

  /** The number of children the container insists on. */
  const ChildCount: int := 4

  /** The container as the framework hands it to the layout pass: its
      measured size and its four paddings, in pixels. */
  datatype Container = Container(
    measuredWidth: int,
    measuredHeight: int,
    paddingLeft: int,
    paddingTop: int,
    paddingRight: int,
    paddingBottom: int)
  {
    /** Width inside the paddings: the widest any child is allowed to be. */
    function AvailableWidth(): int { measuredWidth - paddingLeft - paddingRight }

    /** Height inside the paddings: the tallest any child is allowed to be. */
    function AvailableHeight(): int { measuredHeight - paddingTop - paddingBottom }

    /** The paddings leave a non-negative area for the children. */
    predicate WellFormed() { AvailableWidth() >= 0 && AvailableHeight() >= 0 }
  }

  /** A child's measurement: given a maximum width and height, the size it reports. */
  type Measure = (int, int) -> Size

  /** Under the "at most" constraint `maxWidth` by `maxHeight` the child reports
      a size between zero and the bound. */
  predicate Honours(m: Measure, maxWidth: int, maxHeight: int)
  {
    FitsWithin(m(maxWidth, maxHeight), maxWidth, maxHeight)
  }

  /** The one failure the layout pass recognises: the assertion on the child count. */
  datatype LayoutError = ChildCountMismatch(expected: int, actual: int)

  /** The rectangle committed to each of the four children. */
  datatype Placement = Placement(attachment: Rect, title: Rect, description: Rect, icon: Rect)

  datatype LayoutResult = Placed(placement: Placement) | Aborted(error: LayoutError)

  /** What the layout pass needs of its inputs once it goes past the child-count
      check: a container with a non-negative available area, an attachment
      height cap inside that area, and children that honour the constraints
      the pass gives them. */
  predicate Admissible(c: Container, attachmentCap: int, children: seq<Measure>)
    requires |children| == ChildCount
  {
    var maxWidth := c.AvailableWidth();
    var maxHeight := c.AvailableHeight();
    && c.WellFormed()
    && 0 <= attachmentCap <= maxHeight
    && Honours(children[0], maxWidth, attachmentCap)
    && Honours(children[1], maxWidth, maxHeight)
    && Honours(children[2], maxWidth, maxHeight)
    && Honours(children[3], maxWidth, maxHeight)
  }

  /** The icon is centred against the band from `bandTop` to `bandBottom` up to
      the half pixel integer arithmetic loses. `offset` is twice the distance from
      the icon's centre up to the band's centre; Java's division truncates toward
      zero, so the lost half pixel lies toward the band's top when the icon is
      shorter than the band and toward its bottom when the icon is taller. */
  ghost predicate CentredInBand(icon: Rect, bandTop: int, bandBottom: int)
  {
    var slack := (bandBottom - bandTop) - icon.Height();
    var offset := (bandTop + bandBottom) - (icon.top + icon.bottom);
    && -1 <= offset <= 1
    && (slack > 0 ==> offset >= 0)
    && (slack < 0 ==> offset <= 0)
  }

  /** The attachment stage: measured against the whole available width and the
      height cap, placed with its top-left corner at the padding origin. */
  function MeasureAndLayoutMediaAttachment(c: Container, attachmentCap: int, attachment: Measure): (r: Rect)
    requires c.WellFormed() && 0 <= attachmentCap <= c.AvailableHeight()
    requires Honours(attachment, c.AvailableWidth(), attachmentCap)
    ensures r.left == c.paddingLeft && r.top == c.paddingTop
    ensures r.Extent() == attachment(c.AvailableWidth(), attachmentCap)
    ensures FitsWithin(r.Extent(), c.AvailableWidth(), attachmentCap)
    ensures c.paddingLeft <= r.right <= c.measuredWidth - c.paddingRight
    ensures c.paddingTop <= r.bottom <= c.measuredHeight - c.paddingBottom
  {
    RectAt(c.paddingLeft, c.paddingTop, attachment(c.AvailableWidth(), attachmentCap))
  }

  /** The text stage: the title and then the description, each measured against
      the whole available area rather than what the attachment leaves, stacked
      left-aligned below an attachment of the given measured size. */
  function MeasureAndLayoutTextViews(c: Container, attachment: Size, title: Measure, description: Measure): (r: (Rect, Rect))
    requires c.WellFormed()
    requires Honours(title, c.AvailableWidth(), c.AvailableHeight())
    requires Honours(description, c.AvailableWidth(), c.AvailableHeight())
    ensures r.0.left == c.paddingLeft && r.0.top == c.paddingTop + attachment.height
    ensures r.0.Extent() == title(c.AvailableWidth(), c.AvailableHeight())
    ensures FitsWithin(r.0.Extent(), c.AvailableWidth(), c.AvailableHeight())
    ensures r.1.left == c.paddingLeft && r.1.top == r.0.bottom
    ensures r.1.Extent() == description(c.AvailableWidth(), c.AvailableHeight())
    ensures FitsWithin(r.1.Extent(), c.AvailableWidth(), c.AvailableHeight())
    ensures r.1.bottom == c.paddingTop + attachment.height + r.0.Height() + r.1.Height()
  {
    var titleSize := title(c.AvailableWidth(), c.AvailableHeight());
    var descriptionSize := description(c.AvailableWidth(), c.AvailableHeight());
    var stack := Column(c.paddingLeft, c.paddingTop + attachment.height, [titleSize, descriptionSize]);
    ColumnBottom(c.paddingLeft, c.paddingTop + attachment.height, [titleSize, descriptionSize]);
    (stack[0], stack[1])
  }

  /** The icon stage: measured against the whole available area, right edge on
      the attachment's right edge, centred against the text band that starts
      below the attachment and is as tall as the title and the description
      together. An icon no taller than the band lies inside it; a taller one
      covers it and sticks out above and below. */
  function MeasureAndLayoutImageIcon(c: Container, attachment: Size, title: Size, description: Size, icon: Measure): (r: Rect)
    requires c.WellFormed()
    requires Honours(icon, c.AvailableWidth(), c.AvailableHeight())
    ensures r.Extent() == icon(c.AvailableWidth(), c.AvailableHeight())
    ensures FitsWithin(r.Extent(), c.AvailableWidth(), c.AvailableHeight())
    ensures r.right == c.paddingLeft + attachment.width
    ensures
      var bandTop := c.paddingTop + attachment.height;
      var bandBottom := bandTop + title.height + description.height;
      && CentredInBand(r, bandTop, bandBottom)
      && (r.Height() <= title.height + description.height ==> bandTop <= r.top && r.bottom <= bandBottom)
      && (r.Height() >= title.height + description.height ==> r.top <= bandTop && bandBottom <= r.bottom)
  {
    var iconSize := icon(c.AvailableWidth(), c.AvailableHeight());
    var slack := title.height + description.height - iconSize.height;
    JavaDivIsTruncated(slack, 2);
    var top := c.paddingTop + attachment.height + JavaDiv(slack, 2);
    var right := c.paddingLeft + attachment.width;
    Rect(right - iconSize.width, top, right, top + iconSize.height)
  }

  /** The declarative description of a correct placement of the four children,
      stated without reference to how the layout pass computes it. */
  ghost predicate IsMediaLayout(c: Container, attachmentCap: int, children: seq<Measure>, p: Placement)
    requires |children| == ChildCount
  {
    var maxWidth := c.AvailableWidth();
    var maxHeight := c.AvailableHeight();
    // every child sits at exactly the size it reports for its constraint
    && p.attachment.Extent() == children[0](maxWidth, attachmentCap)
    && p.title.Extent() == children[1](maxWidth, maxHeight)
    && p.description.Extent() == children[2](maxWidth, maxHeight)
    && p.icon.Extent() == children[3](maxWidth, maxHeight)
    // attachment, title and description: a contiguous left-aligned stack from the padding origin
    && p.attachment.left == c.paddingLeft && p.attachment.top == c.paddingTop
    && p.title.left == c.paddingLeft && p.title.top == p.attachment.bottom
    && p.description.left == c.paddingLeft && p.description.top == p.title.bottom
    // the icon: flush with the attachment's right edge, centred against the text band
    && p.icon.right == p.attachment.right
    && CentredInBand(p.icon, p.title.top, p.description.bottom)
  }

  /** Every child stays within the size bound its constraint sets. */
  ghost predicate WithinConstraints(c: Container, attachmentCap: int, p: Placement)
  {
    var maxWidth := c.AvailableWidth();
    var maxHeight := c.AvailableHeight();
    && FitsWithin(p.attachment.Extent(), maxWidth, attachmentCap)
    && FitsWithin(p.title.Extent(), maxWidth, maxHeight)
    && FitsWithin(p.description.Extent(), maxWidth, maxHeight)
    && FitsWithin(p.icon.Extent(), maxWidth, maxHeight)
  }

  /** The layout pass (`onLayout`). It aborts, before measuring anything, unless
      there are exactly four children; otherwise it runs the attachment, text and
      icon stages in that order, each reading the sizes earlier stages resolved.
      `attachmentCap` is the attachment's height bound, which the source derives
      from the available height in floating point. */
  function Layout(c: Container, attachmentCap: int, children: seq<Measure>): (r: LayoutResult)
    requires |children| == ChildCount ==> Admissible(c, attachmentCap, children)
    ensures r.Aborted? <==> |children| != ChildCount
    ensures r.Aborted? ==> r.error == ChildCountMismatch(ChildCount, |children|)
    ensures r.Placed? ==> IsMediaLayout(c, attachmentCap, children, r.placement)
    ensures r.Placed? ==> WithinConstraints(c, attachmentCap, r.placement)
  {
    if |children| != ChildCount then
      Aborted(ChildCountMismatch(ChildCount, |children|))
    else
      var attachment := MeasureAndLayoutMediaAttachment(c, attachmentCap, children[0]);
      var text := MeasureAndLayoutTextViews(c, attachment.Extent(), children[1], children[2]);
      var icon := MeasureAndLayoutImageIcon(c, attachment.Extent(), text.0.Extent(), text.1.Extent(), children[3]);
      Placed(Placement(attachment, text.0, text.1, icon))
  }
}
