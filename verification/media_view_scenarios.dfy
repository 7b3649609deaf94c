/**
 Concrete layouts. Each scenario fixes the padding and the sizes the children
 report for the constraints the layout pass gives them (the attachment's
 (available width, cap), everyone else's (available width, available height))
 and states where the pass puts the children.
 */
module MediaViewScenarios {
  import opened Geometry
  import opened MediaView

  /** Attachment 300 tall, title 40, description 60, icon 50: the text band is
      rows 300-400 and the icon sits in its middle, rows 325-375. */
  lemma ScenarioSmallIcon(c: Container, attachmentCap: int, children: seq<Measure>)
    requires |children| == ChildCount && Admissible(c, attachmentCap, children)
    requires c.paddingTop == 0
    requires children[0](c.AvailableWidth(), attachmentCap).height == 300
    requires children[1](c.AvailableWidth(), c.AvailableHeight()).height == 40
    requires children[2](c.AvailableWidth(), c.AvailableHeight()).height == 60
    requires children[3](c.AvailableWidth(), c.AvailableHeight()).height == 50
    ensures
      var p := Layout(c, attachmentCap, children).placement;
      && p.title.top == 300 && p.description.top == 340 && p.description.bottom == 400
      && p.icon.top == 325 && p.icon.bottom == 375
  {
  }

  /** The same band with an icon 121 tall: the slack is -21 and Java truncates
      its half to -10, so the icon starts 10 rows above the band, not 11. */
  lemma ScenarioOddSlackTruncates(c: Container, attachmentCap: int, children: seq<Measure>)
    requires |children| == ChildCount && Admissible(c, attachmentCap, children)
    requires c.paddingTop == 0
    requires children[0](c.AvailableWidth(), attachmentCap).height == 300
    requires children[1](c.AvailableWidth(), c.AvailableHeight()).height == 40
    requires children[2](c.AvailableWidth(), c.AvailableHeight()).height == 60
    requires children[3](c.AvailableWidth(), c.AvailableHeight()).height == 121
    ensures
      var p := Layout(c, attachmentCap, children).placement;
      && p.title.top == 300 && p.description.bottom == 400
      && p.icon.top == 290 && p.icon.bottom == 411
  {
  }

  /** An attachment 400 wide and an icon 121 wide: the icon spans columns
      279-400, ending where the attachment ends. */
  lemma ScenarioIconFlushRight(c: Container, attachmentCap: int, children: seq<Measure>)
    requires |children| == ChildCount && Admissible(c, attachmentCap, children)
    requires c.paddingLeft == 0
    requires children[0](c.AvailableWidth(), attachmentCap).width == 400
    requires children[3](c.AvailableWidth(), c.AvailableHeight()).width == 121
    ensures
      var p := Layout(c, attachmentCap, children).placement;
      && p.attachment.right == 400
      && p.icon.left == 279 && p.icon.right == 400
  {
  }

  /** Each text child is bounded by the whole available height, not by what the
      attachment leaves, so the stack may run past the bottom padding: in a
      container 600 tall without padding, children reporting their full bounds
      end the description at row 1740. */
  lemma ScenarioTextStackOverflows(c: Container, attachmentCap: int, children: seq<Measure>)
    requires |children| == ChildCount && Admissible(c, attachmentCap, children)
    requires c.measuredHeight == 600 && c.paddingTop == 0 && c.paddingBottom == 0
    requires attachmentCap == 540
    requires children[0](c.AvailableWidth(), attachmentCap).height == 540
    requires children[1](c.AvailableWidth(), c.AvailableHeight()).height == 600
    requires children[2](c.AvailableWidth(), c.AvailableHeight()).height == 600
    ensures
      var p := Layout(c, attachmentCap, children).placement;
      && p.title.top == 540 && p.description.top == 1140 && p.description.bottom == 1740
      && p.description.bottom > c.measuredHeight - c.paddingBottom
  {
  }

  /** The 400-by-600 layout stage by stage, in a container without padding whose
      available area is 400 by 600, with an attachment height cap of 540 and
      children reporting attachment 400x300, title 400x40, description 400x60
      and icon 50x50. The attachment fills rows 0-300... */
  lemma ScenarioAttachmentStage(c: Container, attachment: Measure)
    requires c.paddingLeft == 0 && c.paddingTop == 0 && c.AvailableWidth() == 400 && c.AvailableHeight() == 600
    requires attachment(400, 540).width == 400 && attachment(400, 540).height == 300
    ensures MeasureAndLayoutMediaAttachment(c, 540, attachment) == Rect(0, 0, 400, 300)
  {
  }

  /** ...the title rows 300-340... */
  lemma ScenarioTitleStage(c: Container, title: Measure, description: Measure)
    requires c.paddingLeft == 0 && c.paddingTop == 0 && c.AvailableWidth() == 400 && c.AvailableHeight() == 600
    requires title(400, 600).width == 400 && title(400, 600).height == 40
    requires description(400, 600).width == 400 && description(400, 600).height == 60
    ensures
      var r := MeasureAndLayoutTextViews(c, Size(400, 300), title, description).0;
      r.left == 0 && r.top == 300 && r.right == 400 && r.bottom == 340
  {
  }

  /** ...the description rows 340-400... */
  lemma ScenarioDescriptionStage(c: Container, title: Measure, description: Measure)
    requires c.paddingLeft == 0 && c.paddingTop == 0 && c.AvailableWidth() == 400 && c.AvailableHeight() == 600
    requires title(400, 600).width == 400 && title(400, 600).height == 40
    requires description(400, 600).width == 400 && description(400, 600).height == 60
    ensures
      var r := MeasureAndLayoutTextViews(c, Size(400, 300), title, description).1;
      r.left == 0 && r.top == 340 && r.right == 400 && r.bottom == 400
  {
  }

  /** ...so the text stage places both text children at their full rectangles... */
  lemma ScenarioTextStage(c: Container, title: Measure, description: Measure)
    requires c.paddingLeft == 0 && c.paddingTop == 0 && c.AvailableWidth() == 400 && c.AvailableHeight() == 600
    requires title(400, 600).width == 400 && title(400, 600).height == 40
    requires description(400, 600).width == 400 && description(400, 600).height == 60
    ensures MeasureAndLayoutTextViews(c, Size(400, 300), title, description)
      == (Rect(0, 300, 400, 340), Rect(0, 340, 400, 400))
  {
    ScenarioTitleStage(c, title, description);
    ScenarioDescriptionStage(c, title, description);
  }

  /** ...and the icon sits at columns 350-400, rows 325-375: centred in the
      band of rows 300-400 and flush with the attachment's right edge. */
  lemma ScenarioIconStage(c: Container, icon: Measure)
    requires c.paddingLeft == 0 && c.paddingTop == 0 && c.AvailableWidth() == 400 && c.AvailableHeight() == 600
    requires icon(400, 600).width == 50 && icon(400, 600).height == 50
    ensures MeasureAndLayoutImageIcon(c, Size(400, 300), Size(400, 40), Size(400, 60), icon) == Rect(350, 325, 400, 375)
  {
  }

  /** The same layout with an icon 120 by 120, taller than the 100-row
      band, which starts 10 rows above the band and covers it. */
  lemma ScenarioTallIconStage(c: Container, icon: Measure)
    requires c.paddingLeft == 0 && c.paddingTop == 0 && c.AvailableWidth() == 400 && c.AvailableHeight() == 600
    requires icon(400, 600).width == 120 && icon(400, 600).height == 120
    ensures MeasureAndLayoutImageIcon(c, Size(400, 300), Size(400, 40), Size(400, 60), icon) == Rect(280, 290, 400, 410)
  {
  }

  /** The 400-by-600 layout through the whole pass. */
  lemma ScenarioSmallIconPlacement(c: Container, children: seq<Measure>)
    requires |children| == ChildCount && Admissible(c, 540, children)
    requires c.paddingLeft == 0 && c.paddingTop == 0 && c.AvailableWidth() == 400 && c.AvailableHeight() == 600
    requires children[0](400, 540).width == 400 && children[0](400, 540).height == 300
    requires children[1](400, 600).width == 400 && children[1](400, 600).height == 40
    requires children[2](400, 600).width == 400 && children[2](400, 600).height == 60
    requires children[3](400, 600).width == 50 && children[3](400, 600).height == 50
    ensures Layout(c, 540, children)
      == Placed(Placement(Rect(0, 0, 400, 300), Rect(0, 300, 400, 340), Rect(0, 340, 400, 400), Rect(350, 325, 400, 375)))
  {
    ScenarioAttachmentStage(c, children[0]);
    ScenarioTextStage(c, children[1], children[2]);
    ScenarioIconStage(c, children[3]);
  }

  /** Three children: the pass aborts on the count check, whatever they are. */
  lemma ScenarioThreeChildren(c: Container, attachmentCap: int, children: seq<Measure>)
    requires |children| == 3
    ensures Layout(c, attachmentCap, children) == Aborted(ChildCountMismatch(4, 3))
  {
  }
}
