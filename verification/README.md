# MediaView layout pass

A Dafny model of `MediaView.onLayout`, the layout pass of an Android
`ViewGroup` that holds exactly four children in fixed roles:

1. a media attachment,
2. a title,
3. a description,
4. an image icon.

The pass first asserts that there are exactly four children. Then it works out
the area inside the paddings and runs three stages in order:

- **Attachment.** The attachment is measured "at most" the available width by
  a height cap. The source derives the cap as `(int) (0.9 * availableHeight)`.
  The attachment is laid out at the padding origin.
- **Text.** The title and the description are each measured "at most" the
  whole available area. They are stacked left-aligned directly below the
  attachment.
- **Icon.** The icon is measured against the whole available area. Its right
  edge lines up with the attachment's right edge. Its top is
  `paddingTop + attachmentHeight + (titleHeight + descriptionHeight - iconHeight) / 2`,
  computed with Java's `int` division.

Modules:

- `JavaInt` (`java_int.dfy`): Java's truncating `int` division. It is proved
  equal to an independent description taken from sections 15.17.2 and 15.17.3
  of the Java Language Specification: the quotient whose remainder (section
  15.17.3) is smaller than the divisor and has the dividend's sign.
- `Geometry` (`geometry.dfy`): sizes and rectangles as `View.measure` reports
  them and `View.layout` accepts them, and the gapless vertical column the
  title and the description form.
- `MediaView` (`media_view.dfy`): the container, the children, the three
  stages and `Layout`.
  - A child's `measure` is a total function from an "at most" constraint to
    the size it reports.
  - `Honours` is the framework's promise that, for the constraint the child
    actually receives, the reported size lies between zero and the bound.
  - `IsMediaLayout` is the declarative description of a correct placement.
- `MediaViewProperties` (`media_view_properties.dfy`):
  - the pass produces a placement exactly when that placement meets
    `IsMediaLayout`;
  - the placement depends only on the reported sizes;
  - the placement moves with the paddings;
  - for measured sizes Android can report and non-negative paddings, all
    arithmetic stays inside Java's `int`.
- `MediaViewScenarios` (`media_view_scenarios.dfy`): concrete layouts.

Centring uses truncation. With a negative odd slack (an icon taller than the
text band by an odd number of pixels), Java's `/ 2` rounds toward zero. A floor
reading of the same formula would put the icon one pixel higher. The model
follows the code: `ScenarioOddSlackTruncates` shows the icon starting 10 rows
above the band for a slack of -21, not 11.

## Model

| member | source | states |
|---|---|---|
| MediaView.Layout | app/src/main/java/com/hissar/custommediaview/MediaView.java:30-65 | The pass aborts exactly when the child count is not four, with the mismatch (4, actual count). Otherwise the placement meets `IsMediaLayout`, and every child stays inside the bound of its constraint. |
| MediaView.MeasureAndLayoutMediaAttachment | app/src/main/java/com/hissar/custommediaview/MediaView.java:67-81 | The attachment's top-left corner is the padding origin. It has exactly the size it reports for (available width, cap). It ends inside the right and bottom paddings. |
| MediaView.MeasureAndLayoutTextViews | app/src/main/java/com/hissar/custommediaview/MediaView.java:83-112 | The title starts at the left padding, just below the attachment. The description starts at the left padding, at the title's bottom. Each has exactly the size it reports for the whole available area and fits within it. The description's bottom is the top padding plus the attachment, title and description heights. |
| MediaView.MeasureAndLayoutImageIcon | app/src/main/java/com/hissar/custommediaview/MediaView.java:114-136 | The icon has its reported size. Its right edge is `paddingLeft + attachmentWidth`. It is centred against the text band up to the half pixel truncation loses. An icon no taller than the band lies inside it; a taller one covers it. |
| MediaViewProperties.LayoutCharacterization | app/src/main/java/com/hissar/custommediaview/MediaView.java:30-136 | For four children that honour their constraints, the pass returns a placement exactly when that placement meets the declarative description. So the description has exactly one solution, and the pass finds it. |
| MediaViewProperties.CentredInBandDeterminesTop | app/src/main/java/com/hissar/custommediaview/MediaView.java:126-129 | The centring condition alone forces the icon's top to be the band's top plus Java's truncated half of the slack. |
| MediaViewProperties.LayoutDependsOnlyOnReports | app/src/main/java/com/hissar/custommediaview/MediaView.java:72-124 | Two sets of children that report the same sizes for the constraints the pass issues get the same placement. Only (available width, cap) for the attachment and (available width, available height) for the others matter. |
| MediaViewProperties.LayoutTranslates | app/src/main/java/com/hissar/custommediaview/MediaView.java:76-135 | Growing the left and top paddings, with the measured size growing alongside, moves every child by the same offset and leaves its size unchanged. |
| MediaViewProperties.CoordinatesFitInJavaInt | app/src/main/java/com/hissar/custommediaview/MediaView.java:34-135 | Suppose the measured sizes fit in Android's 24-bit measured-size field and the paddings are non-negative. Then every edge the pass computes, and the slack it halves, fits in a 32-bit `int`. |
| JavaInt.JavaDiv | app/src/main/java/com/hissar/custommediaview/MediaView.java:126-129 | Java's `int /`: the quotient's magnitude is the quotient of the magnitudes. It is positive only when the operands' signs agree and negative only when they differ. `JavaDivCharacterization` ties it to the language's definition. |
| JavaInt.JavaDivIsTruncated | app/src/main/java/com/hissar/custommediaview/MediaView.java:126-129 | The modelled `/` meets Java's definition of the quotient. The remainder is smaller than the divisor in magnitude and has the dividend's sign. |
| JavaInt.TruncatedQuotientIsUnique | app/src/main/java/com/hissar/custommediaview/MediaView.java:126-129 | Any quotient meeting Java's definition equals the modelled `/`. |
| JavaInt.JavaDivCharacterization | app/src/main/java/com/hissar/custommediaview/MediaView.java:126-129 | A value is the modelled `/` exactly when it meets Java's definition of the quotient. |
| JavaInt.JavaDivMatchesEuclideanOnNonNegative | app/src/main/java/com/hissar/custommediaview/MediaView.java:126-129 | For a non-negative slack, Java's halving and Dafny's Euclidean halving agree. |
| JavaInt.JavaDivDiffersFromEuclidean | app/src/main/java/com/hissar/custommediaview/MediaView.java:126-129 | For a slack of -21, Java halves to -10 where Euclidean division gives -11. |
| Geometry.RectAt | app/src/main/java/com/hissar/custommediaview/MediaView.java:76-80 | Laying a child out at a corner with its measured size gives a rectangle with that corner and exactly that extent. |
| Geometry.Column | app/src/main/java/com/hissar/custommediaview/MediaView.java:93-111 | Children laid out one below the other at their measured sizes form a gapless, left-aligned column. Each rectangle has its own size, the first starts at the given top, and each later one starts at the previous one's bottom. |
| Geometry.ColumnBottom | app/src/main/java/com/hissar/custommediaview/MediaView.java:109-111 | A column ends at its top plus the sum of its heights. The text stage uses this for the bottom edge of the description. |
| Geometry.RectAtOfExtent | app/src/main/java/com/hissar/custommediaview/MediaView.java:76-80 | A rectangle is determined by its top-left corner and its extent. |
| MediaViewScenarios.ScenarioAttachmentStage | app/src/main/java/com/hissar/custommediaview/MediaView.java:67-81 | No padding, a 400-by-600 available area, a cap of 540 and an attachment reporting 400x300: the attachment is at (0, 0, 400, 300). |
| MediaViewScenarios.ScenarioTitleStage | app/src/main/java/com/hissar/custommediaview/MediaView.java:90-98 | Below that attachment, a title reporting 400x40 is at (0, 300, 400, 340). |
| MediaViewScenarios.ScenarioDescriptionStage | app/src/main/java/com/hissar/custommediaview/MediaView.java:100-111 | Below that title, a description reporting 400x60 is at (0, 340, 400, 400). |
| MediaViewScenarios.ScenarioTextStage | app/src/main/java/com/hissar/custommediaview/MediaView.java:83-112 | The text stage returns exactly those two rectangles. |
| MediaViewScenarios.ScenarioIconStage | app/src/main/java/com/hissar/custommediaview/MediaView.java:114-136 | With that band, an icon reporting 50x50 is at (350, 325, 400, 375). |
| MediaViewScenarios.ScenarioTallIconStage | app/src/main/java/com/hissar/custommediaview/MediaView.java:114-136 | With that band, an icon reporting 120x120 is at (280, 290, 400, 410): it starts 10 rows above the band and covers it. |
| MediaViewScenarios.ScenarioSmallIconPlacement | app/src/main/java/com/hissar/custommediaview/MediaView.java:30-136 | The whole pass places those four children at exactly those four rectangles. |
| MediaViewScenarios.ScenarioSmallIcon | app/src/main/java/com/hissar/custommediaview/MediaView.java:93-135 | Attachment 300 tall, title 40, description 60, icon 50: the band is rows 300-400 and the icon occupies rows 325-375. |
| MediaViewScenarios.ScenarioOddSlackTruncates | app/src/main/java/com/hissar/custommediaview/MediaView.java:126-135 | The same band with an icon 121 tall puts the icon at rows 290-411. |
| MediaViewScenarios.ScenarioIconFlushRight | app/src/main/java/com/hissar/custommediaview/MediaView.java:130-135 | An attachment 400 wide and an icon 121 wide put the icon at columns 279-400. |
| MediaViewScenarios.ScenarioTextStackOverflows | app/src/main/java/com/hissar/custommediaview/MediaView.java:90-111 | Text children bounded by the whole available height can end the description below the bottom padding: row 1740 of a 600-row container. |
| MediaViewScenarios.ScenarioThreeChildren | app/src/main/java/com/hissar/custommediaview/MediaView.java:31 | Three children abort the pass with the mismatch (4, 3). |

## Left out

- The constructors (`MediaView.java:17-27`) and the `ViewGroup`/`View` base classes: they only delegate to the framework.
- `MeasureSpec.makeMeasureSpec` and its bit packing: the "at most" mode is modelled as the `Honours` promise on the size reported for the given bound. A child that breaks the promise is outside the model.
- MediaView.MeasureAndLayoutMediaAttachment: the height cap is a parameter between 0 and the available height, not `(int) (0.9 * availableHeight)`, because the model has no floating point.
- MediaView.Layout: computes with unbounded integers rather than 32-bit wrap-around. `CoordinatesFitInJavaInt` shows no wrap-around can happen for measured sizes Android can report and non-negative paddings. With negative paddings (which `setPadding` accepts) the source's `int` arithmetic can wrap where the model's does not.
- MediaView.Layout: requires a non-negative available area. A negative bound cannot be honoured by any reported size, so the measure calls are not meaningful there.
- The `changed, l, t, r, b` arguments of `onLayout`: the source never reads them.
- The UI thread and the framework's measure/layout scheduling.
- The `junit` assertion's exception and message: the failure is the `Aborted(ChildCountMismatch(4, n))` result.
