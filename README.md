# BaseConverter: a verified model of the report exporter's row converter

This project models `BaseConverter`, the part of the SharpDevelop report engine that turns
the template rows of one page into laid-out export elements. It covers:

- the converter's state: the current position (`CurrentPosition`), the export collection it
  appends to, and the offset of the section being rendered;
- how plain rows, rows under a group header and group footers are converted;
- the capability test that decides whether a row can be converted at all;
- the single page-break path, and the page break that a group change can force.

The design is a small state machine. `Exporter.BaseConverter` is a class whose methods
change `currentPosition`, the `elements` of an `ExporterCollection`, a `Section`'s
`sectionOffset` and a `ReportItem`'s `size` in place. Each notification the converter fires
is appended to a ghost `trace`, and so is each collaborator call whose order matters:

- `PageFull`, `SectionRendering`, `GroupHeaderRendering`, `GroupFooterRendering` and
  `RowRendering` are the notifications;
- `Filled`, `LaidOut` and `Evaluated` record the data navigator's fill, the layouter and the
  expression evaluator.

The layouter is nondeterministic: it may give the row any size. So when a contract says a size
is put back, that claim has force.

The type filters (`FindGroupHeader`, `FindGroupFooter`, built on `Exporter.OfType`, which models
`Enumerable.OfType`) and the group-break test are pure functions. Lemmas about them state
order, membership, multiplicity, concatenation, idempotence and which item comes first.

Files: `Drawing.dfy` (points, sizes, rectangles), `Wrappers.dfy` (null results and exceptions
as `Option`, `Result` and `Outcome`), `ReportItems.dfy` (template items, sections, export
elements, page, data navigator, layouter), `StandardPrinter.dfy` (the two foreign conversion
helpers, left open), `BaseConverter.dfy` (the converter).

Facts about the code that the model keeps:

- After a page break the section offset is the Y of the page header rectangle
  (BaseConverter.cs:60), and the new position is the origin `(0,0)` (BaseConverter.cs:197).
- A group footer's size is restored twice: once inside `ConvertStandardRow`
  (BaseConverter.cs:268) and once in `ConvertGroupFooter` (BaseConverter.cs:143).
- `BuildNewPage` reads the page's section bounds as they are now (`SinglePage.SectionBounds`,
  BaseConverter.cs:60), not the copy taken at construction (`SectionBounds`, BaseConverter.cs:49).
  The model keeps both.

## Model

| member | source | states |
|---|---|---|
| `Exporter.BaseConverter.Create` | src/AddIns/Misc/Reports/ICSharpCode.Reports.Core/Project/Exporter/Converters/BaseConverter.cs:34-46 | a null data navigator, page or layouter is rejected with ArgumentNull naming the first null one, checked in that order (navigator, page, layouter); with all three present a fresh converter is built |
| `Exporter.BaseConverter.constructor` | src/AddIns/Misc/Reports/ICSharpCode.Reports.Core/Project/Exporter/Converters/BaseConverter.cs:47-51 | keeps the navigator, page and layouter; snapshots the page's section bounds; position starts at the origin with nothing fired |
| `Exporter.BaseConverter.BuildNewPage` | src/AddIns/Misc/Reports/ICSharpCode.Reports.Core/Project/Exporter/Converters/BaseConverter.cs:57-62 | fires PageFull with the collection as it was before clearing; then sets the section offset to the page header rectangle's Y; leaves the collection empty |
| `Exporter.BaseConverter.FirePageFull` | src/AddIns/Misc/Reports/ICSharpCode.Reports.Core/Project/Exporter/Converters/BaseConverter.cs:65-68 | exactly one PageFull notification carrying the given elements |
| `Exporter.BaseConverter.FireRowRendering` | src/AddIns/Misc/Reports/ICSharpCode.Reports.Core/Project/Exporter/Converters/BaseConverter.cs:75-83 | a container that is not a row item fails with ArgumentException("row") and fires nothing; a row fires RowRendering with the row and the given navigator's current record |
| `Exporter.BaseConverter.FireGroupHeaderRendering` | src/AddIns/Misc/Reports/ICSharpCode.Reports.Core/Project/Exporter/Converters/BaseConverter.cs:86-90 | exactly one GroupHeaderRendering notification for the grouped row |
| `Exporter.BaseConverter.FireGroupFooterRendering` | src/AddIns/Misc/Reports/ICSharpCode.Reports.Core/Project/Exporter/Converters/BaseConverter.cs:93-97 | exactly one GroupFooterRendering notification for the footer |
| `Exporter.BaseConverter.FireSectionRendering` | src/AddIns/Misc/Reports/ICSharpCode.Reports.Core/Project/Exporter/Converters/BaseConverter.cs:100-107 | exactly one SectionRendering notification with the section, the page number and the converter's own navigator's current row index |
| `Exporter.BaseConverter.ConvertItems` | src/AddIns/Misc/Reports/ICSharpCode.Reports.Core/Project/Exporter/Converters/BaseConverter.cs:112-131 | the result is null exactly when the row is not a column builder; otherwise it is a one-element collection holding the container StandardPrinter made for the row, whose children are that container's own children followed by StandardPrinter's plain conversion of the row's items |
| `Exporter.BaseConverter.ConvertGroupFooter` | src/AddIns/Misc/Reports/ICSharpCode.Reports.Core/Project/Exporter/Converters/BaseConverter.cs:136-145 | with no group footer among the children nothing is fired, appended or moved; otherwise only the first footer is rendered (GroupFooterRendering, then the standard-row sequence), the position becomes that conversion's result, and every child, the footer included, ends with the size it had before |
| `Exporter.BaseConverter.ConvertGroupChilds` | src/AddIns/Misc/Reports/ICSharpCode.Reports.Core/Project/Exporter/Converters/BaseConverter.cs:147-155 | trace is SectionRendering, layout, RowRendering, evaluate, with no fill; the container keeps its laid-out size; a non-row container fails with ArgumentException("row") after layout, with nothing appended |
| `Exporter.BaseConverter.PageBreakAfterGroupChange` | src/AddIns/Misc/Reports/ICSharpCode.Reports.Core/Project/Exporter/Converters/BaseConverter.cs:158-168 | breaks the page exactly when the section's first grouped row asks for a break and the navigator has more data; then the position is the origin; otherwise trace, collection, offset and position are untouched |
| `Exporter.BaseConverter.CheckPageBreakAfterGroupChange` | src/AddIns/Misc/Reports/ICSharpCode.Reports.Core/Project/Exporter/Converters/BaseConverter.cs:171-179 | true if and only if some item is the first grouped row and that row has PageBreakOnGroupChange set |
| `Exporter.BaseConverter.FindGroupHeader` | src/AddIns/Misc/Reports/ICSharpCode.Reports.Core/Project/Exporter/Converters/BaseConverter.cs:182-185 | exactly the grouped rows of the items: every result is one, each occurs as often as among the items, and the result is a subsequence of the items (original order) |
| `Exporter.BaseConverter.FindGroupFooter` | src/AddIns/Misc/Reports/ICSharpCode.Reports.Core/Project/Exporter/Converters/BaseConverter.cs:188-191 | exactly the group footers of the items: every result is one, each occurs as often as among the items, and the result is a subsequence of the items (original order) |
| `Exporter.OfType` | src/AddIns/Misc/Reports/ICSharpCode.Reports.Core/Project/Exporter/Converters/BaseConverter.cs:184 | the items of the type and only those, each as many times as it occurs, as a subsequence of the input (original order kept) |
| `Exporter.OfTypeConcat` | src/AddIns/Misc/Reports/ICSharpCode.Reports.Core/Project/Exporter/Converters/BaseConverter.cs:190 | selecting from a concatenation is concatenating the selections, so the filter never reorders |
| `Exporter.OfTypeIdempotent` | src/AddIns/Misc/Reports/ICSharpCode.Reports.Core/Project/Exporter/Converters/BaseConverter.cs:184 | filtering a filtered list by the same type changes nothing |
| `Exporter.OfTypeFirst` | src/AddIns/Misc/Reports/ICSharpCode.Reports.Core/Project/Exporter/Converters/BaseConverter.cs:139-141 | the filter is non-empty exactly when an item of the type exists, and its element 0 (`footers[0]`, `groupedRows[0]`) is the earliest such item |
| `Exporter.BaseConverter.ForcePageBreak` | src/AddIns/Misc/Reports/ICSharpCode.Reports.Core/Project/Exporter/Converters/BaseConverter.cs:194-198 | the page-break effects of BuildNewPage, and the result is Point.Empty, the origin |
| `Exporter.BaseConverter.PrepareContainerForConverting` | src/AddIns/Misc/Reports/ICSharpCode.Reports.Core/Project/Exporter/Converters/BaseConverter.cs:247-251 | SectionRendering is fired before layout; the container ends with the laid-out size |
| `Exporter.BaseConverter.AfterConverting` | src/AddIns/Misc/Reports/ICSharpCode.Reports.Core/Project/Exporter/Converters/BaseConverter.cs:254-257 | the evaluator runs over the whole collection as it now is |
| `Exporter.BaseConverter.ConvertStandardRow` | src/AddIns/Misc/Reports/ICSharpCode.Reports.Core/Project/Exporter/Converters/BaseConverter.cs:261-270 | trace is fill, SectionRendering, layout, evaluate (the evaluated collection already holds the appended row); the row's size on exit equals its size on entry whatever layout did; the returned Y uses the laid-out height |
| `Exporter.BaseConverter.BaseConvert` | src/AddIns/Misc/Reports/ICSharpCode.Reports.Core/Project/Exporter/Converters/BaseConverter.cs:273-278 | the old collection is kept as an unchanged prefix and only the row's conversion (nothing for a non-builder) follows it; the result is at X = leftPos, Y = curPos.Y + height + 3 * GapBetweenContainer |
| `Exporter.NextPosition` | src/AddIns/Misc/Reports/ICSharpCode.Reports.Core/Project/Exporter/Converters/BaseConverter.cs:277 | the next position is at the left margin and never above the current one for a row of non-negative height, strictly below it for positive height |
| `Exporter.BaseConverter.FillRow` | src/AddIns/Misc/Reports/ICSharpCode.Reports.Core/Project/Exporter/Converters/BaseConverter.cs:281-284 | one fill of the row's items from the navigator is recorded |
| `Exporter.BaseConverter.LayoutRow` | src/AddIns/Misc/Reports/ICSharpCode.Reports.Core/Project/Exporter/Converters/BaseConverter.cs:287-290 | the layouter may set the row's size to anything; the size it chose is recorded |

## Left out

- The drawing surface (the `Graphics` property): layout is modelled as an arbitrary new size for the row.
- `Exporter.BaseConverter.LayoutRow`: only the row's own size may change. What `PrintHelper.SetLayoutForRow` does to the geometry of the row's children is not modelled, because its body is not part of this model.
- `Exporter.BaseConverter.ConvertItems`: the bodies of `StandardPrinter.ConvertToContainer` and `ConvertPlainCollection` are not part of this model, so where the container is placed, which children it starts with and what the plain conversion returns (how many elements, in which order) are left open. The contract holds for any of them. The model assumes only that the container made for a row records that row as its source. Its size and colours are not modelled, and `StandardPrinter.AdjustBackColor` is left out.
- `Exporter.BaseConverter.FillRow`: the values `IDataNavigator.Fill` writes into the items are not modelled, only that the fill happens and when.
- `Exporter.BaseConverter.AfterConverting`: what the expression evaluator changes in the export elements is not modelled, only that it runs and on which collection. Creating the evaluator at construction (`StandardPrinter.CreateEvaluator`) is left out too.
- The data navigator's own behaviour: `HasMoreData`, `CurrentRow` and `Current` are plain fields that the converter only reads. The record identity is an integer.
- Event dispatch (`EventHelper.Raise`): each notification is one entry in a ghost trace. Observers that change converter state are not modelled.
- `ExporterCollection.AddRange` is not part of this model. Adding the null result of `ConvertItems` is modelled as adding nothing.
- The C# type hierarchy (`BaseRowItem`, `IExportColumnBuilder`, `BaseGroupedRow`, `GroupFooter`) is not part of this model. Items carry a kind and two independent capability flags instead, and every item can be used as a simple container.
- `GlobalValues.GapBetweenContainer` is not part of this model. Its value is left open (any non-negative number).
- `Convert(parent, item)`, which only records a parent rectangle and returns an empty collection, and the unused `SaveSectionSize` / `RestoreSectionSize` accessors: trivial, with no behaviour to prove.
- Automatic "page full" breaks when rows overflow the body height, the pagination loop that calls the converter, and the resulting cross-call properties (N rows give N containers in cursor order): none of this happens in the converter itself.
- Exceptions thrown by collaborators (layout, fill, evaluation) are not modelled. They would simply propagate.
- `Exporter.NextPosition`, `Exporter.BaseConverter.BaseConvert`: coordinates are unbounded integers. The C# sum at BaseConverter.cs:277 is unchecked 32-bit `int` arithmetic and wraps past 2^31 - 1, where "never above the current position" would fail. Wrap-around is not modelled.
- `Exporter.BaseConverter.BuildNewPage`: PageFull receives the live collection object (BaseConverter.cs:59, 67), which is then cleared (BaseConverter.cs:61). A subscriber that keeps the reference therefore sees an empty collection afterwards. The trace records a value snapshot taken before the clear, so this aliasing is not captured.
- `Exporter.BaseConverter.ForcePageBreak` is `virtual` in the source (BaseConverter.cs:194). The model states the base class's behaviour only, so `PageBreakAfterGroupChange`'s "the position becomes the origin" holds for that implementation alone.
- Null arguments: apart from `Exporter.BaseConverter.Create`, every reference parameter in the model is non-null. So `FireRowRendering(null, ...)`, which throws ArgumentException("row") (BaseConverter.cs:77-79), and `ConvertItems(null, ...)`, which returns null (BaseConverter.cs:115, 130), are not modelled.
