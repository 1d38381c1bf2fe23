/**
 * The base converter of the report exporter: it turns template rows into
 * export elements for one page, keeps the running position on the page, and
 * performs page breaks. Notifications to subscribers are recorded, in firing
 * order, in a ghost trace.
 */
module Exporter {
  import opened Drawing
  import opened Wrappers
  import opened ReportItems
  import StandardPrinter

  /**
   * GlobalValues.GapBetweenContainer. Its value is defined outside the
   * converter, so it is left open here: every proof holds for any value.
   */
  const GapBetweenContainer: nat

  /** The notifications the converter fires, and the collaborator calls it makes. */
  datatype Event =
    | PageFull(items: seq<ExportElement>)
    | SectionRendering(section: Section, pageNumber: int, currentRow: int)
    | GroupHeaderRendering(groupHeader: ReportItem)
    | GroupFooterRendering(groupFooter: ReportItem)
    | RowRendering(row: ReportItem, record: int)
    | Filled(row: ReportItem)              // DataNavigator.Fill on the row's items
    | LaidOut(row: ReportItem, size: Size) // the layouter ran; the row's size afterwards
    | Evaluated(items: seq<ExportElement>) // the evaluator ran over the whole collection

  datatype ArgumentError =
    | ArgumentNull(paramName: string)    // ArgumentNullException
    | ArgumentInvalid(paramName: string) // ArgumentException

  /** The item types the converter selects children by (Enumerable.OfType). */
  datatype ItemType = GroupedRowType | GroupFooterType

  predicate HasType(x: ReportItem, t: ItemType) {
    match t
    case GroupedRowType => x.kind.GroupedRow?
    case GroupFooterType => x.kind.GroupFooter?
  }

  /** `s` is obtained from `t` by deleting elements, without reordering any. */
  predicate IsSubsequence<T(==)>(s: seq<T>, t: seq<T>) {
    if s == [] then true
    else if t == [] then false
    else if s[0] == t[0] then IsSubsequence(s[1..], t[1..])
    else IsSubsequence(s, t[1..])
  }

  /** `i` is the position of the first item of type `t`. */
  predicate IsFirstOfType(items: seq<ReportItem>, i: int, t: ItemType) {
    && 0 <= i < |items|
    && HasType(items[i], t)
    && forall j :: 0 <= j < i ==> !HasType(items[j], t)
  }

  /**
   * Enumerable.OfType followed by ToList: exactly the items of type `t`,
   * each as often as it occurs, in their original order.
   */
  function OfType(items: seq<ReportItem>, t: ItemType): (r: seq<ReportItem>)
    ensures forall x :: x in r ==> HasType(x, t) && x in items
    ensures forall x :: x in items && HasType(x, t) ==> x in r
    ensures forall x | x in items :: multiset(r)[x] == if HasType(x, t) then multiset(items)[x] else 0
    ensures IsSubsequence(r, items)
  {
    if items == [] then []
    else
      assert items == [items[0]] + items[1..];
      if HasType(items[0], t) then [items[0]] + OfType(items[1..], t)
      else OfType(items[1..], t)
  }

  /** Selecting by type distributes over concatenation. */
  lemma {:induction false} OfTypeConcat(a: seq<ReportItem>, b: seq<ReportItem>, t: ItemType)
    ensures OfType(a + b, t) == OfType(a, t) + OfType(b, t)
  {
    if a == [] {
      assert a + b == b;
    } else {
      assert (a + b)[0] == a[0];
      assert (a + b)[1..] == a[1..] + b;
      OfTypeConcat(a[1..], b, t);
    }
  }

  /** Selecting by the same type twice selects nothing more. */
  lemma {:induction false} OfTypeIdempotent(items: seq<ReportItem>, t: ItemType)
    ensures OfType(OfType(items, t), t) == OfType(items, t)
  {
    if items != [] {
      OfTypeIdempotent(items[1..], t);
      if HasType(items[0], t) {
        var r := OfType(items, t);
        assert r[0] == items[0] && r[1..] == OfType(items[1..], t);
      }
    }
  }

  /** The selection is non-empty exactly when some item has the type, and then it starts with the first such item. */
  lemma {:induction false} OfTypeFirst(items: seq<ReportItem>, t: ItemType)
    ensures OfType(items, t) != [] <==> exists i :: IsFirstOfType(items, i, t)
    ensures forall i :: IsFirstOfType(items, i, t) ==> OfType(items, t) != [] && OfType(items, t)[0] == items[i]
  {
    if items != [] {
      var tail := items[1..];
      OfTypeFirst(tail, t);
      if HasType(items[0], t) {
        assert IsFirstOfType(items, 0, t);
        forall i | IsFirstOfType(items, i, t)
          ensures i == 0
        {
        }
      } else {
        forall i | IsFirstOfType(items, i, t)
          ensures IsFirstOfType(tail, i - 1, t)
        {
          assert i != 0;
          forall j | 0 <= j < i - 1
            ensures !HasType(tail[j], t)
          {
            assert tail[j] == items[j + 1];
          }
        }
        if exists i :: IsFirstOfType(tail, i, t) {
          var i :| IsFirstOfType(tail, i, t);
          forall j | 0 <= j < i + 1
            ensures !HasType(items[j], t)
          {
            if j > 0 {
              assert items[j] == tail[j - 1];
            }
          }
          assert IsFirstOfType(items, i + 1, t);
        }
      }
    }
  }

  /** The position after a container of the given height: next line, at the left margin. */
  function NextPosition(leftPos: int, curPos: Point, height: int): (r: Point)
    ensures r.x == leftPos
    ensures height >= 0 ==> r.y >= curPos.y
    ensures height > 0 ==> r.y > curPos.y
  {
    Point(leftPos, curPos.y + height + 3 * GapBetweenContainer)
  }

  /** What BaseConvert appends for a row: its conversion, or nothing when that is null. */
  function Flattened(row: ReportItem, offset: Point): seq<ExportElement> {
    BaseConverter.ConvertItems(row, offset).GetOr([])
  }

  class BaseConverter {
    const navigator: DataNavigator
    const singlePage: ExporterPage
    /** The page's section bounds as they were at construction (the SectionBounds property). */
    const sectionBounds: SectionBounds
    const layouter: Layouter

    var currentPosition: Point
    var defaultLeftPosition: int
    /** Every notification fired and collaborator call made, in order. */
    ghost var trace: seq<Event>

    constructor (dataNavigator: DataNavigator, singlePage: ExporterPage, layouter: Layouter)
      ensures navigator == dataNavigator && this.singlePage == singlePage && this.layouter == layouter
      ensures sectionBounds == singlePage.sectionBounds
      ensures currentPosition == EmptyPoint && defaultLeftPosition == 0 && trace == []
    {
      navigator := dataNavigator;
      this.singlePage := singlePage;
      sectionBounds := singlePage.sectionBounds;
      this.layouter := layouter;
      currentPosition := EmptyPoint;
      defaultLeftPosition := 0;
      trace := [];
    }

    /**
     * Construction with the null checks: the navigator, then the page, then
     * the layouter; the first null one is reported and no converter is made.
     */
    static method Create(dataNavigator: DataNavigator?, singlePage: ExporterPage?, layouter: Layouter?)
      returns (r: Result<BaseConverter, ArgumentError>)
      ensures dataNavigator == null ==> r == Failure(ArgumentNull("dataNavigator"))
      ensures dataNavigator != null && singlePage == null ==> r == Failure(ArgumentNull("singlePage"))
      ensures dataNavigator != null && singlePage != null && layouter == null ==>
                r == Failure(ArgumentNull("layouter"))
      ensures dataNavigator != null && singlePage != null && layouter != null ==>
                && r.Success? && fresh(r.value)
                && r.value.navigator == dataNavigator && r.value.singlePage == singlePage
                && r.value.layouter == layouter && r.value.sectionBounds == singlePage.sectionBounds
                && r.value.currentPosition == EmptyPoint && r.value.trace == []
    {
      if dataNavigator == null {
        return Failure(ArgumentNull("dataNavigator"));
      }
      if singlePage == null {
        return Failure(ArgumentNull("singlePage"));
      }
      if layouter == null {
        return Failure(ArgumentNull("layouter"));
      }
      var c := new BaseConverter(dataNavigator, singlePage, layouter);
      r := Success(c);
    }

    // ---- Page break ----

    /**
     * Hands the collection to PageFull subscribers, moves the section to the
     * top of the page header and empties the collection.
     */
    method BuildNewPage(list: ExporterCollection, section: Section)
      modifies this`trace, list, section
      ensures trace == old(trace) + [PageFull(old(list.elements))]
      ensures section.sectionOffset == singlePage.sectionBounds.pageHeaderRectangle.location.y
      ensures list.elements == []
    {
      FirePageFull(list.elements);
      section.sectionOffset := singlePage.sectionBounds.pageHeaderRectangle.location.y;
      list.elements := [];
    }

    method FirePageFull(items: seq<ExportElement>)
      modifies this`trace
      ensures trace == old(trace) + [PageFull(items)]
    {
      trace := trace + [PageFull(items)];
    }

    // ---- Events ----

    /** RowRendering is only for rows: any other container is an argument error, and nothing is fired. */
    method FireRowRendering(detailRow: ReportItem, currentNavigator: DataNavigator)
      returns (o: Outcome<ArgumentError>)
      modifies this`trace
      ensures !detailRow.isRowItem ==> o == Fail(ArgumentInvalid("row")) && trace == old(trace)
      ensures detailRow.isRowItem ==>
                o == Pass && trace == old(trace) + [RowRendering(detailRow, currentNavigator.current)]
    {
      if !detailRow.isRowItem {
        return Fail(ArgumentInvalid("row"));
      }
      trace := trace + [RowRendering(detailRow, currentNavigator.current)];
      o := Pass;
    }

    method FireGroupHeaderRendering(groupHeader: ReportItem)
      requires groupHeader.kind.GroupedRow?
      modifies this`trace
      ensures trace == old(trace) + [GroupHeaderRendering(groupHeader)]
    {
      trace := trace + [GroupHeaderRendering(groupHeader)];
    }

    method FireGroupFooterRendering(groupFooter: ReportItem)
      requires groupFooter.kind.GroupFooter?
      modifies this`trace
      ensures trace == old(trace) + [GroupFooterRendering(groupFooter)]
    {
      trace := trace + [GroupFooterRendering(groupFooter)];
    }

    /** SectionRendering carries the page number and the navigator's current row index. */
    method FireSectionRendering(section: Section)
      modifies this`trace
      ensures trace == old(trace) + [SectionRendering(section, singlePage.pageNumber, navigator.currentRow)]
    {
      trace := trace + [SectionRendering(section, singlePage.pageNumber, navigator.currentRow)];
    }

    // ---- Conversion ----

    /**
     * Only a column builder is converted: into exactly one element, the
     * container StandardPrinter makes for the row, whose children are
     * followed by the plain conversion of the row's items. Any other row
     * gives null.
     */
    static function ConvertItems(row: ReportItem, offset: Point): (r: Option<seq<ExportElement>>)
      ensures r.None? <==> !row.isColumnBuilder
      ensures r.Some? ==>
                var lineItem := StandardPrinter.ConvertToContainer(row, offset);
                && |r.value| == 1
                && r.value[0].Container?
                && r.value[0].container.source == row
                && r.value[0].container.location == lineItem.location
                && r.value[0].container.items ==
                     lineItem.items + StandardPrinter.ConvertPlainCollection(row.items, offset)
    {
      if row.isColumnBuilder then
        var lineItem := StandardPrinter.ConvertToContainer(row, offset);
        var list := StandardPrinter.ConvertPlainCollection(row.items, offset);
        Some([Container(lineItem.(items := lineItem.items + list))])
      else
        None
    }

    /**
     * Appends the container's conversion to the collection, keeping what was
     * there, and returns the position below the container as it is now sized.
     */
    static method BaseConvert(list: ExporterCollection, container: ReportItem, leftPos: int, curPos: Point)
      returns (p: Point)
      modifies list
      ensures list.elements == old(list.elements) + Flattened(container, curPos)
      ensures p == NextPosition(leftPos, curPos, container.size.height)
    {
      var ml := ConvertItems(container, curPos);
      list.elements := list.elements + ml.GetOr([]);
      p := Point(leftPos, curPos.y + container.size.height + 3 * GapBetweenContainer);
    }

    method FillRow(row: ReportItem)
      modifies this`trace
      ensures trace == old(trace) + [Filled(row)]
    {
      trace := trace + [Filled(row)];
    }

    /** The layouter may resize the row in any way; the new size is returned for the proofs. */
    method LayoutRow(row: ReportItem) returns (ghost laidOut: Size)
      modifies this`trace, row
      ensures row.size == laidOut
      ensures trace == old(trace) + [LaidOut(row, laidOut)]
    {
      row.size := *;
      laidOut := row.size;
      trace := trace + [LaidOut(row, laidOut)];
    }

    method PrepareContainerForConverting(section: Section, container: ReportItem) returns (ghost laidOut: Size)
      modifies this`trace, container
      ensures container.size == laidOut
      ensures trace == old(trace) + [SectionRendering(section, singlePage.pageNumber, navigator.currentRow),
                                     LaidOut(container, laidOut)]
    {
      FireSectionRendering(section);
      laidOut := LayoutRow(container);
    }

    method AfterConverting(list: ExporterCollection)
      modifies this`trace
      ensures trace == old(trace) + [Evaluated(list.elements)]
    {
      trace := trace + [Evaluated(list.elements)];
    }

    /**
     * Converts a plain row: fill, SectionRendering, layout, append, evaluate.
     * The row's size is put back afterwards, but the returned position is
     * computed from the size layout gave it.
     */
    method ConvertStandardRow(list: ExporterCollection, section: Section, row: ReportItem)
      returns (p: Point, ghost laidOut: Size)
      modifies this`trace, list, row
      ensures row.size == old(row.size)
      ensures list.elements == old(list.elements) + Flattened(row, currentPosition)
      ensures p == NextPosition(defaultLeftPosition, currentPosition, laidOut.height)
      ensures trace == old(trace) + [Filled(row),
                                     SectionRendering(section, singlePage.pageNumber, navigator.currentRow),
                                     LaidOut(row, laidOut),
                                     Evaluated(list.elements)]
    {
      var rowSize := row.size;
      FillRow(row);
      laidOut := PrepareContainerForConverting(section, row);
      p := BaseConvert(list, row, defaultLeftPosition, currentPosition);
      AfterConverting(list);
      row.size := rowSize;
    }

    /**
     * Converts a row under a group header: SectionRendering, layout,
     * RowRendering, append, evaluate. No fill and no size restore; a
     * container that is not a row fails after layout, with nothing appended.
     */
    method ConvertGroupChilds(list: ExporterCollection, section: Section, simpleContainer: ReportItem,
                              currentNavigator: DataNavigator)
      returns (r: Result<Point, ArgumentError>, ghost laidOut: Size)
      modifies this`trace, list, simpleContainer
      ensures simpleContainer.size == laidOut
      ensures !simpleContainer.isRowItem ==>
                && r == Failure(ArgumentInvalid("row"))
                && list.elements == old(list.elements)
                && trace == old(trace) + [SectionRendering(section, singlePage.pageNumber, navigator.currentRow),
                                          LaidOut(simpleContainer, laidOut)]
      ensures simpleContainer.isRowItem ==>
                && r == Success(NextPosition(defaultLeftPosition, currentPosition, laidOut.height))
                && list.elements == old(list.elements) + Flattened(simpleContainer, currentPosition)
                && trace == old(trace) + [SectionRendering(section, singlePage.pageNumber, navigator.currentRow),
                                          LaidOut(simpleContainer, laidOut),
                                          RowRendering(simpleContainer, currentNavigator.current),
                                          Evaluated(list.elements)]
    {
      laidOut := PrepareContainerForConverting(section, simpleContainer);
      var o := FireRowRendering(simpleContainer, currentNavigator);
      if o.Fail? {
        return Failure(o.error), laidOut;
      }
      var curPos := BaseConvert(list, simpleContainer, defaultLeftPosition, currentPosition);
      AfterConverting(list);
      r := Success(curPos);
    }

    // ---- Grouping ----

    /**
     * Renders the container's first group footer, if it has one, as a
     * standard row and moves the current position below it. Every child
     * of the container keeps its size.
     */
    method ConvertGroupFooter(section: Section, container: ReportItem, list: ExporterCollection)
      returns (ghost laidOut: Size)
      modifies this`currentPosition, this`trace, list, container.items
      ensures forall x :: x in container.items ==> x.size == old(x.size)
      ensures FindGroupFooter(container.items) == [] ==>
                && trace == old(trace)
                && list.elements == old(list.elements)
                && currentPosition == old(currentPosition)
      ensures FindGroupFooter(container.items) != [] ==>
                var footer := FindGroupFooter(container.items)[0];
                && trace == old(trace) + [GroupFooterRendering(footer),
                                          Filled(footer),
                                          SectionRendering(section, singlePage.pageNumber, navigator.currentRow),
                                          LaidOut(footer, laidOut),
                                          Evaluated(list.elements)]
                && list.elements == old(list.elements) + Flattened(footer, old(currentPosition))
                && currentPosition == NextPosition(defaultLeftPosition, old(currentPosition), laidOut.height)
    {
      var footers := FindGroupFooter(container.items);
      if |footers| > 0 {
        FireGroupFooterRendering(footers[0]);
        var rowSize := footers[0].size;
        currentPosition, laidOut := ConvertStandardRow(list, section, footers[0]);
        footers[0].size := rowSize;
      } else {
        laidOut := container.size;  // not used: nothing was laid out
      }
    }

    /**
     * A page break after a group change happens exactly when the section's
     * first grouped row asks for one and the navigator has more data; the
     * position then goes to the origin. Otherwise nothing changes.
     */
    method PageBreakAfterGroupChange(section: Section, exporterCollection: ExporterCollection)
      modifies this`currentPosition, this`trace, exporterCollection, section
      ensures CheckPageBreakAfterGroupChange(section.items) && navigator.hasMoreData ==>
                && trace == old(trace) + [PageFull(old(exporterCollection.elements))]
                && section.sectionOffset == singlePage.sectionBounds.pageHeaderRectangle.location.y
                && exporterCollection.elements == []
                && currentPosition == EmptyPoint
      ensures !(CheckPageBreakAfterGroupChange(section.items) && navigator.hasMoreData) ==>
                && trace == old(trace)
                && section.sectionOffset == old(section.sectionOffset)
                && exporterCollection.elements == old(exporterCollection.elements)
                && currentPosition == old(currentPosition)
    {
      if CheckPageBreakAfterGroupChange(section.items) {
        if navigator.hasMoreData {
          currentPosition := ForcePageBreak(exporterCollection, section);
        }
      }
    }

    /** True exactly when the first grouped row among the items breaks the page on a group change. */
    static function CheckPageBreakAfterGroupChange(items: seq<ReportItem>): (b: bool)
      ensures b <==> exists i :: IsFirstOfType(items, i, GroupedRowType) && items[i].kind.pageBreakOnGroupChange
    {
      var groupedRows := FindGroupHeader(items);
      OfTypeFirst(items, GroupedRowType);
      if |groupedRows| > 0 then
        groupedRows[0].kind.pageBreakOnGroupChange
      else
        false
    }

    /** The grouped rows among the items, in their order. */
    static function FindGroupHeader(items: seq<ReportItem>): (r: seq<ReportItem>)
      ensures forall x :: x in r ==> x.kind.GroupedRow? && x in items
      ensures forall x :: x in items && x.kind.GroupedRow? ==> x in r
      ensures forall x | x in items :: multiset(r)[x] == if x.kind.GroupedRow? then multiset(items)[x] else 0
      ensures IsSubsequence(r, items)
    {
      OfType(items, GroupedRowType)
    }

    /** The group footers among the items, in their order. */
    static function FindGroupFooter(items: seq<ReportItem>): (r: seq<ReportItem>)
      ensures forall x :: x in r ==> x.kind.GroupFooter? && x in items
      ensures forall x :: x in items && x.kind.GroupFooter? ==> x in r
      ensures forall x | x in items :: multiset(r)[x] == if x.kind.GroupFooter? then multiset(items)[x] else 0
      ensures IsSubsequence(r, items)
    {
      OfType(items, GroupFooterType)
    }

    /** The single page-break path: BuildNewPage, then the origin as the new position. */
    method ForcePageBreak(exporterCollection: ExporterCollection, section: Section) returns (p: Point)
      modifies this`trace, exporterCollection, section
      ensures trace == old(trace) + [PageFull(old(exporterCollection.elements))]
      ensures section.sectionOffset == singlePage.sectionBounds.pageHeaderRectangle.location.y
      ensures exporterCollection.elements == []
      ensures p == EmptyPoint
    {
      BuildNewPage(exporterCollection, section);
      p := EmptyPoint;
    }
  }
}
