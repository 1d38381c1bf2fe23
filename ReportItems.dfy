/**
 * The report template nodes the converter reads and updates, the export
 * elements it produces, and the collaborators it is handed (page, data
 * navigator, layouter).
 */
module ReportItems {
  import opened Drawing

  /** The runtime type of a template item, as far as the converter tests it. */
  datatype ItemKind =
    | GroupedRow(pageBreakOnGroupChange: bool)  // BaseGroupedRow
    | GroupFooter                               // GroupFooter
    | Plain                                     // any other report item

  /**
   * A template item that is also a simple container (ISimpleContainer): an
   * ordered list of child items and a size that layout may change in place.
   */
  class ReportItem {
    const kind: ItemKind
    /** The item implements IExportColumnBuilder. */
    const isColumnBuilder: bool
    /** The item is a BaseRowItem. */
    const isRowItem: bool
    const items: seq<ReportItem>
    var size: Size

    constructor (kind: ItemKind, isColumnBuilder: bool, isRowItem: bool, items: seq<ReportItem>, size: Size)
      ensures this.kind == kind && this.isColumnBuilder == isColumnBuilder && this.isRowItem == isRowItem
      ensures this.items == items && this.size == size
    {
      this.kind := kind;
      this.isColumnBuilder := isColumnBuilder;
      this.isRowItem := isRowItem;
      this.items := items;
      this.size := size;
    }
  }

  /** A report section (BaseSection): a container with a vertical offset on the page. */
  class Section {
    const items: seq<ReportItem>
    var sectionOffset: int

    constructor (items: seq<ReportItem>, sectionOffset: int)
      ensures this.items == items && this.sectionOffset == sectionOffset
    {
      this.items := items;
      this.sectionOffset := sectionOffset;
    }
  }

  /**
   * A laid-out element: a plain item, with the template item it was converted
   * from and the offset it was converted at, or a container of elements.
   */
  datatype ExportElement =
    | ExportItem(source: ReportItem, location: Point)
    | Container(container: ExportContainer)

  /** A laid-out container (ExportContainer) and the elements it owns. */
  datatype ExportContainer = ExportContainer(source: ReportItem, location: Point, items: seq<ExportElement>)

  /** The ordered, mutable collection of export elements for the current page. */
  class ExporterCollection {
    var elements: seq<ExportElement>

    constructor ()
      ensures elements == []
    {
      elements := [];
    }
  }

  /** The fixed regions of a page. */
  datatype SectionBounds = SectionBounds(pageHeaderRectangle: Rectangle)

  /** The page being filled (ExporterPage). */
  class ExporterPage {
    var pageNumber: int
    var sectionBounds: SectionBounds

    constructor (pageNumber: int, sectionBounds: SectionBounds)
      ensures this.pageNumber == pageNumber && this.sectionBounds == sectionBounds
    {
      this.pageNumber := pageNumber;
      this.sectionBounds := sectionBounds;
    }
  }

  /**
   * The data cursor (IDataNavigator), reduced to what the converter reads of
   * it: the index of the current row, the identity of the current record and
   * whether more data follows.
   */
  class DataNavigator {
    var currentRow: int
    var current: int
    var hasMoreData: bool

    constructor (currentRow: int, current: int, hasMoreData: bool)
      ensures this.currentRow == currentRow && this.current == current && this.hasMoreData == hasMoreData
    {
      this.currentRow := currentRow;
      this.current := current;
      this.hasMoreData := hasMoreData;
    }
  }

  /** The row layouter (ILayouter); what it does to a row is left nondeterministic. */
  class Layouter {
    constructor ()
    {
    }
  }
}
