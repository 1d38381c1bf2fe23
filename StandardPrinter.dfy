/**
 * The two StandardPrinter helpers that turn template items into export
 * elements. Their bodies are not part of this model, so what they produce is
 * left open: every proof holds whatever they return.
 */
module StandardPrinter {
  import opened Drawing
  import opened ReportItems

  /** Where the container made for a row is placed, and the children it starts with. */
  datatype ContainerShape = ContainerShape(location: Point, items: seq<ExportElement>)

  /** Open: the shape StandardPrinter.ConvertToContainer gives the container of a row at an offset. */
  const ContainerShapeOf: (ReportItem, Point) -> ContainerShape

  /** StandardPrinter.ConvertToContainer: the export container made for the row. */
  function ConvertToContainer(row: ReportItem, offset: Point): ExportContainer {
    var shape := ContainerShapeOf(row, offset);
    ExportContainer(row, shape.location, shape.items)
  }

  /** Open: StandardPrinter.ConvertPlainCollection, the export items for a row's items at an offset. */
  const ConvertPlainCollection: (seq<ReportItem>, Point) -> seq<ExportElement>
}
