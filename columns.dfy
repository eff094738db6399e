/**
 * The receipt table's column definitions: which cell each column shows for a
 * row, and the status label lookup.
 *
 * A scalar column shows a placeholder (a loading skeleton) whenever the row's
 * value is falsy, and otherwise an editable cell, except the document type,
 * which is shown as plain text. The status column looks its label up in a
 * two-entry table with a default for everything else.
 */
module Columns {
  import opened Receipts
  import opened EditableCells

  /** A row the table is given: a receipt, or one of the empty objects the page uses as placeholders. */
  datatype TableRow = Loaded(receipt: Receipt) | Blank

  /** `row.getValue(field)`: an empty object has no fields. */
  function RowGet(row: TableRow, f: Field): Option<Value>
  {
    match row
    case Loaded(r) => Get(r, f)
    case Blank => None
  }

  /** `row.getValue('status')`. */
  function RowStatus(row: TableRow): Option<string>
  {
    match row
    case Loaded(r) => Some(r.status)
    case Blank => None
  }

  datatype StatusIcon = ClockIcon | CheckCircledIcon | UploadIcon

  datatype StatusEntry = StatusEntry(caption: string, icon: StatusIcon)

  /** The `statuses` table. */
  const Statuses: map<string, StatusEntry> :=
    map["processing" := StatusEntry("Processando", ClockIcon),
        "done" := StatusEntry("Pronto", CheckCircledIcon)]

  /** `defaultStatus`. */
  const DefaultStatus: StatusEntry := StatusEntry("Enviando", UploadIcon)

  /** `statuses[status] ?? defaultStatus`. */
  function StatusEntryFor(status: Option<string>): (entry: StatusEntry)
    ensures entry.caption == "Processando" <==> status == Some("processing")
    ensures entry.caption == "Pronto" <==> status == Some("done")
    ensures entry.caption == "Enviando" <==> status != Some("processing") && status != Some("done")
    ensures entry.caption == "Processando" ==> entry.icon == ClockIcon
    ensures entry.caption == "Pronto" ==> entry.icon == CheckCircledIcon
    ensures entry.caption == "Enviando" ==> entry.icon == UploadIcon
  {
    if status.Some? && status.value in Statuses then Statuses[status.value] else DefaultStatus
  }

  datatype Column = SelectColumn | FieldColumn(field: Field) | StatusColumn

  /** The table's columns, left to right. `operationCode` has no column. */
  const TableColumns: seq<Column> := [
    SelectColumn,
    FieldColumn(Supplier),
    FieldColumn(Customer),
    FieldColumn(ReceiptNumber),
    FieldColumn(ReceiptValueInCents),
    FieldColumn(IssValueInCents),
    FieldColumn(DocumentType),
    FieldColumn(IssueDate),
    FieldColumn(AccrualDate),
    StatusColumn
  ]

  /** The display kind of a field's editable cell; `None` for a display-only field. */
  function EditorType(f: Field): Option<CellType>
  {
    match f
    case Supplier => Some(Cnpj)
    case Customer => Some(Cnpj)
    case ReceiptNumber => Some(Text)
    case ReceiptValueInCents => Some(Currency)
    case IssValueInCents => Some(Currency)
    case IssueDate => Some(Date)
    case AccrualDate => Some(Date)
    case DocumentType => None
    case OperationCode => None
  }

  /** The fields a user can edit in the table. */
  const EditableFields: set<Field> :=
    {Supplier, Customer, ReceiptNumber, ReceiptValueInCents, IssValueInCents, IssueDate, AccrualDate}

  /** What a cell of the table shows. */
  datatype CellView =
    | CheckboxView
    | SkeletonView
    | PlainView(shown: Value)
    | EditorView(valueName: Field, cellType: CellType)
    | StatusView(caption: string, icon: StatusIcon)

  /** The `cell` renderer of a column for a row. */
  function RenderCell(c: Column, row: TableRow): (view: CellView)
    ensures c.SelectColumn? ==> view == CheckboxView
    ensures c.FieldColumn? ==> (view == SkeletonView <==> !Truthy(RowGet(row, c.field)))
    ensures view.EditorView? <==> c.FieldColumn? && c.field in EditableFields && Truthy(RowGet(row, c.field))
    ensures view.EditorView? ==> view.valueName == c.field && Some(view.cellType) == EditorType(c.field)
    ensures view.PlainView? ==> c.FieldColumn? && RowGet(row, c.field) == Some(view.shown)
    ensures c.FieldColumn? && Truthy(RowGet(row, c.field)) && c.field !in EditableFields ==>
              view == PlainView(RowGet(row, c.field).value)
    ensures c.StatusColumn? ==> view.StatusView? && view.caption == StatusEntryFor(RowStatus(row)).caption
  {
    match c
    case SelectColumn => CheckboxView
    case FieldColumn(f) =>
      var v := RowGet(row, f);
      if !Truthy(v) then SkeletonView
      else if EditorType(f).Some? then EditorView(f, EditorType(f).value)
      else PlainView(v.value)
    case StatusColumn =>
      var entry := StatusEntryFor(RowStatus(row));
      StatusView(entry.caption, entry.icon)
  }

  /** Of the table's columns, exactly the seven listed fields are editable; document type and status are display-only. */
  lemma EditableColumnsAreExactly()
    ensures forall f :: FieldColumn(f) in TableColumns && EditorType(f).Some? <==> f in EditableFields
    ensures forall c :: c in TableColumns && c.FieldColumn? ==> c.field != OperationCode
  {
    assert FieldColumn(Supplier) == TableColumns[1];
    assert FieldColumn(Customer) == TableColumns[2];
    assert FieldColumn(ReceiptNumber) == TableColumns[3];
    assert FieldColumn(ReceiptValueInCents) == TableColumns[4];
    assert FieldColumn(IssValueInCents) == TableColumns[5];
    assert FieldColumn(IssueDate) == TableColumns[7];
    assert FieldColumn(AccrualDate) == TableColumns[8];
  }

  /**
   * The editor kind each column's cell is given: the two parties as tax ids,
   * the receipt number as text, the two amounts as currency, the two dates as dates.
   */
  lemma EditorKinds(row: TableRow)
    ensures Truthy(RowGet(row, Supplier)) ==> RenderCell(FieldColumn(Supplier), row) == EditorView(Supplier, Cnpj)
    ensures Truthy(RowGet(row, Customer)) ==> RenderCell(FieldColumn(Customer), row) == EditorView(Customer, Cnpj)
    ensures Truthy(RowGet(row, ReceiptNumber)) ==> RenderCell(FieldColumn(ReceiptNumber), row) == EditorView(ReceiptNumber, Text)
    ensures Truthy(RowGet(row, ReceiptValueInCents)) ==>
              RenderCell(FieldColumn(ReceiptValueInCents), row) == EditorView(ReceiptValueInCents, Currency)
    ensures Truthy(RowGet(row, IssValueInCents)) ==>
              RenderCell(FieldColumn(IssValueInCents), row) == EditorView(IssValueInCents, Currency)
    ensures Truthy(RowGet(row, IssueDate)) ==> RenderCell(FieldColumn(IssueDate), row) == EditorView(IssueDate, Date)
    ensures Truthy(RowGet(row, AccrualDate)) ==> RenderCell(FieldColumn(AccrualDate), row) == EditorView(AccrualDate, Date)
  {
  }

  /** An empty placeholder row shows only placeholders, and the upload status label. */
  lemma BlankRowShowsPlaceholders(c: Column)
    requires c in TableColumns
    ensures RenderCell(c, Blank) in {CheckboxView, SkeletonView, StatusView("Enviando", UploadIcon)}
    ensures !RenderCell(c, Blank).EditorView?
  {
  }
}
