/**
 The taxes table's fixed column list and what each cell shows for a row
 (src/App.jsx:47-80). The table library that lays the cells out is not
 modelled; the conversion of the tax number to text is JavaScript's and is
 passed in as `showTax`.
 */
module TaxTable {
  import opened TaxRecords

  datatype ColumnKey = IdColumn | NameColumn | TaxColumn | CountryColumn | Actions

  datatype Column = Column(key: ColumnKey, header: string)

  /** The columns in display order, with their headers. */
  const Columns: seq<Column> := [
    Column(IdColumn, "ID"),
    Column(NameColumn, "Name"),
    Column(TaxColumn, "Tax"),
    Column(CountryColumn, "Country"),
    Column(Actions, "")
  ]

  /** A cell shows text, or (in the actions column) an edit button bound to its whole row. */
  datatype Cell = Text(text: string) | EditButton(row: TaxRecord)

  /** The tax cell: the number's text followed by a percent sign. */
  function PercentText(numberText: string): (s: string)
    ensures |s| == |numberText| + 1
    ensures s[..|numberText|] == numberText && s[|numberText|] == '%'
  {
    numberText + "%"
  }

  /**
   The cell of column `key` for `row`: id, name and country verbatim, the
   tax with its percent suffix, and an edit button that hands over the
   whole row.
   */
  function CellOf(key: ColumnKey, row: TaxRecord, showTax: real -> string): (c: Cell)
    ensures c.EditButton? <==> key == Actions
    ensures c.EditButton? ==> c.row == row
    ensures key == IdColumn ==> c == Text(row.id)
    ensures key == NameColumn ==> c == Text(row.name)
    ensures key == CountryColumn ==> c == Text(row.country)
    ensures key == TaxColumn ==> c.Text? && |c.text| == |showTax(row.tax)| + 1 && c.text[..|showTax(row.tax)|] == showTax(row.tax) && c.text[|showTax(row.tax)|..] == "%"
  {
    match key
    case IdColumn => Text(row.id)
    case NameColumn => Text(row.name)
    case TaxColumn => Text(PercentText(showTax(row.tax)))
    case CountryColumn => Text(row.country)
    case Actions => EditButton(row)
  }

  /** A record whose tax shows as "7.5" is rendered in the tax column as "7.5%". */
  lemma TaxCellExample(row: TaxRecord, showTax: real -> string)
    requires showTax(row.tax) == "7.5"
    ensures CellOf(Columns[2].key, row, showTax) == Text("7.5%")
  {
  }
}
