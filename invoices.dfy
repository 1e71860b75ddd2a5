/** The Invoices list page: its record type, search field and column table. */
module Invoices {
  import opened Wrappers
  import opened TableView

  /** `InvoiceType`: every field may be missing; `amount` and `balance` are numbers. */
  datatype InvoiceType = InvoiceType(
    invoiceNo: Option<string>,
    customer: Option<string>,
    amount: Option<real>,
    balance: Option<real>,
    invoiceDate: Option<string>,
    dueDate: Option<string>,
    linkedStatus: Option<string>,
    status: Option<string>)

  /** The search box filters on `invoiceNo`. */
  function Title(i: InvoiceType): Option<string> {
    i.invoiceNo
  }

  /** Every column but Status has a sorter; Amount and Balance sort numerically. */
  function Columns(): (r: seq<Column<InvoiceType>>)
    ensures |r| == 8 && DistinctKeys(r)
  {
    [ Column("invoiceNo", "invoiceNo", ByText(Title)),
      Column("customer", "customer", ByText((i: InvoiceType) => i.customer)),
      Column("amount", "amount", ByNumber((i: InvoiceType) => i.amount)),
      Column("balance", "balance", ByNumber((i: InvoiceType) => i.balance)),
      Column("invoiceDate", "invoiceDate", ByText((i: InvoiceType) => i.invoiceDate)),
      Column("dueDate", "dueDate", ByText((i: InvoiceType) => i.dueDate)),
      Column("linkedStatus", "linkedStatus", ByText((i: InvoiceType) => i.linkedStatus)),
      Column("status", "status", NoSorter) ]
  }

  /** The page on mount. */
  method NewView() returns (v: ListView<InvoiceType>)
    ensures fresh(v) && v.Valid()
    ensures v.title == Title && v.columns == Columns()
    ensures v.data == [] && v.filteredData == [] && v.input == "" && v.sortedInfo == Unsorted && v.loader
  {
    v := new ListView(Title, Columns());
  }

  /** An invoice is kept iff its number is defined and matches; order is preserved. */
  lemma KeptIffNumberMatches(records: seq<InvoiceType>, query: string, i: InvoiceType)
    ensures i in FilterByTitle(records, Title, query) <==> i in records && Matches(i.invoiceNo, query)
    ensures IsSubsequence(FilterByTitle(records, Title, query), records)
  {
    FilterMembership(records, Title, query, i);
    FilterIsSubsequence(records, Title, query);
  }

  /** Status has no sorter; at most one column shows an order, the active one. */
  lemma SortableColumns(info: SortState, i: int, j: int)
    requires 0 <= i < |Columns()| && 0 <= j < |Columns()|
    ensures ColumnSortOrder(info, Columns()[i]).Some? <==>
      Columns()[i].key != "status" && info.columnKey == Some(Columns()[i].key) && info.order.Some?
    ensures ColumnSortOrder(info, Columns()[i]).Some? && ColumnSortOrder(info, Columns()[j]).Some? ==> i == j
  {
    if ColumnSortOrder(info, Columns()[i]).Some? && ColumnSortOrder(info, Columns()[j]).Some? {
      AtMostOneColumnSorted(info, Columns(), i, j);
    }
  }

  /** The Amount and Balance sorters count a missing value as 0 and are antisymmetric. */
  lemma AmountAndBalanceSorters(a: InvoiceType, b: InvoiceType, localeCompare: (string, string) -> int)
    ensures Compare(Columns()[2].sorter, a, b, localeCompare) == a.amount.GetOr(0.0) - b.amount.GetOr(0.0)
    ensures Compare(Columns()[3].sorter, a, b, localeCompare) == a.balance.GetOr(0.0) - b.balance.GetOr(0.0)
    ensures Compare(Columns()[2].sorter, a, b, localeCompare) == -Compare(Columns()[2].sorter, b, a, localeCompare)
    ensures Compare(Columns()[3].sorter, a, b, localeCompare) == -Compare(Columns()[3].sorter, b, a, localeCompare)
  {
  }

  /** The text sorters return 0 whenever `a`'s field is missing. */
  lemma TextSortersUndefinedLeft(a: InvoiceType, b: InvoiceType, localeCompare: (string, string) -> int)
    ensures a.invoiceNo.None? ==> Compare(Columns()[0].sorter, a, b, localeCompare) == 0.0
    ensures a.customer.None? ==> Compare(Columns()[1].sorter, a, b, localeCompare) == 0.0
    ensures a.invoiceDate.None? ==> Compare(Columns()[4].sorter, a, b, localeCompare) == 0.0
    ensures a.dueDate.None? ==> Compare(Columns()[5].sorter, a, b, localeCompare) == 0.0
    ensures a.linkedStatus.None? ==> Compare(Columns()[6].sorter, a, b, localeCompare) == 0.0
  {
  }
}
