/** The Subscriptions list page: its record type, search field and column table. */
module Subscriptions {
  import opened Wrappers
  import opened TableView

  /** `SubscriptionType`: every field may be missing; `tcv` is a number. */
  datatype SubscriptionType = SubscriptionType(
    customerSubscriptionNo: Option<string>,
    start: Option<string>,
    end: Option<string>,
    tcv: Option<real>,
    nextPayment: Option<string>,
    billFrequencyMethod: Option<string>,
    autoRenewal: Option<string>,
    status: Option<string>)

  /** The search box filters on `customerSubscriptionNo`. */
  function Title(s: SubscriptionType): Option<string> {
    s.customerSubscriptionNo
  }

  /** Next Payment, Auto Renewal and Status have no sorter; TCV sorts numerically. */
  function Columns(): (r: seq<Column<SubscriptionType>>)
    ensures |r| == 8 && DistinctKeys(r)
  {
    [ Column("customerSubscriptionNo", "customerSubscriptionNo", ByText(Title)),
      Column("start", "start", ByText((s: SubscriptionType) => s.start)),
      Column("end", "end", ByText((s: SubscriptionType) => s.end)),
      Column("tcv", "tcv", ByNumber((s: SubscriptionType) => s.tcv)),
      Column("nextPayment", "nextPayment", NoSorter),
      Column("billFrequencyMethod", "billFrequencyMethod", ByText((s: SubscriptionType) => s.billFrequencyMethod)),
      Column("autoRenewal", "autoRenewal", NoSorter),
      Column("status", "status", NoSorter) ]
  }

  /** The page on mount. */
  method NewView() returns (v: ListView<SubscriptionType>)
    ensures fresh(v) && v.Valid()
    ensures v.title == Title && v.columns == Columns()
    ensures v.data == [] && v.filteredData == [] && v.input == "" && v.sortedInfo == Unsorted && v.loader
  {
    v := new ListView(Title, Columns());
  }

  /** A subscription is kept iff its number is defined and matches; order is preserved. */
  lemma KeptIffNumberMatches(records: seq<SubscriptionType>, query: string, s: SubscriptionType)
    ensures s in FilterByTitle(records, Title, query) <==> s in records && Matches(s.customerSubscriptionNo, query)
    ensures IsSubsequence(FilterByTitle(records, Title, query), records)
  {
    FilterMembership(records, Title, query, s);
    FilterIsSubsequence(records, Title, query);
  }

  /** Every column but Next Payment, Auto Renewal and Status can show a sort order, only while active. */
  lemma SortableColumns(info: SortState)
    ensures forall i :: 0 <= i < |Columns()| ==>
      (ColumnSortOrder(info, Columns()[i]).Some? <==>
         Columns()[i].key !in {"nextPayment", "autoRenewal", "status"} &&
         info.columnKey == Some(Columns()[i].key) && info.order.Some?)
  {
  }

  /** The TCV sorter counts a missing value as 0 and is antisymmetric. */
  lemma TcvSorter(a: SubscriptionType, b: SubscriptionType, localeCompare: (string, string) -> int)
    ensures Compare(Columns()[3].sorter, a, b, localeCompare) == a.tcv.GetOr(0.0) - b.tcv.GetOr(0.0)
    ensures Compare(Columns()[3].sorter, a, b, localeCompare) == -Compare(Columns()[3].sorter, b, a, localeCompare)
  {
  }

  /** The four text sorters return 0 whenever `a`'s field is missing. */
  lemma TextSortersUndefinedLeft(a: SubscriptionType, b: SubscriptionType, localeCompare: (string, string) -> int)
    ensures a.customerSubscriptionNo.None? ==> Compare(Columns()[0].sorter, a, b, localeCompare) == 0.0
    ensures a.start.None? ==> Compare(Columns()[1].sorter, a, b, localeCompare) == 0.0
    ensures a.end.None? ==> Compare(Columns()[2].sorter, a, b, localeCompare) == 0.0
    ensures a.billFrequencyMethod.None? ==> Compare(Columns()[5].sorter, a, b, localeCompare) == 0.0
  {
  }
}
