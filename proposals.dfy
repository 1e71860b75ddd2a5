/** The Proposals list page: its record type, search field and column table. */
module Proposals {
  import opened Wrappers
  import opened TableView

  /** `ProposalType`: every field may be missing. */
  datatype ProposalType = ProposalType(
    customerOrProposalTitle: Option<string>,
    valueOrTerm: Option<string>,
    lastActivity: Option<string>,
    status: Option<string>,
    signed: Option<string>)

  /** The search box filters on `customerOrProposalTitle`. */
  function Title(p: ProposalType): Option<string> {
    p.customerOrProposalTitle
  }

  /** The five columns; every one of them has a text sorter on its own field. */
  function Columns(): (r: seq<Column<ProposalType>>)
    ensures |r| == 5 && DistinctKeys(r)
  {
    [ Column("customerOrProposalTitle", "customerOrProposalTitle", ByText((p: ProposalType) => p.customerOrProposalTitle)),
      Column("valueOrTerm", "valueOrTerm", ByText((p: ProposalType) => p.valueOrTerm)),
      Column("lastActivity", "lastActivity", ByText((p: ProposalType) => p.lastActivity)),
      Column("status", "status", ByText((p: ProposalType) => p.status)),
      Column("signed", "signed", ByText((p: ProposalType) => p.signed)) ]
  }

  /** The page on mount. */
  method NewView() returns (v: ListView<ProposalType>)
    ensures fresh(v) && v.Valid()
    ensures v.title == Title && v.columns == Columns()
    ensures v.data == [] && v.filteredData == [] && v.input == "" && v.sortedInfo == Unsorted && v.loader
  {
    v := new ListView(Title, Columns());
  }

  /**
   * Every column is sortable and displays the field its key names, so the
   * column showing an order is exactly the one whose key is `sortedInfo.columnKey`.
   */
  lemma ColumnsSortable(info: SortState)
    ensures forall i :: 0 <= i < |Columns()| ==>
      Columns()[i].sorter.ByText? && Columns()[i].key == Columns()[i].dataIndex &&
      (ColumnSortOrder(info, Columns()[i]).Some? <==> info.columnKey == Some(Columns()[i].key) && info.order.Some?)
  {
  }

  /** Each text column compares its own field: 0 when `a`'s value is missing, against '' when `b`'s is. */
  lemma TextColumnsCompareOwnField(a: ProposalType, b: ProposalType, localeCompare: (string, string) -> int)
    ensures Compare(Columns()[0].sorter, a, b, localeCompare) == TextSorter(a.customerOrProposalTitle, b.customerOrProposalTitle, localeCompare) as real
    ensures Compare(Columns()[1].sorter, a, b, localeCompare) == TextSorter(a.valueOrTerm, b.valueOrTerm, localeCompare) as real
    ensures Compare(Columns()[2].sorter, a, b, localeCompare) == TextSorter(a.lastActivity, b.lastActivity, localeCompare) as real
    ensures Compare(Columns()[3].sorter, a, b, localeCompare) == TextSorter(a.status, b.status, localeCompare) as real
    ensures Compare(Columns()[4].sorter, a, b, localeCompare) == TextSorter(a.signed, b.signed, localeCompare) as real
  {
  }

  /** A proposal without a title is never shown while searching, not even for the empty query. */
  lemma UntitledNeverMatches(records: seq<ProposalType>, p: ProposalType, query: string)
    requires p.customerOrProposalTitle.None?
    ensures p !in FilterByTitle(records, Title, query)
  {
    FilterMembership(records, Title, query, p);
  }

  /**
   * Text typed before the fetch resolves stays in the search box, but the load
   * shows every fetched proposal: the projection then disagrees with the query.
   */
  method SearchBeforeLoad(records: seq<ProposalType>) returns (v: ListView<ProposalType>)
    ensures v.Valid() && v.input == "acme"
    ensures v.data == records && v.filteredData == records && !v.loader
  {
    v := NewView();
    v.HandleOnChangeInput("acme");
    v.FetchData(ArrayResponse(records));
  }
}
