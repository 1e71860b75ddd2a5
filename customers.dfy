/** The Customers list page: its record type, search field and column table. */
module Customers {
  import opened Wrappers
  import opened Text
  import opened TableView

  /** The customer record (`DataType` in the page); `name` is declared as always present. */
  datatype CustomerType = CustomerType(
    key: string,
    name: string,
    billing_contact: string,
    city: string,
    country: string,
    created_at: string,
    currency: string,
    email: string,
    id: string,
    location: string,
    postal_code: string,
    state: string,
    updated_at: string)

  /** The search box filters on `name`, read without optional chaining, so it is always defined. */
  function Title(c: CustomerType): Option<string> {
    Some(c.name)
  }

  /** Only Name has a sorter: `a.name.localeCompare(b.name)`. */
  function Columns(): (r: seq<Column<CustomerType>>)
    ensures |r| == 4 && DistinctKeys(r)
  {
    [ Column("name", "name", ByText(Title)),
      Column("location", "location", NoSorter),
      Column("email", "email", NoSorter),
      Column("currency", "currency", NoSorter) ]
  }

  /** The page on mount. */
  method NewView() returns (v: ListView<CustomerType>)
    ensures fresh(v) && v.Valid()
    ensures v.title == Title && v.columns == Columns()
    ensures v.data == [] && v.filteredData == [] && v.input == "" && v.sortedInfo == Unsorted && v.loader
  {
    v := new ListView(Title, Columns());
  }

  /** A customer is kept iff its lower-cased name includes the lower-cased query. */
  lemma KeptIffNameIncludes(records: seq<CustomerType>, query: string, c: CustomerType)
    ensures c in FilterByTitle(records, Title, query) <==> c in records && Includes(ToLower(c.name), ToLower(query))
  {
    FilterMembership(records, Title, query, c);
  }

  /** Since every name is defined, the empty query shows every customer. */
  lemma EmptyQueryShowsAll(records: seq<CustomerType>)
    ensures FilterByTitle(records, Title, "") == records
  {
    EmptyQueryKeepsAll(records, Title);
  }

  /** The Name sorter compares the two names directly. */
  lemma NameSorter(a: CustomerType, b: CustomerType, localeCompare: (string, string) -> int)
    ensures Compare(Columns()[0].sorter, a, b, localeCompare) == localeCompare(a.name, b.name) as real
  {
  }

  /** Only the Name column can show a sort order, and only while it is the active key. */
  lemma OnlyNameSortable(info: SortState)
    ensures forall i :: 0 <= i < |Columns()| ==>
      (ColumnSortOrder(info, Columns()[i]).Some? <==>
         Columns()[i].key == "name" && info.columnKey == Some("name") && info.order.Some?)
  {
  }
}
