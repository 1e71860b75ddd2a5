/** The Products list page: its record type, search field and column table. */
module Products {
  import opened Wrappers
  import opened TableView

  /** `ProductType`: every field may be missing; prices and quantities are numbers. */
  datatype ProductType = ProductType(
    name: Option<string>,
    quantity: Option<real>,
    internalName: Option<string>,
    description: Option<string>,
    chargeMethod: Option<string>,
    currency: Option<string>,
    unitPrice: Option<real>,
    status: Option<string>,
    lastActivity: Option<string>)

  /** The search box filters on `name`. */
  function Title(p: ProductType): Option<string> {
    p.name
  }

  /**
   * Name and Unit Price have sorters. Four columns display a snake_case
   * `dataIndex` that differs from their key; Unit Price displays `unit_price`
   * while its sorter reads `unitPrice`.
   */
  function Columns(): (r: seq<Column<ProductType>>)
    ensures |r| == 9 && DistinctKeys(r)
  {
    [ Column("name", "name", ByText(Title)),
      Column("quantity", "quantity", NoSorter),
      Column("internalName", "internal_name", NoSorter),
      Column("description", "description", NoSorter),
      Column("chargeMethod", "charge_method", NoSorter),
      Column("currency", "currency", NoSorter),
      Column("unitPrice", "unit_price", ByNumber((p: ProductType) => p.unitPrice)),
      Column("status", "status", NoSorter),
      Column("lastActivity", "last_activity", NoSorter) ]
  }

  /** The page on mount. */
  method NewView() returns (v: ListView<ProductType>)
    ensures fresh(v) && v.Valid()
    ensures v.title == Title && v.columns == Columns()
    ensures v.data == [] && v.filteredData == [] && v.input == "" && v.sortedInfo == Unsorted && v.loader
  {
    v := new ListView(Title, Columns());
  }

  /** A product is kept iff its name is defined and its lower-case form includes the lower-cased query. */
  lemma KeptIffNameMatches(records: seq<ProductType>, query: string, p: ProductType)
    ensures p in FilterByTitle(records, Title, query) <==> p in records && Matches(p.name, query)
    ensures IsSubsequence(FilterByTitle(records, Title, query), records)
  {
    FilterMembership(records, Title, query, p);
    FilterIsSubsequence(records, Title, query);
  }

  /** Only Name and Unit Price can show a sort order, and only while active. */
  lemma OnlyNameAndUnitPriceSortable(info: SortState)
    ensures forall i :: 0 <= i < |Columns()| ==>
      (ColumnSortOrder(info, Columns()[i]).Some? <==>
         Columns()[i].key in {"name", "unitPrice"} && info.columnKey == Some(Columns()[i].key) && info.order.Some?)
  {
  }

  /**
   * The Unit Price sorter is `(a.unitPrice || 0) - (b.unitPrice || 0)`: a
   * missing price counts as 0, a record compares equal to itself, and swapping
   * the arguments negates the result.
   */
  lemma UnitPriceSorter(a: ProductType, b: ProductType, localeCompare: (string, string) -> int)
    ensures Compare(Columns()[6].sorter, a, b, localeCompare) == a.unitPrice.GetOr(0.0) - b.unitPrice.GetOr(0.0)
    ensures Compare(Columns()[6].sorter, a, a, localeCompare) == 0.0
    ensures Compare(Columns()[6].sorter, a, b, localeCompare) == -Compare(Columns()[6].sorter, b, a, localeCompare)
  {
  }

  /**
   * The Unit Price column shows `unit_price` but sorts by `unitPrice`: records
   * that carry no `unitPrice` all compare equal under it.
   */
  lemma UnitPriceSortsOtherField(a: ProductType, b: ProductType, localeCompare: (string, string) -> int)
    requires a.unitPrice.None? && b.unitPrice.None?
    ensures Columns()[6].key == "unitPrice" && Columns()[6].dataIndex == "unit_price"
    ensures Compare(Columns()[6].sorter, a, b, localeCompare) == 0.0
  {
  }

  /** The Name sorter: 0 when `a` has no name, otherwise against '' when `b` has none. */
  lemma NameSorter(a: ProductType, b: ProductType, localeCompare: (string, string) -> int)
    ensures a.name.None? ==> Compare(Columns()[0].sorter, a, b, localeCompare) == 0.0
    ensures a.name.Some? && b.name.None? ==>
      Compare(Columns()[0].sorter, a, b, localeCompare) == localeCompare(a.name.value, "") as real
  {
  }
}
