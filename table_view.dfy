/**
 * The view state shared by the five list pages (Proposals, Customers, Products,
 * Subscriptions, Invoices). Each page keeps the fetched records, the filtered
 * projection handed to the table, the raw search text, the single sort
 * descriptor reported by the table, and a loading flag. What differs between
 * the pages is the record type, the field the search box looks at, and the
 * column table with its comparators; those are the parameters here.
 */
module TableView {
  import opened Wrappers
  import opened Text

  // ---------------------------------------------------------------------------
  // Fetch outcomes
  // ---------------------------------------------------------------------------

  /** What a GET of the record list can come back with. */
  datatype FetchOutcome<T> =
    | ArrayResponse(records: seq<T>)  // `Array.isArray(response.data)` holds
    | NonArrayResponse                // a response whose body is not an array
    | RequestFailed                   // axios threw

  /** The records a load stores: the array itself, or [] on every other outcome. */
  function Loaded<T>(outcome: FetchOutcome<T>): (rs: seq<T>)
    ensures outcome.ArrayResponse? ==> rs == outcome.records
    ensures !outcome.ArrayResponse? ==> rs == []
  {
    if outcome.ArrayResponse? then outcome.records else []
  }

  // ---------------------------------------------------------------------------
  // Search
  // ---------------------------------------------------------------------------

  /**
   * The search predicate `title?.toLowerCase().includes(query.toLowerCase())`:
   * an undefined title yields `undefined`, which `filter` treats as false.
   */
  predicate Matches(title: Option<string>, query: string) {
    title.Some? && Includes(ToLower(title.value), ToLower(query))
  }

  /**
   * A title matches iff it is defined and the lower-cased query occurs in its
   * lower-cased form at some offset.
   */
  lemma MatchesAtOffset(title: Option<string>, query: string)
    ensures Matches(title, query) <==> title.Some? && exists i :: OccursAt(ToLower(title.value), ToLower(query), i)
  {
    if title.Some? {
      IncludesAtOffset(ToLower(title.value), ToLower(query));
      assert Matches(title, query) <==> Includes(ToLower(title.value), ToLower(query));
    }
  }

  /** The empty query matches exactly the records whose title is defined. */
  lemma EmptyQueryMatchesDefined(title: Option<string>)
    ensures Matches(title, "") <==> title.Some?
  {
    if title.Some? {
      IncludesEmpty(ToLower(title.value));
    }
  }

  /** Matching ignores the case of the query: lower-casing it first changes nothing. */
  lemma MatchesIgnoresQueryCase(title: Option<string>, query: string)
    ensures Matches(title, query) <==> Matches(title, ToLower(query))
  {
    ToLowerIdempotent(query);
  }

  /** `records.filter(r => Matches(title(r), query))`. */
  function FilterByTitle<T>(records: seq<T>, title: T -> Option<string>, query: string): (r: seq<T>)
    ensures |r| <= |records|
    ensures forall k :: 0 <= k < |r| ==> Matches(title(r[k]), query)
  {
    if records == [] then []
    else
      (if Matches(title(records[0]), query) then [records[0]] else [])
      + FilterByTitle(records[1..], title, query)
  }

  /** `idx` lists, in increasing order, positions of `s` whose elements make up `sub`. */
  ghost predicate Embeds<T>(sub: seq<T>, s: seq<T>, idx: seq<int>) {
    && |idx| == |sub|
    && (forall k :: 0 <= k < |idx| ==> 0 <= idx[k] < |s| && sub[k] == s[idx[k]])
    && (forall k, l :: 0 <= k < l < |idx| ==> idx[k] < idx[l])
  }

  /** `sub` is an order-preserving subsequence of `s`. */
  ghost predicate IsSubsequence<T>(sub: seq<T>, s: seq<T>) {
    exists idx :: Embeds(sub, s, idx)
  }

  lemma SubsequenceOfItself<T>(s: seq<T>)
    ensures IsSubsequence(s, s)
  {
    var idx := seq(|s|, k => k);
    assert Embeds(s, s, idx);
  }

  /** Every position moved one place to the right. */
  function Shift(idx: seq<int>): (r: seq<int>)
    ensures |r| == |idx|
    ensures forall k :: 0 <= k < |idx| ==> r[k] == idx[k] + 1
  {
    seq(|idx|, k requires 0 <= k < |idx| => idx[k] + 1)
  }

  lemma ShiftMembership(idx: seq<int>, j: int)
    ensures j in Shift(idx) <==> j - 1 in idx
  {
    var shifted := Shift(idx);
    if j in shifted {
      var k :| 0 <= k < |shifted| && shifted[k] == j;
      assert idx[k] == j - 1;
    }
    if j - 1 in idx {
      var k :| 0 <= k < |idx| && idx[k] == j - 1;
      assert shifted[k] == j;
    }
  }

  /** Positions of the tail, shifted past a dropped head, embed into the whole sequence. */
  lemma EmbedsAfterDrop<T>(sub: seq<T>, s: seq<T>, idx: seq<int>)
    requires s != [] && Embeds(sub, s[1..], idx)
    ensures Embeds(sub, s, Shift(idx))
  {
  }

  /** Positions of the tail, shifted past a kept head, embed the head-extended sequence. */
  lemma EmbedsAfterKeep<T>(sub: seq<T>, s: seq<T>, idx: seq<int>)
    requires s != [] && Embeds(sub, s[1..], idx)
    requires forall k :: 0 <= k < |idx| ==> 0 <= idx[k]
    ensures Embeds([s[0]] + sub, s, [0] + Shift(idx))
  {
    var r, p := [s[0]] + sub, [0] + Shift(idx);
    forall k | 0 <= k < |p| ensures 0 <= p[k] < |s| && r[k] == s[p[k]] {
      if k > 0 {
        assert p[k] == idx[k - 1] + 1 && r[k] == sub[k - 1];
      }
    }
  }

  /**
   * The filter result is exactly the records at the matching positions, in
   * their original order: a position is kept iff its record matches.
   */
  lemma {:induction false} FilterPositions<T>(records: seq<T>, title: T -> Option<string>, query: string)
    returns (idx: seq<int>)
    ensures Embeds(FilterByTitle(records, title, query), records, idx)
    ensures forall j :: 0 <= j < |records| ==> (j in idx <==> Matches(title(records[j]), query))
  {
    if records == [] {
      idx := [];
    } else {
      var rest := FilterPositions(records[1..], title, query);
      var tail := FilterByTitle(records[1..], title, query);
      var keep := Matches(title(records[0]), query);
      if keep {
        assert FilterByTitle(records, title, query) == [records[0]] + tail;
        EmbedsAfterKeep(tail, records, rest);
        idx := [0] + Shift(rest);
      } else {
        assert FilterByTitle(records, title, query) == tail;
        EmbedsAfterDrop(tail, records, rest);
        idx := Shift(rest);
      }
      forall j | 0 <= j < |records|
        ensures j in idx <==> Matches(title(records[j]), query)
      {
        ShiftMembership(rest, j);
        if j > 0 {
          assert records[j] == records[1..][j - 1];
        }
      }
    }
  }

  /** The projection is an order-preserving subsequence of the records it was filtered from. */
  lemma FilterIsSubsequence<T>(records: seq<T>, title: T -> Option<string>, query: string)
    ensures IsSubsequence(FilterByTitle(records, title, query), records)
  {
    var idx := FilterPositions(records, title, query);
  }

  /** A record is in the projection iff it is one of the records and it matches. */
  lemma FilterMembership<T>(records: seq<T>, title: T -> Option<string>, query: string, x: T)
    ensures x in FilterByTitle(records, title, query) <==> x in records && Matches(title(x), query)
  {
    var r := FilterByTitle(records, title, query);
    var idx := FilterPositions(records, title, query);
    if x in r {
      var k :| 0 <= k < |r| && r[k] == x;
      assert records[idx[k]] == x;
    }
    if x in records && Matches(title(x), query) {
      var j :| 0 <= j < |records| && records[j] == x;
      assert j in idx;
      var k :| 0 <= k < |idx| && idx[k] == j;
      assert r[k] == x;
    }
  }

  /** Filtering the projection again with the same query changes nothing. */
  lemma {:induction false} FilterIdempotent<T>(records: seq<T>, title: T -> Option<string>, query: string)
    ensures FilterByTitle(FilterByTitle(records, title, query), title, query)
         == FilterByTitle(records, title, query)
  {
    if records != [] {
      FilterIdempotent(records[1..], title, query);
      var tail := FilterByTitle(records[1..], title, query);
      if Matches(title(records[0]), query) {
        var r := [records[0]] + tail;
        assert FilterByTitle(records, title, query) == r;
        assert r[0] == records[0] && r[1..] == tail;
        assert FilterByTitle(r, title, query) == [records[0]] + FilterByTitle(tail, title, query);
      } else {
        assert FilterByTitle(records, title, query) == tail;
      }
    }
  }

  /** Searching is case-insensitive in the query. */
  lemma {:induction false} FilterIgnoresQueryCase<T>(records: seq<T>, title: T -> Option<string>, query: string)
    ensures FilterByTitle(records, title, query) == FilterByTitle(records, title, ToLower(query))
  {
    if records != [] {
      MatchesIgnoresQueryCase(title(records[0]), query);
      FilterIgnoresQueryCase(records[1..], title, query);
    }
  }

  /** When every title is defined, the empty query keeps every record, in order. */
  lemma {:induction false} EmptyQueryKeepsAll<T>(records: seq<T>, title: T -> Option<string>)
    requires forall k :: 0 <= k < |records| ==> title(records[k]).Some?
    ensures FilterByTitle(records, title, "") == records
  {
    if records != [] {
      EmptyQueryMatchesDefined(title(records[0]));
      EmptyQueryKeepsAll(records[1..], title);
    }
  }

  /** The empty query still drops a record whose title is undefined. */
  lemma EmptyQueryDropsUndefined<T>(records: seq<T>, title: T -> Option<string>, x: T)
    requires title(x).None?
    ensures x !in FilterByTitle(records, title, "")
  {
    FilterMembership(records, title, "", x);
  }

  // ---------------------------------------------------------------------------
  // Sorting bookkeeping and comparators
  // ---------------------------------------------------------------------------

  datatype SortOrder = Ascend | Descend

  /** `sortedInfo`: `{}` initially, then whatever sorter descriptor the table last reported. */
  datatype SortState = SortState(columnKey: Option<string>, order: Option<SortOrder>)

  const Unsorted: SortState := SortState(None, None)

  /** How a column compares two records, if it has a `sorter` at all. */
  datatype Sorter<!T> =
    | NoSorter
    | ByText(text: T -> Option<string>)   // `a.f?.localeCompare(b.f || '') || 0`
    | ByNumber(number: T -> Option<real>)  // `(a.f || 0) - (b.f || 0)`

  /** A table column: its `key`, the `dataIndex` it displays, and its sorter. */
  datatype Column<!T> = Column(key: string, dataIndex: string, sorter: Sorter<T>)

  /**
   * `a?.localeCompare(b || '') || 0`, with `localeCompare` passed in: 0 when the
   * left value is undefined, otherwise a comparison against '' for an undefined right value.
   */
  function TextSorter(a: Option<string>, b: Option<string>, localeCompare: (string, string) -> int): (r: int)
    ensures a.None? ==> r == 0
    ensures a.Some? ==> r == localeCompare(a.value, b.GetOr(""))
  {
    match a
    case None => 0
    case Some(x) => localeCompare(x, b.GetOr(""))
  }

  /**
   * `(a || 0) - (b || 0)`: the sign orders the two values, an undefined
   * number counting as 0.
   */
  function NumberSorter(a: Option<real>, b: Option<real>): (r: real)
    ensures r < 0.0 <==> a.GetOr(0.0) < b.GetOr(0.0)
    ensures r == 0.0 <==> a.GetOr(0.0) == b.GetOr(0.0)
    ensures r > 0.0 <==> a.GetOr(0.0) > b.GetOr(0.0)
  {
    a.GetOr(0.0) - b.GetOr(0.0)
  }

  /** A numeric comparator is a consistent ordering: zero on itself, antisymmetric, transitive. */
  lemma NumberSorterIsConsistent(a: Option<real>, b: Option<real>, c: Option<real>)
    ensures NumberSorter(a, a) == 0.0
    ensures NumberSorter(a, b) == -NumberSorter(b, a)
    ensures NumberSorter(a, b) <= 0.0 && NumberSorter(b, c) <= 0.0 ==> NumberSorter(a, c) <= 0.0
    ensures NumberSorter(None, b) == NumberSorter(Some(0.0), b)
  {
  }

  /**
   * A text comparator is not antisymmetric once a value is undefined: the
   * undefined side compares equal from the left, but not from the right.
   */
  lemma TextSorterAsymmetricOnUndefined(x: string, localeCompare: (string, string) -> int)
    requires localeCompare(x, "") != 0
    ensures TextSorter(None, Some(x), localeCompare) == 0
    ensures TextSorter(Some(x), None, localeCompare) != 0
  {
  }

  /**
   * With `localeCompare` antisymmetric, the text comparator is antisymmetric on
   * defined values, and an undefined right value compares as ''.
   */
  lemma TextSorterOnDefined(x: string, y: string, localeCompare: (string, string) -> int)
    requires forall u, v :: localeCompare(u, v) == -localeCompare(v, u)
    ensures TextSorter(Some(x), Some(y), localeCompare) == -TextSorter(Some(y), Some(x), localeCompare)
    ensures TextSorter(Some(x), None, localeCompare) == TextSorter(Some(x), Some(""), localeCompare)
  {
  }

  /**
   * What the column's `sorter` returns for `a` and `b`: a numeric column
   * orders by its number with undefined as 0; a text column gives 0 when
   * `a`'s field is undefined and otherwise `localeCompare` against `b`'s
   * field, or against '' when that is undefined.
   */
  function Compare<T>(sorter: Sorter<T>, a: T, b: T, localeCompare: (string, string) -> int): (r: real)
    requires !sorter.NoSorter?
    ensures sorter.ByNumber? ==> (r < 0.0 <==> sorter.number(a).GetOr(0.0) < sorter.number(b).GetOr(0.0))
    ensures sorter.ByNumber? ==> (r == 0.0 <==> sorter.number(a).GetOr(0.0) == sorter.number(b).GetOr(0.0))
    ensures sorter.ByText? && sorter.text(a).None? ==> r == 0.0
    ensures sorter.ByText? && sorter.text(a).Some? ==>
      r == localeCompare(sorter.text(a).value, sorter.text(b).GetOr("")) as real
  {
    match sorter
    case ByText(text) => TextSorter(text(a), text(b), localeCompare) as real
    case ByNumber(number) => NumberSorter(number(a), number(b))
  }

  /** `sortOrder: sortedInfo.columnKey === key ? sortedInfo.order : null` on a sortable column. */
  function ColumnSortOrder<T>(info: SortState, column: Column<T>): (r: Option<SortOrder>)
    ensures r.Some? <==> !column.sorter.NoSorter? && info.columnKey == Some(column.key) && info.order.Some?
    ensures r.Some? ==> r == info.order
  {
    if !column.sorter.NoSorter? && info.columnKey == Some(column.key) then info.order else None
  }

  /** The column keys of a table are pairwise distinct. */
  ghost predicate DistinctKeys<T>(columns: seq<Column<T>>) {
    forall i, j :: 0 <= i < j < |columns| ==> columns[i].key != columns[j].key
  }

  /** With distinct keys, at most one column shows a sort order. */
  lemma AtMostOneColumnSorted<T>(info: SortState, columns: seq<Column<T>>, i: int, j: int)
    requires DistinctKeys(columns)
    requires 0 <= i < |columns| && 0 <= j < |columns|
    requires ColumnSortOrder(info, columns[i]).Some? && ColumnSortOrder(info, columns[j]).Some?
    ensures i == j
  {
  }

  // ---------------------------------------------------------------------------
  // The view state
  // ---------------------------------------------------------------------------

  /**
   * One list page. `title` is the field the search box filters on; `columns`
   * is the page's column table.
   */
  class ListView<T> {
    const title: T -> Option<string>
    const columns: seq<Column<T>>
    var data: seq<T>           // proposalData, customerData, ...
    var filteredData: seq<T>   // the table's dataSource
    var input: string          // the search box's value
    var sortedInfo: SortState
    var loader: bool

    /** The projection is always an order-preserving subsequence of the records. */
    ghost predicate Valid()
      reads this
    {
      IsSubsequence(filteredData, data)
    }

    /** The state on mount, before the fetch resolves. */
    constructor (title: T -> Option<string>, columns: seq<Column<T>>)
      ensures Valid()
      ensures this.title == title && this.columns == columns
      ensures data == [] && filteredData == [] && input == ""
      ensures sortedInfo == Unsorted && loader
    {
      this.title := title;
      this.columns := columns;
      data, filteredData, input := [], [], "";
      sortedInfo, loader := Unsorted, true;
      new;
      SubsequenceOfItself<T>([]);
    }

    /** `handleOnChangeInput`: store the raw text and filter the full record set with it. */
    method HandleOnChangeInput(value: string)
      requires Valid()
      modifies this`input, this`filteredData
      ensures Valid()
      ensures input == value
      ensures filteredData == FilterByTitle(data, title, value)
    {
      input := value;
      filteredData := FilterByTitle(data, title, value);
      FilterIsSubsequence(data, title, value);
    }

    /** `handleChange`: the table's sorter descriptor replaces `sortedInfo` wholesale. */
    method HandleChange(sorter: SortState)
      requires Valid()
      modifies this`sortedInfo
      ensures Valid()
      ensures sortedInfo == sorter
    {
      sortedInfo := sorter;
    }

    /**
     * The outcome of the fetch: both the records and the projection become the
     * loaded array (or []), whatever the search box holds; the loader always clears.
     */
    method FetchData(outcome: FetchOutcome<T>)
      modifies this`data, this`filteredData, this`loader
      ensures Valid()
      ensures data == Loaded(outcome) && filteredData == Loaded(outcome)
      ensures !loader
    {
      data := Loaded(outcome);
      filteredData := data;
      loader := false;
      SubsequenceOfItself(data);
    }

    /** The `sortOrder` the table is given for `column` in the current state. */
    function SortOrderOf(column: Column<T>): (r: Option<SortOrder>)
      reads this
      ensures r.Some? ==> sortedInfo.columnKey == Some(column.key) && r == sortedInfo.order
    {
      ColumnSortOrder(sortedInfo, column)
    }
  }

  /**
   * Two keystrokes in a row: the projection depends only on the latest text,
   * because each keystroke filters the full record set, not the previous projection.
   */
  method SearchTwice<T>(v: ListView<T>, first: string, second: string)
    requires v.Valid()
    modifies v
    ensures v.Valid() && v.data == old(v.data) && v.input == second
    ensures v.filteredData == FilterByTitle(v.data, v.title, second)
  {
    v.HandleOnChangeInput(first);
    v.HandleOnChangeInput(second);
  }
}
