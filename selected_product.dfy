/**
 * One selected product line on the Create Proposal page. The line keeps its
 * own quantity; whenever the quantity changes value (and once on mount) it
 * reports its whole subtotal `quantity * unitPrice` to the page, which adds
 * the value to its running total.
 */
module SelectedProduct {
  import opened Wrappers
  import opened CreateProposal

  /** `isNaN(value) ? 0 : value` on the result of `parseFloat`; None stands for NaN. */
  function CoerceQuantity(parsed: Option<real>): real {
    parsed.GetOr(0.0)
  }

  /** The line total `quantity * unitPrice` the line displays and reports. */
  function LineTotal(quantity: real, unitPrice: real): real {
    quantity * unitPrice
  }

  /**
   * The quantities a sequence of edits moves through, counting only actual
   * changes of value: the first differs from the starting quantity and each
   * differs from the one before.
   */
  function Changes(quantity: real, edits: seq<Option<real>>): (r: seq<real>)
    ensures |r| <= |edits|
    ensures r != [] ==> r[0] != quantity
    ensures forall k :: 0 < k < |r| ==> r[k] != r[k - 1]
    decreases |edits|
  {
    if edits == [] then []
    else
      var q := CoerceQuantity(edits[0]);
      (if q != quantity then [q] else []) + Changes(q, edits[1..])
  }

  /** The quantity after a sequence of edits: the last edit's value, whatever came before. */
  function FinalQuantity(quantity: real, edits: seq<Option<real>>): (r: real)
    ensures edits == [] ==> r == quantity
    ensures edits != [] ==> r == CoerceQuantity(edits[|edits| - 1])
    decreases |edits|
  {
    if edits == [] then quantity else FinalQuantity(CoerceQuantity(edits[0]), edits[1..])
  }

  /**
   * What the line passes to the page's `totalOrderValue` while the edits
   * arrive: the `[quantity]` effect runs only when the value changed, and
   * it sends the new whole subtotal, once per change of value.
   */
  function Reports(quantity: real, unitPrice: real, edits: seq<Option<real>>): (r: seq<real>)
    ensures |r| == |Changes(quantity, edits)|
    decreases |edits|
  {
    if edits == [] then []
    else
      var q := CoerceQuantity(edits[0]);
      (if q != quantity then [LineTotal(q, unitPrice)] else []) + Reports(q, unitPrice, edits[1..])
  }

  /** Each report is the full subtotal at a new quantity, not the difference from the previous one. */
  lemma {:induction false} ReportsAreSubtotals(quantity: real, unitPrice: real, edits: seq<Option<real>>)
    ensures forall k :: 0 <= k < |Changes(quantity, edits)| ==>
      Reports(quantity, unitPrice, edits)[k] == LineTotal(Changes(quantity, edits)[k], unitPrice)
    decreases |edits|
  {
    if edits != [] {
      ReportsAreSubtotals(CoerceQuantity(edits[0]), unitPrice, edits[1..]);
    }
  }

  lemma LineTotalDistributes(q: real, unitPrice: real, rest: real)
    ensures LineTotal(q, unitPrice) + LineTotal(rest, unitPrice) == LineTotal(q + rest, unitPrice)
  {
  }

  /** The page's total grows by the price times the sum of every quantity the line went through. */
  lemma {:induction false} ReportedTotal(quantity: real, unitPrice: real, edits: seq<Option<real>>)
    ensures Sum(Reports(quantity, unitPrice, edits)) == LineTotal(Sum(Changes(quantity, edits)), unitPrice)
    decreases |edits|
  {
    if edits != [] {
      var q := CoerceQuantity(edits[0]);
      ReportedTotal(q, unitPrice, edits[1..]);
      var restR, restC := Reports(q, unitPrice, edits[1..]), Changes(q, edits[1..]);
      if q != quantity {
        assert Reports(quantity, unitPrice, edits) == [LineTotal(q, unitPrice)] + restR;
        assert Changes(quantity, edits) == [q] + restC;
        SumAppend([LineTotal(q, unitPrice)], restR);
        SumAppend([q], restC);
        assert Sum([LineTotal(q, unitPrice)]) == LineTotal(q, unitPrice) && Sum([q]) == q;
        LineTotalDistributes(q, unitPrice, Sum(restC));
      } else {
        assert Reports(quantity, unitPrice, edits) == restR;
        assert Changes(quantity, edits) == restC;
      }
    }
  }

  /** The quantity the line ends at is its last change, or the starting one if nothing changed. */
  lemma {:induction false} FinalIsLastChange(quantity: real, edits: seq<Option<real>>)
    ensures Changes(quantity, edits) == [] ==> FinalQuantity(quantity, edits) == quantity
    ensures Changes(quantity, edits) != [] ==>
      FinalQuantity(quantity, edits) == Changes(quantity, edits)[|Changes(quantity, edits)| - 1]
    decreases |edits|
  {
    if edits != [] {
      var q := CoerceQuantity(edits[0]);
      FinalIsLastChange(q, edits[1..]);
    }
  }

  /** Edits in two batches report what the batches report one after the other. */
  lemma {:induction false} ReportsConcat(quantity: real, unitPrice: real, first: seq<Option<real>>, second: seq<Option<real>>)
    ensures Reports(quantity, unitPrice, first + second)
         == Reports(quantity, unitPrice, first) + Reports(FinalQuantity(quantity, first), unitPrice, second)
    decreases |first|
  {
    if first == [] {
      assert first + second == second;
    } else {
      var q := CoerceQuantity(first[0]);
      var head: seq<real> := if q != quantity then [LineTotal(q, unitPrice)] else [];
      assert (first + second)[0] == first[0] && (first + second)[1..] == first[1..] + second;
      ReportsConcat(q, unitPrice, first[1..], second);
      assert Reports(quantity, unitPrice, first + second) == head + Reports(q, unitPrice, first[1..] + second);
      assert Reports(quantity, unitPrice, first) == head + Reports(q, unitPrice, first[1..]);
      assert FinalQuantity(quantity, first) == FinalQuantity(q, first[1..]);
    }
  }

  /**
   * Changing the quantity 0 -> 3 -> 4 at price 10 adds 70 to the total, while
   * the line itself displays 40.
   */
  lemma ThreeThenFour()
    ensures Sum(Reports(0.0, 10.0, [Some(3.0), Some(4.0)])) == 70.0
    ensures FinalQuantity(0.0, [Some(3.0), Some(4.0)]) * 10.0 == 40.0
  {
    var edits: seq<Option<real>> := [Some(3.0), Some(4.0)];
    assert edits[1..] == [Some(4.0)] && |edits[1..][1..]| == 0;
    assert Reports(0.0, 10.0, edits) == [30.0, 40.0];
    assert [30.0, 40.0][..1] == [30.0];
  }

  class SelectedProductLine {
    const parent: ProposalDraft
    const name: string
    const unitPrice: real
    const description: string
    var quantity: real

    /** The displayed line total. */
    function Subtotal(): real
      reads this
    {
      LineTotal(quantity, unitPrice)
    }

    /**
     * Mounting the line for a selected product: the quantity starts at 0 and
     * the effect runs once, reporting 0 * unitPrice.
     */
    constructor (parent: ProposalDraft, product: ProductTypes)
      requires parent.Valid()
      modifies parent`totalCost, parent`reported
      ensures this.parent == parent && name == product.name
      ensures unitPrice == product.unit_price && description == product.description
      ensures quantity == 0.0
      ensures parent.Valid() && parent.reported == old(parent.reported) + [LineTotal(0.0, product.unit_price)]
      ensures parent.totalCost == old(parent.totalCost)
    {
      this.parent := parent;
      name, unitPrice, description := product.name, product.unit_price, product.description;
      quantity := 0.0;
      new;
      parent.TotalOrderValue(Subtotal());
    }

    /**
     * `handleProductQuantity` followed by the `[quantity]` effect: NaN becomes
     * 0, any other value (negative ones included) is kept, and a change of
     * value reports the new subtotal to the page.
     */
    method HandleProductQuantity(parsed: Option<real>)
      requires parent.Valid()
      modifies this`quantity, parent`totalCost, parent`reported
      ensures parsed.None? ==> quantity == 0.0
      ensures parsed.Some? ==> quantity == parsed.value
      ensures parent.Valid()
      ensures parent.reported == old(parent.reported) + Reports(old(quantity), unitPrice, [parsed])
      ensures parent.totalCost == old(parent.totalCost) + (if quantity != old(quantity) then Subtotal() else 0.0)
    {
      var q := CoerceQuantity(parsed);
      assert |[parsed][1..]| == 0;
      assert Reports(q, unitPrice, [parsed][1..]) == [];
      assert Reports(quantity, unitPrice, [parsed]) == if q != quantity then [LineTotal(q, unitPrice)] else [];
      if q != quantity {
        quantity := q;
        parent.TotalOrderValue(Subtotal());
      }
    }
  }

  /** Selecting one product at price 10 and typing 3 then 4 leaves the total at 70. */
  method ThreeThenFourOnPage() returns (total: real)
    ensures total == 70.0
  {
    var draft := new ProposalDraft();
    var product := ProductTypes(1, "u-1", "A", 0.0, "a", "", "", "USD", 10.0, "", "");
    draft.FetchProducts(TableView.ArrayResponse([product]));
    draft.HandleProductChange(1);
    var line := new SelectedProductLine(draft, draft.selectedProducts[0]);
    line.HandleProductQuantity(Some(3.0));
    line.HandleProductQuantity(Some(4.0));
    total := draft.totalCost;
  }

  /**
   * Two products at 10 and 5, typing 3 on the first line and 2 on the
   * second: each line changes once, so the total is 3 * 10 + 2 * 5.
   */
  method TwoLinesOnPage() returns (total: real)
    ensures total == 40.0
  {
    var draft := new ProposalDraft();
    var a := ProductTypes(1, "u-1", "A", 0.0, "a", "", "", "USD", 10.0, "", "");
    var b := ProductTypes(2, "u-2", "B", 0.0, "b", "", "", "USD", 5.0, "", "");
    draft.FetchProducts(TableView.ArrayResponse([a, b]));
    draft.HandleProductChange(1);
    var first := new SelectedProductLine(draft, draft.selectedProducts[0]);
    first.HandleProductQuantity(Some(3.0));
    draft.HandleProductChange(2);
    assert FindFirst([a, b], 2) == Some(1);
    assert |draft.selectedProducts| == 2;
    var second := new SelectedProductLine(draft, draft.selectedProducts[1]);
    second.HandleProductQuantity(Some(2.0));
    total := draft.totalCost;
  }
}
