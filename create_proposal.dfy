/**
 * The Create Proposal page: the product catalogue and customer list it
 * fetches, the products selected into the draft, the running total the
 * selected lines report into, and the Add Customer modal flag.
 */
module CreateProposal {
  import opened Wrappers
  import opened TableView
  import Customers

  /** `ProductTypes`: a catalogue product as the backend sends it. */
  datatype ProductTypes = ProductTypes(
    id: int,
    uuid: string,
    name: string,
    quantity: real,
    internal_name: string,
    description: string,
    charge_method: string,
    currency: string,
    unit_price: real,
    status: string,
    last_activity: string)

  /** The position `products.find(each => each.id === productId)` stops at, if any. */
  function FindFirst(products: seq<ProductTypes>, productId: int): (r: Option<nat>)
    ensures r.Some? ==> r.value < |products| && products[r.value].id == productId
    ensures r.Some? ==> forall j :: 0 <= j < r.value ==> products[j].id != productId
    ensures r.None? <==> forall j :: 0 <= j < |products| ==> products[j].id != productId
  {
    if products == [] then None
    else if products[0].id == productId then Some(0)
    else
      match FindFirst(products[1..], productId)
      case None => None
      case Some(k) => Some(k + 1)
  }

  /** The sum of a sequence of reported values; it cannot go negative while no value does. */
  function Sum(s: seq<real>): (r: real)
    ensures (forall k :: 0 <= k < |s| ==> s[k] >= 0.0) ==> r >= 0.0
  {
    if s == [] then 0.0 else Sum(s[..|s| - 1]) + s[|s| - 1]
  }

  lemma {:induction false} SumAppend(a: seq<real>, b: seq<real>)
    ensures Sum(a + b) == Sum(a) + Sum(b)
    decreases |b|
  {
    if b != [] {
      assert (a + b)[..|a + b| - 1] == a + b[..|b| - 1];
      SumAppend(a, b[..|b| - 1]);
    } else {
      assert a + b == a;
    }
  }

  class ProposalDraft {
    var isModalVisible: bool
    var customers: seq<Customers.CustomerType>
    var products: seq<ProductTypes>
    var selectedProducts: seq<ProductTypes>
    var totalCost: real
    /** Every value passed to `totalOrderValue` so far, oldest first. */
    ghost var reported: seq<real>

    /** `totalCost` is the sum of every value ever reported, and nothing else. */
    ghost predicate Valid()
      reads this
    {
      totalCost == Sum(reported)
    }

    /** The page on mount, before either fetch resolves. */
    constructor ()
      ensures Valid()
      ensures !isModalVisible && customers == [] && products == [] && selectedProducts == []
      ensures totalCost == 0.0 && reported == []
    {
      isModalVisible := false;
      customers, products, selectedProducts := [], [], [];
      totalCost := 0.0;
      reported := [];
    }

    /** `showModal`: open the Add Customer modal. */
    method ShowModal()
      modifies this`isModalVisible
      ensures isModalVisible
    {
      isModalVisible := true;
    }

    /** `handleOk`: close the modal. */
    method HandleOk()
      modifies this`isModalVisible
      ensures !isModalVisible
    {
      isModalVisible := false;
    }

    /** `handleCancel`: close the modal. */
    method HandleCancel()
      modifies this`isModalVisible
      ensures !isModalVisible
    {
      isModalVisible := false;
    }

    /** The customers fetch: an array replaces the list; anything else leaves it as it was. */
    method FetchCustomers(outcome: FetchOutcome<Customers.CustomerType>)
      modifies this`customers
      ensures customers == if outcome.ArrayResponse? then outcome.records else old(customers)
    {
      if outcome.ArrayResponse? {
        customers := outcome.records;
      }
    }

    /** The products fetch: an array replaces the catalogue; anything else empties it. */
    method FetchProducts(outcome: FetchOutcome<ProductTypes>)
      modifies this`products
      ensures products == Loaded(outcome)
    {
      products := Loaded(outcome);
    }

    /**
     * `handleProductChange`: append the first catalogue product with that id,
     * even when it is already selected; an unknown id changes nothing.
     */
    method HandleProductChange(productId: int)
      modifies this`selectedProducts
      ensures match FindFirst(products, productId)
        case Some(i) => selectedProducts == old(selectedProducts) + [products[i]]
        case None => selectedProducts == old(selectedProducts)
    {
      var found := FindFirst(products, productId);
      if found.Some? {
        selectedProducts := selectedProducts + [products[found.value]];
      }
    }

    /** `totalOrderValue`: add the reported value to the running total. */
    method TotalOrderValue(value: real)
      requires Valid()
      modifies this`totalCost, this`reported
      ensures Valid()
      ensures reported == old(reported) + [value]
      ensures totalCost == old(totalCost) + value
    {
      totalCost := totalCost + value;
      reported := reported + [value];
      assert reported[..|reported| - 1] == old(reported);
    }
  }

  /** Selecting the same product twice appends it twice: there is no merge. */
  method SelectTwice(draft: ProposalDraft, productId: int)
    modifies draft
    requires FindFirst(draft.products, productId).Some?
    ensures draft.products == old(draft.products)
    ensures var p := draft.products[FindFirst(draft.products, productId).value];
      draft.selectedProducts == old(draft.selectedProducts) + [p, p]
  {
    draft.HandleProductChange(productId);
    draft.HandleProductChange(productId);
  }
}
