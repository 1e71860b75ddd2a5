/**
 * The console's frame: a side menu that picks the page (and the header
 * title), a header whose one action button depends on that title, the two
 * modals for adding a customer or a product, and logging out.
 *
 * Navigation is recorded, not performed: every `navigate(path)` call appends
 * `path` to `navigations`. The `jwtToken` cookie is a field of the layout.
 */
module CpqLayout {
  import opened Wrappers
  import opened Text

  /** The action buttons the header can show. */
  datatype HeaderAction = CreateProposalButton | AddCustomerButton | AddProductButton

  /**
   * The header's buttons for a title: three independent conditions, one per
   * button, in the order they are rendered.
   */
  function HeaderActions(title: string): (r: seq<HeaderAction>)
    ensures |r| <= 1
    ensures CreateProposalButton in r <==> title == "Proposals"
    ensures AddCustomerButton in r <==> title == "Customers"
    ensures AddProductButton in r <==> title == "Products"
  {
    (if title == "Proposals" then [CreateProposalButton] else [])
    + (if title == "Customers" then [AddCustomerButton] else [])
    + (if title == "Products" then [AddProductButton] else [])
  }

  /** The keys of the page menu, in menu order. */
  const MenuKeys: seq<string> := ["proposals", "subscriptions", "invoices", "customers", "products"]

  /** The titles the header can hold: the capitalised menu keys. */
  const Titles: seq<string> := ["Proposals", "Subscriptions", "Invoices", "Customers", "Products"]

  /**
   * The first letter upper-cased (ASCII), the rest kept: a lower-case first
   * letter moves to its capital and any other first character stays.
   */
  function Capitalize(s: string): (r: string)
    ensures |r| == |s|
    ensures s != [] && 'a' <= s[0] <= 'z' ==> r[0] == (s[0] as int - 32) as char
    ensures s != [] && !('a' <= s[0] <= 'z') ==> r[0] == s[0]
    ensures s != [] ==> r[1..] == s[1..]
  {
    if s == [] then [] else [UpperChar(s[0])] + s[1..]
  }

  /** Capitalising changes case only: the lower-cased forms agree. */
  lemma CapitalizeChangesCaseOnly(s: string)
    ensures ToLower(Capitalize(s)) == ToLower(s)
  {
    var r := Capitalize(s);
    if s != [] {
      assert LowerChar(r[0]) == LowerChar(s[0]);
      assert forall i :: 1 <= i < |s| ==> r[i] == s[1..][i - 1] == s[i];
    }
  }

  /** A key with an ASCII lower-case first letter capitalises to that letter upper-cased. */
  lemma CapitalizeLowerFirst(key: string, first: char, title: string)
    requires |key| > 0 && key[0] == first && 'a' <= first <= 'z'
    requires |title| == |key| && title[0] == (first as int - 32) as char && title[1..] == key[1..]
    ensures Capitalize(key) == title
  {
    assert Capitalize(key)[0] == title[0];
    assert Capitalize(key)[1..] == title[1..];
  }

  /** Each page title is its menu key with the first letter upper-cased. */
  lemma TitlesAreCapitalizedKeys()
    ensures |Titles| == |MenuKeys|
    ensures forall i :: 0 <= i < |MenuKeys| ==> Capitalize(MenuKeys[i]) == Titles[i]
  {
    CapitalizeLowerFirst("proposals", 'p', "Proposals");
    CapitalizeLowerFirst("subscriptions", 's', "Subscriptions");
    CapitalizeLowerFirst("invoices", 'i', "Invoices");
    CapitalizeLowerFirst("customers", 'c', "Customers");
    CapitalizeLowerFirst("products", 'p', "Products");
  }

  /** What one menu click does: the new title, if it sets one, and the route it opens. */
  datatype MenuEffect = MenuEffect(title: Option<string>, path: string)

  /** `handleMenuClick`'s switch, as the title it sets (if any) and the route it opens. */
  function MenuTarget(key: string): (r: MenuEffect)
    ensures forall i :: 0 <= i < |MenuKeys| && key == MenuKeys[i] ==>
      r == MenuEffect(Some(Titles[i]), "/" + MenuKeys[i])
    ensures key !in MenuKeys ==> r == MenuEffect(None, "/proposals")
  {
    if key == "proposals" then MenuEffect(Some("Proposals"), "/proposals")
    else if key == "subscriptions" then MenuEffect(Some("Subscriptions"), "/subscriptions")
    else if key == "invoices" then MenuEffect(Some("Invoices"), "/invoices")
    else if key == "customers" then MenuEffect(Some("Customers"), "/customers")
    else if key == "products" then MenuEffect(Some("Products"), "/products")
    else MenuEffect(None, "/proposals")
  }

  /**
   * A menu key sets its capitalised title and opens `/<key>`; any other key
   * opens `/proposals` and sets no title.
   */
  lemma MenuKeyTarget(key: string)
    ensures key in MenuKeys ==> MenuTarget(key) == MenuEffect(Some(Capitalize(key)), "/" + key)
    ensures key !in MenuKeys ==> MenuTarget(key) == MenuEffect(None, "/proposals")
  {
    if key in MenuKeys {
      var i :| 0 <= i < |MenuKeys| && key == MenuKeys[i];
      TitlesAreCapitalizedKeys();
    }
  }

  /** Every title a click can set is one of the five page titles. */
  lemma MenuTitles(key: string)
    ensures MenuTarget(key).title.Some? ==> MenuTarget(key).title.value in Titles
  {
  }

  /**
   * Clicking a menu item shows exactly one header button on the Proposals,
   * Customers and Products pages and none on the other two.
   */
  lemma MenuKeyActions(key: string)
    ensures key == "proposals" ==> HeaderActions(MenuTarget(key).title.value) == [CreateProposalButton]
    ensures key == "customers" ==> HeaderActions(MenuTarget(key).title.value) == [AddCustomerButton]
    ensures key == "products" ==> HeaderActions(MenuTarget(key).title.value) == [AddProductButton]
    ensures key == "subscriptions" || key == "invoices" ==> |HeaderActions(MenuTarget(key).title.value)| == 0
  {
  }

  /** The route `handleCreateProposal` opens for a new proposal id. */
  function CreateProposalPath(id: string): (r: string)
    ensures |r| == |id| + |"/proposals/"| + |"?first=true"|
    ensures r[..11] == "/proposals/" && r[11..11 + |id|] == id && r[11 + |id|..] == "?first=true"
  {
    "/proposals/" + id + "?first=true"
  }

  /** Distinct proposal ids open distinct routes, so a fresh id always opens a fresh draft. */
  lemma CreateProposalPathInjective(a: string, b: string)
    ensures CreateProposalPath(a) == CreateProposalPath(b) ==> a == b
  {
    if CreateProposalPath(a) == CreateProposalPath(b) {
      assert |a| == |b|;
      assert a == CreateProposalPath(a)[11..11 + |a|];
    }
  }

  class Layout {
    var headerTitle: string
    var isVisibleCustomer: bool
    var isVisibleProduct: bool
    /** The `jwtToken` cookie. */
    var jwtToken: Option<string>
    /** Every path passed to `navigate`, oldest first. */
    var navigations: seq<string>

    /** The header always holds one of the five page titles. */
    predicate Valid()
      reads this
    {
      headerTitle in Titles
    }

    /** The layout on mount: the Proposals page, both modals closed. */
    constructor (token: Option<string>)
      ensures Valid()
      ensures headerTitle == "Proposals" && !isVisibleCustomer && !isVisibleProduct
      ensures jwtToken == token && navigations == []
    {
      headerTitle := "Proposals";
      isVisibleCustomer, isVisibleProduct := false, false;
      jwtToken := token;
      navigations := [];
    }

    /** The header buttons currently shown. */
    function Actions(): seq<HeaderAction>
      reads this
    {
      HeaderActions(headerTitle)
    }

    /** `handleMenuClick`: set the key's title, if it has one, and open its route. */
    method HandleMenuClick(key: string)
      requires Valid()
      modifies this`headerTitle, this`navigations
      ensures Valid()
      ensures headerTitle == MenuTarget(key).title.GetOr(old(headerTitle))
      ensures navigations == old(navigations) + [MenuTarget(key).path]
    {
      if key == "proposals" {
        headerTitle := "Proposals";
        navigations := navigations + ["/proposals"];
      } else if key == "subscriptions" {
        headerTitle := "Subscriptions";
        navigations := navigations + ["/subscriptions"];
      } else if key == "invoices" {
        headerTitle := "Invoices";
        navigations := navigations + ["/invoices"];
      } else if key == "customers" {
        headerTitle := "Customers";
        navigations := navigations + ["/customers"];
      } else if key == "products" {
        headerTitle := "Products";
        navigations := navigations + ["/products"];
      } else {
        navigations := navigations + ["/proposals"];
      }
    }

    /** `handleCreateProposal`: open the draft route for a newly generated id. */
    method HandleCreateProposal(newProposalId: string)
      modifies this`navigations
      ensures navigations == old(navigations) + [CreateProposalPath(newProposalId)]
    {
      navigations := navigations + ["/proposals/" + newProposalId + "?first=true"];
    }

    /** `handleLogOut`: drop the token cookie and open the sign-in route. */
    method HandleLogOut()
      modifies this`jwtToken, this`navigations
      ensures jwtToken == None
      ensures navigations == old(navigations) + ["/signin"]
    {
      jwtToken := None;
      navigations := navigations + ["/signin"];
    }

    method HandleAddCustomer()
      modifies this`isVisibleCustomer
      ensures isVisibleCustomer
    {
      isVisibleCustomer := true;
    }

    method HandleAddCustomerCancel()
      modifies this`isVisibleCustomer
      ensures !isVisibleCustomer
    {
      isVisibleCustomer := false;
    }

    method HandleAddProduct()
      modifies this`isVisibleProduct
      ensures isVisibleProduct
    {
      isVisibleProduct := true;
    }

    method HandleAddProductCancel()
      modifies this`isVisibleProduct
      ensures !isVisibleProduct
    {
      isVisibleProduct := false;
    }
  }

  /**
   * From the Customers page an unknown key opens `/proposals` yet leaves the
   * header (and so the Add Customer button) as it was.
   */
  method UnknownKeyKeepsHeader() returns (layout: Layout)
    ensures layout.headerTitle == "Customers" && layout.Actions() == [AddCustomerButton]
    ensures layout.navigations == ["/customers", "/proposals"]
  {
    layout := new Layout(Some("token"));
    layout.HandleMenuClick("customers");
    layout.HandleMenuClick("settings");
  }

  /**
   * The two modal flags are independent in the model: both can be set at
   * once. The page does not offer this sequence: each Add button is shown
   * only under its own header title, so the second modal would need a menu
   * click while the first is open.
   */
  method BothModalsOpen() returns (layout: Layout)
    ensures layout.isVisibleCustomer && layout.isVisibleProduct
  {
    layout := new Layout(None);
    layout.HandleAddCustomer();
    layout.HandleAddProduct();
    layout.HandleAddCustomerCancel();
    layout.HandleAddCustomer();
  }
}
