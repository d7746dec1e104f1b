/** The client's customer list: the search box, the headline figures, the
    delete confirmation and the row action menu. */
module ManageCustomers {
  import opened Options
  import opened Text
  import opened Seqs

  /** One customer. Dates are day numbers. */
  datatype Customer = Customer(
    id: int, name: string, email: string, phone: string, address: string,
    totalOrders: int, totalSpent: int, lastOrder: int, status: string, customerSince: int)

  /** The search: the term in the name or email ignoring case, or verbatim in
      the phone number. */
  predicate Matches(c: Customer, term: string) {
    ContainsIgnoringCase(c.name, term) || ContainsIgnoringCase(c.email, term) || Contains(c.phone, term)
  }

  /** `filteredCustomers`. */
  function FilteredCustomers(customers: seq<Customer>, term: string): (r: seq<Customer>)
    ensures IsSubsequence(r, customers)
    ensures forall c :: c in r <==> c in customers && Matches(c, term)
    ensures forall c :: multiset(r)[c] == if Matches(c, term) then multiset(customers)[c] else 0
  {
    var matches := (c: Customer) => Matches(c, term);
    FilterSpec(customers, matches);
    Filter(customers, matches)
  }

  /** An empty search box lists every customer, in order. */
  lemma EmptySearchListsAll(customers: seq<Customer>)
    ensures FilteredCustomers(customers, "") == customers
  {
    forall c | c in customers ensures Matches(c, "") {
      EmptyIsEverywhere(c.phone);
    }
    FilterKeepsAll(customers, (c: Customer) => Matches(c, ""));
  }

  /** The phone number is searched without lowering case: a term that differs
      from the phone's letters only in case is not found there, while the
      exact term is. */
  lemma PhoneSearchIsCaseSensitive()
    ensures Matches(Customer(1, "", "", "X", "", 0, 0, 0, "active", 0), "X")
    ensures !Matches(Customer(1, "", "", "X", "", 0, 0, 0, "active", 0), "x")
  {
    assert OccursAt("X", "X", 0);
    assert Lower("x") == "x";
    assert Lower("") == "";
  }

  /** The four stats cards. */
  datatype Stats = Stats(totalCustomers: nat, activeCustomers: nat, totalOrders: int, totalRevenue: int)

  predicate IsActive(c: Customer) {
    c.status == "active"
  }

  /** The cards are computed over every customer, whatever the search. */
  function CustomerStats(customers: seq<Customer>): (st: Stats)
    ensures st.totalCustomers == |customers|
    ensures st.activeCustomers == |Filter(customers, IsActive)|
    ensures st.activeCustomers <= st.totalCustomers
    ensures st.totalOrders == Sum(customers, (c: Customer) => c.totalOrders)
    ensures st.totalRevenue == Sum(customers, (c: Customer) => c.totalSpent)
  {
    Stats(|customers|, |Filter(customers, IsActive)|,
          Sum(customers, (c: Customer) => c.totalOrders), Sum(customers, (c: Customer) => c.totalSpent))
  }

  /** Each copy of an "active" customer adds one to the active card. */
  lemma ActiveCustomerIsCounted(customers: seq<Customer>, c: Customer)
    requires IsActive(c)
    ensures CustomerStats(customers).activeCustomers >= multiset(customers)[c]
  {
    FilterMultiplicity(customers, IsActive, c);
  }

  /** The "Total Customers" card never shows fewer customers than the table
      lists, since the table is filtered and the card is not. */
  lemma CardCountsAtLeastTheRows(customers: seq<Customer>, term: string)
    ensures |FilteredCustomers(customers, term)| <= CustomerStats(customers).totalCustomers
  {
  }

  const EditPrefix := "/client/customers/edit/"

  /** `handleEditCustomer`'s destination. */
  function EditPath(id: int): (path: string)
    ensures |path| > |EditPrefix| && path[..|EditPrefix|] == EditPrefix
  {
    EditPrefix + IntToString(id)
  }

  /** The id can be read back from the edit path. */
  lemma EditPathNamesTheCustomer(id: nat)
    ensures var path := EditPath(id);
      (forall i :: |EditPrefix| <= i < |path| ==> IsDigit(path[i]))
      && DigitsValue(path[|EditPrefix|..]) == id
  {
    var path := EditPath(id);
    assert path[|EditPrefix|..] == NatToString(id);
    NatToStringRoundTrip(id);
  }

  /** The list after `handleDeleteCustomer`. */
  function AfterDelete(customers: seq<Customer>, id: int, confirmed: bool): (r: seq<Customer>)
    ensures !confirmed ==> r == customers
    ensures confirmed ==> forall c :: c in r <==> c in customers && c.id != id
    ensures confirmed ==> forall c :: multiset(r)[c] == if c.id != id then multiset(customers)[c] else 0
    ensures IsSubsequence(r, customers)
  {
    if confirmed then
      FilterSpec(customers, (c: Customer) => c.id != id);
      Filter(customers, (c: Customer) => c.id != id)
    else
      SubsequenceOfSelf(customers);
      customers
  }

  datatype Snackbar = Snackbar(open: bool, message: string, severity: string)

  /** What a menu action does besides closing the menu. */
  datatype Effect = NoEffect | ShowDetails(customer: Customer) | Navigate(path: string) | ConfirmDelete | Location(href: string)

  class ManageCustomersPage {
    var customers: seq<Customer>
    var loading: bool
    var searchTerm: string
    var openDialog: bool
    var selectedCustomer: Option<Customer>
    var menuOpen: bool              // `anchorEl` is set
    var selectedAction: Option<Customer>
    var snackbar: Snackbar

    constructor ()
      ensures customers == [] && loading && searchTerm == "" && !openDialog
      ensures selectedCustomer == None && !menuOpen && selectedAction == None
      ensures snackbar == Snackbar(false, "", "success")
    {
      customers := [];
      loading := true;
      searchTerm := "";
      openDialog := false;
      selectedCustomer := None;
      menuOpen := false;
      selectedAction := None;
      snackbar := Snackbar(false, "", "success");
    }

    /** The delayed mount effect; the list it loads is a parameter. */
    method LoadCustomers(samples: seq<Customer>)
      modifies this
      ensures customers == samples && !loading
      ensures searchTerm == old(searchTerm) && snackbar == old(snackbar)
      ensures openDialog == old(openDialog) && selectedCustomer == old(selectedCustomer)
      ensures menuOpen == old(menuOpen) && selectedAction == old(selectedAction)
    {
      customers := samples;
      loading := false;
    }

    /** `handleSearch`: the box's text becomes the search term. */
    method HandleSearch(term: string)
      modifies this
      ensures searchTerm == term
      ensures customers == old(customers) && loading == old(loading) && snackbar == old(snackbar)
      ensures openDialog == old(openDialog) && selectedCustomer == old(selectedCustomer)
      ensures menuOpen == old(menuOpen) && selectedAction == old(selectedAction)
    {
      searchTerm := term;
    }

    /** The rows of the table. */
    function Rows(): (rows: seq<Customer>)
      reads this
      ensures forall c :: c in rows <==> c in customers && Matches(c, searchTerm)
    {
      FilteredCustomers(customers, searchTerm)
    }

    /** `handleDeleteCustomer`; the answer of `window.confirm` is a
        parameter. */
    method HandleDeleteCustomer(id: int, confirmed: bool)
      modifies this
      ensures customers == AfterDelete(old(customers), id, confirmed)
      ensures snackbar == if confirmed then Snackbar(true, "Customer deleted successfully", "success")
                          else old(snackbar)
      ensures loading == old(loading) && searchTerm == old(searchTerm) && openDialog == old(openDialog)
      ensures selectedCustomer == old(selectedCustomer)
      ensures menuOpen == old(menuOpen) && selectedAction == old(selectedAction)
    {
      if confirmed {
        customers := Filter(customers, (c: Customer) => c.id != id);
        snackbar := Snackbar(true, "Customer deleted successfully", "success");
      }
    }

    /** `handleMenuOpen`. */
    method HandleMenuOpen(customer: Customer)
      modifies this
      ensures menuOpen && selectedAction == Some(customer)
      ensures customers == old(customers) && snackbar == old(snackbar)
      ensures openDialog == old(openDialog) && selectedCustomer == old(selectedCustomer)
      ensures loading == old(loading) && searchTerm == old(searchTerm)
    {
      menuOpen := true;
      selectedAction := Some(customer);
    }

    /** `handleMenuClose`. */
    method HandleMenuClose()
      modifies this
      ensures !menuOpen && selectedAction == None
      ensures customers == old(customers) && snackbar == old(snackbar)
      ensures openDialog == old(openDialog) && selectedCustomer == old(selectedCustomer)
      ensures loading == old(loading) && searchTerm == old(searchTerm)
    {
      menuOpen := false;
      selectedAction := None;
    }

    /** `handleAction`: at most one action runs on the selected customer,
        then the menu always closes. */
    method HandleAction(action: string, confirmed: bool) returns (effect: Effect)
      modifies this
      ensures !menuOpen && selectedAction == None
      ensures loading == old(loading) && searchTerm == old(searchTerm)
      ensures old(selectedAction) == None ==>
        (effect == NoEffect && customers == old(customers) && snackbar == old(snackbar)
         && openDialog == old(openDialog) && selectedCustomer == old(selectedCustomer))
      ensures old(selectedAction).Some? && action == "view" ==>
        (effect == ShowDetails(old(selectedAction).value) && openDialog && selectedCustomer == old(selectedAction))
      ensures old(selectedAction).Some? && action == "edit" ==>
        effect == Navigate(EditPath(old(selectedAction).value.id))
      ensures old(selectedAction).Some? && action == "delete" ==>
        (effect == ConfirmDelete && customers == AfterDelete(old(customers), old(selectedAction).value.id, confirmed)
         && snackbar == if confirmed then Snackbar(true, "Customer deleted successfully", "success") else old(snackbar))
      ensures old(selectedAction).Some? && action == "email" ==>
        effect == Location("mailto:" + old(selectedAction).value.email)
      ensures old(selectedAction).Some? && action == "call" ==>
        effect == Location("tel:" + old(selectedAction).value.phone)
      ensures action != "delete" ==> customers == old(customers) && snackbar == old(snackbar)
      ensures action != "view" ==> openDialog == old(openDialog) && selectedCustomer == old(selectedCustomer)
      ensures action !in {"view", "edit", "delete", "email", "call"} ==> effect == NoEffect
    {
      effect := NoEffect;
      if selectedAction.Some? {
        var customer := selectedAction.value;
        if action == "view" {
          selectedCustomer := Some(customer);
          openDialog := true;
          effect := ShowDetails(customer);
        } else if action == "edit" {
          effect := Navigate(EditPath(customer.id));
        } else if action == "delete" {
          HandleDeleteCustomer(customer.id, confirmed);
          effect := ConfirmDelete;
        } else if action == "email" {
          effect := Location("mailto:" + customer.email);
        } else if action == "call" {
          effect := Location("tel:" + customer.phone);
        }
      }
      HandleMenuClose();
    }
  }
}
