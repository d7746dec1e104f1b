/** The client's sales list: the staged filter behind the table, the
    headline figures computed from it, and the row action menu. */
module SoldProducts {
  import opened Options
  import opened Text
  import opened Seqs

  /** One sale. Dates are day numbers. */
  datatype Sale = Sale(
    id: int, invoiceNo: string, productName: string, productCode: string, customerName: string,
    saleDate: int, quantity: int, unitPrice: int, totalAmount: int,
    paymentStatus: string, deliveryStatus: string, commission: int)

  /** The date pickers; an unset bound is `None`. */
  datatype DateRange = DateRange(startDate: Option<int>, endDate: Option<int>)

  /** The search box: a hit in product name, invoice number, customer name or
      product code, ignoring case. */
  predicate SearchHit(s: Sale, term: string) {
    ContainsIgnoringCase(s.productName, term) || ContainsIgnoringCase(s.invoiceNo, term)
    || ContainsIgnoringCase(s.customerName, term) || ContainsIgnoringCase(s.productCode, term)
  }

  /** The payment status a tab selects: tabs 1, 2 and 3 select one, any other
      tab none. */
  function TabPayment(tab: int): (status: Option<string>)
    ensures status.Some? <==> 1 <= tab <= 3
  {
    if tab == 1 then Some("paid")
    else if tab == 2 then Some("pending")
    else if tab == 3 then Some("partial")
    else None
  }

  // One predicate per stage; each holds of every sale while its control is idle.
  predicate SearchOk(s: Sale, term: string) { term == "" || SearchHit(s, term) }
  predicate TabOk(s: Sale, tab: int) { TabPayment(tab) == None || s.paymentStatus == TabPayment(tab).value }
  predicate StatusOk(s: Sale, status: string) { status == "all" || s.deliveryStatus == status }
  predicate DateOk(s: Sale, range: DateRange) {
    range.startDate.Some? && range.endDate.Some? ==> range.startDate.value <= s.saleDate <= range.endDate.value
  }

  /** A sale appears in the table exactly when it passes every active
      control. */
  predicate Shown(s: Sale, term: string, tab: int, status: string, range: DateRange) {
    SearchOk(s, term) && TabOk(s, tab) && StatusOk(s, status) && DateOk(s, range)
  }

  /** `getFilteredProducts`: narrows the list one control at a time. The
      result is the sales that pass every control, in their original order. */
  method GetFilteredProducts(sales: seq<Sale>, term: string, tab: int, status: string, range: DateRange)
    returns (filtered: seq<Sale>)
    ensures filtered == Filter(sales, (s: Sale) => Shown(s, term, tab, status, range))
  {
    ghost var all := (s: Sale) => true;
    ghost var upToSearch := (s: Sale) => SearchOk(s, term);
    ghost var upToTab := (s: Sale) => SearchOk(s, term) && TabOk(s, tab);
    ghost var upToStatus := (s: Sale) => SearchOk(s, term) && TabOk(s, tab) && StatusOk(s, status);
    ghost var shown := (s: Sale) => Shown(s, term, tab, status, range);

    filtered := sales;
    FilterKeepsAll(sales, all);

    if term != "" {
      filtered := Filter(filtered, (s: Sale) => SearchHit(s, term));
      FilterTwice(sales, all, (s: Sale) => SearchHit(s, term), upToSearch);
    } else {
      FilterTwice(sales, all, upToSearch, upToSearch);
      FilterKeepsAll(filtered, upToSearch);
    }
    assert filtered == Filter(sales, upToSearch);

    ghost var tabOk := (s: Sale) => TabOk(s, tab);
    if tab == 1 {
      filtered := Filter(filtered, (s: Sale) => s.paymentStatus == "paid");
      FilterTwice(sales, upToSearch, (s: Sale) => s.paymentStatus == "paid", upToTab);
    } else if tab == 2 {
      filtered := Filter(filtered, (s: Sale) => s.paymentStatus == "pending");
      FilterTwice(sales, upToSearch, (s: Sale) => s.paymentStatus == "pending", upToTab);
    } else if tab == 3 {
      filtered := Filter(filtered, (s: Sale) => s.paymentStatus == "partial");
      FilterTwice(sales, upToSearch, (s: Sale) => s.paymentStatus == "partial", upToTab);
    } else {
      FilterTwice(sales, upToSearch, tabOk, upToTab);
      FilterKeepsAll(filtered, tabOk);
    }
    assert filtered == Filter(sales, upToTab);

    ghost var statusOk := (s: Sale) => StatusOk(s, status);
    if status != "all" {
      filtered := Filter(filtered, (s: Sale) => s.deliveryStatus == status);
      FilterTwice(sales, upToTab, (s: Sale) => s.deliveryStatus == status, upToStatus);
    } else {
      FilterTwice(sales, upToTab, statusOk, upToStatus);
      FilterKeepsAll(filtered, statusOk);
    }
    assert filtered == Filter(sales, upToStatus);

    ghost var dateOk := (s: Sale) => DateOk(s, range);
    if range.startDate.Some? && range.endDate.Some? {
      var start := range.startDate.value;
      var end := range.endDate.value;
      filtered := Filter(filtered, (s: Sale) => s.saleDate >= start && s.saleDate <= end);
      FilterTwice(sales, upToStatus, (s: Sale) => s.saleDate >= start && s.saleDate <= end, shown);
    } else {
      FilterTwice(sales, upToStatus, dateOk, shown);
      FilterKeepsAll(filtered, dateOk);
    }
  }

  /** The filtered table keeps the original order and holds exactly the
      sales that pass every control. */
  lemma FilteredSalesSpec(sales: seq<Sale>, term: string, tab: int, status: string, range: DateRange)
    ensures IsSubsequence(Filter(sales, (s: Sale) => Shown(s, term, tab, status, range)), sales)
    ensures forall s :: s in Filter(sales, (s: Sale) => Shown(s, term, tab, status, range)) <==>
      s in sales && Shown(s, term, tab, status, range)
    ensures forall s ::
      multiset(Filter(sales, (s: Sale) => Shown(s, term, tab, status, range)))[s] ==
      if Shown(s, term, tab, status, range) then multiset(sales)[s] else 0
  {
    var shown := (s: Sale) => Shown(s, term, tab, status, range);
    FilterIsSubsequence(sales, shown);
    forall s ensures s in Filter(sales, shown) <==> s in sales && shown(s) {
      FilterMembership(sales, shown, s);
    }
    forall s ensures multiset(Filter(sales, shown))[s] == if shown(s) then multiset(sales)[s] else 0 {
      FilterMultiplicity(sales, shown, s);
    }
  }

  /** With every control idle (empty search, tab 0, "all", no dates) the
      table lists every sale. */
  lemma IdleControlsListAll(sales: seq<Sale>)
    ensures Filter(sales, (s: Sale) => Shown(s, "", 0, "all", DateRange(None, None))) == sales
  {
    FilterKeepsAll(sales, (s: Sale) => Shown(s, "", 0, "all", DateRange(None, None)));
  }

  /** A date range with one bound unset filters nothing. */
  lemma HalfOpenRangeIgnored(s: Sale, start: Option<int>, end: Option<int>)
    requires start.None? || end.None?
    ensures DateOk(s, DateRange(start, end))
  {
  }

  /** The figures of `calculateStats`, over the filtered list. */
  datatype Stats = Stats(totalSales: int, totalCommission: int, totalItems: int, paidSales: nat, totalOrders: nat)

  /** A sale whose payment has come in. */
  predicate IsPaid(s: Sale) {
    s.paymentStatus == "paid"
  }

  function CalculateStats(filtered: seq<Sale>): (st: Stats)
    ensures st.totalOrders == |filtered|
    ensures st.paidSales == |Filter(filtered, IsPaid)|
    ensures st.paidSales <= st.totalOrders
    ensures st.totalSales == Sum(filtered, (s: Sale) => s.totalAmount)
    ensures st.totalCommission == Sum(filtered, (s: Sale) => s.commission)
    ensures st.totalItems == Sum(filtered, (s: Sale) => s.quantity)
  {
    Stats(Sum(filtered, (s: Sale) => s.totalAmount),
          Sum(filtered, (s: Sale) => s.commission),
          Sum(filtered, (s: Sale) => s.quantity),
          |Filter(filtered, IsPaid)|,
          |filtered|)
  }

  /** Each copy of a paid sale in the filtered list adds one to the paid
      count. */
  lemma PaidSaleIsCounted(filtered: seq<Sale>, s: Sale)
    requires IsPaid(s)
    ensures CalculateStats(filtered).paidSales >= multiset(filtered)[s]
  {
    FilterMultiplicity(filtered, IsPaid, s);
  }

  /** The "Pending Orders" card. */
  function PendingOrders(st: Stats): (n: int)
    ensures st.paidSales <= st.totalOrders ==> n >= 0
  {
    st.totalOrders - st.paidSales
  }

  /** The pending count shown for a filtered list is never negative. */
  lemma PendingOrdersNonNegative(filtered: seq<Sale>)
    ensures PendingOrders(CalculateStats(filtered)) >= 0
  {
  }

  /** The detail dialog's net amount: what is left of the sale after the
      commission, never negative while the commission is within the sale. */
  function NetAmount(s: Sale): (n: int)
    ensures 0 <= s.commission <= s.totalAmount ==> 0 <= n <= s.totalAmount
  {
    s.totalAmount - s.commission
  }

  /** Summing the net amounts of the filtered sales gives total sales minus
      total commission. */
  lemma NetAmountsAddUp(filtered: seq<Sale>)
    ensures Sum(filtered, NetAmount) == CalculateStats(filtered).totalSales - CalculateStats(filtered).totalCommission
  {
    SumOfDifference(filtered, (s: Sale) => s.totalAmount, (s: Sale) => s.commission, NetAmount);
  }

  /** What a menu action does besides closing the menu. */
  datatype Effect = NoEffect | OpenDetails(sale: Sale) | Toast(message: string) | Print

  /** The row menu's state, and the detail dialog it can open. */
  class SoldProductsPage {
    var sales: seq<Sale>
    var loading: bool
    var menuOpen: bool            // `anchorEl` is set
    var selectedAction: Option<Sale>
    var selectedProduct: Option<Sale>
    var openDialog: bool

    constructor ()
      ensures sales == [] && loading && !menuOpen && selectedAction == None
      ensures selectedProduct == None && !openDialog
    {
      sales := [];
      loading := true;
      menuOpen := false;
      selectedAction := None;
      selectedProduct := None;
      openDialog := false;
    }

    /** The delayed mount effect; the list it loads is a parameter. */
    method LoadSales(samples: seq<Sale>)
      modifies this
      ensures sales == samples && !loading
      ensures menuOpen == old(menuOpen) && selectedAction == old(selectedAction)
      ensures selectedProduct == old(selectedProduct) && openDialog == old(openDialog)
    {
      sales := samples;
      loading := false;
    }

    /** `handleMenuOpen`. */
    method HandleMenuOpen(sale: Sale)
      modifies this
      ensures menuOpen && selectedAction == Some(sale)
      ensures sales == old(sales) && loading == old(loading)
      ensures selectedProduct == old(selectedProduct) && openDialog == old(openDialog)
    {
      menuOpen := true;
      selectedAction := Some(sale);
    }

    /** `handleMenuClose`. */
    method HandleMenuClose()
      modifies this
      ensures !menuOpen && selectedAction == None
      ensures sales == old(sales) && loading == old(loading)
      ensures selectedProduct == old(selectedProduct) && openDialog == old(openDialog)
    {
      menuOpen := false;
      selectedAction := None;
    }

    /** `handleAction`: with no selected row nothing happens; otherwise the
        named action runs on that row. Either way the menu closes. */
    method HandleAction(action: string) returns (effect: Effect)
      modifies this
      ensures !menuOpen && selectedAction == None
      ensures sales == old(sales) && loading == old(loading)
      ensures old(selectedAction) == None ==>
        (effect == NoEffect && selectedProduct == old(selectedProduct) && openDialog == old(openDialog))
      ensures old(selectedAction).Some? && action == "view" ==>
        (effect == OpenDetails(old(selectedAction).value) && selectedProduct == old(selectedAction) && openDialog)
      ensures old(selectedAction).Some? && action == "invoice" ==>
        effect == Toast("Invoice " + old(selectedAction).value.invoiceNo + " generated successfully")
      ensures old(selectedAction).Some? && action == "email" ==>
        effect == Toast("Invoice " + old(selectedAction).value.invoiceNo + " sent to "
                        + old(selectedAction).value.customerName)
      ensures old(selectedAction).Some? && action == "print" ==> effect == Print
      ensures action != "view" ==> selectedProduct == old(selectedProduct) && openDialog == old(openDialog)
      ensures action !in {"view", "invoice", "email", "print"} ==> effect == NoEffect
    {
      effect := NoEffect;
      if selectedAction.Some? {
        var sale := selectedAction.value;
        if action == "view" {
          selectedProduct := Some(sale);
          openDialog := true;
          effect := OpenDetails(sale);
        } else if action == "invoice" {
          effect := Toast("Invoice " + sale.invoiceNo + " generated successfully");
        } else if action == "email" {
          effect := Toast("Invoice " + sale.invoiceNo + " sent to " + sale.customerName);
        } else if action == "print" {
          effect := Print;
        }
      }
      HandleMenuClose();
    }
  }
}
