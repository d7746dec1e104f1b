/** The application shell: the viewport-driven drawer state handed to the
    sidebar, and the static table of routes. */
module Layout {
  import opened Options
  import opened Sidebar
  import opened Text

  /** Widths up to this many pixels count as mobile in the shell. */
  const MobileMaxWidth := 1024

  /** The shell's `isMobile` / `isSidebarOpen` state. */
  class LayoutState {
    var isMobile: bool
    var isSidebarOpen: bool

    /** Mounting: both flags start false, then the first screen-size check
        runs against the window width. */
    constructor (width: int)
      ensures isMobile == (width <= MobileMaxWidth) && !isSidebarOpen
    {
      isMobile := false;
      isSidebarOpen := false;
      new;
      CheckScreenSize(width);
    }

    /** `checkScreenSize`, run on mount and on every resize: a desktop width
        always closes the drawer, a mobile width leaves it as it was. */
    method CheckScreenSize(width: int)
      modifies this
      ensures isMobile == (width <= MobileMaxWidth)
      ensures isSidebarOpen == (old(isSidebarOpen) && width <= MobileMaxWidth)
    {
      var mobile := width <= MobileMaxWidth;
      isMobile := mobile;
      if !mobile {
        isSidebarOpen := false;
      }
    }

    /** `handleToggleSidebar`, the header's menu button. */
    method HandleToggleSidebar()
      modifies this
      ensures isSidebarOpen == !old(isSidebarOpen) && isMobile == old(isMobile)
    {
      isSidebarOpen := !isSidebarOpen;
    }

    /** `handleCloseSidebar`, the callback handed to the sidebar; closing a
        closed drawer changes nothing. */
    method HandleCloseSidebar()
      modifies this
      ensures !isSidebarOpen && isMobile == old(isMobile)
    {
      isSidebarOpen := false;
    }
  }

  /** The screens the router can mount. */
  datatype Screen =
    | SuperAdminDashboardScreen | CreateAdminScreen | AdminDashboardScreen
    | CreateSubAdminScreen | ManageSubAdminsScreen | ClientsScreen | WarehouseScreen
    | InventoryScreen | BusinessModuleScreen | ProductsScreen | SubscriptionScreen
    | DevicesCamsScreen | InvoicesScreen | PaymentsScreen
    | ClientDashboardScreen | ManageCustomersScreen | SoldProductsScreen

  datatype Route = Route(path: string, screen: Screen)

  /** The route table, in declaration order. No entry mentions a role: any
      session can mount any of these screens. */
  const Routes: seq<Route> := [
    Route("/", SuperAdminDashboardScreen),
    Route("/superAdminDashboard", SuperAdminDashboardScreen),
    Route("/adminDashboard", AdminDashboardScreen),
    Route("/createAdmin", CreateAdminScreen),
    Route("/createSubAdmin", CreateSubAdminScreen),
    Route("/manageSubAdmin", ManageSubAdminsScreen),
    Route("/clients", ClientsScreen),
    Route("/warehouse", WarehouseScreen),
    Route("/inventory", InventoryScreen),
    Route("/businessModule", BusinessModuleScreen),
    Route("/products", ProductsScreen),
    Route("/subscription", SubscriptionScreen),
    Route("/devices", DevicesCamsScreen),
    Route("/invoices", InvoicesScreen),
    Route("/payments", PaymentsScreen),
    Route("/clientDashboard", ClientDashboardScreen),
    Route("/manageCustomers", ManageCustomersScreen),
    Route("/soldProducts", SoldProductsScreen)
  ]

  /** Drops the slashes at the end of a path. */
  function TrimTrailingSlashes(s: string): (r: string)
    ensures |r| <= |s| && r == s[..|r|]
    ensures r != [] ==> r[|r| - 1] != '/'
    ensures forall i :: |r| <= i < |s| ==> s[i] == '/'
  {
    if s != [] && s[|s| - 1] == '/' then TrimTrailingSlashes(s[..|s| - 1]) else s
  }

  /** The form in which React Router compares a location with a route's
      path: letters without case, trailing slashes dropped. */
  function MatchForm(path: string): (form: string)
    ensures path != [] && path[|path| - 1] != '/' ==> |form| == |path| && form[1..] == Lower(path)[1..]
  {
    Lower(TrimTrailingSlashes(path))
  }

  /** Whether a route's path matches the location. */
  predicate PathMatches(routePath: string, path: string) {
    MatchForm(routePath) == MatchForm(path)
  }

  /** The screen of the first route in `routes` whose path matches `path`. */
  function Lookup(routes: seq<Route>, path: string): (r: Option<Screen>)
    ensures r.Some? <==> exists i :: 0 <= i < |routes| && PathMatches(routes[i].path, path)
    ensures r.Some? ==> exists i :: 0 <= i < |routes| && PathMatches(routes[i].path, path) && routes[i].screen == r.value
  {
    if routes == [] then None
    else if PathMatches(routes[0].path, path) then Some(routes[0].screen)
    else
      assert forall i :: 0 <= i < |routes| - 1 ==> routes[1..][i] == routes[i + 1];
      Lookup(routes[1..], path)
  }

  /** The screen mounted for a path; the role plays no part. */
  function ScreenAt(path: string): (r: Option<Screen>)
    ensures r.Some? <==> exists i :: 0 <= i < |Routes| && PathMatches(Routes[i].path, path)
    ensures r.Some? ==> exists i :: 0 <= i < |Routes| && PathMatches(Routes[i].path, path) && Routes[i].screen == r.value
  {
    Lookup(Routes, path)
  }

  /** Two locations with the same match form reach the same screen. */
  lemma {:induction false} LookupByForm(routes: seq<Route>, p: string, q: string)
    requires MatchForm(p) == MatchForm(q)
    ensures Lookup(routes, p) == Lookup(routes, q)
  {
    if routes != [] {
      LookupByForm(routes[1..], p, q);
    }
  }

  /** A trailing slash does not change the screen. */
  lemma TrailingSlashIgnored(path: string)
    ensures ScreenAt(path + "/") == ScreenAt(path)
  {
    assert (path + "/")[..|path|] == path;
    LookupByForm(Routes, path + "/", path);
  }

  /** The first route whose path matches decides the screen. */
  lemma {:induction false} FirstMatchWins(routes: seq<Route>, path: string, k: nat)
    requires k < |routes| && PathMatches(routes[k].path, path)
    requires forall j :: 0 <= j < k ==> !PathMatches(routes[j].path, path)
    ensures Lookup(routes, path) == Some(routes[k].screen)
  {
    if k > 0 {
      FirstMatchWins(routes[1..], path, k - 1);
    }
  }

  /** Only the products route matches "/products" among the first eleven. */
  lemma ProductsFirstMatch(j: nat)
    requires j <= 10
    ensures PathMatches(Routes[j].path, "/products") <==> j == 10
  {
    if j == 0 {
      assert TrimTrailingSlashes("/") == [];
    }
  }

  /** "/Products/" and "/products" have the same match form. */
  lemma ProductsForm()
    ensures MatchForm("/Products/") == MatchForm("/products")
  {
    assert TrimTrailingSlashes("/Products/") == "/Products";
    var a, b := Lower("/Products"), Lower("/products");
    assert |a| == |b|;
    forall i | 0 <= i < |a| ensures a[i] == b[i] {
    }
  }

  /** Neither does the case of the letters: "/Products/" mounts the
      products screen. */
  lemma CaseAndSlashIgnored()
    ensures ScreenAt("/Products/") == Some(ProductsScreen)
  {
    ProductsForm();
    LookupByForm(Routes, "/Products/", "/products");
    forall j | 0 <= j <= 10 ensures PathMatches(Routes[j].path, "/products") <==> j == 10 {
      ProductsFirstMatch(j);
    }
    FirstMatchWins(Routes, "/products", 10);
  }

  /** No two routes share a path. */
  lemma RoutePathsDistinct()
    ensures forall i, j :: 0 <= i < j < |Routes| ==> Routes[i].path != Routes[j].path
  {
  }

  /** "/" and "/superAdminDashboard" mount the same screen. */
  lemma RootIsSuperAdminDashboard()
    ensures ScreenAt("/") == ScreenAt("/superAdminDashboard") == Some(SuperAdminDashboardScreen)
  {
    assert TrimTrailingSlashes("/") == [];
    assert !PathMatches(Routes[0].path, "/superAdminDashboard");
  }

  /** A menu is routed when each of its entries has the path of the route
      at the given index. */
  lemma MenuRoutedBy(menu: seq<MenuEntry>, index: seq<nat>)
    requires |index| == |menu|
    requires forall k :: 0 <= k < |menu| ==> index[k] < |Routes| && Routes[index[k]].path == menu[k].path
    ensures forall e :: e in menu ==> ScreenAt(e.path).Some?
  {
    forall e | e in menu ensures ScreenAt(e.path).Some? {
      var k :| 0 <= k < |menu| && menu[k] == e;
      assert PathMatches(Routes[index[k]].path, e.path);
    }
  }

  /** A path that no route matches mounts nothing. */
  lemma Unrouted(path: string)
    requires forall i :: 0 <= i < |Routes| ==> !PathMatches(Routes[i].path, path)
    ensures ScreenAt(path) == None
  {
  }

  /** Routes whose match form is not that of "/manageAdmins": shorter or
      longer, or of its length but with a letter other than 'm' after the
      slash. */
  lemma NotManageAdmins(k: nat)
    requires k < |Routes|
    ensures !PathMatches(Routes[k].path, "/manageAdmins")
  {
    var p := Routes[k].path;
    if k == 0 {
      assert TrimTrailingSlashes("/") == [];
    } else {
      assert p != [] && p[|p| - 1] != '/';
      if |p| == 13 {
        assert Lower(p)[1] == LowerChar(p[1]) == 's';
        assert MatchForm(p)[1] != MatchForm("/manageAdmins")[1];
      }
    }
  }

  /** "/manageAdmins" has no route. */
  lemma ManageAdminsUnrouted()
    ensures ScreenAt("/manageAdmins") == None
  {
    forall k | 0 <= k < |Routes| ensures !PathMatches(Routes[k].path, "/manageAdmins") {
      NotManageAdmins(k);
    }
    Unrouted("/manageAdmins");
  }

  lemma AdminMenuRouted()
    ensures forall e :: e in AdminMenu ==> ScreenAt(e.path).Some?
  {
    MenuRoutedBy(AdminMenu, [2, 4, 5, 6, 7, 12, 11, 13, 14]);
  }

  lemma ClientMenuRouted()
    ensures forall e :: e in ClientMenu ==> ScreenAt(e.path).Some?
  {
    MenuRoutedBy(ClientMenu, [15, 16, 10, 17, 13, 14]);
  }

  lemma SuperAdminMenuRouted()
    ensures forall e :: e in SuperAdminMenu && e.path != "/manageAdmins" ==> ScreenAt(e.path).Some?
  {
    MenuRoutedBy(SuperAdminMenu[..2], [1, 3]);
    assert SuperAdminMenu == SuperAdminMenu[..2] + [SuperAdminMenu[2]];
  }

  /** Every link of every role's menu leads to a route, except the super
      admin's "Manage Admins" link, whose path has none. */
  lemma MenuPathsRouted(role: Role)
    ensures forall e :: e in MenuFor(role) ==> (ScreenAt(e.path).Some? <==> e.path != "/manageAdmins")
  {
    ManageAdminsUnrouted();
    SuperAdminMenuRouted();
    AdminMenuRouted();
    ClientMenuRouted();
  }
}
