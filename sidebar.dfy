/** The navigation sidebar: the role read from storage, the static menu
    chosen for that role, the collapse state on desktop and logout. */
module Sidebar {
  import opened Options
  import opened Text
  import opened Seqs
  import opened Browser

  /** `userRole`: `null` or the non-empty role string read from storage. */
  datatype Role = NoRole | Named(name: string)

  /** One menu link; `roles` lists the roles it is meant for. */
  datatype MenuEntry = MenuEntry(icon: string, caption: string, path: string, roles: seq<Role>)

  const SuperAdmin := Named("superadmin")
  const Admin := Named("admin")
  const Client := Named("client")

  const SuperAdminMenu: seq<MenuEntry> := [
    MenuEntry("📊", "Super Admin Dashboard", "/superAdminDashboard", [NoRole, SuperAdmin]),
    MenuEntry("👥", "Create Admin", "/createAdmin", [NoRole, SuperAdmin]),
    MenuEntry("👑", "Manage Admins", "/manageAdmins", [NoRole, SuperAdmin])
  ]

  const AdminMenu: seq<MenuEntry> := [
    MenuEntry("📊", "Admin Dashboard", "/adminDashboard", [Admin]),
    MenuEntry("👥", "Create Sub Admin", "/createSubAdmin", [Admin]),
    MenuEntry("👥", "Manage Sub Admins", "/manageSubAdmin", [Admin]),
    MenuEntry("💼", "Clients", "/clients", [Admin]),
    MenuEntry("🏢", "Warehouse", "/warehouse", [Admin]),
    MenuEntry("📷", "Devices & Cams", "/devices", [Admin]),
    MenuEntry("🔄", "Subscription", "/subscription", [Admin]),
    MenuEntry("🧾", "Invoices", "/invoices", [Admin]),
    MenuEntry("💰", "Payments", "/payments", [Admin])
  ]

  const ClientMenu: seq<MenuEntry> := [
    MenuEntry("🏠", "Dashboard", "/clientDashboard", [Client]),
    MenuEntry("👥", "Manage Customers", "/manageCustomers", [Client]),
    MenuEntry("📦", "View Products", "/products", [Client]),
    MenuEntry("💰", "Sold Products", "/soldProducts", [Client]),
    MenuEntry("🧾", "Invoices", "/invoices", [Client]),
    MenuEntry("💳", "Payments", "/payments", [Client])
  ]

  /** The roles the menu selector recognises; `null` is one of them. */
  predicate IsKnownRole(role: Role) {
    role == NoRole || role == SuperAdmin || role == Admin || role == Client
  }

  /** `getFilteredMenuItems`: the menu shown for a role. The selector never
      reads the `roles` field, yet every entry it returns lists the role;
      an unrecognised role gets no menu at all. */
  function MenuFor(role: Role): (items: seq<MenuEntry>)
    ensures forall e :: e in items ==> role in e.roles
    ensures items == [] <==> !IsKnownRole(role)
    ensures role == NoRole || role == SuperAdmin ==> |items| == 3
    ensures role == Admin ==> |items| == 9
    ensures role == Client ==> |items| == 6
  {
    if role == NoRole || role == SuperAdmin then SuperAdminMenu
    else if role == Admin then AdminMenu
    else if role == Client then ClientMenu
    else []
  }

  function Paths(items: seq<MenuEntry>): seq<string> {
    seq(|items|, i requires 0 <= i < |items| => items[i].path)
  }

  /** The admin menu links to these nine screens, in this order. */
  lemma AdminMenuPaths()
    ensures Paths(MenuFor(Admin)) == ["/adminDashboard", "/createSubAdmin", "/manageSubAdmin",
      "/clients", "/warehouse", "/devices", "/subscription", "/invoices", "/payments"]
  {
    var p := Paths(AdminMenu);
    assert |p| == 9;
    assert p[0] == AdminMenu[0].path && p[1] == AdminMenu[1].path && p[2] == AdminMenu[2].path;
    assert p[3] == AdminMenu[3].path && p[4] == AdminMenu[4].path && p[5] == AdminMenu[5].path;
    assert p[6] == AdminMenu[6].path && p[7] == AdminMenu[7].path && p[8] == AdminMenu[8].path;
  }

  /** Filtering the selected menu by its own `roles` field would change
      nothing, for every role. */
  lemma RoleFilterIsNoOp(role: Role)
    ensures Filter(MenuFor(role), (e: MenuEntry) => role in e.roles) == MenuFor(role)
  {
    FilterKeepsAll(MenuFor(role), (e: MenuEntry) => role in e.roles);
  }

  /** `getDisplayRole`: the three known names get a fixed label, `null`
      reads "Super Admin", anything else is shown with its first letter
      upper-cased. */
  function DisplayRole(role: Role): (shown: string)
    ensures role == Admin ==> shown == "Admin"
    ensures role == SuperAdmin || role == NoRole ==> shown == "Super Admin"
    ensures role == Client ==> shown == "Client"
    ensures !IsKnownRole(role) ==> |shown| == |role.name|
    ensures !IsKnownRole(role) && role.name != "" ==>
      shown[0] == UpperChar(role.name[0]) && shown[1..] == role.name[1..]
  {
    if role == Admin then "Admin"
    else if role == SuperAdmin || role == NoRole then "Super Admin"
    else if role == Client then "Client"
    else Capitalized(role.name)
  }

  /** `toUpperCase` on one character, restricted to the ASCII letters. */
  function UpperChar(c: char): char {
    if 'a' <= c <= 'z' then (c as int - 32) as char else c
  }

  function Capitalized(s: string): (r: string)
    ensures |r| == |s|
  {
    if s == "" then "" else [UpperChar(s[0])] + s[1..]
  }

  /** `user.role || null`. */
  function RoleOf(u: UserRecord): (role: Role)
    ensures role.Named? ==> role.name != ""
  {
    if Truthy(u.role) then Named(u.role.value) else NoRole
  }

  /** A sign-in token under either key. */
  predicate HasToken(items: map<string, Item>) {
    Present(items, "token") || Present(items, "access_token")
  }

  /** The role the sidebar derives from storage when it mounts: the stored
      user's role; with no user record, "admin" if a token exists; `null`
      otherwise or when the record cannot be read. */
  function DerivedRole(items: map<string, Item>): (role: Role)
    ensures role.Named? ==> role.name != ""
    ensures role == Admin <==>
      (Present(items, "user") && items["user"].UserJson? && items["user"].user.role == Some("admin"))
      || (!Present(items, "user") && HasToken(items))
    ensures Present(items, "user") && items["user"].UserJson? ==> role == RoleOf(items["user"].user)
    ensures Present(items, "user") && items["user"].Text? ==> role == NoRole
    ensures !Present(items, "user") && !HasToken(items) ==> role == NoRole
  {
    if Present(items, "user") then
      match items["user"]
      case UserJson(u) => RoleOf(u)
      case Text(_) => NoRole
    else if HasToken(items) then Admin
    else NoRole
  }

  /** A token with no user record shows the admin menu. */
  lemma TokenAloneShowsAdminMenu(items: map<string, Item>)
    requires !Present(items, "user") && HasToken(items)
    ensures MenuFor(DerivedRole(items)) == AdminMenu
  {
  }

  /** With nothing stored at all, the role is `null` and the sidebar offers
      the super-admin menu: a signed-out visitor sees it too. */
  lemma EmptyStorageShowsSuperAdminMenu()
    ensures DerivedRole(map[]) == NoRole
    ensures MenuFor(DerivedRole(map[])) == SuperAdminMenu
  {
  }

  /** The avatar image the sidebar keeps after reading storage: the user's
      own image unless it is the placeholder "profile.png", else the
      separate "userImage" entry; otherwise the earlier value stays. */
  function DerivedImage(items: map<string, Item>, current: Option<Item>): (img: Option<Item>)
    ensures !(Present(items, "user") && items["user"].UserJson?) ==> img == current
    ensures img != current ==>
      (Present(items, "user") && items["user"].UserJson? && Truthy(items["user"].user.image)
       && items["user"].user.image.value != "profile.png" && img == Some(Text(items["user"].user.image.value)))
      || (Present(items, "userImage") && img == Some(items["userImage"]))
  {
    if Present(items, "user") && items["user"].UserJson? then
      var u := items["user"].user;
      if Truthy(u.image) && u.image.value != "profile.png" then Some(Text(u.image.value))
      else if Present(items, "userImage") then Some(items["userImage"])
      else current
    else current
  }

  /** The keys `handleLogout` removes. */
  const SessionKeys: set<string> := {"token", "access_token", "user", "userData", "userImage"}

  /** Width of the sidebar panel in pixels: hidden on a closed mobile
      drawer, 80 when collapsed on desktop, 280 otherwise. */
  function SidebarWidth(isMobile: bool, isSidebarOpen: bool, isCollapsed: bool): (px: nat)
    ensures px == 0 <==> isMobile && !isSidebarOpen
    ensures px == 80 <==> !isMobile && isCollapsed
    ensures px == 0 || px == 80 || px == 280
  {
    if isMobile then (if isSidebarOpen then 280 else 0)
    else if isCollapsed then 80 else 280
  }

  /** Left margin given to the main content, chosen by a separate chain of
      tests; in every state it equals the sidebar's width. */
  function MainContentMargin(isMobile: bool, isSidebarOpen: bool, isCollapsed: bool): (px: nat)
    ensures px == SidebarWidth(isMobile, isSidebarOpen, isCollapsed)
  {
    if isMobile && !isSidebarOpen then 0
    else if !isMobile && isCollapsed then 80
    else if isMobile && isSidebarOpen then 280
    else 280
  }

  /** The sidebar component's own state. `isMobile`, `isSidebarOpen` and
      whether a close callback was passed are properties owned by the layout,
      so they are parameters of the handlers. */
  class SidebarState {
    var isCollapsed: bool
    var userRole: Role
    var userImage: Option<Item>

    constructor ()
      ensures !isCollapsed && userRole == NoRole && userImage == None
    {
      isCollapsed := false;
      userRole := NoRole;
      userImage := None;
    }

    /** The mount effect that reads the stored user. */
    method LoadUserData(storage: LocalStorage)
      modifies this
      ensures userRole == DerivedRole(storage.items)
      ensures userImage == DerivedImage(storage.items, old(userImage))
      ensures isCollapsed == old(isCollapsed)
    {
      var items := storage.items;
      if Present(items, "user") {
        match items["user"]
        case UserJson(u) =>
          userRole := RoleOf(u);
          if Truthy(u.image) && u.image.value != "profile.png" {
            userImage := Some(Text(u.image.value));
          } else if Present(items, "userImage") {
            userImage := Some(items["userImage"]);
          }
        case Text(_) =>
          userRole := NoRole;
      } else if HasToken(items) {
        userRole := Admin;
      } else {
        userRole := NoRole;
      }
    }

    /** The menu for the current role. */
    function FilteredMenuItems(): seq<MenuEntry>
      reads this
    {
      MenuFor(userRole)
    }

    /** The resize listener, installed only on desktop: a window wider than
        1024 pixels always un-collapses the sidebar. */
    method HandleResize(isMobile: bool, width: int)
      modifies this
      ensures isCollapsed == (old(isCollapsed) && (isMobile || width <= 1024))
      ensures userRole == old(userRole) && userImage == old(userImage)
    {
      if !isMobile && width > 1024 {
        isCollapsed := false;
      }
    }

    /** `handleToggleSidebar`: on mobile with a close callback it only asks
        the layout to close the drawer (it never opens it); otherwise it flips
        `isCollapsed`, so two toggles restore it. */
    method HandleToggleSidebar(isMobile: bool, hasCloseCallback: bool) returns (closeRequested: bool)
      modifies this
      ensures closeRequested == (isMobile && hasCloseCallback)
      ensures isCollapsed == if closeRequested then old(isCollapsed) else !old(isCollapsed)
      ensures userRole == old(userRole) && userImage == old(userImage)
    {
      closeRequested := isMobile && hasCloseCallback;
      if !closeRequested {
        isCollapsed := !isCollapsed;
      }
    }

    /** `handleMenuItemClick`: navigate, close the drawer on mobile, and
        expand a collapsed sidebar on desktop. */
    method HandleMenuItemClick(path: string, isMobile: bool, hasCloseCallback: bool)
      returns (navigateTo: string, closeRequested: bool)
      modifies this
      ensures navigateTo == path
      ensures closeRequested == (isMobile && hasCloseCallback)
      ensures isCollapsed == (old(isCollapsed) && isMobile)
      ensures userRole == old(userRole) && userImage == old(userImage)
    {
      navigateTo := path;
      closeRequested := isMobile && hasCloseCallback;
      if !isMobile && isCollapsed {
        isCollapsed := false;
      }
    }

    /** `handleLogout`: remove the five session keys one by one, then go to
        the login page. Every other key, "refresh_token" included, survives. */
    method HandleLogout(storage: LocalStorage) returns (navigateTo: string)
      modifies storage
      ensures storage.items == old(storage.items) - SessionKeys
      ensures navigateTo == "/login"
    {
      storage.RemoveItem("token");
      storage.RemoveItem("access_token");
      storage.RemoveItem("user");
      storage.RemoveItem("userData");
      storage.RemoveItem("userImage");
      navigateTo := "/login";
    }
  }
}
