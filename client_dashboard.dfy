/** The client dashboard: the client-only guard that runs when it mounts, and
    the name shown in its greeting and avatar. */
module ClientDashboard {
  import opened Options
  import opened Text
  import opened Browser
  import opened LoginSignup

  /** The six headline figures. */
  datatype Stats = Stats(totalCustomers: int, activeProducts: int, soldThisMonth: int,
                         totalRevenue: int, pendingInvoices: int, pendingPayments: int)

  const ZeroStats := Stats(0, 0, 0, 0, 0, 0)
  const MockStats := Stats(245, 78, 156, 45250, 12, 5)

  const PleaseLogin := "Please login first"
  const AccessDenied := "Access denied. Client access only."

  /** The guard's decision: leave for "/login" (with a toast, or silently when
      the stored record could not be read), or admit the stored user. */
  datatype Guard = Redirect(toast: Option<string>) | Admit(user: UserRecord)

  /** `checkAuth`: a token and a user record must both be stored, and the
      record's role must be exactly "client". */
  function CheckAuth(items: map<string, Item>): (g: Guard)
    ensures g.Admit? <==>
      Present(items, "access_token") && Present(items, "user")
      && items["user"].UserJson? && items["user"].user.role == Some("client")
    ensures g.Admit? ==> g.user == items["user"].user
    ensures !Present(items, "access_token") || !Present(items, "user") ==> g == Redirect(Some(PleaseLogin))
    ensures Present(items, "access_token") && Present(items, "user") && items["user"].Text? ==>
      g == Redirect(None)
    ensures (Present(items, "access_token") && Present(items, "user") && items["user"].UserJson?
             && items["user"].user.role != Some("client")) ==> g == Redirect(Some(AccessDenied))
  {
    if !Present(items, "access_token") || !Present(items, "user") then Redirect(Some(PleaseLogin))
    else match items["user"]
      case Text(_) => Redirect(None)
      case UserJson(u) => if u.role == Some("client") then Admit(u) else Redirect(Some(AccessDenied))
  }

  /** Signing in with an access token as a user whose role is "client"
      passes the guard, and any other role is turned away. */
  lemma SignedInClientAdmitted(items: map<string, Item>, access: string, refresh: Option<string>, u: UserRecord)
    requires access != ""
    ensures CheckAuth(StoreSession(items, Some(access), refresh, Some(u))).Admit? <==> u.role == Some("client")
  {
  }

  /** The greeting's name: `first_name`, else `username`, else "Client". */
  function GreetingName(user: Option<UserRecord>): (name: string)
    ensures name != ""
    ensures user.Some? && Truthy(user.value.firstName) ==> name == user.value.firstName.value
    ensures user.Some? && !Truthy(user.value.firstName) && Truthy(user.value.username) ==>
      name == user.value.username.value
    ensures (user.None? || (!Truthy(user.value.firstName) && !Truthy(user.value.username))) ==>
      name == "Client"
  {
    if user.Some? && Truthy(user.value.firstName) then user.value.firstName.value
    else if user.Some? && Truthy(user.value.username) then user.value.username.value
    else "Client"
  }

  /** `s?.charAt(0)`: the first character, or `undefined` for a missing value. */
  function FirstCharOf(s: Option<string>): Option<string> {
    if s.Some? then Some(FirstChar(s.value)) else None
  }

  /** The avatar letter: the first character of `first_name`, else of
      `username`, else "C". */
  function AvatarInitial(user: Option<UserRecord>): (initial: string)
    ensures |initial| == 1
    ensures user.None? ==> initial == "C"
  {
    var fromFirst := if user.Some? then FirstCharOf(user.value.firstName) else None;
    var fromUser := if user.Some? then FirstCharOf(user.value.username) else None;
    if Truthy(fromFirst) then fromFirst.value
    else if Truthy(fromUser) then fromUser.value
    else "C"
  }

  /** The avatar letter is always the first letter of the greeting's name:
      the two fallback chains pick the same field. */
  lemma AvatarMatchesGreeting(user: Option<UserRecord>)
    ensures AvatarInitial(user) == FirstChar(GreetingName(user))
  {
  }

  /** The dashboard's state. */
  class ClientDashboardPage {
    var userData: Option<UserRecord>
    var loading: bool
    var stats: Stats

    constructor ()
      ensures userData == None && loading && stats == ZeroStats
    {
      userData := None;
      loading := true;
      stats := ZeroStats;
    }

    /** The mount effect. Only an admitted client fills in the page and
        clears `loading`; every redirect leaves the state as it was. */
    method RunCheckAuth(storage: LocalStorage) returns (navigateTo: Option<string>, toast: Option<string>)
      modifies this
      ensures CheckAuth(storage.items).Admit? ==>
        navigateTo == None && toast == None
        && userData == Some(CheckAuth(storage.items).user) && stats == MockStats && !loading
      ensures CheckAuth(storage.items).Redirect? ==>
        navigateTo == Some("/login") && toast == CheckAuth(storage.items).toast
        && userData == old(userData) && stats == old(stats) && loading == old(loading)
    {
      var items := storage.items;
      if !Present(items, "access_token") || !Present(items, "user") {
        return Some("/login"), Some(PleaseLogin);
      }
      match items["user"] {
        case Text(_) =>
          return Some("/login"), None;
        case UserJson(u) =>
          if u.role != Some("client") {
            return Some("/login"), Some(AccessDenied);
          }
          userData := Some(u);
          stats := MockStats;
          loading := false;
          return None, None;
      }
    }
  }
}
