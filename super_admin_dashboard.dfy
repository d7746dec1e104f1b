/** The super-admin overview: viewport classes and the stats grid, and the
    searchable user table with its footer. */
module SuperAdminDashboard {
  import opened Options
  import opened Text
  import opened Seqs
  import Layout

  /** Widths up to this are "mobile" on this page. */
  const MobileMaxWidth := 768
  /** Widths above `MobileMaxWidth` and up to this are "tablet". */
  const TabletMaxWidth := 1024

  /** `handleResize`'s two flags for a given width. */
  predicate MobileAt(width: int) { width <= MobileMaxWidth }
  predicate TabletAt(width: int) { width <= TabletMaxWidth && width > MobileMaxWidth }

  /** A width is never both mobile and tablet. */
  lemma NeverMobileAndTablet(width: int)
    ensures !(MobileAt(width) && TabletAt(width))
  {
  }

  /** The number of columns of the stats grid. */
  function GridColumns(isMobile: bool, isTablet: bool): (n: nat)
    ensures isMobile ==> n == 1
    ensures !isMobile && isTablet ==> n == 2
    ensures !isMobile && !isTablet ==> n == 4
  {
    if isMobile then 1 else if isTablet then 2 else 4
  }

  /** By width: one column up to 768, two up to 1024, four above. */
  lemma GridColumnsByWidth(width: int)
    ensures GridColumns(MobileAt(width), TabletAt(width)) == 1 <==> width <= 768
    ensures GridColumns(MobileAt(width), TabletAt(width)) == 2 <==> 768 < width <= 1024
    ensures GridColumns(MobileAt(width), TabletAt(width)) == 4 <==> width > 1024
  {
  }

  /** The page layout and this page disagree about what is mobile: exactly
      the tablet widths are mobile for the layout (sidebar as a drawer) but
      not for this page. */
  lemma BreakpointsDisagree(width: int)
    ensures (width <= Layout.MobileMaxWidth && !MobileAt(width)) <==> TabletAt(width)
    ensures width <= MobileMaxWidth ==> width <= Layout.MobileMaxWidth
  {
  }

  /** The page's viewport flags. */
  class Viewport {
    var isMobile: bool
    var isTablet: bool

    /** The effect runs `handleResize` once on mount. */
    constructor (width: int)
      ensures isMobile == MobileAt(width) && isTablet == TabletAt(width)
    {
      isMobile := width <= 768;
      isTablet := width <= 1024 && width > 768;
    }

    /** `handleResize`. */
    method HandleResize(width: int)
      modifies this
      ensures isMobile == MobileAt(width) && isTablet == TabletAt(width)
      ensures !(isMobile && isTablet)
    {
      isMobile := width <= 768;
      isTablet := width <= 1024 && width > 768;
    }
  }

  /** One row of the user table. */
  datatype UserRow = UserRow(id: int, user: string, email: string, status: string, role: string, lastLogin: string)

  const InitialTableData: seq<UserRow> := [
    UserRow(1, "John Smith", "john@example.com", "Active", "Admin", "2 hours ago"),
    UserRow(2, "Sarah Johnson", "sarah@example.com", "Active", "Manager", "1 day ago"),
    UserRow(3, "Mike Chen", "mike@example.com", "Inactive", "Developer", "3 days ago"),
    UserRow(4, "Emily Davis", "emily@example.com", "Active", "Designer", "5 hours ago"),
    UserRow(5, "Alex Brown", "alex@example.com", "Active", "Manager", "12 hours ago"),
    UserRow(6, "David Wilson", "david@example.com", "Active", "Admin", "6 hours ago"),
    UserRow(7, "Lisa Anderson", "lisa@example.com", "Inactive", "Developer", "1 week ago"),
    UserRow(8, "Robert Taylor", "robert@example.com", "Active", "Analyst", "4 hours ago")
  ]

  /** The search: the term in the user name, email or role, ignoring case. */
  predicate Matches(row: UserRow, term: string) {
    ContainsIgnoringCase(row.user, term) || ContainsIgnoringCase(row.email, term) || ContainsIgnoringCase(row.role, term)
  }

  /** `filteredTableData`. */
  function FilteredTableData(term: string): (rows: seq<UserRow>)
    ensures IsSubsequence(rows, InitialTableData)
    ensures forall row :: row in rows <==> row in InitialTableData && Matches(row, term)
    ensures |rows| <= 8
  {
    var matches := (row: UserRow) => Matches(row, term);
    FilterSpec(InitialTableData, matches);
    Filter(InitialTableData, matches)
  }

  /** An empty search shows all eight rows, in order. */
  lemma EmptySearchShowsAll()
    ensures FilteredTableData("") == InitialTableData
    ensures |FilteredTableData("")| == 8
  {
    forall row | row in InitialTableData ensures Matches(row, "") {
      EmptyIsEverywhere(Lower(row.user));
    }
    FilterKeepsAll(InitialTableData, (row: UserRow) => Matches(row, ""));
  }

  /** The table body: the matching rows, or the empty-state row naming the
      term. */
  datatype Body = Rows(rows: seq<UserRow>) | NoUsersFound(term: string)

  /** The table with its "Showing X of Y users" footer. */
  datatype Table = Table(body: Body, footer: Option<(nat, nat)>)

  function RenderTable(term: string): (t: Table)
    ensures t.body.Rows? <==> t.footer.Some?
    ensures t.body.Rows? ==> t.body.rows == FilteredTableData(term) && t.body.rows != []
    ensures t.body.NoUsersFound? ==> t.body.term == term && FilteredTableData(term) == []
    ensures t.footer.Some? ==> t.footer.value == (|FilteredTableData(term)|, |InitialTableData|)
    ensures t.footer.Some? ==> 1 <= t.footer.value.0 <= t.footer.value.1 == 8
  {
    var rows := FilteredTableData(term);
    if |rows| > 0 then Table(Rows(rows), Some((|rows|, |InitialTableData|)))
    else Table(NoUsersFound(term), None)
  }

  /** The footer appears exactly when some user matches the search. */
  lemma FooterIffSomeMatch(term: string)
    ensures RenderTable(term).footer.Some? <==> exists row :: row in InitialTableData && Matches(row, term)
  {
    var rows := FilteredTableData(term);
    if |rows| > 0 {
      assert rows[0] in rows;
    }
  }

  datatype Badge = ActiveBadge | InactiveBadge

  /** The status badge: only "Active" gets the active style. */
  function StatusBadge(status: string): (b: Badge)
    ensures b == ActiveBadge <==> status == "Active"
  {
    if status == "Active" then ActiveBadge else InactiveBadge
  }
}
