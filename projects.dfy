/** The super admin's project list: search and status filter, the sortable
    table, deletion and the headline counts. */
module Projects {
  import opened Options
  import opened Text
  import opened Seqs

  datatype Project = Project(
    id: int, projectName: string, projectCode: string, client: string,
    status: string, progress: int, projectManager: string)

  /** The seeded list. */
  const InitialProjects: seq<Project> := [
    Project(1, "E-Commerce Platform", "ECP-2024-001", "TechCorp Inc.", "Active", 75, "John Doe"),
    Project(2, "Mobile Banking App", "MBA-2024-002", "Global Bank", "Completed", 100, "Jane Smith"),
    Project(3, "Inventory Management", "IMS-2024-003", "Retail Pro", "Active", 40, "Robert Brown"),
    Project(4, "CRM System", "CRM-2024-004", "SalesForce Pro", "On Hold", 20, "Sarah Wilson"),
    Project(5, "Analytics Dashboard", "ADB-2024-005", "Data Insights Ltd", "Planning", 10, "Mike Johnson"),
    Project(6, "Healthcare Portal", "HCP-2024-006", "MediCare Solutions", "Active", 65, "Emily Davis"),
    Project(7, "Learning Management", "LMS-2024-007", "EduTech Inc.", "Completed", 100, "David Lee"),
    Project(8, "IoT Monitoring", "IOT-2024-008", "Smart Systems", "Delayed", 85, "Lisa Wang")
  ]

  // ---------------------------------------------------------------- filter

  /** The search box matches name, code, client or manager, ignoring case;
      the status filter is "All" or one exact status. */
  predicate Matches(p: Project, term: string, statusFilter: string) {
    (ContainsIgnoringCase(p.projectName, term) || ContainsIgnoringCase(p.projectCode, term)
     || ContainsIgnoringCase(p.client, term) || ContainsIgnoringCase(p.projectManager, term))
    && (statusFilter == "All" || p.status == statusFilter)
  }

  /** `filteredProjects`. */
  function FilteredProjects(projects: seq<Project>, term: string, statusFilter: string): (r: seq<Project>)
    ensures |r| <= |projects|
  {
    Filter(projects, (p: Project) => Matches(p, term, statusFilter))
  }

  /** A project is listed exactly when it matches, and the list keeps the
      original order, so the footer's "Showing X of Y" has X at most Y. */
  lemma FilteredProjectsSpec(projects: seq<Project>, term: string, statusFilter: string)
    ensures forall p :: p in FilteredProjects(projects, term, statusFilter) <==>
      p in projects && Matches(p, term, statusFilter)
    ensures forall p ::
      multiset(FilteredProjects(projects, term, statusFilter))[p] ==
      if Matches(p, term, statusFilter) then multiset(projects)[p] else 0
    ensures IsSubsequence(FilteredProjects(projects, term, statusFilter), projects)
  {
    var f := (p: Project) => Matches(p, term, statusFilter);
    forall p ensures p in Filter(projects, f) <==> p in projects && f(p) {
      FilterMembership(projects, f, p);
    }
    forall p ensures multiset(Filter(projects, f))[p] == if f(p) then multiset(projects)[p] else 0 {
      FilterMultiplicity(projects, f, p);
    }
    FilterIsSubsequence(projects, f);
  }

  /** An empty search with "All" lists every project in its original order. */
  lemma EmptySearchListsAll(projects: seq<Project>)
    ensures FilteredProjects(projects, "", "All") == projects
  {
    forall p: Project ensures Matches(p, "", "All") {
      EmptyIsEverywhere(Lower(p.projectName));
    }
    FilterKeepsAll(projects, (p: Project) => Matches(p, "", "All"));
  }

  // ------------------------------------------------------------------ sort

  /** The sortable columns. */
  datatype SortKey = ProjectName | ProjectCode | Client | Status | Progress | ProjectManager

  datatype Direction = Ascending | Descending

  /** `sortConfig`; the key starts out `null`. */
  datatype SortConfig = SortConfig(key: Option<SortKey>, direction: Direction)

  const InitialSort := SortConfig(None, Ascending)

  /** JavaScript's `<` on two strings: lexicographic on character codes. */
  function StrLess(a: string, b: string): bool {
    if b == [] then false
    else if a == [] then true
    else if a[0] != b[0] then a[0] < b[0]
    else StrLess(a[1..], b[1..])
  }

  lemma {:induction false} StrLessIrreflexive(a: string)
    ensures !StrLess(a, a)
  {
    if a != [] {
      StrLessIrreflexive(a[1..]);
    }
  }

  lemma {:induction false} StrLessTransitive(a: string, b: string, c: string)
    requires StrLess(a, b) && StrLess(b, c)
    ensures StrLess(a, c)
  {
    if a != [] && a[0] == b[0] && b[0] == c[0] {
      StrLessTransitive(a[1..], b[1..], c[1..]);
    }
  }

  lemma {:induction false} StrLessTotal(a: string, b: string)
    ensures a == b || StrLess(a, b) || StrLess(b, a)
  {
    if a != [] && b != [] && a[0] == b[0] {
      StrLessTotal(a[1..], b[1..]);
      if a[1..] == b[1..] {
        assert a == [a[0]] + a[1..] && b == [b[0]] + b[1..];
      }
    }
  }

  /** The text under a string-valued key. */
  function TextKey(p: Project, k: SortKey): string
    requires k != Progress
  {
    match k
    case ProjectName => p.projectName
    case ProjectCode => p.projectCode
    case Client => p.client
    case Status => p.status
    case ProjectManager => p.projectManager
  }

  /** `a[key] < b[key]`: numbers for progress, strings otherwise. */
  predicate KeyLess(a: Project, b: Project, k: SortKey) {
    if k == Progress then a.progress < b.progress else StrLess(TextKey(a, k), TextKey(b, k))
  }

  /** Two projects whose key is equal. */
  predicate SameKey(a: Project, b: Project, k: SortKey) {
    if k == Progress then a.progress == b.progress else TextKey(a, k) == TextKey(b, k)
  }

  /** `KeyLess` is a strict total order on key values. */
  lemma KeyOrder(a: Project, b: Project, c: Project, k: SortKey)
    ensures !KeyLess(a, a, k)
    ensures KeyLess(a, b, k) && KeyLess(b, c, k) ==> KeyLess(a, c, k)
    ensures SameKey(a, b, k) || KeyLess(a, b, k) || KeyLess(b, a, k)
    ensures SameKey(a, b, k) ==> (KeyLess(a, c, k) <==> KeyLess(b, c, k)) && (KeyLess(c, a, k) <==> KeyLess(c, b, k))
  {
    if k != Progress {
      StrLessIrreflexive(TextKey(a, k));
      if KeyLess(a, b, k) && KeyLess(b, c, k) {
        StrLessTransitive(TextKey(a, k), TextKey(b, k), TextKey(c, k));
      }
      StrLessTotal(TextKey(a, k), TextKey(b, k));
    }
  }

  /** The comparator handed to `Array.prototype.sort`: with a key, `a`
      goes first exactly when its key is smaller (ascending) or larger
      (descending), and the two tie exactly when their keys are equal. */
  function Compare(a: Project, b: Project, cfg: SortConfig): (c: int)
    ensures -1 <= c <= 1
    ensures cfg.key == None ==> c == 0
    ensures cfg.key.Some? ==> (c == 0 <==> SameKey(a, b, cfg.key.value))
    ensures cfg.key.Some? && cfg.direction == Ascending ==> (c < 0 <==> KeyLess(a, b, cfg.key.value))
    ensures cfg.key.Some? && cfg.direction == Descending ==> (c < 0 <==> KeyLess(b, a, cfg.key.value))
  {
    if cfg.key == None then 0
    else
      var k := cfg.key.value;
      KeyOrder(a, b, a, k);
      KeyOrder(b, a, b, k);
      if KeyLess(a, b, k) then (if cfg.direction == Ascending then -1 else 1)
      else if KeyLess(b, a, k) then (if cfg.direction == Ascending then 1 else -1)
      else 0
  }

  /** The comparator is antisymmetric... */
  lemma CompareAntisymmetric(a: Project, b: Project, cfg: SortConfig)
    ensures Compare(a, b, cfg) == -Compare(b, a, cfg)
  {
    if cfg.key.Some? {
      var k := cfg.key.value;
      KeyOrder(a, b, a, k);
      KeyOrder(b, a, b, k);
    }
  }

  /** ... and "not after" is transitive, so the comparator is consistent. */
  lemma CompareTransitive(a: Project, b: Project, c: Project, cfg: SortConfig)
    requires Compare(a, b, cfg) <= 0 && Compare(b, c, cfg) <= 0
    ensures Compare(a, c, cfg) <= 0
  {
    if cfg.key.Some? {
      var k := cfg.key.value;
      KeyOrder(a, b, c, k);
      KeyOrder(b, c, a, k);
      KeyOrder(c, a, b, k);
      KeyOrder(a, c, b, k);
      KeyOrder(b, a, c, k);
      KeyOrder(c, b, a, k);
    }
  }

  /** Ordered by the comparator: no project comes after one it should precede. */
  predicate SortedBy(s: seq<Project>, cfg: SortConfig) {
    forall i, j :: 0 <= i < j < |s| ==> Compare(s[i], s[j], cfg) <= 0
  }

  /** Insert `x` into a sorted list, before every project it does not
      have to follow. */
  function Insert(x: Project, t: seq<Project>, cfg: SortConfig): (r: seq<Project>)
    ensures multiset(r) == multiset(t) + multiset{x}
  {
    if t == [] || Compare(x, t[0], cfg) <= 0 then [x] + t
    else
      assert t == [t[0]] + t[1..];
      [t[0]] + Insert(x, t[1..], cfg)
  }

  /** `Array.prototype.sort` with the comparator: a stable sort, here an
      insertion sort. */
  function Sort(s: seq<Project>, cfg: SortConfig): (r: seq<Project>)
    ensures multiset(r) == multiset(s)
  {
    if s == [] then []
    else
      assert s == [s[0]] + s[1..];
      Insert(s[0], Sort(s[1..], cfg), cfg)
  }

  lemma {:induction false} InsertSorted(x: Project, t: seq<Project>, cfg: SortConfig)
    requires SortedBy(t, cfg)
    ensures SortedBy(Insert(x, t, cfg), cfg)
  {
    if t == [] {
    } else if Compare(x, t[0], cfg) <= 0 {
      var r := [x] + t;
      forall i, j | 0 <= i < j < |r| ensures Compare(r[i], r[j], cfg) <= 0 {
        if i == 0 && j > 1 {
          CompareTransitive(x, t[0], t[j - 1], cfg);
        }
      }
    } else {
      InsertSorted(x, t[1..], cfg);
      var rest := Insert(x, t[1..], cfg);
      var r := [t[0]] + rest;
      CompareAntisymmetric(x, t[0], cfg);
      forall i, j | 0 <= i < j < |r| ensures Compare(r[i], r[j], cfg) <= 0 {
        if i == 0 {
          var y := r[j];
          assert y in multiset(rest);
          if y != x {
            assert y in multiset(t[1..]);
            var m :| 0 <= m < |t[1..]| && t[1..][m] == y;
            assert t[m + 1] == y;
          }
        }
      }
    }
  }

  /** The sorted table is ordered by the comparator and holds exactly the
      filtered projects. */
  lemma {:induction false} SortSpec(s: seq<Project>, cfg: SortConfig)
    ensures SortedBy(Sort(s, cfg), cfg)
    ensures multiset(Sort(s, cfg)) == multiset(s)
  {
    if s != [] {
      SortSpec(s[1..], cfg);
      InsertSorted(s[0], Sort(s[1..], cfg), cfg);
    }
  }

  /** With no sort key the comparator always answers 0 and the table keeps
      the filtered order. */
  lemma {:induction false} UnsortedKeepsOrder(s: seq<Project>)
    ensures Sort(s, InitialSort) == s
  {
    if s != [] {
      UnsortedKeepsOrder(s[1..]);
    }
  }

  /** With a key, ascending order means non-decreasing keys. */
  lemma AscendingMeansNonDecreasing(s: seq<Project>, k: SortKey)
    ensures forall i, j :: 0 <= i < j < |Sort(s, SortConfig(Some(k), Ascending))| ==>
      !KeyLess(Sort(s, SortConfig(Some(k), Ascending))[j], Sort(s, SortConfig(Some(k), Ascending))[i], k)
  {
    var cfg := SortConfig(Some(k), Ascending);
    SortSpec(s, cfg);
    var r := Sort(s, cfg);
    forall i, j | 0 <= i < j < |r| ensures !KeyLess(r[j], r[i], k) {
      assert Compare(r[i], r[j], cfg) <= 0;
      KeyOrder(r[i], r[j], r[i], k);
    }
  }

  /** `requestSort`: a second click on the ascending key turns it
      descending; any other click sorts ascending on that key. */
  function NextSort(cfg: SortConfig, k: SortKey): (r: SortConfig)
    ensures r.key == Some(k)
    ensures r.direction == Descending <==> cfg.key == Some(k) && cfg.direction == Ascending
  {
    if cfg.key == Some(k) && cfg.direction == Ascending then SortConfig(Some(k), Descending)
    else SortConfig(Some(k), Ascending)
  }

  /** Clicking one header repeatedly alternates ascending and descending. */
  lemma HeaderClicksAlternate(cfg: SortConfig, k: SortKey)
    ensures NextSort(NextSort(cfg, k), k).direction != NextSort(cfg, k).direction
    ensures NextSort(NextSort(NextSort(cfg, k), k), k) == NextSort(cfg, k)
  {
  }

  /** The table's columns; only the data columns sort. */
  datatype Column = DataColumn(key: SortKey) | ActionsColumn

  const Columns: seq<Column> :=
    [DataColumn(ProjectName), DataColumn(ProjectCode), DataColumn(Client), DataColumn(Status),
     DataColumn(Progress), DataColumn(ProjectManager), ActionsColumn]

  /** Every sort key has a header of its own, and only the last column
      does not sort. */
  lemma EveryKeyHasAColumn(k: SortKey)
    ensures DataColumn(k) in Columns[..|Columns| - 1]
    ensures Columns[|Columns| - 1] == ActionsColumn
  {
    match k
    case ProjectName => assert Columns[0] == DataColumn(k);
    case ProjectCode => assert Columns[1] == DataColumn(k);
    case Client => assert Columns[2] == DataColumn(k);
    case Status => assert Columns[3] == DataColumn(k);
    case Progress => assert Columns[4] == DataColumn(k);
    case ProjectManager => assert Columns[5] == DataColumn(k);
  }

  // ----------------------------------------------------------------- stats

  /** Headline counts over the whole list, not the filtered one. */
  datatype Stats = Stats(total: nat, active: nat, completed: nat)

  predicate IsActive(p: Project) {
    p.status == "Active"
  }

  predicate IsCompleted(p: Project) {
    p.status == "Completed"
  }

  /** The cards: every project, those "Active" and those "Completed"; the
      two status counts never add up to more than the total. */
  function ProjectStats(projects: seq<Project>): (st: Stats)
    ensures st.total == |projects|
    ensures st.active == |Filter(projects, IsActive)|
    ensures st.completed == |Filter(projects, IsCompleted)|
    ensures st.active + st.completed <= st.total
  {
    DisjointCounts(projects, IsActive, IsCompleted);
    Stats(|projects|, |Filter(projects, IsActive)|, |Filter(projects, IsCompleted)|)
  }

  /** Each copy of an "Active" project adds one to the active card. */
  lemma ActiveProjectIsCounted(projects: seq<Project>, p: Project)
    requires IsActive(p)
    ensures ProjectStats(projects).active >= multiset(projects)[p]
  {
    FilterMultiplicity(projects, IsActive, p);
  }

  /** The list after `handleDelete`: a confirmed delete drops every project
      with that id and keeps the rest in order; a declined one keeps all. */
  function AfterDelete(projects: seq<Project>, id: int, confirmed: bool): (r: seq<Project>)
    ensures !confirmed ==> r == projects
    ensures confirmed ==> forall p :: p in r <==> p in projects && p.id != id
    ensures confirmed ==> forall p :: multiset(r)[p] == if p.id != id then multiset(projects)[p] else 0
    ensures IsSubsequence(r, projects)
  {
    if confirmed then
      FilterSpec(projects, (p: Project) => p.id != id);
      Filter(projects, (p: Project) => p.id != id)
    else
      SubsequenceOfSelf(projects);
      projects
  }

  /** The page's state. */
  class ProjectsPage {
    var projects: seq<Project>
    var searchTerm: string
    var statusFilter: string
    var sortConfig: SortConfig

    constructor ()
      ensures projects == InitialProjects && searchTerm == "" && statusFilter == "All"
      ensures sortConfig == InitialSort
    {
      projects := InitialProjects;
      searchTerm := "";
      statusFilter := "All";
      sortConfig := InitialSort;
    }

    /** The rows shown: the filtered list, sorted. */
    function Displayed(): (rows: seq<Project>)
      reads this
      ensures multiset(rows) == multiset(FilteredProjects(projects, searchTerm, statusFilter))
    {
      Sort(FilteredProjects(projects, searchTerm, statusFilter), sortConfig)
    }

    /** A click on a column header: the actions column does nothing. */
    method ClickHeader(column: Column)
      modifies this
      ensures column.ActionsColumn? ==> sortConfig == old(sortConfig)
      ensures column.DataColumn? ==> sortConfig == NextSort(old(sortConfig), column.key)
      ensures projects == old(projects) && searchTerm == old(searchTerm) && statusFilter == old(statusFilter)
    {
      if column.DataColumn? {
        sortConfig := NextSort(sortConfig, column.key);
      }
    }

    /** The search box's `setSearchTerm`. */
    method SetSearchTerm(text: string)
      modifies this
      ensures searchTerm == text
      ensures projects == old(projects) && statusFilter == old(statusFilter) && sortConfig == old(sortConfig)
    {
      searchTerm := text;
    }

    /** The status select's `setStatusFilter`. */
    method SetStatusFilter(status: string)
      modifies this
      ensures statusFilter == status
      ensures projects == old(projects) && searchTerm == old(searchTerm) && sortConfig == old(sortConfig)
    {
      statusFilter := status;
    }

    /** `handleDelete`; the answer of `window.confirm` is a parameter. */
    method HandleDelete(id: int, confirmed: bool)
      modifies this
      ensures projects == AfterDelete(old(projects), id, confirmed)
      ensures searchTerm == old(searchTerm) && statusFilter == old(statusFilter) && sortConfig == old(sortConfig)
    {
      if confirmed {
        projects := Filter(projects, (p: Project) => p.id != id);
      }
    }
  }
}
