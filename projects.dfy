/** The projects page (app/projects/page.tsx): loading the list, with a fixed mock
    list as fallback, and the search / language / sort pipeline over it. */
module Projects {
  import opened Common
  import opened Types

  /** The language tags offered by the filter bar. */
  const Languages: seq<string> := ["all", "JavaScript", "TypeScript", "Python", "Dart", "Go", "React", "Vue"]

  /** The filter bar offers `'all'` first, then seven tags. */
  lemma LanguageTags()
    ensures |Languages| == 8 && Languages[0] == "all"
    ensures forall i :: 1 <= i < |Languages| ==> Languages[i] != "all"
  {
  }

  /** The six records shown when the listing cannot be loaded. */
  function MockProjects(): (r: seq<Project>)
    ensures |r| == 6
    ensures forall i :: 0 <= i < |r| ==> r[i].id == i + 1
  {
    [Mock1, Mock2, Mock3, Mock4, Mock5, Mock6]
  }

  const Mock1: Project :=
    Mock(1, "3D-Portfolio-Website",
      "Interactive portfolio with Three.js animations, modern design, and real-time GitHub integration",
      "https://github.com/user/3d-portfolio", "JavaScript", 156, 42,
      20240115103000, 20241020143000,
      ["threejs", "portfolio", "webgl", "animation", "responsive"], 2456, "MIT")

  const Mock2: Project :=
    Mock(2, "React-Dashboard-Pro",
      "Full-stack dashboard application with real-time data visualization and advanced analytics",
      "https://github.com/user/react-dashboard", "TypeScript", 324, 89,
      20231108154500, 20241018091500,
      ["react", "typescript", "dashboard", "charts", "api"], 4532, "MIT")

  const Mock3: Project :=
    Mock(3, "Microservices-Architecture",
      "Scalable microservices system with Docker, Kubernetes, and cloud-native patterns",
      "https://github.com/user/microservices", "Python", 267, 73,
      20230922082000, 20240930164500,
      ["python", "docker", "kubernetes", "microservices", "cloud"], 6789, "Apache-2.0")

  const Mock4: Project :=
    Mock(4, "Mobile-App-Framework",
      "Cross-platform mobile development framework with native performance and modern UI",
      "https://github.com/user/mobile-framework", "Dart", 198, 56,
      20240210113000, 20241015132000,
      ["flutter", "dart", "mobile", "cross-platform", "ui"], 3421, "MIT")

  const Mock5: Project :=
    Mock(5, "ML-DataScience-Toolkit",
      "Comprehensive Python toolkit for machine learning and data science workflows",
      "https://github.com/user/ml-toolkit", "Python", 445, 132,
      20230615142000, 20241010103000,
      ["python", "machine-learning", "data-science", "pandas", "scikit-learn"], 5678, "MIT")

  const Mock6: Project :=
    Mock(6, "DevOps-Automation-Pipeline",
      "Complete CI/CD pipeline automation with infrastructure as code and monitoring",
      "https://github.com/user/devops-pipeline", "Go", 178, 41,
      20231205091500, 20240925154000,
      ["devops", "cicd", "terraform", "monitoring", "automation"], 2890, "Apache-2.0")

  /** The shape every mock record shares: owned by `user`, full name `user/<name>`. */
  function Mock(id: int, name: string, description: string, url: string, language: string,
                stars: nat, forks: nat, created: int, updated: int,
                topics: seq<string>, size: nat, license: string): Project
  {
    Project(id, name, "user/" + name, Some(description), url, Some(language), stars, forks,
            created, updated, Some(topics), None, size, Some(License(license)),
            Owner("user", "https://github.com/user.png"))
  }

  // ---------------------------------------------------------------------------
  // Filtering

  /** The search box: the lower-cased query occurs in the lower-cased name, in the
      description when there is one, or in one of the topics when there are any. */
  predicate MatchesSearch(p: Project, query: string)
  {
    var q := Lower(query);
    || Includes(Lower(p.name), q)
    || (p.description.Some? && Includes(Lower(p.description.value), q))
    || (p.topics.Some? && exists t :: t in p.topics.value && Includes(Lower(t), q))
  }

  /** The language selector, with its name heuristics for Vue and React. */
  predicate MatchesLanguage(p: Project, tag: string)
  {
    || p.language == Some(tag)
    || (tag == "Vue" && Includes(Lower(p.name), "vue"))
    || (tag == "React" && Includes(Lower(p.name), "react"))
  }

  /** The two filters the page applies, one `filter` call each. */
  datatype Criterion = Search(query: string) | LanguageTag(tag: string)

  predicate Keeps(c: Criterion, p: Project)
  {
    match c
    case Search(q) => MatchesSearch(p, q)
    case LanguageTag(tag) => MatchesLanguage(p, tag)
  }

  /** `Array.prototype.filter`: the kept records, in their order. */
  function Select(s: seq<Project>, c: Criterion): (r: seq<Project>)
    ensures |r| <= |s|
    ensures forall x :: x in r ==> x in s && Keeps(c, x)
  {
    if s == [] then [] else (if Keeps(c, s[0]) then [s[0]] else []) + Select(s[1..], c)
  }

  /** Select keeps every copy of a record the criterion accepts and no copy of one it rejects. */
  lemma {:induction false} SelectCount(s: seq<Project>, c: Criterion, x: Project)
    ensures multiset(Select(s, c))[x] == if Keeps(c, x) then multiset(s)[x] else 0
  {
    if s != [] {
      SelectCount(s[1..], c, x);
      assert s == [s[0]] + s[1..];
    }
  }

  // ---------------------------------------------------------------------------
  // Sorting

  /** The number the comparator subtracts for a sort key; `'updated'` and every
      unrecognised key fall to the `updated_at` case. */
  function SortKey(p: Project, sortBy: string): int
  {
    if sortBy == "stars" then p.stargazersCount
    else if sortBy == "forks" then p.forksCount
    else if sortBy == "created" then p.createdAt
    else p.updatedAt
  }

  ghost predicate SortedDesc(s: seq<Project>, sortBy: string)
  {
    forall i, j :: 0 <= i < j < |s| ==> SortKey(s[i], sortBy) >= SortKey(s[j], sortBy)
  }

  /** Places `x` in front of the first element whose key is not larger. */
  function Insert(x: Project, s: seq<Project>, sortBy: string): (r: seq<Project>)
    ensures multiset(r) == multiset(s) + multiset{x}
  {
    if s == [] then [x]
    else if SortKey(x, sortBy) >= SortKey(s[0], sortBy) then [x] + s
    else
      assert s == [s[0]] + s[1..];
      [s[0]] + Insert(x, s[1..], sortBy)
  }

  /** `sort` with the comparator `(a, b) => key(b) - key(a)`, which the language
      requires to be stable: an insertion sort. */
  function SortDesc(s: seq<Project>, sortBy: string): (r: seq<Project>)
    ensures multiset(r) == multiset(s)
    ensures |r| == |s|
  {
    if s == [] then []
    else
      assert s == [s[0]] + s[1..];
      Insert(s[0], SortDesc(s[1..], sortBy), sortBy)
  }

  lemma {:induction false} InsertSorted(x: Project, s: seq<Project>, sortBy: string)
    requires SortedDesc(s, sortBy)
    ensures SortedDesc(Insert(x, s, sortBy), sortBy)
  {
    if s != [] && SortKey(x, sortBy) < SortKey(s[0], sortBy) {
      var rest := Insert(x, s[1..], sortBy);
      InsertSorted(x, s[1..], sortBy);
      forall j | 0 <= j < |rest|
        ensures SortKey(s[0], sortBy) >= SortKey(rest[j], sortBy)
      {
        assert rest[j] in multiset(rest);
        if rest[j] != x {
          assert rest[j] in s[1..];
          var k :| 0 <= k < |s[1..]| && s[1..][k] == rest[j];
          assert s[k + 1] == rest[j];
        }
      }
    }
  }

  /** Sorting yields non-increasing keys. */
  lemma {:induction false} SortDescSorted(s: seq<Project>, sortBy: string)
    ensures SortedDesc(SortDesc(s, sortBy), sortBy)
  {
    if s != [] {
      SortDescSorted(s[1..], sortBy);
      InsertSorted(s[0], SortDesc(s[1..], sortBy), sortBy);
    }
  }

  /** The records whose key equals `v`, in order. */
  function WithKey(s: seq<Project>, sortBy: string, v: int): seq<Project>
  {
    if s == [] then [] else (if SortKey(s[0], sortBy) == v then [s[0]] else []) + WithKey(s[1..], sortBy, v)
  }

  lemma {:induction false} WithKeyAppend(a: seq<Project>, b: seq<Project>, sortBy: string, v: int)
    ensures WithKey(a + b, sortBy, v) == WithKey(a, sortBy, v) + WithKey(b, sortBy, v)
  {
    if a != [] {
      WithKeyAppend(a[1..], b, sortBy, v);
      assert (a + b)[0] == a[0];
      assert (a + b)[1..] == a[1..] + b;
    } else {
      assert a + b == b;
    }
  }

  lemma {:induction false} InsertStable(x: Project, s: seq<Project>, sortBy: string, v: int)
    ensures WithKey(Insert(x, s, sortBy), sortBy, v) == WithKey([x] + s, sortBy, v)
  {
    if s != [] && SortKey(x, sortBy) < SortKey(s[0], sortBy) {
      InsertStable(x, s[1..], sortBy, v);
      WithKeyAppend([s[0]], Insert(x, s[1..], sortBy), sortBy, v);
      WithKeyAppend([x], s[1..], sortBy, v);
      WithKeyAppend([x], s, sortBy, v);
      WithKeyAppend([s[0]], s[1..], sortBy, v);
      assert s == [s[0]] + s[1..];
    }
  }

  /** The sort is stable: records with equal keys keep their relative order. */
  lemma {:induction false} SortDescStable(s: seq<Project>, sortBy: string, v: int)
    ensures WithKey(SortDesc(s, sortBy), sortBy, v) == WithKey(s, sortBy, v)
  {
    if s != [] {
      SortDescStable(s[1..], sortBy, v);
      InsertStable(s[0], SortDesc(s[1..], sortBy), sortBy, v);
      WithKeyAppend([s[0]], SortDesc(s[1..], sortBy), sortBy, v);
      WithKeyAppend([s[0]], s[1..], sortBy, v);
      assert s == [s[0]] + s[1..];
    }
  }

  lemma {:induction false} SelectAppend(a: seq<Project>, b: seq<Project>, c: Criterion)
    ensures Select(a + b, c) == Select(a, c) + Select(b, c)
  {
    if a == [] {
      assert a + b == b;
    } else {
      var ab := a + b;
      assert ab[0] == a[0] && ab[1..] == a[1..] + b;
      SelectAppend(a[1..], b, c);
    }
  }

  /** `filter` keeps the relative order: filtering and then taking the records of one key
      gives the same sequence as taking them first and then filtering. */
  lemma {:induction false} SelectWithKey(s: seq<Project>, c: Criterion, sortBy: string, v: int)
    ensures WithKey(Select(s, c), sortBy, v) == Select(WithKey(s, sortBy, v), c)
  {
    if s != [] {
      SelectWithKey(s[1..], c, sortBy, v);
      var head := if Keeps(c, s[0]) then [s[0]] else [];
      WithKeyAppend(head, Select(s[1..], c), sortBy, v);
      SelectAppend(if SortKey(s[0], sortBy) == v then [s[0]] else [], WithKey(s[1..], sortBy, v), c);
      assert Select([s[0]], c) == head by {
        assert [s[0]][1..] == [];
      }
      assert WithKey([s[0]], sortBy, v) == (if SortKey(s[0], sortBy) == v then [s[0]] else []) by {
        assert [s[0]][1..] == [];
      }
    }
  }

  // ---------------------------------------------------------------------------
  // The whole pipeline

  /** The two filter steps; an empty query and the tag `'all'` skip theirs. */
  function Filtered(projects: seq<Project>, searchQuery: string, selectedLanguage: string): seq<Project>
  {
    var searched := if searchQuery != "" then Select(projects, Search(searchQuery)) else projects;
    if selectedLanguage != "all" then Select(searched, LanguageTag(selectedLanguage)) else searched
  }

  /** What `filterProjects` leaves in `filteredProjects`. */
  function Query(projects: seq<Project>, searchQuery: string, selectedLanguage: string, sortBy: string): (r: seq<Project>)
    ensures |r| <= |projects|
  {
    SortDesc(Filtered(projects, searchQuery, selectedLanguage), sortBy)
  }

  /** Whether a record passes both filters; an empty query and the tag `'all'` pass everything. */
  predicate Selected(p: Project, searchQuery: string, selectedLanguage: string)
  {
    && (searchQuery == "" || MatchesSearch(p, searchQuery))
    && (selectedLanguage == "all" || MatchesLanguage(p, selectedLanguage))
  }

  /** Each record appears in the result as often as in the input if it passes the filters, else not at all. */
  lemma {:induction false} QueryCount(projects: seq<Project>, searchQuery: string, selectedLanguage: string, sortBy: string, x: Project)
    ensures multiset(Query(projects, searchQuery, selectedLanguage, sortBy))[x]
         == if Selected(x, searchQuery, selectedLanguage) then multiset(projects)[x] else 0
  {
    SelectCount(projects, Search(searchQuery), x);
    var searched := if searchQuery != "" then Select(projects, Search(searchQuery)) else projects;
    SelectCount(searched, LanguageTag(selectedLanguage), x);
  }

  /** The result is drawn from the loaded list: no record appears more often than it was loaded. */
  lemma {:induction false} QueryFromInput(projects: seq<Project>, searchQuery: string, selectedLanguage: string, sortBy: string)
    ensures multiset(Query(projects, searchQuery, selectedLanguage, sortBy)) <= multiset(projects)
  {
    forall x {
      QueryCount(projects, searchQuery, selectedLanguage, sortBy, x);
    }
  }

  /** A record is shown exactly when it is loaded and passes both filters. */
  lemma {:induction false} QueryMembership(projects: seq<Project>, searchQuery: string, selectedLanguage: string, sortBy: string, x: Project)
    ensures x in Query(projects, searchQuery, selectedLanguage, sortBy)
        <==> x in projects && Selected(x, searchQuery, selectedLanguage)
  {
    QueryCount(projects, searchQuery, selectedLanguage, sortBy, x);
    assert x in projects <==> x in multiset(projects);
    assert x in Query(projects, searchQuery, selectedLanguage, sortBy)
       <==> x in multiset(Query(projects, searchQuery, selectedLanguage, sortBy));
  }

  /** With no query and the tag `'all'` the result is the loaded list, reordered. */
  lemma {:induction false} QueryKeepsAll(projects: seq<Project>, sortBy: string)
    ensures multiset(Query(projects, "", "all", sortBy)) == multiset(projects)
  {
    forall x {
      QueryCount(projects, "", "all", sortBy, x);
    }
  }

  /** The listing is stable: the records with any one key value appear in the result
      exactly as the filters leave them among the loaded records with that key, in loaded order. */
  lemma {:induction false} QueryStable(projects: seq<Project>, searchQuery: string, selectedLanguage: string, sortBy: string, v: int)
    ensures WithKey(Query(projects, searchQuery, selectedLanguage, sortBy), sortBy, v)
         == Filtered(WithKey(projects, sortBy, v), searchQuery, selectedLanguage)
  {
    SortDescStable(Filtered(projects, searchQuery, selectedLanguage), sortBy, v);
    SelectWithKey(projects, Search(searchQuery), sortBy, v);
    var searched := if searchQuery != "" then Select(projects, Search(searchQuery)) else projects;
    SelectWithKey(searched, LanguageTag(selectedLanguage), sortBy, v);
  }

  /** The result is ordered by the chosen key, largest first. */
  lemma {:induction false} QueryOrdered(projects: seq<Project>, searchQuery: string, selectedLanguage: string, sortBy: string)
    ensures var r := Query(projects, searchQuery, selectedLanguage, sortBy);
      && (sortBy == "stars" ==> forall i, j :: 0 <= i < j < |r| ==> r[i].stargazersCount >= r[j].stargazersCount)
      && (sortBy == "forks" ==> forall i, j :: 0 <= i < j < |r| ==> r[i].forksCount >= r[j].forksCount)
      && (sortBy == "created" ==> forall i, j :: 0 <= i < j < |r| ==> r[i].createdAt >= r[j].createdAt)
      && (sortBy !in {"stars", "forks", "created"} ==> forall i, j :: 0 <= i < j < |r| ==> r[i].updatedAt >= r[j].updatedAt)
  {
    SortDescSorted(Filtered(projects, searchQuery, selectedLanguage), sortBy);
  }

  // ---------------------------------------------------------------------------
  // Page state

  /** The state hooks of `ProjectsPage`. */
  class ProjectsPage {
    var projects: seq<Project>
    var filteredProjects: seq<Project>
    var loading: bool
    var searchQuery: string
    var selectedLanguage: string
    var sortBy: string

    constructor ()
      ensures projects == [] && filteredProjects == [] && loading
      ensures searchQuery == "" && selectedLanguage == "all" && sortBy == "updated"
    {
      projects := [];
      filteredProjects := [];
      loading := true;
      searchQuery := "";
      selectedLanguage := "all";
      sortBy := "updated";
    }

    /** `fetchProjects`: the loaded list on success, the mock list on any failure,
        and never loading afterwards. */
    method FetchProjects(response: FetchOutcome<seq<Project>>)
      modifies this`projects, this`loading
      ensures projects == if response.Ok? then response.data else MockProjects()
      ensures !loading
    {
      match response {
        case Ok(data) => projects := data;
        case NotOk => projects := MockProjects();
        case Threw => projects := MockProjects();
      }
      loading := false;
    }

    /** `filterProjects`: narrows a copy of the list step by step, then sorts it. */
    method FilterProjects()
      modifies this`filteredProjects
      ensures filteredProjects == Query(projects, searchQuery, selectedLanguage, sortBy)
    {
      var filtered := projects;
      if searchQuery != "" {
        filtered := Select(filtered, Search(searchQuery));
      }
      if selectedLanguage != "all" {
        filtered := Select(filtered, LanguageTag(selectedLanguage));
      }
      filtered := SortDesc(filtered, sortBy);
      filteredProjects := filtered;
    }
  }
}
