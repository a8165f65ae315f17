/** The statistics strip above the project grid (components/project-stats.tsx). */
module Stats {
  import opened Common
  import opened Types

  /** The two counts the strip adds up. */
  datatype Counter = Stars | Forks

  function CountOf(p: Project, c: Counter): nat
  {
    match c
    case Stars => p.stargazersCount
    case Forks => p.forksCount
  }

  /** `projects.reduce((sum, project) => sum + count(project), acc)`: a fold from the left. */
  function Reduce(ps: seq<Project>, c: Counter, acc: nat): nat
  {
    if ps == [] then acc else Reduce(ps[1..], c, acc + CountOf(ps[0], c))
  }

  /** Reference definition: the sum of the counts. */
  function Sum(ps: seq<Project>, c: Counter): nat
  {
    if ps == [] then 0 else CountOf(ps[0], c) + Sum(ps[1..], c)
  }

  lemma {:induction false} ReduceIsSum(ps: seq<Project>, c: Counter, acc: nat)
    ensures Reduce(ps, c, acc) == acc + Sum(ps, c)
  {
    if ps != [] {
      ReduceIsSum(ps[1..], c, acc + CountOf(ps[0], c));
    }
  }

  lemma {:induction false} SumAppend(a: seq<Project>, b: seq<Project>, c: Counter)
    ensures Sum(a + b, c) == Sum(a, c) + Sum(b, c)
  {
    if a == [] {
      assert a + b == b;
    } else {
      SumAppend(a[1..], b, c);
      assert (a + b)[0] == a[0];
      assert (a + b)[1..] == a[1..] + b;
    }
  }

  function TotalProjects(ps: seq<Project>): nat
  {
    |ps|
  }

  function TotalStars(ps: seq<Project>): nat
  {
    Reduce(ps, Stars, 0)
  }

  function TotalForks(ps: seq<Project>): nat
  {
    Reduce(ps, Forks, 0)
  }

  /** The total is the sum of the star counts; it is 0 for no projects. */
  lemma TotalStarsIsSum(ps: seq<Project>)
    ensures TotalStars(ps) == Sum(ps, Stars)
    ensures ps == [] ==> TotalStars(ps) == 0
  {
    ReduceIsSum(ps, Stars, 0);
  }

  /** The total is the sum of the fork counts; it is 0 for no projects. */
  lemma TotalForksIsSum(ps: seq<Project>)
    ensures TotalForks(ps) == Sum(ps, Forks)
    ensures ps == [] ==> TotalForks(ps) == 0
  {
    ReduceIsSum(ps, Forks, 0);
  }

  /** One more project raises the star total by exactly its star count. */
  lemma TotalStarsAppend(ps: seq<Project>, p: Project)
    ensures TotalStars(ps + [p]) == TotalStars(ps) + p.stargazersCount
  {
    TotalStarsIsSum(ps);
    TotalStarsIsSum(ps + [p]);
    SumAppend(ps, [p], Stars);
    assert [p][1..] == [];
  }

  /** The language of a project when it is truthy (neither null nor empty). */
  predicate HasLanguage(p: Project)
  {
    p.language.Some? && p.language.value != ""
  }

  /** `new Set(projects.map(p => p.language).filter(Boolean))`. */
  function LanguageSet(ps: seq<Project>): set<string>
  {
    if ps == [] then {}
    else (if HasLanguage(ps[0]) then {ps[0].language.value} else {}) + LanguageSet(ps[1..])
  }

  /** The set holds exactly the truthy languages of the projects. */
  lemma {:induction false} LanguageSetMembers(ps: seq<Project>, l: string)
    ensures l in LanguageSet(ps)
        <==> exists i :: 0 <= i < |ps| && HasLanguage(ps[i]) && ps[i].language.value == l
  {
    if ps != [] {
      LanguageSetMembers(ps[1..], l);
      if l in LanguageSet(ps[1..]) {
        var i :| 0 <= i < |ps[1..]| && HasLanguage(ps[1..][i]) && ps[1..][i].language.value == l;
        assert ps[i + 1] == ps[1..][i];
      }
      forall i | 1 <= i < |ps| && HasLanguage(ps[i]) && ps[i].language.value == l
        ensures l in LanguageSet(ps[1..])
      {
        assert ps[1..][i - 1] == ps[i];
      }
    }
  }

  /** There are never more distinct languages than projects. */
  lemma {:induction false} LanguageCountBound(ps: seq<Project>)
    ensures |LanguageSet(ps)| <= |ps|
  {
    if ps != [] {
      LanguageCountBound(ps[1..]);
      var head := if HasLanguage(ps[0]) then {ps[0].language.value} else {};
      assert |head + LanguageSet(ps[1..])| <= |head| + |LanguageSet(ps[1..])|;
    }
  }

  /** One tile of the strip. */
  datatype Stat = Stat(title: string, value: nat, color: string)

  /** The four tiles, in display order. */
  function StatTiles(ps: seq<Project>): (r: seq<Stat>)
    ensures |r| == 4
    ensures r[0].title == "Total Projects" && r[1].title == "GitHub Stars"
    ensures r[2].title == "Forks" && r[3].title == "Languages"
    ensures r[0].value == |ps| && r[1].value == Sum(ps, Stars) && r[2].value == Sum(ps, Forks)
    ensures r[3].value == |LanguageSet(ps)| <= |ps|
  {
    TotalStarsIsSum(ps);
    TotalForksIsSum(ps);
    LanguageCountBound(ps);
    [ Stat("Total Projects", TotalProjects(ps), "from-blue-500 to-blue-600"),
      Stat("GitHub Stars", TotalStars(ps), "from-yellow-500 to-yellow-600"),
      Stat("Forks", TotalForks(ps), "from-green-500 to-green-600"),
      Stat("Languages", |LanguageSet(ps)|, "from-purple-500 to-purple-600") ]
  }
}
