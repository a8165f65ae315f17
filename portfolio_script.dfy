/** The project section of the stand-alone page script (main.js): loading the
    repositories, the fallback list, and the values each card is built from. */
module PortfolioScript {
  import opened Common

  /** The fields of a repository record that the script reads. */
  datatype Repo = Repo(
    name: string,
    description: Option<string>,
    language: Option<string>,
    stargazersCount: nat,
    forksCount: nat,
    htmlUrl: string)

  const DefaultColor := "#6b7280"

  /** The colour table of `getLanguageColor`. */
  const LanguageColors: map<string, string> := map[
    "JavaScript" := "#f1e05a",
    "TypeScript" := "#2b7489",
    "Python" := "#3572A5",
    "Java" := "#b07219",
    "Go" := "#00ADD8",
    "Rust" := "#dea584",
    "C++" := "#f34b7d",
    "C#" := "#239120",
    "PHP" := "#4F5D95",
    "Ruby" := "#701516",
    "Swift" := "#ffac45",
    "Kotlin" := "#F18E33",
    "Dart" := "#00B4AB",
    "Vue" := "#4FC08D",
    "React" := "#61DAFB",
    "HTML" := "#e34c26",
    "CSS" := "#1572B6",
    "Shell" := "#89e051",
    "Dockerfile" := "#384d54"]

  /** `colors[language] || '#6b7280'`: a missing entry reads as `undefined`, and so
      does the lookup of `null` or `undefined`. */
  function LanguageColor(language: Option<string>): (color: string)
    ensures language.Some? && language.value in LanguageColors ==> color == LanguageColors[language.value]
    ensures language.None? || language.value !in LanguageColors ==> color == DefaultColor
  {
    var entry := if language.Some? && language.value in LanguageColors then Some(LanguageColors[language.value]) else None;
    OrDefault(entry, DefaultColor)
  }

  /** The default colour shows exactly for the languages the table does not list. */
  lemma LanguageColorDefaultIff(language: Option<string>)
    ensures LanguageColor(language) == DefaultColor <==> language.None? || language.value !in LanguageColors
  {
    assert DefaultColor !in LanguageColors.Values;
  }

  /** Two entries of the table, spelled out. */
  lemma LanguageColorExamples()
    ensures LanguageColor(Some("TypeScript")) == "#2b7489"
    ensures LanguageColor(Some("Dockerfile")) == "#384d54"
    ensures LanguageColor(Some("typescript")) == DefaultColor
    ensures LanguageColor(None) == DefaultColor
  {
  }

  /** `(index % 5) + 1`: the slot the script computes, cycling through five. */
  function ImageIndex(index: nat): (r: nat)
    ensures 1 <= r <= 5
  {
    (index % 5) + 1
  }

  /** The computed slot repeats every five cards, and the first five cards get all five values. */
  lemma ImageIndexPeriodic(index: nat)
    ensures ImageIndex(index + 5) == ImageIndex(index)
    ensures index < 5 ==> ImageIndex(index) == index + 1
  {
  }

  /** The values `createProjectCard` computes for a card. `imageIndex` is computed but the
      markup does not use it: every card shows the same fixed picture. */
  datatype CardModel = CardModel(
    name: string,
    color: string,
    languageLabel: string,
    description: string,
    imageIndex: nat,
    stars: nat,
    forks: nat,
    href: string)

  function CreateProjectCard(p: Repo, index: nat): (c: CardModel)
    ensures c.color == LanguageColor(p.language)
    ensures p.description.Some? && p.description.value != "" ==> c.description == p.description.value
    ensures p.description.None? || p.description.value == "" ==> c.description == "No description available"
    ensures p.language.Some? && p.language.value != "" ==> c.languageLabel == p.language.value
    ensures p.language.None? || p.language.value == "" ==> c.languageLabel == "Unknown"
    ensures c.imageIndex == ImageIndex(index) && 1 <= c.imageIndex <= 5
    ensures c.name == p.name && c.stars == p.stargazersCount && c.forks == p.forksCount && c.href == p.htmlUrl
  {
    CardModel(p.name, LanguageColor(p.language), OrDefault(p.language, "Unknown"),
              OrDefault(p.description, "No description available"), ImageIndex(index),
              p.stargazersCount, p.forksCount, p.htmlUrl)
  }

  /** The card five positions later gets the same slot, and the first five cards get slots 1 to 5. */
  lemma CardSlotCycle(p: Repo, q: Repo, index: nat)
    ensures CreateProjectCard(q, index + 5).imageIndex == CreateProjectCard(p, index).imageIndex
    ensures index < 5 ==> CreateProjectCard(p, index).imageIndex == index + 1
  {
    ImageIndexPeriodic(index);
  }

  /** The six records `displayFallbackProjects` shows. */
  function FallbackProjects(): (r: seq<Repo>)
    ensures |r| == 6
    ensures forall i :: 0 <= i < |r| ==> r[i].htmlUrl == "#" && r[i].description.Some? && r[i].language.Some?
  {
    [Fallback1, Fallback2, Fallback3, Fallback4, Fallback5, Fallback6]
  }

  const Fallback1 := Repo("3D Portfolio Website",
    Some("Interactive portfolio with Three.js animations and modern design"), Some("JavaScript"), 42, 15, "#")
  const Fallback2 := Repo("React Dashboard",
    Some("Full-stack dashboard application with real-time data visualization"), Some("TypeScript"), 128, 34, "#")
  const Fallback3 := Repo("API Microservices",
    Some("Scalable microservices architecture with Docker and Kubernetes"), Some("Python"), 89, 23, "#")
  const Fallback4 := Repo("Mobile App Framework",
    Some("Cross-platform mobile development framework with native performance"), Some("Dart"), 156, 41, "#")
  const Fallback5 := Repo("Machine Learning Toolkit",
    Some("Python toolkit for data science and machine learning workflows"), Some("Python"), 203, 67, "#")
  const Fallback6 := Repo("DevOps Automation",
    Some("CI/CD pipeline automation and infrastructure as code"), Some("Go"), 74, 18, "#")

  /** The grid holds one card per project, in order, each built from its position. */
  ghost predicate Shows(grid: seq<CardModel>, projects: seq<Repo>)
  {
    |grid| == |projects| && forall k :: 0 <= k < |projects| ==> grid[k] == CreateProjectCard(projects[k], k)
  }

  /** The project part of `PortfolioApp`. `gridPresent` stands for whether the page has
      an element with id `projects-grid`; `grid` for the cards inside it. */
  class PortfolioApp {
    const gridPresent: bool
    var projects: seq<Repo>
    var grid: seq<CardModel>

    constructor (gridPresent: bool)
      ensures this.gridPresent == gridPresent && projects == [] && grid == []
    {
      this.gridPresent := gridPresent;
      projects := [];
      grid := [];
    }

    /** `displayProjects`: clears the grid and appends a card per project. */
    method DisplayProjects()
      modifies this`grid
      ensures gridPresent ==> Shows(grid, projects)
      ensures !gridPresent ==> grid == old(grid)
    {
      if !gridPresent {
        return;
      }
      grid := [];
      var index := 0;
      while index < |projects|
        invariant 0 <= index <= |projects|
        invariant |grid| == index
        invariant forall k :: 0 <= k < index ==> grid[k] == CreateProjectCard(projects[k], k)
      {
        grid := grid + [CreateProjectCard(projects[index], index)];
        index := index + 1;
      }
    }

    /** `displayFallbackProjects`: without a grid it returns before touching `projects`. */
    method DisplayFallbackProjects()
      modifies this`projects, this`grid
      ensures gridPresent ==> projects == FallbackProjects() && Shows(grid, projects)
      ensures !gridPresent ==> projects == old(projects) && grid == old(grid)
    {
      if !gridPresent {
        return;
      }
      projects := FallbackProjects();
      DisplayProjects();
    }

    /** `loadGitHubProjects`: a response that is not ok throws, and every exception
        lands in the fallback path. */
    method LoadGitHubProjects(response: FetchOutcome<seq<Repo>>)
      modifies this`projects, this`grid
      ensures response.Ok? ==> projects == response.data
      ensures response.Ok? && gridPresent ==> Shows(grid, projects)
      ensures !response.Ok? && gridPresent ==> projects == FallbackProjects() && Shows(grid, projects)
      ensures !gridPresent ==> grid == old(grid)
      ensures !response.Ok? && !gridPresent ==> projects == old(projects)
    {
      match response {
        case Ok(data) =>
          projects := data;
          DisplayProjects();
        case NotOk =>
          DisplayFallbackProjects();
        case Threw =>
          DisplayFallbackProjects();
      }
    }
  }
}
