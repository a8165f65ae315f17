/** What a project card shows (components/project-card.tsx). */
module Card {
  import opened Common
  import opened Types

  const NoDescription := "No description available"
  const UnknownLanguage := "Unknown"

  /** How many topic chips a card shows before the `+N` badge. */
  const MaxChips := 3

  /** The values the card renders. `showTopics` says whether the topic row exists at all;
      `overflow` is the number on the `+N` badge, when there is a badge. */
  datatype CardView = CardView(
    name: string,
    languageLabel: string,
    description: string,
    showTopics: bool,
    chips: seq<string>,
    overflow: Option<nat>,
    stars: nat,
    forks: nat,
    href: string)

  /** `project.topics || []`. */
  function Topics(p: Project): seq<string>
  {
    match p.topics
    case Some(t) => t
    case None => []
  }

  /** `a.slice(0, n)` for a non-negative `n`. */
  function Take(a: seq<string>, n: nat): seq<string>
  {
    if |a| <= n then a else a[..n]
  }

  function ProjectCard(p: Project): (v: CardView)
    ensures v.languageLabel == (if p.language.Some? && p.language.value != "" then p.language.value else UnknownLanguage)
    ensures v.description == (if p.description.Some? && p.description.value != "" then p.description.value else NoDescription)
    ensures v.showTopics <==> |Topics(p)| > 0
    ensures |v.chips| == (if |Topics(p)| < MaxChips then |Topics(p)| else MaxChips)
    ensures forall i :: 0 <= i < |v.chips| ==> v.chips[i] == Topics(p)[i]
    ensures v.overflow.Some? <==> |Topics(p)| > MaxChips
    ensures v.overflow.Some? ==> v.overflow.value == |Topics(p)| - MaxChips
    ensures |v.chips| + (if v.overflow.Some? then v.overflow.value else 0) == |Topics(p)|
    ensures v.name == p.name && v.stars == p.stargazersCount && v.forks == p.forksCount && v.href == p.htmlUrl
  {
    var topics := Topics(p);
    CardView(
      p.name,
      OrDefault(p.language, UnknownLanguage),
      OrDefault(p.description, NoDescription),
      |topics| > 0,
      if |topics| > 0 then Take(topics, MaxChips) else [],
      if |topics| > 0 && |topics| > MaxChips then Some(|topics| - MaxChips) else None,
      p.stargazersCount,
      p.forksCount,
      p.htmlUrl)
  }
}
