/** The fixed top bar (components/navigation.tsx): the menu, the section tracker and
    the highlighting of the current section. */
module Nav {
  import opened Common

  datatype Link = Link(name: string, href: string)

  const NavigationItems: seq<Link> :=
    [Link("Home", "#home"), Link("About", "#about"), Link("Projects", "#projects"), Link("Skills", "#skills")]

  const SocialLinks: seq<Link> :=
    [ Link("Discord", "https://discord.com/users/321288032110116869"),
      Link("GitHub", "https://github.com/axy1rrfc"),
      Link("LinkedIn", "https://www.linkedin.com/in/alex-yu-n44/") ]

  /** The sections the scroll handler looks for, in the order it tries them. */
  const Sections: seq<string> := ["home", "about", "projects", "skills"]

  /** How far below the top of the window the tracked position lies. */
  const ScrollOffset := 100

  /** The `offsetTop` and `offsetHeight` of a section element. */
  datatype Box = Box(offsetTop: int, offsetHeight: int)

  /** `elements` maps a section id to its element; an id missing from it has no element
      (`getElementById` gives `null`). A section is found when its element exists and its
      interval `[offsetTop, offsetTop + offsetHeight)` holds the position. */
  predicate Found(elements: map<string, Box>, section: string, pos: int)
  {
    section in elements && elements[section].offsetTop <= pos < elements[section].offsetTop + elements[section].offsetHeight
  }

  /** The first found section, trying them in order. */
  function FirstFound(sections: seq<string>, elements: map<string, Box>, pos: int): Option<string>
  {
    if sections == [] then None
    else if Found(elements, sections[0], pos) then Some(sections[0])
    else FirstFound(sections[1..], elements, pos)
  }

  /** FirstFound gives the earliest section that is found, and nothing only when none is. */
  lemma {:induction false} FirstFoundSpec(sections: seq<string>, elements: map<string, Box>, pos: int)
    ensures FirstFound(sections, elements, pos).None?
        <==> forall i :: 0 <= i < |sections| ==> !Found(elements, sections[i], pos)
    ensures FirstFound(sections, elements, pos).Some? ==>
      exists i :: 0 <= i < |sections| && sections[i] == FirstFound(sections, elements, pos).value
        && Found(elements, sections[i], pos)
        && forall j :: 0 <= j < i ==> !Found(elements, sections[j], pos)
  {
    if sections != [] && !Found(elements, sections[0], pos) {
      FirstFoundSpec(sections[1..], elements, pos);
      var r := FirstFound(sections, elements, pos);
      if r.Some? {
        var i :| 0 <= i < |sections[1..]| && sections[1..][i] == r.value
          && Found(elements, sections[1..][i], pos)
          && forall j :: 0 <= j < i ==> !Found(elements, sections[1..][j], pos);
        assert sections[i + 1] == sections[1..][i];
        forall j | 0 <= j < i + 1
          ensures !Found(elements, sections[j], pos)
        {
          if j > 0 {
            assert sections[j] == sections[1..][j - 1];
          }
        }
      } else {
        forall i | 0 <= i < |sections|
          ensures !Found(elements, sections[i], pos)
        {
          if i > 0 {
            assert sections[i] == sections[1..][i - 1];
          }
        }
      }
    }
  }

  /** The active section after a scroll event: the first section found at
      `scrollY + 100`, or the current one when none is. */
  function ActiveAfterScroll(current: string, elements: map<string, Box>, scrollY: int): string
  {
    match FirstFound(Sections, elements, scrollY + ScrollOffset)
    case Some(section) => section
    case None => current
  }

  /** The active section after a scroll is one of the four listed sections or the previous value. */
  lemma ActiveAfterScrollRange(current: string, elements: map<string, Box>, scrollY: int)
    ensures ActiveAfterScroll(current, elements, scrollY) in Sections + [current]
    ensures ActiveAfterScroll(current, elements, scrollY) != current
        ==> Found(elements, ActiveAfterScroll(current, elements, scrollY), scrollY + ScrollOffset)
  {
    FirstFoundSpec(Sections, elements, scrollY + ScrollOffset);
  }

  /** `s.slice(1)`. */
  function DropFirst(s: string): string
  {
    if |s| == 0 then "" else s[1..]
  }

  /** A menu item is highlighted when the active section is its `href` without the `#`. */
  predicate IsActive(activeSection: string, href: string)
  {
    activeSection == DropFirst(href)
  }

  /** Menu item i is highlighted exactly when section i is active, so at most one item is. */
  lemma ActiveItem(activeSection: string, i: int)
    requires 0 <= i < |NavigationItems|
    ensures IsActive(activeSection, NavigationItems[i].href) <==> activeSection == Sections[i]
    ensures IsActive(activeSection, NavigationItems[i].href) ==>
      forall j :: 0 <= j < |NavigationItems| && j != i ==> !IsActive(activeSection, NavigationItems[j].href)
  {
  }

  /** Every social link but the last carries the right-hand border. */
  predicate HasSeparator(index: int, count: int)
  {
    index != count - 1
  }

  lemma SocialSeparators()
    ensures HasSeparator(0, |SocialLinks|) && HasSeparator(1, |SocialLinks|)
    ensures !HasSeparator(2, |SocialLinks|) && |SocialLinks| == 3
  {
  }

  /** The state hooks of `Navigation`. */
  class Navigation {
    var isOpen: bool
    var activeSection: string

    constructor ()
      ensures !isOpen && activeSection == "home"
    {
      isOpen := false;
      activeSection := "home";
    }

    /** The menu button. */
    method ToggleMenu()
      modifies this`isOpen
      ensures isOpen == !old(isOpen)
    {
      isOpen := !isOpen;
    }

    /** `scrollToSection`: closes the menu; the scrolling itself is not modelled. */
    method ScrollToSection(href: string)
      modifies this`isOpen
      ensures !isOpen
    {
      isOpen := false;
    }

    /** `handleScroll`: tries the sections in order and stops at the first one found. */
    method HandleScroll(scrollY: int, elements: map<string, Box>)
      modifies this`activeSection
      ensures activeSection == ActiveAfterScroll(old(activeSection), elements, scrollY)
    {
      var sections := Sections;
      var scrollPosition := scrollY + ScrollOffset;
      for i := 0 to |sections|
        invariant FirstFound(sections[i..], elements, scrollPosition) == FirstFound(sections, elements, scrollPosition)
        invariant activeSection == old(activeSection)
      {
        var section := sections[i];
        if section in elements {
          var element := elements[section];
          if scrollPosition >= element.offsetTop && scrollPosition < element.offsetTop + element.offsetHeight {
            activeSection := section;
            break;
          }
        }
        assert sections[i..][1..] == sections[i + 1..];
      }
    }
  }
}
