/**
 * The `Navbar` component: its background once the page is scrolled, the
 * scroll-spy that marks the section under the bar, the link styles, and the
 * mobile menu.
 *
 * The page's elements are given as a map from element id to its bounding
 * box; an id that is not in the map has no element on the page.
 */
module Navbar {

  /** The vertical extent of an element's bounding box, in viewport pixels. */
  datatype Rect = Rect(top: int, bottom: int)

  type Dom = map<string, Rect>

  /** The sections the spy looks at, in page order. */
  const Sections: seq<string> := ["how-it-works", "features", "partners", "contact"]

  /** The viewport line a section must straddle to be the active one. */
  const SpyLine := 150
  /** Past this scroll position the bar gets its solid background. */
  const ScrolledThreshold := 10

  const LinkBase := "text-sm font-medium transition-colors "
  const LinkActive := "text-orange-500 font-bold"
  const LinkInactive := "text-slate-600 hover:text-orange-500"

  /** The element `id` exists and its box straddles the spy line. */
  predicate Straddles(dom: Dom, id: string)
  {
    id in dom && dom[id].top <= SpyLine && dom[id].bottom >= SpyLine
  }

  /** `current` after the scroll-spy loop has looked at the first `n` sections. */
  function Spy(dom: Dom, n: nat): (r: string)
    requires n <= |Sections|
    ensures r == "" || r in Sections[..n]
    ensures r == "" <==> forall i :: 0 <= i < n ==> !Straddles(dom, Sections[i])
    ensures r != "" ==> Straddles(dom, r)
    ensures forall i, j :: 0 <= i < j < n && r == Sections[i] ==> !Straddles(dom, Sections[j])
  {
    if n == 0 then ""
    else if Straddles(dom, Sections[n - 1]) then Sections[n - 1]
    else Spy(dom, n - 1)
  }

  /** The section the bar marks as active. */
  function ActiveSection(dom: Dom): (r: string)
    ensures r == "" || r in Sections
    ensures r != "" ==> Straddles(dom, r)
    ensures r == "" <==> forall i :: 0 <= i < |Sections| ==> !Straddles(dom, Sections[i])
  {
    Spy(dom, |Sections|)
  }

  /** When several sections straddle the line, the one furthest down the page wins. */
  lemma LastStraddlingWins(dom: Dom, k: nat)
    requires k < |Sections| && Straddles(dom, Sections[k])
    requires forall j :: k < j < |Sections| ==> !Straddles(dom, Sections[j])
    ensures ActiveSection(dom) == Sections[k]
  {
  }

  /** A missing element never becomes active, whatever the others do. */
  lemma MissingSectionNeverActive(dom: Dom, id: string)
    requires id in Sections && id !in dom
    ensures ActiveSection(dom) != id
  {
  }

  /** The class of the link to `section`: the shared base, then the active or the inactive style. */
  function LinkClass(activeSection: string, section: string): (r: string)
    ensures LinkBase <= r
    ensures r == LinkBase + LinkActive <==> activeSection == section
    ensures r == LinkBase + LinkInactive <==> activeSection != section
  {
    var r := if activeSection == section then LinkBase + LinkActive else LinkBase + LinkInactive;
    assert |LinkBase + LinkActive| != |LinkBase + LinkInactive|;
    r
  }

  /** At most one of the four links carries the active style. */
  lemma AtMostOneActiveLink(dom: Dom, i: nat, j: nat)
    requires i < j < |Sections|
    ensures LinkClass(ActiveSection(dom), Sections[i]) != LinkBase + LinkActive ||
            LinkClass(ActiveSection(dom), Sections[j]) != LinkBase + LinkActive
  {
  }

  /** The state of the navigation bar. */
  class NavbarState {
    var isScrolled: bool
    var mobileMenuOpen: bool
    var activeSection: string

    constructor ()
      ensures !isScrolled && !mobileMenuOpen && activeSection == ""
    {
      isScrolled := false;
      mobileMenuOpen := false;
      activeSection := "";
    }

    /** The window's scroll listener, fed `scrollY` and the sections' boxes. */
    method HandleScroll(scrollY: int, dom: Dom)
      modifies this
      ensures isScrolled == (scrollY > ScrolledThreshold)
      ensures activeSection == ActiveSection(dom)
      ensures mobileMenuOpen == old(mobileMenuOpen)
    {
      isScrolled := scrollY > ScrolledThreshold;
      var current := "";
      for i := 0 to |Sections|
        invariant current == Spy(dom, i)
      {
        var section := Sections[i];
        if section in dom {
          var rect := dom[section];
          if rect.top <= SpyLine && rect.bottom >= SpyLine {
            current := section;
          }
        }
      }
      activeSection := current;
    }

    /** A link click: the menu closes only when the target section exists. */
    method ScrollToSection(id: string, dom: Dom)
      modifies this
      ensures id in dom ==> !mobileMenuOpen
      ensures id !in dom ==> mobileMenuOpen == old(mobileMenuOpen)
      ensures isScrolled == old(isScrolled) && activeSection == old(activeSection)
    {
      if id in dom {
        mobileMenuOpen := false;
      }
    }

    /** The mobile menu button. */
    method ToggleMobileMenu()
      modifies this
      ensures mobileMenuOpen == !old(mobileMenuOpen)
      ensures isScrolled == old(isScrolled) && activeSection == old(activeSection)
    {
      mobileMenuOpen := !mobileMenuOpen;
    }

    /** The class of the link to `section` under the current active section. */
    function LinkClassFor(section: string): (r: string)
      reads this
      ensures LinkBase <= r
      ensures r == LinkBase + LinkActive <==> activeSection == section
    {
      LinkClass(activeSection, section)
    }
  }
}
