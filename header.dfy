/** The site header (src/components/Header.tsx): active-link matching, when
    the header is visible, and the menu and search toggles. */
module Header {
  import opened Text
  import ScrollDirection
  import Search

  /** `p.replace(/\/$/, '') || '/'`: one trailing slash dropped, and the
      empty result read as the root. The result is never empty and differs
      from `p` at most by that one slash. */
  function Normalize(p: string): (r: string)
    ensures r != []
    ensures r == p || r + "/" == p || (r == "/" && (p == [] || p == "/"))
    ensures EndsWith(p, "/") && |p| > 1 ==> r + "/" == p
    ensures !EndsWith(p, "/") && p != [] ==> r == p
  {
    var stripped := if |p| > 0 && p[|p| - 1] == '/' then p[..|p| - 1] else p;
    if stripped == [] then "/" else stripped
  }

  /** A link is active when its `href` names the current page, trailing
      slash or not. */
  predicate IsActive(pathname: string, href: string)
  {
    Normalize(pathname) == Normalize(href)
  }

  /** With or without a trailing slash, a path names the same page. */
  lemma TrailingSlashIgnored(p: string)
    requires !EndsWith(p, "/")
    ensures Normalize(p + "/") == Normalize(p)
  {
    assert (p + "/")[..|p|] == p;
  }

  lemma RootIsRoot()
    ensures Normalize("/") == "/" && Normalize([]) == "/"
  {
  }

  datatype NavLink = NavLink(href: string, caption: string)

  /** The four entries of the navigation menu, in order. */
  const NavLinks: seq<NavLink> := [
    NavLink("/", "Home"),
    NavLink("/projects", "Projects"),
    NavLink("/writeups", "CTF WriteUps"),
    NavLink("/about", "About Me")
  ]

  /** Each menu entry is already in normal form. */
  lemma NavLinksNormal()
    ensures forall i :: 0 <= i < |NavLinks| ==> Normalize(NavLinks[i].href) == NavLinks[i].href
  {
    forall i | 0 <= i < |NavLinks| ensures Normalize(NavLinks[i].href) == NavLinks[i].href {
      var h := NavLinks[i].href;
      if i == 0 {
        assert h == "/";
      } else {
        assert |h| > 1 && h[|h| - 1] != '/';
      }
    }
  }

  /** The menu entries point to four different pages. */
  lemma NavHrefsDistinct()
    ensures forall i, j :: 0 <= i < j < |NavLinks| ==> NavLinks[i].href != NavLinks[j].href
  {
    assert |NavLinks[0].href| == 1 && |NavLinks[1].href| == 9;
    assert |NavLinks[2].href| == 9 && |NavLinks[3].href| == 6;
    assert NavLinks[1].href[1] == 'p' && NavLinks[2].href[1] == 'w';
  }

  /** Whatever the page, at most one of the menu entries is marked active. */
  lemma AtMostOneActive(pathname: string, i: int, j: int)
    requires 0 <= i < |NavLinks| && 0 <= j < |NavLinks|
    requires IsActive(pathname, NavLinks[i].href) && IsActive(pathname, NavLinks[j].href)
    ensures i == j
  {
    NavLinksNormal();
    NavHrefsDistinct();
    assert NavLinks[i].href == Normalize(pathname) == NavLinks[j].href;
  }

  /** The header is on screen (`translate-y-0`) while the menu is open and
      otherwise unless the page was last scrolled down. */
  function HeaderShown(isMenuOpen: bool, dir: ScrollDirection.Dir): (shown: bool)
    ensures shown <==> isMenuOpen || dir == ScrollDirection.Up
  {
    if isMenuOpen then true else dir != ScrollDirection.Down
  }

  /** The header's component state; `bodyOverflow` is this component's
      writes to `document.body.style.overflow`, made by its effect after
      every change of `isMenuOpen`. */
  class Header {
    var isMenuOpen: bool
    var isSearchOpen: bool
    var bodyOverflow: string
    const scroll: ScrollDirection.Tracker

    /** The page scroll is locked exactly while the menu is open. */
    ghost predicate Valid()
      reads this
    {
      bodyOverflow == if isMenuOpen then "hidden" else []
    }

    function Shown(): bool
      reads this, scroll
    {
      HeaderShown(isMenuOpen, scroll.dir)
    }

    constructor (scroll: ScrollDirection.Tracker)
      ensures this.scroll == scroll
      ensures !isMenuOpen && !isSearchOpen
      ensures Valid()
    {
      this.scroll := scroll;
      isMenuOpen, isSearchOpen := false, false;
      bodyOverflow := [];
    }

    /** The effect on `isMenuOpen`. */
    method OverflowEffect()
      modifies this`bodyOverflow
      ensures Valid()
    {
      bodyOverflow := if isMenuOpen then "hidden" else [];
    }

    /** The menu button. */
    method ToggleMenu()
      modifies this
      ensures isMenuOpen == !old(isMenuOpen) && isSearchOpen == old(isSearchOpen)
      ensures Valid()
    {
      isMenuOpen := !isMenuOpen;
      OverflowEffect();
    }

    /** A click on the overlay or on a menu entry, and a change of
        `pathname`, all close the menu. */
    method CloseMenu()
      modifies this
      ensures !isMenuOpen && isSearchOpen == old(isSearchOpen)
      ensures Valid()
    {
      isMenuOpen := false;
      OverflowEffect();
    }

    /** The search button opens the modal and closes the menu. */
    method OpenSearch()
      modifies this
      ensures isSearchOpen && !isMenuOpen
      ensures Valid()
    {
      isSearchOpen := true;
      isMenuOpen := false;
      OverflowEffect();
    }

    /** The modal's `onClose`. */
    method CloseSearch()
      modifies this`isSearchOpen
      ensures !isSearchOpen
    {
      isSearchOpen := false;
    }

    /** A key press while the search modal is mounted: its Escape
        handler calls `onClose` when the key is Escape and the modal is
        open. Nothing but the search flag can change. */
    method EscapeKey(key: string)
      modifies this`isSearchOpen
      ensures isSearchOpen == Search.AfterKey(old(isSearchOpen), key)
      ensures isSearchOpen <==> old(isSearchOpen) && key != "Escape"
    {
      if Search.EscapeCloses(key, isSearchOpen) {
        CloseSearch();
      }
    }

    /** The mouse entering the header shows it again. */
    method MouseEnter()
      modifies scroll`dir
      ensures scroll.dir == ScrollDirection.Up
      ensures Shown()
    {
      scroll.SetDir(ScrollDirection.Up);
    }
  }
}
