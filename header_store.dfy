/**
 * The header's UI store: whether the mobile menu is open, whether the page
 * has been scrolled past the header, and which top-level link is active.
 * `HeaderState` is the store's value and its four actions as functions;
 * the class `HeaderStore` is the mutable store whose actions overwrite one
 * field each.
 */
module HeaderStore {

  datatype HeaderState = HeaderState(isMenuOpen: bool, isScrolled: bool, activeLink: string)
  {
    /** toggleMenu: flips the menu and nothing else. */
    function ToggleMenu(): (r: HeaderState)
      ensures r.isMenuOpen == !isMenuOpen
      ensures r.isScrolled == isScrolled && r.activeLink == activeLink
    {
      this.(isMenuOpen := !isMenuOpen)
    }

    /** closeMenu: the menu is closed afterwards, whatever it was. */
    function CloseMenu(): (r: HeaderState)
      ensures !r.isMenuOpen
      ensures r.isScrolled == isScrolled && r.activeLink == activeLink
    {
      this.(isMenuOpen := false)
    }

    /** setScrolled(value) */
    function SetScrolled(value: bool): (r: HeaderState)
      ensures r.isScrolled == value
      ensures r.isMenuOpen == isMenuOpen && r.activeLink == activeLink
    {
      this.(isScrolled := value)
    }

    /** setActiveLink(href) */
    function SetActiveLink(href: string): (r: HeaderState)
      ensures r.activeLink == href
      ensures r.isMenuOpen == isMenuOpen && r.isScrolled == isScrolled
    {
      this.(activeLink := href)
    }
  }

  /** The store as created: menu closed, not scrolled, home link active. */
  function Initial(): (s: HeaderState)
    ensures !s.isMenuOpen && !s.isScrolled && s.activeLink == "/"
  {
    HeaderState(false, false, "/")
  }

  lemma ToggleTwiceRestores(s: HeaderState)
    ensures s.ToggleMenu().ToggleMenu() == s
  {
  }

  lemma CloseMenuIdempotent(s: HeaderState)
    ensures s.CloseMenu().CloseMenu() == s.CloseMenu()
  {
  }

  /** Closing after a toggle is the same as closing. */
  lemma CloseMenuAbsorbsToggle(s: HeaderState)
    ensures s.ToggleMenu().CloseMenu() == s.CloseMenu()
  {
  }

  /** Each setter keeps only its last value. */
  lemma SettersKeepLastValue(s: HeaderState, a: bool, b: bool, h: string, k: string)
    ensures s.SetScrolled(a).SetScrolled(b) == s.SetScrolled(b)
    ensures s.SetActiveLink(h).SetActiveLink(k) == s.SetActiveLink(k)
  {
  }

  /** Actions on different fields commute. */
  lemma ActionsOnDifferentFieldsCommute(s: HeaderState, v: bool, h: string)
    ensures s.SetActiveLink(h).CloseMenu() == s.CloseMenu().SetActiveLink(h)
    ensures s.SetScrolled(v).ToggleMenu() == s.ToggleMenu().SetScrolled(v)
    ensures s.SetScrolled(v).SetActiveLink(h) == s.SetActiveLink(h).SetScrolled(v)
  {
  }

  class HeaderStore {
    var isMenuOpen: bool
    var isScrolled: bool
    var activeLink: string

    function State(): HeaderState
      reads this
    {
      HeaderState(isMenuOpen, isScrolled, activeLink)
    }

    constructor()
      ensures State() == Initial()
    {
      isMenuOpen := false;
      isScrolled := false;
      activeLink := "/";
    }

    method ToggleMenu()
      modifies this
      ensures State() == old(State()).ToggleMenu()
    {
      isMenuOpen := !isMenuOpen;
    }

    method CloseMenu()
      modifies this
      ensures State() == old(State()).CloseMenu()
    {
      isMenuOpen := false;
    }

    method SetScrolled(value: bool)
      modifies this
      ensures State() == old(State()).SetScrolled(value)
    {
      isScrolled := value;
    }

    method SetActiveLink(href: string)
      modifies this
      ensures State() == old(State()).SetActiveLink(href)
    {
      activeLink := href;
    }
  }
}
