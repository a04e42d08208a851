/**
 * The page header: a logo that leads to the start page, a menu that opens
 * and closes, and a scroll rule that hides the header while the reader
 * scrolls down the page and shows it again on the way up.
 */
module Header {

  /** One entry of the header's menu: the page it leads to and its label. */
  datatype MenuItem = MenuItem(id: string, text: string)

  const MENU_ITEMS: seq<MenuItem> := [
    MenuItem("about", "じょうずかんとは？"),
    MenuItem("start", "診断する"),
    MenuItem("encyclopedia", "愉快な仲間たちの動物集"),
    MenuItem("faq", "FAQ")
  ]

  /** The page the logo leads to. */
  const LOGO_TARGET := "start"

  /** How far down the page a scroll must reach before the header may hide. */
  const SCROLL_BUFFER := 60

  /** A menu entry is highlighted when it names the page on show. */
  predicate IsActiveItem(currentPage: string, i: int)
  {
    0 <= i < |MENU_ITEMS| && MENU_ITEMS[i].id == currentPage
  }

  /** The menu highlights at most one entry, whatever the page. */
  lemma AtMostOneActiveItem(currentPage: string, i: int, j: int)
    requires IsActiveItem(currentPage, i) && IsActiveItem(currentPage, j)
    ensures i == j
  {
  }

  class Header {
    var menuOpen: bool
    var isVisible: bool
    var lastScrollY: int

    /**
     * An open menu keeps the header on screen, and a hidden header was
     * hidden by a scroll past the buffer.
     */
    ghost predicate Valid()
      reads this
    {
      (menuOpen ==> isVisible) && (!isVisible ==> lastScrollY > SCROLL_BUFFER)
    }

    constructor()
      ensures Valid()
      ensures !menuOpen && isVisible && lastScrollY == 0
    {
      menuOpen := false;
      isVisible := true;
      lastScrollY := 0;
    }

    /**
     * A scroll event at offset `y`: ignored while the menu is open;
     * otherwise the header hides exactly when the page moved down and is
     * past the buffer, and `y` becomes the last offset seen.
     */
    method Scroll(y: int)
      requires Valid()
      modifies this
      ensures Valid()
      ensures menuOpen == old(menuOpen)
      ensures old(menuOpen) ==> isVisible == old(isVisible) && lastScrollY == old(lastScrollY)
      ensures !old(menuOpen) ==> lastScrollY == y
      ensures !old(menuOpen) ==> (!isVisible <==> y > old(lastScrollY) && y > SCROLL_BUFFER)
    {
      if menuOpen {
        return;
      }
      if y > lastScrollY && y > SCROLL_BUFFER {
        isVisible := false;
      } else {
        isVisible := true;
      }
      lastScrollY := y;
    }

    /** The menu button: flips the menu; opening it brings the header back. */
    method ToggleMenu()
      requires Valid()
      modifies this
      ensures Valid()
      ensures menuOpen == !old(menuOpen) && lastScrollY == old(lastScrollY)
      ensures isVisible == (menuOpen || old(isVisible))
    {
      menuOpen := !menuOpen;
      if menuOpen {
        isVisible := true;
      }
    }

    /** A click on the dimmed area around the menu closes it. */
    method CloseMenu()
      requires Valid()
      modifies this
      ensures Valid()
      ensures !menuOpen && isVisible == old(isVisible) && lastScrollY == old(lastScrollY)
    {
      menuOpen := false;
    }

    /** Choosing a menu entry leads to its page and closes the menu. */
    method ChooseMenuItem(i: nat) returns (page: string)
      requires Valid() && i < |MENU_ITEMS|
      modifies this
      ensures Valid()
      ensures page == MENU_ITEMS[i].id && IsActiveItem(page, i)
      ensures !menuOpen && isVisible == old(isVisible) && lastScrollY == old(lastScrollY)
    {
      page := MENU_ITEMS[i].id;
      menuOpen := false;
    }
  }
}
