/**
  The mobile menu of js/main.js: the toggle button flips the menu's
  `hidden` class, and a click on an in-page anchor closes an open menu.
 */
module Menu {

  class MobileMenu {
    const togglePresent: bool   // the page has `menu-toggle`
    const menuPresent: bool     // the page has `mobile-menu`
    var hidden: bool            // the menu carries the `hidden` class

    constructor (togglePresent: bool, menuPresent: bool, hidden: bool)
      ensures this.togglePresent == togglePresent && this.menuPresent == menuPresent && this.hidden == hidden
    {
      this.togglePresent, this.menuPresent, this.hidden := togglePresent, menuPresent, hidden;
    }

    /** The toggle's click listener exists only when both elements do; it
        flips the flag, so two clicks restore it. */
    method ToggleClick()
      modifies this
      ensures togglePresent && menuPresent ==> hidden == !old(hidden)
      ensures !(togglePresent && menuPresent) ==> hidden == old(hidden)
    {
      if togglePresent && menuPresent {
        hidden := !hidden;
      }
    }

    /** An anchor click hides the menu if it was open and leaves a closed
        menu closed. */
    method AnchorClick()
      modifies this
      ensures menuPresent ==> hidden
      ensures !menuPresent ==> hidden == old(hidden)
    {
      if menuPresent && !hidden {
        hidden := true;
      }
    }
  }
}
