/**
 * Mobile navigation menu of main.js. The menu's `hidden` class is the
 * visibility flag; `fade-in-up` is added whenever the toggle reveals it.
 * A click runs the listeners it reaches: the one on the element clicked
 * (toggle or menu link), then the document-level one.
 */
module MobileMenu {

  /** Where a click lands, as the listeners distinguish it. */
  datatype Target =
    | OnToggle      // the toggle button or anything inside it
    | OnMenuLink    // an `a` element inside the menu
    | InMenu        // inside the menu, but not on a link
    | Outside       // neither in the toggle nor in the menu

  datatype MenuState = MenuState(hidden: bool, fadeInUp: bool)

  /** Does the document listener's test `!toggle.contains(t) && !menu.contains(t)` hold? */
  predicate IsOutside(t: Target) {
    t != OnToggle && t != OnMenuLink && t != InMenu
  }

  /** The state after one click: element listener first, then the document listener. */
  function AfterClick(s: MenuState, t: Target): MenuState {
    var s1 :=
      match t
      case OnToggle => MenuState(!s.hidden, s.fadeInUp || s.hidden)
      case OnMenuLink => s.(hidden := true)
      case _ => s;
    if IsOutside(t) then s1.(hidden := true) else s1
  }

  class Menu {
    var hidden: bool
    var fadeInUp: bool

    function State(): MenuState
      reads this
    {
      MenuState(hidden, fadeInUp)
    }

    constructor (hidden: bool)
      ensures State() == MenuState(hidden, false)
    {
      this.hidden := hidden;
      fadeInUp := false;
    }

    /** Dispatch of one click event to the listeners `initializeMobileMenu` installs. */
    method Click(t: Target)
      modifies this
      ensures State() == AfterClick(old(State()), t)
    {
      if t == OnToggle {
        hidden := !hidden;
        if !hidden {
          fadeInUp := true;
        }
      } else if t == OnMenuLink {
        hidden := true;
      }
      if IsOutside(t) {
        hidden := true;
      }
    }
  }

  /** A click on the toggle flips visibility; showing the menu adds the animation class. */
  lemma ToggleFlips(s: MenuState)
    ensures AfterClick(s, OnToggle).hidden == !s.hidden
    ensures !AfterClick(s, OnToggle).hidden ==> AfterClick(s, OnToggle).fadeInUp
    ensures AfterClick(AfterClick(s, OnToggle), OnToggle).hidden == s.hidden
  {
  }

  /** A click on a menu link or outside both elements always hides the menu, and doing it again changes nothing. */
  lemma ClosingClicks(s: MenuState, t: Target)
    requires t == OnMenuLink || t == Outside
    ensures AfterClick(s, t) == s.(hidden := true)
    ensures AfterClick(AfterClick(s, t), t) == AfterClick(s, t)
  {
  }

  /** A click inside the menu that is not on a link leaves everything as it was. */
  lemma InsideClickIsInert(s: MenuState)
    ensures AfterClick(s, InMenu) == s
  {
  }

  /** Only a toggle click can reveal the menu. */
  lemma OnlyToggleShows(s: MenuState, t: Target)
    requires s.hidden && !AfterClick(s, t).hidden
    ensures t == OnToggle
  {
  }
}
