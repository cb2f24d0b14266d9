/** The pitch deck shown once access is granted: its navigation dropdown,
    its collapsible sections, and the revenue calculator that lives inside
    the "revenue" section. A section renders its children only while open,
    so closing "revenue" unmounts the calculator and reopening it mounts a
    fresh one with default inputs. */
module Deck {
  import opened Disclosure
  import opened Navigation
  import opened Calculator

  class PitchDeck {
    var showDropdown: bool
    var panels: Panels
    /** The mounted calculator; present exactly while "revenue" is open. */
    var calculator: RevenueCalculator?
    /** The anchors `scrollIntoView` was requested for, oldest first. */
    var scrollRequests: seq<string>

    ghost predicate Valid()
      reads this, calculator
    {
      && panels.Keys == InitialPanels().Keys
      && RevenueId in panels
      && (calculator != null <==> panels[RevenueId])
      && (calculator != null ==> calculator.Valid())
    }

    /** The state a freshly mounted deck has: menu closed, every section at
        its default, so "revenue" is closed and no calculator is mounted. */
    ghost predicate Initial()
      reads this
    {
      !showDropdown && panels == InitialPanels() && calculator == null && scrollRequests == []
    }

    constructor ()
      ensures Valid() && Initial()
    {
      showDropdown := false;
      panels := InitialPanels();
      calculator := null;
      scrollRequests := [];
    }

    method ToggleDropdown()
      modifies this`showDropdown
      ensures showDropdown == MenuStep(old(showDropdown), MenuEvent.ToggleDropdown)
    {
      showDropdown := !showDropdown;
    }

    /** A click on a catalog entry: scroll to the anchor if the page has it,
        and close the menu whatever the id. The target section is not opened. */
    method ScrollToSection(id: string)
      modifies this`showDropdown, this`scrollRequests
      ensures scrollRequests == old(scrollRequests) + (if id in Anchors then [id] else [])
      ensures showDropdown == MenuStep(old(showDropdown), MenuEvent.ScrollToSection(id))
    {
      if id in Anchors {
        scrollRequests := scrollRequests + [id];
      }
      showDropdown := false;
    }

    /** The document-level mousedown listener. */
    method HandleClickOutside(refAttached: bool, inside: bool)
      modifies this`showDropdown
      ensures showDropdown == MenuStep(old(showDropdown), MouseDown(refAttached, inside))
    {
      if refAttached && !inside {
        showDropdown := false;
      }
    }

    /** A section's header button. */
    method TogglePanel(id: PanelId)
      requires Valid() && id in panels
      modifies this`panels, this`calculator
      ensures Valid()
      ensures panels == Toggle(old(panels), id)
      ensures id != RevenueId ==> calculator == old(calculator)
      ensures id == RevenueId && panels[id] ==> fresh(calculator) && calculator.Initial()
    {
      panels := Toggle(panels, id);
      if id == RevenueId {
        if panels[id] {
          calculator := new RevenueCalculator();
        } else {
          calculator := null;
        }
      }
    }
  }

  /** Whatever the user did in the calculator, closing and reopening the
      revenue section shows the default projections again. */
  method ReopenRevenueResets(deck: PitchDeck)
    requires deck.Valid() && deck.panels[RevenueId]
    modifies deck`panels, deck`calculator
    ensures deck.Valid() && deck.panels == old(deck.panels)
    ensures deck.calculator != null && deck.calculator.Initial()
  {
    deck.TogglePanel(RevenueId);
    deck.TogglePanel(RevenueId);
  }
}
