/** The deck's "Navigate Sections" dropdown as a state machine over one
    boolean, driven by three kinds of event: a click on either of the two
    buttons that toggle it, a click on a section entry, and a mousedown
    anywhere in the document. */
module Navigation {

  /** The navigation catalog, in menu order. */
  const SectionIds: seq<string> :=
    ["hero", "opportunity", "product-options", "revenue", "ie-flywheel", "ie-facts", "moo-facts", "next-steps"]

  /** The element ids the deck renders, which `getElementById` can find:
      every catalog entry has its anchor on the page. */
  const Anchors: set<string> := set i | 0 <= i < |SectionIds| :: SectionIds[i]

  datatype MenuEvent =
    | ToggleDropdown
    | ScrollToSection(id: string)
      /** A document mousedown; `refAttached` says the menu's container is
          mounted, `inside` that the target lies within it. */
    | MouseDown(refAttached: bool, inside: bool)

  /** Does the event force the menu closed? */
  predicate Closes(e: MenuEvent)
  {
    e.ScrollToSection? || (e.MouseDown? && e.refAttached && !e.inside)
  }

  /** The menu after one event: a toggle flips it, a closing event closes
      it, and any other mousedown leaves it alone. */
  function MenuStep(open: bool, e: MenuEvent): (r: bool)
    ensures r && !open ==> e.ToggleDropdown?
    ensures Closes(e) ==> !r
  {
    match e
    case ToggleDropdown => !open
    case ScrollToSection(_) => false
    case MouseDown(refAttached, inside) => if refAttached && !inside then false else open
  }

  /** Every event is a toggle, a closing event, or leaves the menu alone. */
  lemma MenuStepCases(open: bool, e: MenuEvent)
    ensures e.ToggleDropdown? ==> MenuStep(open, e) == !open
    ensures Closes(e) ==> !MenuStep(open, e)
    ensures !e.ToggleDropdown? && !Closes(e) ==> MenuStep(open, e) == open
  {
  }

  /** Only the toggle buttons can open the menu. */
  lemma OnlyToggleOpens(open: bool, e: MenuEvent)
    requires !open && MenuStep(open, e)
    ensures e.ToggleDropdown?
  {
  }

  function MenuRun(open: bool, events: seq<MenuEvent>): bool
    decreases events
  {
    if events == [] then open else MenuRun(MenuStep(open, events[0]), events[1..])
  }

  /** The browser delivers mousedown before click. The hero's "Explore the
      Solution" button lies outside the menu's container, so pressing it
      first closes the menu and then toggles it: the menu ends open whatever
      its state before. */
  lemma HeroButtonAlwaysOpens(open: bool)
    ensures MenuRun(open, [MouseDown(true, false), ToggleDropdown])
  {
    assert [MouseDown(true, false), ToggleDropdown][1..] == [ToggleDropdown];
  }

  /** The header button lies inside the container, so pressing it flips the menu. */
  lemma HeaderButtonFlips(open: bool)
    ensures MenuRun(open, [MouseDown(true, true), ToggleDropdown]) == !open
  {
    assert [MouseDown(true, true), ToggleDropdown][1..] == [ToggleDropdown];
  }

  function Toggles(events: seq<MenuEvent>): nat
  {
    if events == [] then 0 else (if events[0].ToggleDropdown? then 1 else 0) + Toggles(events[1..])
  }

  /** With no closing event, the menu ends open exactly when its starting
      state differs from the parity of the toggles. */
  lemma {:induction false} RunWithoutClosing(open: bool, events: seq<MenuEvent>)
    requires forall i :: 0 <= i < |events| ==> !Closes(events[i])
    ensures MenuRun(open, events) == (open != (Toggles(events) % 2 == 1))
    decreases events
  {
    if events != [] {
      MenuStepCases(open, events[0]);
      RunWithoutClosing(MenuStep(open, events[0]), events[1..]);
    }
  }

  lemma {:induction false} MenuRunAppend(open: bool, a: seq<MenuEvent>, b: seq<MenuEvent>)
    ensures MenuRun(open, a + b) == MenuRun(MenuRun(open, a), b)
    decreases a
  {
    if a == [] {
      assert a + b == b;
    } else {
      assert (a + b)[1..] == a[1..] + b;
      MenuRunAppend(MenuStep(open, a[0]), a[1..], b);
    }
  }

  /** After a closing event at position `k` and no later one, the menu is
      open exactly when an odd number of toggles followed it. */
  lemma RunAfterLastClose(open: bool, events: seq<MenuEvent>, k: nat)
    requires k < |events| && Closes(events[k])
    requires forall i :: k < i < |events| ==> !Closes(events[i])
    ensures MenuRun(open, events) == (Toggles(events[k + 1..]) % 2 == 1)
  {
    assert events == events[..k + 1] + events[k + 1..];
    MenuRunAppend(open, events[..k + 1], events[k + 1..]);
    assert events[..k + 1] == events[..k] + [events[k]];
    MenuRunAppend(open, events[..k], [events[k]]);
    MenuStepCases(MenuRun(open, events[..k]), events[k]);
    RunWithoutClosing(false, events[k + 1..]);
  }
}
