/** The deck's collapsible sections as a keyed store of open/closed flags.
    Each section holds one boolean seeded from its `defaultOpen` prop and
    flipped by its header button; sections never affect one another. */
module Disclosure {

  type PanelId = string
  type Panels = map<PanelId, bool>

  /** The collapsible sections of the deck, in page order. */
  const CollapsibleIds: seq<PanelId> :=
    ["opportunity", "product-options", "revenue", "ie-flywheel", "ie-facts", "moo-facts", "next-steps"]

  /** The section that hosts the revenue calculator. */
  const RevenueId: PanelId := "revenue"

  /** The `defaultOpen` each section is given: only the opportunity section
      passes `true`; the others take the prop's default, `false`. */
  function DefaultOpen(id: PanelId): (open: bool)
    ensures open ==> id in CollapsibleIds && id != RevenueId
  {
    id == "opportunity"
  }

  function InitialPanels(): (panels: Panels)
    ensures forall id :: id in panels <==> id in CollapsibleIds
    ensures forall id :: id in panels ==> panels[id] == DefaultOpen(id)
  {
    map id | id in CollapsibleIds :: DefaultOpen(id)
  }

  /** A section's header button: flips that section and nothing else. */
  function Toggle(panels: Panels, id: PanelId): (r: Panels)
    requires id in panels
    ensures r.Keys == panels.Keys
    ensures r[id] == !panels[id]
    ensures forall other :: other in panels && other != id ==> r[other] == panels[other]
  {
    panels[id := !panels[id]]
  }

  lemma ToggleTwice(panels: Panels, id: PanelId)
    requires id in panels
    ensures Toggle(Toggle(panels, id), id) == panels
  {
  }

  /** Toggles of different sections commute: neither depends on the other. */
  lemma TogglesCommute(panels: Panels, a: PanelId, b: PanelId)
    requires a in panels && b in panels
    ensures Toggle(Toggle(panels, a), b) == Toggle(Toggle(panels, b), a)
  {
  }

  /** Applies header clicks in order. */
  function ToggleAll(panels: Panels, clicks: seq<PanelId>): (r: Panels)
    requires forall i :: 0 <= i < |clicks| ==> clicks[i] in panels
    ensures r.Keys == panels.Keys
  {
    if clicks == [] then panels else ToggleAll(Toggle(panels, clicks[0]), clicks[1..])
  }

  /** How many of the clicks hit section `id`. */
  function Count(clicks: seq<PanelId>, id: PanelId): nat
  {
    if clicks == [] then 0 else (if clicks[0] == id then 1 else 0) + Count(clicks[1..], id)
  }

  /** After any sequence of header clicks a section is open exactly when its
      starting state differs from the parity of the clicks on it: clicks on
      other sections never matter. */
  lemma {:induction false} ToggleAllParity(panels: Panels, clicks: seq<PanelId>, id: PanelId)
    requires forall i :: 0 <= i < |clicks| ==> clicks[i] in panels
    requires id in panels
    ensures ToggleAll(panels, clicks)[id] == (panels[id] != (Count(clicks, id) % 2 == 1))
  {
    if clicks != [] {
      var next := Toggle(panels, clicks[0]);
      ToggleAllParity(next, clicks[1..], id);
    }
  }
}
