# Verified model of the Up&Up × Mutual of Omaha pitch deck core

The repository is a single React page (`src/App.jsx`): an invite-code gated
presentation for Target. Almost all of it is static markup. This project
models the parts with state or computed values:

- **Session gate** (module `Session`). `LoginGate` upper-cases the typed code
  and compares it with `UPANDUP2025`. On a match it writes `granted` under the
  `target_access` key of browser-local storage and calls its success
  callback. On a mismatch it shows `Invalid invite code` and starts the shake
  animation. Typing clears the error. `App` sets `isAuthenticated` at
  start-up from whether storage holds exactly `granted`. Logout removes the
  key and clears the flag. The flag also chooses which component is mounted,
  the gate or the deck. Storage is a `map<string, string>` field of `App`.
  A reload is a new `App` built from that map.
- **Collapsible sections** (module `Disclosure`, class `Deck.PitchDeck`).
  Each section holds one flag, seeded from `defaultOpen` and flipped by its
  header. Only "opportunity" starts open. Here they are a map from section id
  to flag.
- **Navigation dropdown** (module `Navigation`, class `Deck.PitchDeck`). The
  two toggle buttons flip the menu. Choosing a section asks for a scroll and
  closes the menu. A document mousedown outside the menu's container closes
  it.
- **Revenue calculator** (modules `Projection` and `Calculator`). There are
  two independent pipelines in exact reals. Referral: scans = boxes × scan%,
  conversions = scans × conversion%, revenue = conversions × fee.
  Guaranteed purchase: policies = quotes × policy%, boxes = policies ×
  boxes-per-policy, revenue = boxes × $36.99. Seven sliders feed them. Two
  toggles open the two sub-calculators.

The model makes these choices, each following the code:

- No input path clamps values. The range widgets alone keep them on their
  grids. The model states this as a precondition of each slider handler
  (`OnSlider`); nothing clamps.
- The section ids are fixed. Toggling an unknown id cannot happen, so
  `TogglePanel` requires a known id and nothing auto-registers.
- Nesting is not only visual. `CollapsibleSection` renders its children only
  while open (src/App.jsx:105). The calculator sits inside the "revenue"
  section (src/App.jsx:965-982). So closing that section unmounts the
  calculator, and reopening it starts again from the default inputs and
  closed sub-calculators (`Deck.ReopenRevenueResets`). In the same way,
  logging out mounts a fresh gate, and logging in mounts a fresh deck.
- Submitting a code returns nothing. Its outcome is the new state: storage,
  the flag, the error message and the shake flag.

## Model

| member | source | states |
|---|---|---|
| `Session.GetItem` | src/App.jsx:1126 | Reading a key gives its value when present and nothing when absent |
| `Session.SetItem` | src/App.jsx:14 | Writing a key adds it with the new value and leaves every other key's value alone |
| `Session.RemoveItem` | src/App.jsx:1130 | Removing a key deletes exactly that key and keeps the values of all others |
| `Session.StoredGrant` | src/App.jsx:1125-1127 | Start-up reads access as granted iff the key is present and its value is exactly `granted` |
| `Session.OnlyTheExactLiteralGrants` | src/App.jsx:1125-1127 | Start-up grants access only when the stored value is exactly `granted`; any other value or no value does not grant |
| `Session.RemoveItemIdempotent` | src/App.jsx:1129-1132 | Removing the access key a second time changes nothing |
| `Session.UpperChar` | src/App.jsx:13 | Upper-casing never yields a lower-case ASCII letter, and changes only a-z, each to its capital |
| `Session.ToUpper` | src/App.jsx:13 | Upper-casing keeps the length and upper-cases each character in place |
| `Session.Accepts` | src/App.jsx:13 | The gate's test: the upper-cased code equals `UPANDUP2025`; an accepted code has its length |
| `Session.UpperMatchesIgnoringCase` | src/App.jsx:13 | For a secret with no lower-case letters, upper-casing a code yields the secret iff the code spells the secret with any mix of letter cases |
| `Session.AcceptsIffMatchesIgnoringCase` | src/App.jsx:4-13 | A code is accepted iff it spells `UPANDUP2025` with any mix of letter cases, both directions |
| `Session.AcceptedAndRejectedCodes` | src/App.jsx:4-16 | `upandup2025` and `UpAndUp2025` are accepted; a wrong digit, a leading space or an empty code is rejected |
| `Session.LoginGate.constructor` | src/App.jsx:7-9 | A freshly mounted gate has an empty code, no error and no shake |
| `Session.LoginGate.OnChange` | src/App.jsx:39 | Typing sets the code and clears any error message |
| `Session.LoginGate.HandleSubmit` | src/App.jsx:11-21 | Accepted: storage gains `target_access = granted`, the app is authenticated and shows a fresh deck. Rejected: storage and the flag are unchanged, the gate stays, the error is `Invalid invite code` and the form shakes |
| `Session.App.constructor` | src/App.jsx:1124-1139 | On start-up or reload the flag is whether storage holds exactly `granted`, and the gate is mounted iff the flag is false |
| `Session.App.SignalSuccess` | src/App.jsx:1135 | The success callback sets the flag; when it was false the gate is replaced by a fresh deck in its initial state |
| `Session.App.HandleLogout` | src/App.jsx:1129-1132 | Logout removes the key (keeping all other entries) and clears the flag; a fresh gate is mounted only if the flag was set |
| `Session.SubmitThenReload` | src/App.jsx:1124-1139 | After submitting a code, the app is authenticated iff it already was or the code is accepted, and a reload gives the same answer |
| `Session.LogoutThenReload` | src/App.jsx:1129-1132 | After logout the flag is false and a reload gives false; a second logout leaves storage as the first did; other stored entries survive |
| `Session.RejectThenType` | src/App.jsx:11-39 | A rejected code leaves the flag false and storage unchanged and shows the error; the next keystroke clears it |
| `Disclosure.InitialPanels` | src/App.jsx:86-87 | Every collapsible section is present, and each starts at its `defaultOpen` |
| `Disclosure.Toggle` | src/App.jsx:92 | A section's header flips that section and leaves every other section as it was |
| `Disclosure.ToggleTwice` | src/App.jsx:92 | Toggling a section twice restores every section |
| `Disclosure.TogglesCommute` | src/App.jsx:86-92 | Toggles of two sections commute: sections do not depend on one another |
| `Disclosure.ToggleAllParity` | src/App.jsx:86-92 | After any sequence of header clicks, a section is open iff its start state differs from the parity of the clicks on it; clicks elsewhere never matter |
| `Disclosure.DefaultOpen` | src/App.jsx:892 | Only "opportunity" is passed `defaultOpen={true}`; the rest take the default `false` of line 86. A section that starts open is a real section and never the one hosting the calculator |
| `Navigation.MenuStep` | src/App.jsx:803-816 | The menu after one handler: `toggleDropdown` (809) flips it, `scrollToSection` (806) and an outside mousedown (813) close it; only a toggle can open it, and every closing event leaves it closed |
| `Navigation.MenuStepCases` | src/App.jsx:803-816 | A toggle flips the menu, choosing a section or a mousedown outside the menu closes it, and a mousedown inside it (or with no container) leaves it as it was |
| `Navigation.OnlyToggleOpens` | src/App.jsx:803-816 | A closed menu can be opened only by a toggle |
| `Navigation.HeroButtonAlwaysOpens` | src/App.jsx:809-816 | The hero button (line 883) lies outside the menu's container, so its mousedown closes the menu and its click reopens it: the menu always ends open |
| `Navigation.HeaderButtonFlips` | src/App.jsx:836-837 | The header button lies inside the container, so pressing it flips the menu |
| `Navigation.RunWithoutClosing` | src/App.jsx:803-816 | With no closing event, the menu ends open iff its start state differs from the parity of the toggles |
| `Navigation.RunAfterLastClose` | src/App.jsx:803-816 | After a closing event and no later one, the menu is open iff an odd number of toggles followed it, whatever happened before |
| `Deck.PitchDeck.constructor` | src/App.jsx:789 | A fresh deck has the menu closed, every section at its default, no calculator mounted and no scroll requested |
| `Deck.PitchDeck.ToggleDropdown` | src/App.jsx:809 | The toggle buttons flip the menu |
| `Deck.PitchDeck.ScrollToSection` | src/App.jsx:803-807 | Choosing a section asks for a scroll when the page has that anchor, and closes the menu whatever the id |
| `Deck.PitchDeck.HandleClickOutside` | src/App.jsx:811-816 | A mousedown outside the mounted container closes the menu; any other mousedown changes nothing |
| `Deck.PitchDeck.TogglePanel` | src/App.jsx:86-105 | A header click flips that section only. Opening "revenue" mounts a calculator in its initial state, and closing it unmounts the calculator |
| `Deck.ReopenRevenueResets` | src/App.jsx:965-982 | Closing and reopening the revenue section leaves all sections as they were and shows a calculator back in its initial state |
| `Calculator.RevenueCalculator.constructor` | src/App.jsx:385-406 | A fresh calculator has both sub-calculators closed, the default inputs, and the projections 1,600,000 / 160,000 / $4,000,000 and 8,000 / 64,000 / $2,367,360 |
| `Calculator.RevenueCalculator.ToggleReferralCalc` | src/App.jsx:428 | Flips the referral sub-calculator and leaves the other one alone |
| `Calculator.RevenueCalculator.ToggleBoxCalc` | src/App.jsx:548 | Flips the guaranteed-purchase sub-calculator and leaves the other one alone |
| `Calculator.RevenueCalculator.SetAnnualBoxes` | src/App.jsx:456-462 | Callable only while the referral sub-calculator is open (line 442 renders its sliders only then). Sets that input only. Box metrics are unchanged, and referral revenue moves in the same direction as the input |
| `Calculator.RevenueCalculator.SetScanRate` | src/App.jsx:477-483 | Callable only while the referral sub-calculator is open (line 442 renders its sliders only then). Sets that input only. Box metrics are unchanged, and referral revenue moves in the same direction as the input |
| `Calculator.RevenueCalculator.SetConversionRate` | src/App.jsx:498-504 | Callable only while the referral sub-calculator is open (line 442 renders its sliders only then). Sets that input only. Box metrics are unchanged, and referral revenue moves in the same direction as the input |
| `Calculator.RevenueCalculator.SetFlatFee` | src/App.jsx:519-525 | Callable only while the referral sub-calculator is open (line 442 renders its sliders only then). Sets that input only. Box metrics are unchanged, and referral revenue moves in the same direction as the input |
| `Calculator.RevenueCalculator.SetQuotes` | src/App.jsx:572-578 | Callable only while the guaranteed-purchase sub-calculator is open (line 562 renders its sliders only then). Sets that input only. Referral metrics are unchanged, and box revenue moves in the same direction as the input |
| `Calculator.RevenueCalculator.SetPolicyRate` | src/App.jsx:593-599 | Callable only while the guaranteed-purchase sub-calculator is open (line 562 renders its sliders only then). Sets that input only. Referral metrics are unchanged, and box revenue moves in the same direction as the input |
| `Calculator.RevenueCalculator.SetAvgBoxesPerPolicy` | src/App.jsx:614-620 | Callable only while the guaranteed-purchase sub-calculator is open (line 562 renders its sliders only then). Sets that input only. Referral metrics are unchanged, and box revenue moves in the same direction as the input |
| `Calculator.ReferralRevenueOrdered` | src/App.jsx:395-397 | For two sets of on-grid referral inputs ordered input by input, the revenues are strictly ordered the same way unless the sets are equal |
| `Calculator.BoxRevenueOrdered` | src/App.jsx:403-406 | For two sets of on-grid box inputs ordered input by input, the revenues are strictly ordered the same way unless the sets are equal |
| `Projection.ProjectReferral` | src/App.jsx:395-397 | The three chained products in exact reals: scans, conversions, revenue. Its closed form is `ReferralClosedForm` |
| `Projection.ProjectBox` | src/App.jsx:403-406 | The three chained products in exact reals: policies, boxes, revenue at $36.99 a box. Its closed form is `BoxClosedForm` |
| `Projection.ReferralClosedForm` | src/App.jsx:395-397 | The referral revenue is boxes × scan% × conversion% × fee, the integer product over 10,000 |
| `Projection.BoxClosedForm` | src/App.jsx:403-406 | The box revenue is quotes × policy% × boxes-per-policy × 36.99, i.e. the integer product with 3699 over 10,000 |
| `Projection.DefaultReferralProjection` | src/App.jsx:390-397 | The defaults are on their sliders and give scans 1,600,000, conversions 160,000 and revenue $4,000,000 |
| `Projection.DefaultBoxProjection` | src/App.jsx:400-406 | The defaults are on the (corrected) sliders and give policies 8,000, boxes 64,000 and revenue $2,367,360 |
| `Projection.ReferralRevenueStrictlyIncreasing` | src/App.jsx:395-397 | On the sliders, raising any referral input (others held or raised) strictly increases referral revenue |
| `Projection.BoxRevenueStrictlyIncreasing` | src/App.jsx:403-406 | On the sliders, raising any guaranteed-purchase input strictly increases box revenue |
| `Projection.ReferralRevenueRange` | src/App.jsx:456-525 | On the sliders, referral revenue lies between $50,000 and $250,000,000 |
| `Projection.BoxRevenueRange` | src/App.jsx:572-620 | On the sliders, box revenue lies between $73,980 and $83,227,500 |
| `Projection.ReferralWholeNumbers` | src/App.jsx:395-397 | On the slider grid, scans, conversions and referral revenue are whole numbers |
| `Projection.BoxWholeNumbers` | src/App.jsx:403-406 | On the slider grid, policies and boxes are whole numbers and box revenue is a whole number of cents |
| `Projection.SnapToStep` | src/App.jsx:572-578 | What a range widget shows for an in-bounds value: a grid point, the nearest one (the upper one on a tie), and the value itself when it is on the grid |
| `Projection.DefaultQuotesOffDeclaredGrid` | src/App.jsx:400 | As written, the initial 160,000 quotes is not on the declared 50,000-step grid, and the widget shows 150,000 |
| `Projection.DefaultQuotesOnGrid` | src/App.jsx:400 | On the corrected grid the initial quotes value is a slider value, so the widget shows it unchanged |

## Findings

| source | as written | input that shows it | evidently intended | confidence | as-written member | corrected member |
|---|---|---|---|---|---|---|
| src/App.jsx:400 | `quotes` starts at 160,000. Its slider (src/App.jsx:574-576: min 100,000, step 50,000) only produces 100,000 + k·50,000 | The initial state: the thumb is drawn at 150,000 while the label reads "160K". Once the slider moves, 160,000 cannot be chosen again | The initial value should be a value the slider can produce. The model uses a 10,000 step (`QuotesSlider`), which keeps the worked example of 8,000 policies | medium, not executed | `Projection.DefaultQuotesOffDeclaredGrid` | `Projection.DefaultQuotesOnGrid` |

## Left out

- Rendering, styling, icons and all static content are not modelled. They are inert markup.
- The flywheel layout trigonometry and the hover/tab state of the flywheel, state heat map and image gallery are not modelled. They are layout or trivial selection over fixed content.
- The 500 ms timer that ends the shake animation (src/App.jsx:19) is not modelled. It is timing with no logical effect, so `isShaking` stays true after a rejection.
- `e.preventDefault()`, `getElementById`, `scrollIntoView`, `addEventListener` and `ref.contains` become parameters and an append-only log of requested scrolls (`scrollRequests`). The scroll animation is not modelled.
- Display formatting (`toFixed`, `toLocaleString`, the "M" and "K" renderings) is not modelled.
- JavaScript numbers are IEEE-754 doubles, in which `36.99` and `/ 100` are not exact. The model computes in exact reals and does not reproduce double rounding.
- `Session.ToUpper`: upper-cases ASCII a-z only. JavaScript's full Unicode `toUpperCase` also maps other characters and can change lengths ("ß" becomes "SS"). This does not change which codes the gate accepts. Outside ASCII, only "ı" and "ſ" upper-case to a single ASCII letter, I and S. "ß" and the ligatures expand to letters among S, F, I, L and T. "ŉ" and "ẚ" give N and A, but each with a second, non-ASCII character. Every other non-ASCII character upper-cases to non-ASCII text. `UPANDUP2025` is all ASCII and has none of I, S, F, L and T, so no code with a non-ASCII character upper-cases to it. `Accepts` therefore accepts exactly the codes the full upper-casing accepts.
- The calculator's `Valid` and the quotes handler use the corrected 10,000-step quotes grid from Findings. The widget as written produces only the 50,000-step subset of it.
- React's batching and re-render scheduling are not modelled. Each handler applies its update at once, and a state update that does not change the value does not remount anything.
