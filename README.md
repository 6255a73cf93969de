# MSME compliance dashboard — a Dafny model of its page logic

The repository is a single React page that mocks a compliance dashboard for a
micro, small or medium enterprise. It has a profile form, a feed of
regulatory updates scoped by business sector, a list of upcoming deadlines, a
per-sector checklist, and a scripted chat box. All its data is canned and
served after artificial delays. This project models the page's data logic and
proves properties of it:

- the mock fetchers: the sector-scoped updates feed, the alerts list and the echoing profile save (`Fetchers`, over the catalogues in `MockData`);
- the sector options and the severity badge lookup (`UiHelpers`);
- the checklist merge, the toggle, and the checklist card that resets its local list when its sector changes (`Checklist`);
- the load cycle of the updates and alerts panels, and the Loading / Empty / List choice of what they show (`Panels`);
- the assistant box: a blank question is ignored, a question is appended and the input cleared, and one canned reply follows (`Assistant`);
- the page shell: the effective sector handed to the updates and checklist panels, the profile save, the toast, and the profile card's guard against a second save while one is out (`Dashboard`).

Pure expressions of the page are functions with lemmas. State that the page
keeps in component hooks is one class per component. Each state setter
becomes a field assignment in a method, and the method's `ensures` states the
component's whole new state. The `async` handlers of the panels, the assistant
and the profile card are split at their `await` into two methods:
`BeginLoad`/`CompleteLoad`, `Ask`/`DeliverReply`, and `PressSave`/`SaveSettled`.
A caller can therefore interleave them the way the browser can. The page's
`handleSave` does nothing before its `await`, so it is not split:
`Dashboard.App.HandleSave` calls the save and then runs the code after the
await at line 450 in one step. The delays themselves are not modelled. String literals keep
the characters the page's source text holds, including the mis-encoded
characters in place of a dash, an apostrophe and a check mark.

Several behaviours one might expect of such a dashboard are absent from the code, and the model follows the code:

- Asking the feed for `"all"` does not return every update. The filter compares each entry's sector with the lower-cased key and with `"all"`, so when the key is `"all"` both comparisons are the same. Only the one update tagged `"all"` survives (`Fetchers.AllFeed`). The page opens in exactly this state (`Dashboard.OpeningDashboard`).
- There is no sequence number and no discarding of stale answers. Whichever load completes last decides what a panel shows (`Panels.LateAnswerWins`). With the mock's equal 500 ms delays (line 115) answers arrive in request order, so that schedule needs a backend whose latency varies. The mock alone can still show a stale list: the mount load answers while the next sector's load is out, and the panel lists the old sector's feed under the new sector until the second answer lands (`Panels.StaleAnswerWhileReloading`).
- A checklist toggle does not survive a change of sector. The card's effect replaces the local list with the fresh merge (`Checklist.ToggleIsLostOnSectorRoundTrip`).
- The save never fails and nothing is validated. The toast's timer is never cancelled, so an earlier save's timer can clear a later save's toast.

## Model

| member | source | states |
|---|---|---|
| `MockData.CatalogueIdsDistinct` | src/msme_compliance_react_frontend.jsx:22-63 | the catalogue's identifier list satisfies `Distinct`: no two entries of the update catalogue share an identifier |
| `Fetchers.LowerChar` | src/msme_compliance_react_frontend.jsx:117 | an ASCII capital becomes the small letter at the same position of the alphabet, and the result is never a capital |
| `Fetchers.ToLower` | src/msme_compliance_react_frontend.jsx:117 | the result has the input's length, is lower-cased character by character, and contains no capital |
| `Fetchers.ToLowerKeepsLowerCase` | src/msme_compliance_react_frontend.jsx:117 | lower-casing a string with no capital gives the string back |
| `Fetchers.ToLowerIdempotent` | src/msme_compliance_react_frontend.jsx:117 | lower-casing twice equals lower-casing once |
| `Fetchers.SectorKey` | src/msme_compliance_react_frontend.jsx:117 | a missing or empty sector becomes "all"; any other sector keeps its length and is lower-cased position by position; the key never contains a capital |
| `Fetchers.InScope` | src/msme_compliance_react_frontend.jsx:118 | for the key "all" an entry is in scope exactly when it is tagged "all", since both halves of the test then coincide; membership in the filtered feed is exactly this test (`Fetchers.FilterMembership`) |
| `Fetchers.FilterBySector` | src/msme_compliance_react_frontend.jsx:118 | the filtered list is never longer than its input |
| `Fetchers.FilterIsSubsequence` | src/msme_compliance_react_frontend.jsx:118 | the filter only drops entries; the ones it keeps stay in input order |
| `Fetchers.FilterMembership` | src/msme_compliance_react_frontend.jsx:118 | an update is in the result if and only if it is in the input and its sector is the key or "all" |
| `Fetchers.FetchComplianceUpdates` | src/msme_compliance_react_frontend.jsx:113-119 | the feed is a subsequence of the catalogue holding exactly the entries whose sector is the requested key or "all" |
| `Fetchers.SinceIsIgnored` | src/msme_compliance_react_frontend.jsx:113-118 | two requests that differ only in the date get the same feed |
| `Fetchers.AllKeepsOnlyWildcardUpdates` | src/msme_compliance_react_frontend.jsx:118 | filtering for "all" keeps exactly the entries tagged "all", not every entry |
| `Fetchers.FilterStep` | src/msme_compliance_react_frontend.jsx:118 | the filter of a non-empty list is its head, if the head is in scope, followed by the filter of its tail |
| `Fetchers.CatalogueFilter` | src/msme_compliance_react_frontend.jsx:22-118 | the catalogue filtered for any key is the in-scope subset of its four entries, taken in catalogue order |
| `Fetchers.LowerCaseKey` | src/msme_compliance_react_frontend.jsx:117 | a non-empty sector with no capital is used as the key unchanged |
| `Fetchers.CatalogueFeed` | src/msme_compliance_react_frontend.jsx:22-119 | for any non-empty lower-case sector, the feed is the catalogue's in-scope entries, taken in catalogue order |
| `Fetchers.OnlyWildcardFeed` | src/msme_compliance_react_frontend.jsx:22-119 | any non-empty lower-case sector other than food, textile and it gets labour-017 alone |
| `Fetchers.FoodFeed` | src/msme_compliance_react_frontend.jsx:22-119 | the food feed is [labour-017, safety-009] |
| `Fetchers.TextileFeed` | src/msme_compliance_react_frontend.jsx:22-119 | the textile feed is [gst-001, labour-017] |
| `Fetchers.ItFeed` | src/msme_compliance_react_frontend.jsx:22-119 | the it feed is [labour-017, env-103] |
| `Fetchers.ManufacturingFeed` | src/msme_compliance_react_frontend.jsx:22-119 | the manufacturing feed is [labour-017] alone |
| `Fetchers.AllFeed` | src/msme_compliance_react_frontend.jsx:22-119 | the feed for "all", for a missing sector and for an empty sector is [labour-017] alone |
| `Fetchers.SectorIsCaseInsensitive` | src/msme_compliance_react_frontend.jsx:117-118 | "FOOD" gets the same feed as "food" |
| `Fetchers.FetchAlerts` | src/msme_compliance_react_frontend.jsx:121-125 | the alerts list has three entries, each with severity high, medium or low |
| `Fetchers.SaveProfile` | src/msme_compliance_react_frontend.jsx:127-131 | reference definition, no contract of its own: the answer is a success echoing the profile sent, which `Dashboard.App.HandleSave` states as `profile == form` |
| `UiHelpers.SeverityBadge` | src/msme_compliance_react_frontend.jsx:142-149 | high, medium and low get the red, amber and emerald classes; an input gets the slate default if and only if it is none of the three |
| `UiHelpers.SeverityBadgeInjective` | src/msme_compliance_react_frontend.jsx:142-149 | two known severities with the same badge are the same severity |
| `UiHelpers.AlertsHaveKnownSeverity` | src/msme_compliance_react_frontend.jsx:346 | every alert served is drawn with a severity colour, never with the default |
| `UiHelpers.SectorKeysListed` | src/msme_compliance_react_frontend.jsx:134-140 | the keys of the selector's options are exactly food, textile, it, manufacturing and all |
| `UiHelpers.SectorKeysDistinct` | src/msme_compliance_react_frontend.jsx:134-140 | the selector's five options have five different keys |
| `UiHelpers.SectorKeysLowerCase` | src/msme_compliance_react_frontend.jsx:134-140 | every option's key is already lower-case, so the fetcher uses it unchanged |
| `Checklist.Template` | src/msme_compliance_react_frontend.jsx:362-363 | a key has a non-empty template if and only if it is food, textile, it or general, and no template holds more than three items; any other key gets the empty list |
| `Checklist.Merge` | src/msme_compliance_react_frontend.jsx:361-365 | the merged list is the sector's template followed by the general template, so its length is the template's plus two and its last two items are c8 and c9 |
| `Checklist.MergeForKnownSectors` | src/msme_compliance_react_frontend.jsx:89-107 | food, textile and it get their own items before the general ones; manufacturing and all get the general items alone |
| `Checklist.MergeWithoutTemplate` | src/msme_compliance_react_frontend.jsx:363-364 | a sector with no template of its own gets the general items alone |
| `Checklist.MergeForGeneralKey` | src/msme_compliance_react_frontend.jsx:362-364 | for the key "general", which no selector offers, the merge lists the general items twice, and one toggle of c8 flips both copies |
| `Checklist.MergedIdsForKnownSectors` | src/msme_compliance_react_frontend.jsx:89-107 | the identifiers of the merged list are c1, c2, c3, c8, c9 for food; c4, c5, c8, c9 for textile; c6, c7, c8, c9 for it; c8, c9 for manufacturing and all |
| `Checklist.MergeIdsDistinct` | src/msme_compliance_react_frontend.jsx:89-107 | for every selectable sector, no identifier occurs twice in the merged list |
| `Checklist.Flip` | src/msme_compliance_react_frontend.jsx:370 | reference definition, no contract of its own: the per-item step that `Checklist.ToggleItems` states for every position (done negated exactly where the id matches, id and text kept) |
| `Checklist.FoodMergedIds` | src/msme_compliance_react_frontend.jsx:89-107 | the merged food list has the ids c1, c2, c3, c8, c9 |
| `Checklist.TextileMergedIds` | src/msme_compliance_react_frontend.jsx:89-107 | the merged textile list has the ids c4, c5, c8, c9 |
| `Checklist.ItMergedIds` | src/msme_compliance_react_frontend.jsx:89-107 | the merged it list has the ids c6, c7, c8, c9 |
| `Checklist.GeneralOnlyMergedIds` | src/msme_compliance_react_frontend.jsx:89-107 | the merged lists of manufacturing and all have the ids c8, c9 alone |
| `Checklist.ToggleItems` | src/msme_compliance_react_frontend.jsx:370 | the toggled list keeps length, order, ids and texts; done is negated exactly where the id matches and kept everywhere else |
| `Checklist.ToggleTwice` | src/msme_compliance_react_frontend.jsx:370 | toggling the same id twice restores the list |
| `Checklist.ToggleAbsent` | src/msme_compliance_react_frontend.jsx:370 | toggling an id the list does not hold leaves the list unchanged |
| `Checklist.ToggleCommutes` | src/msme_compliance_react_frontend.jsx:370 | two toggles give the same list in either order |
| `Checklist.ToggleFlipsAtMostOne` | src/msme_compliance_react_frontend.jsx:370 | with unique ids, of any two items at least one is unchanged by a toggle |
| `Checklist.ChecklistCard.constructor` | src/msme_compliance_react_frontend.jsx:367 | the local list starts as the merged template |
| `Checklist.ChecklistCard.SetSector` | src/msme_compliance_react_frontend.jsx:367-368 | a new sector replaces the local list with the fresh merge, discarding toggles; the same sector keeps it; the list always has the sector template's ids and texts |
| `Checklist.ChecklistCard.Toggle` | src/msme_compliance_react_frontend.jsx:370 | the local list becomes the toggled list; the sector is unchanged; the ids and texts still match the sector template |
| `Checklist.ToggleIsLostOnSectorRoundTrip` | src/msme_compliance_react_frontend.jsx:367-370 | c1 is checked after its toggle and unchecked again after switching food, then textile, then back to food |
| `Panels.ViewOf` | src/msme_compliance_react_frontend.jsx:283-287 | reference definition, no contract of its own: Loading takes precedence over Empty, which takes precedence over the list; `Panels.LoadingHidesItems`, `Panels.SettledViewShowsItems` and the cards' `View()` ensures state its consequences |
| `Panels.LoadingHidesItems` | src/msme_compliance_react_frontend.jsx:283-284 | while loading, the panel shows the same thing whatever list it holds |
| `Panels.SettledViewShowsItems` | src/msme_compliance_react_frontend.jsx:283-287 | once not loading, two panels show the same thing if and only if they hold the same list |
| `Panels.UpdatesCard.constructor` | src/msme_compliance_react_frontend.jsx:247-250 | the panel starts not loading, with no updates and the date 2025-08-01, so it shows Empty |
| `Panels.UpdatesCard.BeginLoad` | src/msme_compliance_react_frontend.jsx:252-254 | the load captures the current sector and date and the panel shows Loading; the updates are unchanged |
| `Panels.UpdatesCard.CompleteLoad` | src/msme_compliance_react_frontend.jsx:254-256 | the updates become the feed for the captured sector and date (the in-scope catalogue entries), and loading ends |
| `Panels.UpdatesCard.SetSince` | src/msme_compliance_react_frontend.jsx:273 | the date changes and nothing is loaded |
| `Panels.UpdatesCard.SetSector` | src/msme_compliance_react_frontend.jsx:259-262 | a changed sector starts a load for the new sector and the current date; the same sector starts nothing |
| `Panels.AlertsCard.constructor` | src/msme_compliance_react_frontend.jsx:316-318 | the panel starts not loading with no alerts, so it shows Empty |
| `Panels.AlertsCard.BeginLoad` | src/msme_compliance_react_frontend.jsx:320-322 | the panel shows Loading and keeps its alerts |
| `Panels.AlertsCard.CompleteLoad` | src/msme_compliance_react_frontend.jsx:322-324 | the alerts become the whole catalogue, loading ends, and the panel shows the list |
| `Panels.LateAnswerWins` | src/msme_compliance_react_frontend.jsx:252-262 | when the food load finishes after the textile load, the panel shows the food feed although its sector is textile |
| `Panels.StaleAnswerWhileReloading` | src/msme_compliance_react_frontend.jsx:252-262 | when the mount load for food answers while the textile load is out, the panel lists the food feed under the sector textile, and the textile feed once the second answer lands |
| `Panels.OverlappingAlertLoads` | src/msme_compliance_react_frontend.jsx:320-329 | with two alert loads out, the first answer already ends the loading state |
| `Assistant.TrimStart` | src/msme_compliance_react_frontend.jsx:395 | the result is a suffix of the input, starts with a visible character or is empty, and only white space was removed |
| `Assistant.TrimEnd` | src/msme_compliance_react_frontend.jsx:395 | the result is a prefix of the input, ends with a visible character or is empty, and only white space was removed |
| `Assistant.Trim` | src/msme_compliance_react_frontend.jsx:395 | the trimmed question is no longer than the question, and is empty or starts and ends with a visible character; it is empty exactly for a blank question (`Assistant.TrimEmptyIffBlank`) |
| `Assistant.TrimEmptyIffBlank` | src/msme_compliance_react_frontend.jsx:395 | the trimmed question is empty if and only if every character of it is white space |
| `Assistant.CountRolesPartition` | src/msme_compliance_react_frontend.jsx:390-408 | every transcript message is the user's or the assistant's, so the two role counts add up to the transcript's length |
| `Assistant.CountRoleFirst` | src/msme_compliance_react_frontend.jsx:390-392 | a transcript opening with a message of some role counts at least one message of that role |
| `Assistant.PendingBelowLength` | src/msme_compliance_react_frontend.jsx:389-408 | under the card's bookkeeping (greeting first, one reply per question, delivered or pending) fewer replies are pending than the transcript has messages |
| `Assistant.AssistantCard.constructor` | src/msme_compliance_react_frontend.jsx:389-392 | the input is empty and the transcript holds the greeting alone |
| `Assistant.AssistantCard.SetQuery` | src/msme_compliance_react_frontend.jsx:432 | the input takes the typed text, and the transcript is unchanged |
| `Assistant.AssistantCard.Ask` | src/msme_compliance_react_frontend.jsx:394-398 | a question is sent if and only if it is not blank; a blank one changes nothing; a sent one is appended untrimmed as a user message and the input is cleared; every user message is still owed one reply |
| `Assistant.AssistantCard.DeliverReply` | src/msme_compliance_react_frontend.jsx:400-408 | exactly one canned reply is appended and the input is untouched; fewer replies remain pending than the transcript has messages |
| `Assistant.OneExchange` | src/msme_compliance_react_frontend.jsx:394-409 | a non-blank question leaves the greeting, the question and the canned reply in the transcript |
| `Assistant.BlankQuestionIgnored` | src/msme_compliance_react_frontend.jsx:395 | a question of spaces, a tab and a line break leaves the transcript and the input as they were |
| `Dashboard.EffectiveSector` | src/msme_compliance_react_frontend.jsx:465-469 | the panels get the selection unless it is "all", and then the profile's sector; the result is "all" only if both are; both panels get the same value |
| `Dashboard.EffectiveSectorIdempotent` | src/msme_compliance_react_frontend.jsx:465 | resolving the effective sector again against the same profile changes nothing |
| `Dashboard.App.constructor` | src/msme_compliance_react_frontend.jsx:445-447 | the page opens with "all" selected, the Acme MSME profile in Gujarat with 18 employees and sector "all", and no toast |
| `Dashboard.App.PanelSector` | src/msme_compliance_react_frontend.jsx:465-469 | the sector prop of both panels is the selection unless that is "all", and then the profile's sector; it is "all" only if both are, as `Dashboard.EffectiveSector` states |
| `Dashboard.App.SetSector` | src/msme_compliance_react_frontend.jsx:170 | the selection changes and the profile and toast are unchanged |
| `Dashboard.App.HandleSave` | src/msme_compliance_react_frontend.jsx:450-455 | the committed profile becomes exactly the submitted form, the toast reads "Profile saved " followed by U+00E2 U+0153 U+201D, as the source text spells its check mark, and the panels' sector follows the new profile when "all" is selected |
| `Dashboard.App.ClearToast` | src/msme_compliance_react_frontend.jsx:454 | the toast is emptied, whichever save it came from |
| `Dashboard.ProfileCard.constructor` | src/msme_compliance_react_frontend.jsx:192-193 | the form is a copy of the profile and no save is out |
| `Dashboard.ProfileCard.EditName` | src/msme_compliance_react_frontend.jsx:202 | only the name of the form changes |
| `Dashboard.ProfileCard.EditState` | src/msme_compliance_react_frontend.jsx:208 | only the state field of the form changes |
| `Dashboard.ProfileCard.EditEmployees` | src/msme_compliance_react_frontend.jsx:215 | only the employees field changes, and it becomes the typed text, not a number |
| `Dashboard.ProfileCard.EditSector` | src/msme_compliance_react_frontend.jsx:220 | only the sector of the form changes |
| `Dashboard.ProfileCard.PressSave` | src/msme_compliance_react_frontend.jsx:232-237 | while a save is out the press submits nothing; otherwise it submits the form; afterwards a save is out |
| `Dashboard.ProfileCard.SaveSettled` | src/msme_compliance_react_frontend.jsx:235 | the card has no save out again, and the form is unchanged |
| `Dashboard.SaveOnce` | src/msme_compliance_react_frontend.jsx:232-237 | a press, a second press during the save, and the commit leave the profile equal to the form, show the toast, and submit nothing on the second press |
| `Dashboard.OpeningDashboard` | src/msme_compliance_react_frontend.jsx:445-469 | with the opening state the updates panel holds labour-017 alone and the checklist holds the general items alone |
| `Dashboard.SavingProfileRetargetsPanels` | src/msme_compliance_react_frontend.jsx:449-469 | with "all" selected, saving a food profile reloads the food feed and gives the food checklist followed by the general items |

## Left out

- Rendering, styling, the `framer-motion` wrappers, the `Tag` and `Navbar` markup, and the footer's current year are left out. They are presentation and clock access.
- The simulated delays (500, 300, 300 and 400 ms) and the 1800 ms toast timer are left out. Each `await` except the one in `handleSave` is the point where a method pair splits, and the timer's callback is `Dashboard.App.ClearToast`, which the caller invokes.
- The render between a prop change and the effect it triggers is not modelled. In that render a panel still shows its previous list.
- `SetSector`, `PressSave` and `Assistant.AssistantCard.Ask` take each prop change, click or question as applied at once, so React's batching of state updates is left out. A second click before the disabled button re-renders could submit twice; the model does not capture that. Likewise the page's `ask` reads `q` from the closure of the last render (lines 395-396), so a second ask before that re-render would send the same question again, while the model's `Ask` sees the input it has just cleared.
- Fetchers.ToLower: lower-cases ASCII capitals only. JavaScript's `toLowerCase` also maps other Unicode letters, and sometimes one letter to two characters.
- UiHelpers.SeverityBadge: looks the severity up among the table's own keys only. A severity naming an inherited object member, such as "toString", would return that member in the page.
- Checklist.Merge: looks the sector up among the table's own keys only. A sector naming an inherited object member would make the page throw when it spreads a non-list.
- Checklist.Template: looks the key up among the table's own keys only. On the page a key naming an inherited object member, such as "toString", finds that member at line 363, so the lookup yields a function where the model yields the empty list.
- Strings are sequences of Unicode scalar values, not of UTF-16 code units.
- The backend endpoints described in the page's comments are not implemented there and are not modelled.
- The alerts fetcher's commented-out enterprise id is not modelled; the fetcher takes no argument.
