# Therapy management front end, modelled in Dafny

This project models the logic of a React front end for therapists: the
sessions-history list, the "My Children" list, the keyword-driven AI
assistant chat, the four-step session-logging wizard, the dashboard's
"needs attention" alerts and logger modal, and the header's title and
mobile menu. Every page works on in-memory mock arrays. The model therefore
consists of immutable datatypes with pure functions, plus small explicit
state machines for the interactive parts.

Modules, following the source files:

- `Therapy` covers `ChildCard.tsx`: therapy types, child status, the chip labels and the status captions.
- `Filters` holds what both list pages share: the `"all"` wildcard, the case-insensitive search, "Clear filters" and the visibility of "Clear all filters".
- `Sessions`, `SessionsSort` and `SessionsHistory` cover `SessionsHistory.tsx`:
  - the sample sessions;
  - the four-key comparator with a stable sort;
  - the filter, the status counts, the sort toggle and the row expander.
- `ChildrenList` covers `ChildrenList.tsx`.
- `Assistant` covers `AIAssistant.tsx`: the first-match keyword classifier and the chat log with its reply timer.
- `SessionLogger` covers `SessionLogger.tsx`: the draft, the step machine and the browser's `required` check on step 2.
- `Dashboard` covers `Dashboard.tsx`: the alert selection and the modal with its close timer.
- `Header` covers `Header.tsx`.
- `Text`, `Seqs` and `Options` model the JavaScript string and array operations used:
  - `toLowerCase`, `includes`, `trim` and string comparison;
  - `filter` and `sort`;
  - `null`.

Timers (`setTimeout`) are explicit events. The assistant's reply timer
answers the question captured when it was sent. The wizard's close timer
fires even after the wizard has been closed by hand.

`Sessions.AllSessions` holds the ten sample sessions as listed; four of
them are rated 3.

## Model

| member | source | states |
|---|---|---|
| Therapy.AllTherapyTypesEnumerates | src/components/dashboard/ChildCard.tsx:19 | the type list has six entries, names every therapy type, and has no repeats |
| Therapy.LabelInjective | src/components/dashboard/ChildCard.tsx:26-35 | `getLabel` gives six pairwise different chip labels (Speech, Behavior, OT, ADL, Sensory, Special Ed) |
| Therapy.NameInjective | src/components/dashboard/ChildCard.tsx:19 | the six string-literal names of the therapy types are pairwise different |
| Therapy.StatusTextInjective | src/components/dashboard/ChildCard.tsx:69-78 | the three status captions are pairwise different |
| Filters.ClearFilters | src/pages/ChildrenList.tsx:240-244 | clearing sets the term to "" and both choices to "all" |
| Filters.ShowClearAllIffNotCleared | src/pages/ChildrenList.tsx:271 | "Clear all filters" shows exactly when some criterion differs from its cleared value; clearing hides it |
| Filters.AdmitsIff | src/pages/SessionsHistory.tsx:178-181 | "all" admits every value; a picked value admits itself and nothing else |
| Filters.EmptyTermMatches | src/pages/ChildrenList.tsx:107 | the empty search term matches every text |
| Filters.TermMatchesIgnoresCase | src/pages/ChildrenList.tsx:107 | search results do not change when either side is lower-cased first |
| Text.Lower | src/pages/SessionsHistory.tsx:174-175 | lower-casing keeps the length, leaves no upper-case letter, and changes only A-Z, each to its lower-case letter |
| Text.ContainsIff | src/pages/AIAssistant.tsx:93 | the left-to-right `includes` scan succeeds exactly when the term occurs at some index |
| Text.TrimEmptyIffBlank | src/pages/AIAssistant.tsx:74 | `trim()` yields "" exactly when every character is JavaScript white space |
| Text.LexCompare | src/pages/SessionsHistory.tsx:191-198 | the string comparison returns -1, 0 or 1, and returns 0 exactly for equal strings |
| Text.LexAntisymmetric | src/pages/SessionsHistory.tsx:192-194 | swapping the operands negates the comparison |
| Text.LexTransitive | src/pages/SessionsHistory.tsx:192-194 | the string order is transitive |
| Seqs.Filter | src/pages/ChildrenList.tsx:105-116 | `filter` never grows the list, keeps only elements that pass, and keeps every occurrence of each passing element: its multiplicity is unchanged |
| Seqs.FilterMultiset | src/pages/ChildrenList.tsx:105-116 | every element occurs in the result as often as in the source if it passes, and not at all otherwise |
| Seqs.FilterIsSubseq | src/pages/ChildrenList.tsx:105 | the filtered list is an order-preserving subsequence of its source |
| Seqs.FilterFilter | src/pages/ChildrenList.tsx:105-116 | filtering twice equals filtering once by the conjunction |
| Seqs.FilterPartition3 | src/pages/ChildrenList.tsx:122-127 | when every element passes exactly one of three tests, the three filtered lengths add up to the list length |
| SessionsHistory.FilterSessions | src/pages/SessionsHistory.tsx:170-184 | a session is kept iff name or id contains the term (case-insensitively), the status matches or is "all", and the therapy type matches or is "all"; each kept session keeps its multiplicity, and the result keeps source order |
| SessionsHistory.Shown | src/pages/SessionsHistory.tsx:170-205 | the rows on screen are a permutation of the filtered sessions, in comparator order |
| SessionsHistory.ClearedKeepsAll | src/pages/SessionsHistory.tsx:173-181 | with an empty term and "all"/"all", every session is kept, in its original order |
| SessionsHistory.CountStatuses | src/pages/SessionsHistory.tsx:211-216 | "all" counts every session, and the three status counts sum to it |
| SessionsHistory.CountMatchesShownRows | src/pages/SessionsHistory.tsx:211-216 | each status button's count equals the number of rows shown when that status alone is selected |
| SessionsHistory.ToggleSort | src/pages/SessionsHistory.tsx:218-227 | a click on the active key keeps the key and flips the direction; a click on another key selects it, descending |
| SessionsHistory.ToggleSortTwice | src/pages/SessionsHistory.tsx:218-227 | two clicks on the active key restore the sort state; on a new key they leave it ascending |
| SessionsHistory.ToggleExpand | src/pages/SessionsHistory.tsx:229-231 | the expanded row becomes none exactly when the clicked row was the expanded one; otherwise it is the clicked row |
| SessionsHistory.ToggleExpandTwice | src/pages/SessionsHistory.tsx:229-231 | a second click restores the previous state exactly when no other row was expanded |
| SessionsHistory.AtMostOneExpanded | src/pages/SessionsHistory.tsx:229-231 | among rows with distinct ids, at most one is expanded |
| SessionsHistory.StepFrames | src/pages/SessionsHistory.tsx:161-167 | each control changes only its own part of the page state; both clear buttons restore the cleared criteria; the status and therapy picks, "Clear filters" and "Apply filters" are only accepted while the filter panel is open |
| SessionsHistory.ShownCountBounds | src/pages/SessionsHistory.tsx:372 | "Showing N of M" never shows more rows than sessions, and a fresh page shows all ten |
| SessionsSort.DateOrderIsChronological | src/pages/SessionsHistory.tsx:187-190 | for fixed-width `YYYY-MM-DD` and `HH:MM` fields, comparing the (date, time) pair as strings orders sessions by their numeric timestamp |
| SessionsSort.CompareAntisymmetric | src/pages/SessionsHistory.tsx:186-205 | the comparator is antisymmetric for every key and direction |
| SessionsSort.CompareTransitive | src/pages/SessionsHistory.tsx:186-205 | the comparator is transitive for every key and direction |
| SessionsSort.Insert | src/pages/SessionsHistory.tsx:185-205 | inserting into a sorted list keeps it sorted and adds exactly that element |
| SessionsSort.Sort | src/pages/SessionsHistory.tsx:185-205 | the result is sorted and a permutation of the input |
| SessionsSort.SortedPairwise | src/pages/SessionsHistory.tsx:185-205 | neighbour order extends to every pair of positions |
| SessionsSort.SortedByPerformance | src/pages/SessionsHistory.tsx:199-202 | sorted by performance, neighbours rise when ascending and fall when descending |
| SessionsSort.SortedByName | src/pages/SessionsHistory.tsx:191-194 | sorted by child name, neighbours follow the string order, reversed when descending |
| SessionsSort.DefaultOrderNewestFirst | src/pages/SessionsHistory.tsx:164-165 | in the initial sort state, sessions with well-formed dates come out newest first |
| SessionsSort.TherapyKeyOrder | src/pages/SessionsHistory.tsx:195-198 | the therapy key orders the types adl, behavior, occupational, sensory, special, speech |
| ChildrenList.FilterChildren | src/pages/ChildrenList.tsx:105-116 | a child is kept iff the name contains the term (case-insensitively), the status matches or is "all", and the therapy is "all" or among the child's types; each kept child keeps its multiplicity, and the result keeps source order |
| ChildrenList.ClearedKeepsAll | src/pages/ChildrenList.tsx:107-113 | with the criteria cleared, the filter returns the list unchanged |
| ChildrenList.ClearShowsEveryone | src/pages/ChildrenList.tsx:240-244 | after either clear button, all eight children show, in their original order |
| ChildrenList.TherapyNarrows | src/pages/ChildrenList.tsx:113 | picking a therapy keeps exactly the children who receive it, among those the other criteria keep |
| ChildrenList.CountStatuses | src/pages/ChildrenList.tsx:122-127 | "all" counts every child, and good + needs-attention + stagnation add up to it |
| ChildrenList.CountMatchesShownChildren | src/pages/ChildrenList.tsx:122-127 | each status button's count equals the number of children shown when that status alone is selected |
| ChildrenList.Step | src/pages/ChildrenList.tsx:156-277 | the search box sets only the term and a status or therapy pick only its own choice, none touching the panel; both clear buttons restore the cleared criteria and hide "Clear all filters"; the panel toggle and "Apply filters" leave the criteria alone; the status and therapy picks, "Clear filters" and "Apply filters" are only accepted while the filter panel is open |
| ChildrenList.ShownCountBounds | src/pages/ChildrenList.tsx:267 | "Showing N of 8" never exceeds the list, and a fresh page shows everyone |
| Assistant.ClassifyIsFirstMentioned | src/pages/AIAssistant.tsx:93-101 | the keyword if-chain equals an ordered first-match lookup over the topic table (speech, behavior, sensory, motor) |
| Assistant.ClassifyPriority | src/pages/AIAssistant.tsx:93-101 | a topic is chosen iff one of its keywords occurs and no keyword of an earlier topic does |
| Assistant.ClassifyFallback | src/pages/AIAssistant.tsx:90-101 | the fallback reply is chosen iff none of the eleven keywords occurs |
| Assistant.ClassifyIgnoresCase | src/pages/AIAssistant.tsx:93 | classification does not change when the question is lower-cased first |
| Assistant.CapitalisedIntegrationIsSensory | src/pages/AIAssistant.tsx:97 | "Integration" gets the sensory reply |
| Assistant.SensoryQuestion | src/pages/AIAssistant.tsx:93-98 | a sensory-integration question gets the sensory reply, although its letters could spell parts of earlier keywords |
| Assistant.CapitalisedSensoryQuestion | src/pages/AIAssistant.tsx:93-98 | the same question typed with capitals, "How can I help with sensory integration?", gets the sensory reply too |
| Assistant.WeatherQuestion | src/pages/AIAssistant.tsx:90-101 | "What's the weather?" gets the fallback |
| Assistant.FallbackWithoutCNO | src/pages/AIAssistant.tsx:90-101 | every keyword contains c, n or o, so a question without those letters gets the fallback |
| Assistant.Send | src/pages/AIAssistant.tsx:73-87 | blank input changes nothing; otherwise exactly one user message with the input is appended, the input is cleared, the typing indicator is set and a reply timer starts |
| Assistant.ReplyArrives | src/pages/AIAssistant.tsx:89-120 | the oldest timer appends one reply to its captured question, clears the typing indicator and shows the four follow-up suggestions |
| Assistant.PickSuggestion | src/pages/AIAssistant.tsx:130-131 | a suggestion fills the input and appends nothing |
| Assistant.ClearChat | src/pages/AIAssistant.tsx:140-156 | the log becomes the welcome message alone and the four starter suggestions return |
| Assistant.KeyDownSendsOnPlainEnter | src/pages/AIAssistant.tsx:123-128 | Enter without Shift sends; any other key press changes nothing |
| Assistant.StepAppendsOnly | src/pages/AIAssistant.tsx:77-120 | except for "Clear chat", every event keeps earlier messages as a prefix and adds at most one |
| Assistant.StepKeepsTypingInvariant | src/pages/AIAssistant.tsx:86-113 | the typing indicator only shows while a reply timer is running |
| Assistant.SendThenReply | src/pages/AIAssistant.tsx:73-120 | on an idle page, a question followed by its timer adds the question and its reply, and ends idle |
| Assistant.ReplyUsesCapturedQuestion | src/pages/AIAssistant.tsx:89-101 | the reply answers the question as sent, not what is typed while waiting |
| Assistant.TypingClearsEarly | src/pages/AIAssistant.tsx:86-113 | with two questions in flight, the first reply hides the indicator while the second is still pending |
| Assistant.ReplyAfterClear | src/pages/AIAssistant.tsx:140-156 | a reply pending across "Clear chat" lands right after the welcome message |
| SessionLogger.Set | src/components/dashboard/SessionLogger.tsx:46-49 | a change replaces the named field and keeps every other field |
| SessionLogger.TargetOptionsOwned | src/components/dashboard/SessionLogger.tsx:266-307 | each target value is offered by exactly one therapy type |
| SessionLogger.TargetOptionsThreeEach | src/components/dashboard/SessionLogger.tsx:266-307 | every type offers three distinct targets |
| SessionLogger.Displayed | src/components/dashboard/SessionLogger.tsx:237-265 | a select shows its value when that is one of its options, and otherwise the "" placeholder |
| SessionLogger.Step2ValidIff | src/components/dashboard/SessionLogger.tsx:222-225 | step 2 validates iff age group, target and engagement hold offered values and sub-target and activity are non-empty |
| SessionLogger.UngatedFields | src/components/dashboard/SessionLogger.tsx:346-352 | performance and challenges never affect validation |
| SessionLogger.Apply | src/components/dashboard/SessionLogger.tsx:40-66 | picking a type moves to step 2 and sets only the type; a change sets one field; a rating sets performance; Back steps back and keeps the draft; Continue advances iff the form validates; Submit reaches step 4 |
| SessionLogger.InitialInv | src/components/dashboard/SessionLogger.tsx:25-38 | the wizard starts at step 1 with an empty draft and performance 0, inside the invariant |
| SessionLogger.ApplyKeepsInv | src/components/dashboard/SessionLogger.tsx:40-66 | the step stays in 1..4, performance in 0..5, the chosen type is recorded from step 2 on, and steps 3 and 4 are only reached through a valid form |
| SessionLogger.RunKeepsInv | src/components/dashboard/SessionLogger.tsx:40-66 | every sequence of inputs keeps the invariant |
| SessionLogger.ConfirmedOnlyAfterValidForm | src/components/dashboard/SessionLogger.tsx:51-57 | the confirmation is only reached with a type picked, a valid form and a rating in 0..5 |
| SessionLogger.ConfirmationIsFinal | src/components/dashboard/SessionLogger.tsx:555 | step 4 offers no input |
| SessionLogger.StaleTargetBlocksContinue | src/components/dashboard/SessionLogger.tsx:40-44 | after going back and picking another type, the old target stays in the draft, shows as the placeholder, and blocks Continue |
| SessionLogger.BackKeepsDraft | src/components/dashboard/SessionLogger.tsx:410-412 | Back from step 3 and Continue again returns to exactly the same state |
| Dashboard.NeedsAttentionChildren | src/pages/Dashboard.tsx:105-107 | the alert list holds exactly the children whose status is not good, each as often as in the list, in list order |
| Dashboard.AlertPanelShownIff | src/pages/Dashboard.tsx:301 | the alert panel renders iff some child's status is not good |
| Dashboard.DashboardAlerts | src/pages/Dashboard.tsx:24-61 | on the dashboard's four children the alerts are Mia and Noah, in that order |
| Dashboard.AlertMessage | src/pages/Dashboard.tsx:320-323 | the caption is "Needs additional focus" exactly for needs-attention |
| Dashboard.Open | src/pages/Dashboard.tsx:94-97 | opening selects the child and shows the logger, which starts fresh unless it was already on screen |
| Dashboard.Close | src/pages/Dashboard.tsx:99-102 | closing hides the logger, clears the selection and discards the wizard state |
| Dashboard.CloseUndoesOpen | src/pages/Dashboard.tsx:94-102 | opening and then closing leaves what closing alone leaves |
| Dashboard.Step | src/pages/Dashboard.tsx:336-342 | a submission starts a close timer, and a firing timer closes the logger |
| Dashboard.StepKeepsInv | src/pages/Dashboard.tsx:336-342 | the wizard invariant holds throughout, and a hidden logger is in its initial state |
| Dashboard.StaleTimerClosesReopenedLogger | src/components/dashboard/SessionLogger.tsx:60-62 | a close timer from a submitted wizard closes a logger reopened by hand for another child |
| Header.PageTitleIsLinkLabel | src/components/layout/Header.tsx:12-27 | the title switch agrees with the mobile menu: the title is the text of the link to the current path, else "Therapy Management" |
| Header.KnownTitles | src/components/layout/Header.tsx:14-24 | the five known paths get Dashboard, My Children, Sessions History, AI Assistant and Profile |
| Header.UnknownPathDefault | src/components/layout/Header.tsx:25-26 | any path that no link targets gets "Therapy Management" |
| Header.DetailPathGetsDefault | src/components/layout/Header.tsx:14 | matching is exact: "/children/1" gets the default title |
| Header.AtMostOneActive | src/components/layout/Header.tsx:110-144 | at most one mobile link is highlighted, and one is exactly when the path has its own title |
| Header.LinksWithHeader | src/App.tsx:31-42 | every menu link names its own route, and every one except "Dashboard" leads to a page that renders the header; "Dashboard" leads to "/", the landing page |
| Header.TherapistDashboardUntitled | src/App.tsx:38 | on "/therapist/dashboard", where the dashboard is routed, the title is "Therapy Management" and no menu link is highlighted |
| Header.ParentDashboardHasHeader | src/App.tsx:35 | the parent dashboard renders the header, with the default title and no link highlighted |
| Header.RouteVariantsKeepHeaderNotTitle | src/App.tsx:39 | "/Children" and "/children/" reach the children page and its header, but get the default title and no highlight, since those compare the pathname exactly |
| Header.Step | src/components/layout/Header.tsx:36-158 | the menu button flips the menu and the search toggles set the search flag, each leaving the rest; following a link closes the menu and moves to the link's path; the header stays on screen exactly when that page renders one, and keeps its search box only when the page stays the same |
| Header.MenuButtonTwice | src/components/layout/Header.tsx:36 | two presses of the menu button restore the header |
| Header.FollowLinkHighlights | src/components/layout/Header.tsx:110-144 | after any link but "Dashboard" is followed, that link is highlighted and the title is its text; the "Dashboard" link leaves the header |

## Left out

- Rendering, styling and animation are left out, as are the icons, the filter and sort button markup and `formatMessage`. They are presentation only.
- Text.Lower: lower-cases ASCII A-Z only, not the full Unicode case mapping of `toLowerCase`.
- Text.LexCompare: stands in for `localeCompare` as code-point order, because locale collation depends on the runtime. The order is not JavaScript's UTF-16 code-unit order either. That order sorts characters from U+10000 up below U+E000-U+FFFF, and code-point order does not.
- Strings are sequences of Unicode code points, not UTF-16 code units. A character outside the Basic Multilingual Plane is one element here and two in JavaScript, so lengths and `includes` positions differ for such text. Lone surrogates cannot be represented.
- SessionsSort.DateOrderIsChronological: relates the string order to a numeric stamp made from the digits. It does not model `new Date(...)`, time zones or invalid dates. Those depend on the runtime clock and locale.
- SessionsSort.Sort: proves sortedness and permutation. It does not prove that equal keys keep their input order, although the insertion places later elements after equal ones.
- Sample data is transcribed but mostly not checked against lemmas, for example the sorted order of all ten sessions. Quantifying over the literal records is too expensive for the solver. `Dashboard.DashboardAlerts` is the one sample fact proved.
- Message ids and timestamps are left out. They come from the clock.
- `console.log`, toasts, the clipboard, the copy and feedback buttons, and scrolling are left out. They are side effects with no state in the model.
- Assistant: the text of the four canned replies is kept, but no lemma inspects it. Proofs reason about the classification that chooses the reply.
- SessionLogger: the caption for each rating value and the summary rendering on step 3 are display text and are not modelled. The "Step N of 3" indicator reads "Step 4 of 3" on the confirmation; only the step number is modelled.
- Dashboard: the stats cards and the recent-sessions list are left out. They are static markup over constant data.
- Dashboard.Open: ignores that the modal's backdrop covers the page, which keeps the page's buttons from being clicked while the logger is open.
- SessionLogger.ConfirmationIsFinal: assumes each step's content leaves the screen at once. In the source every step exits through a 0.3 s `AnimatePresence` animation (`mode="wait"`), and the exiting form stays mounted and clickable in that window. Because `nextStep` is `prev + 1`, a second Continue there goes from 3 to 4 without `handleSubmit`, so no close timer starts. A second Submit starts a second timer. The exiting element keeps its last props, so its field values are frozen, and what a click does then depends on the animation library's internals. The model offers only the settled step's inputs. SessionLogger.ApplyKeepsInv, SessionLogger.ConfirmedOnlyAfterValidForm and Dashboard.Step hold for that settled behaviour only.
- Header.Step: route matching accepts any ASCII letter case and one trailing slash. Repeated slashes and non-ASCII case variants are not modelled.
- Header: the search box has no effect beyond its open flag, and the notification and settings buttons do nothing, so only the flags are modelled.
- The Profile page, the role dashboards, login pages, sidebars, the landing page and the stub pages hold static markup only. `ProgressIndicator`'s floating-point percentage is not part of this model either.
