# AI Ethics Case Management: the case registry

`advocate.py` is a one-page dashboard for tracking reports about harmful AI
systems. Under its widgets sits a small in-memory case registry. It holds a
list of `AICase` records and a counter that starts at 1000. Buttons create
cases with ids `CASE-<counter>` or `LIVE-<counter>`. A chain of list
comprehensions filters the list for display. Widgets change one case at a
time: its status, its assignee, its resolution text, its advocacy actions and
its chat log. The sidebar and the analytics tab show integer metrics
computed over the list.

This project models that registry in Dafny and proves what it promises.

- `wrappers.dfy` (`Wrappers`): the `Option` type; `None` plays the part of Python's `None`.
- `text.dfy` (`Text`): ASCII lower-casing, the substring test `needle in haystack`,
  and the decimal rendering of the counter used in ids.
- `cases.dfy` (`Cases`): the `AICase` record and the fixed option lists
  (statuses, priorities, team members, sample cases, advocacy templates, canned
  replies, quick suggestions, resolution steps). Each edit that a widget makes
  to one case is a function from the case before to the case after. The
  resolution-progress panel is here too.
- `query.dfy` (`Query`): lookup by id, the filter chain and the metrics.
- `registry.dfy` (`CaseRegistry`): the `Registry` class. It holds the fields
  `cases: seq<AICase>` and `caseCounter: nat`, with one method per button or
  widget that changes them. It also proves that ids are unique.

Widget values, random draws and clock readings are parameters. A random
score is constrained to its range; a drawn sample only to having a priority
from the fixed set (see below). The clock is an abstract
`nat`. `ExampleSession` in `registry.dfy` walks through a session from the
registry's contracts alone: the first case gets id `CASE-1000`, a status
change refreshes `updatedAt`, a resolution makes the case resolved, and an
unknown id changes nothing.

The code behaves as follows where a reader might expect otherwise, and the
model does the same:
- No operation raises a typed error. An unknown id changes nothing, and the
  methods report it with `found == false`. The page shows a warning.
- A case's priority is never validated. Cases come only from the six built-in
  samples, and `PredefinedSamplesUsable` shows that all of their priorities
  are valid. The registry's methods accept any sample with a valid priority
  (`UsableSample`); that is all they rely on.
- Only a status change refreshes `updatedAt`. Setting a resolution, assigning
  the case, adding an action and chatting all leave it unchanged.
- "Resolution text set implies resolved" is not an invariant of the code.
  The detail panel can move a resolved case back to any status and keep its
  text (`ReopenKeepsResolution`). Every other edit keeps the condition
  (`ResolutionInvariantKept`).
- The resolution text only takes effect when it differs from the stored text.
  So re-submitting the same text does not resolve a case that was re-opened.
- Showing an unassigned case in the detail panel assigns it, with no user
  choice. The panel's selector starts on "Unassigned", which differs from the
  empty assignee, so the literal "Unassigned" is stored. From then on the
  dashboard shows "Assigned to: Unassigned" and no longer offers "Assign to
  me" (`DetailPanelBlocksAssignToMe`).

## Model

| member | source | states |
|---|---|---|
| Text.Lower | advocate.py:287 | `str.lower()`: same length, letter by letter lower-cased, and no upper-case letter is left |
| Text.Contains | advocate.py:287 | Python's `needle in haystack`: the empty needle is always found, a needle longer than the haystack never is, and one of equal length only when the two are equal |
| Text.ContainsAt | advocate.py:287 | the recursive substring test holds exactly when the needle occurs at some position of the haystack |
| Text.Decimal | advocate.py:222 | `str(n)`: at least one character, only decimal digits, at least two from 10 on, and no leading zero except for 0 itself |
| Text.DecimalValue | advocate.py:222 | the digits `str(n)` writes, read back most significant first, spell n |
| Text.DecimalInjective | advocate.py:222 | two counter values with the same decimal rendering are equal |
| Cases.NewCase | advocate.py:72-90 | a new case is "open", has empty resolution, assignee, actions and chat, has created = updated = now, keeps its given fields, and has severity in 1..100 and affected users in 100..10000 |
| Cases.PredefinedSamplesUsable | advocate.py:112-161 | every built-in sample has a priority from the fixed set, and none has "low" |
| Cases.ChangeStatus | advocate.py:384-390 | the detail panel's status selector: the status becomes the chosen one; only status and updated time change, and only when the choice differs; any status may follow "resolved" |
| Cases.DashboardStatus | advocate.py:309-317 | the dashboard selector leaves a resolved case untouched, and so does choosing the current status; otherwise the status becomes the choice, and nothing but status and updated time changes |
| Cases.AssignToMe | advocate.py:318-324 | "Assign to me" acts only while nobody is assigned; it stores the sidebar's choice, or "You" when that is Unassigned; afterwards somebody is assigned; nothing else changes |
| Cases.Assign | advocate.py:393-398 | the detail panel's selector leaves the case assigned to the chosen entry, "Unassigned" included, with every other field unchanged |
| Cases.EditResolution | advocate.py:404-408 | the resolution becomes the text; a new non-empty text makes the case resolved; an empty or unchanged text keeps the status; updated time and all other fields are unchanged |
| Cases.AddAction | advocate.py:417-426 | exactly one pending action of the chosen kind and template is appended at the end; earlier actions and other fields are unchanged |
| Cases.SendMessage | advocate.py:468-494 | a non-empty message appends exactly two turns, the user's then the advisor's reply; an empty message changes nothing |
| Cases.SendSuggestion | advocate.py:507-514 | a quick suggestion appends exactly one user turn and no reply |
| Cases.ResolutionInvariantKept | advocate.py:404-408 | every edit except the detail-panel status selector keeps "resolution text set implies resolved", for any typed chat message and any quick suggestion |
| Cases.DetailPanelBlocksAssignToMe | advocate.py:393-397 | showing an unassigned case in the detail panel stores "Unassigned", a change, after which "Assign to me" leaves the case as it is |
| Cases.ReopenKeepsResolution | advocate.py:384-389 | after a resolution the detail panel can set "open"; the text stays, so the condition above is broken |
| Cases.CurrentStep | advocate.py:527 | the current step lies in 0..5, is reached after three chat turns per step, and is capped at the last step |
| Cases.CurrentStepMonotone | advocate.py:527 | a longer chat never gives an earlier step |
| Cases.StepStates | advocate.py:529-532 | six step states: the current step is 'current', all earlier ones 'completed', all later ones 'pending' |
| Cases.ExactlyOneCurrent | advocate.py:531 | exactly one step is 'current' |
| Cases.Progress | advocate.py:523-532 | the progress panel is computed exactly when the case has no resolution text |
| Query.Find | advocate.py:334 | lookup gives the position of the first case with the id, or None exactly when no case has it |
| Query.FindAppended | advocate.py:232 | a case appended under an id not yet present is what lookup then finds, at the end |
| Query.Keep | advocate.py:281 | one comprehension keeps exactly the cases that pass its test, every copy of each, as a subsequence in the original order |
| Query.KeepEach | advocate.py:278-287 | the comprehensions applied one after another keep exactly the cases that pass every criterion, and never lengthen the list |
| Query.KeepMatching | advocate.py:278-287 | reference filter: keeps, in order and with every copy, exactly the cases passing every criterion |
| Query.KeepEachIsKeepMatching | advocate.py:278-287 | the comprehensions applied one after another equal the single reference filter |
| Query.ActiveCriteria | advocate.py:280-286 | the criteria switched on by the widgets (a selector other than "All", a non-empty platform text); a case passes them all exactly when it passes every switched-on filter |
| Query.Filtered | advocate.py:278-287 | the dashboard list holds exactly the cases that match priority, status and category exactly and contain the platform text ignoring case, each test only when switched on |
| Query.FilteredMeaning | advocate.py:278-287 | the dashboard list equals the one-pass reference filter: a subsequence of all cases in their order, keeping every copy of a passing case and none of a failing one |
| Query.FilterOffIsIdentity | advocate.py:278-287 | with every selector on "All" and no platform text the whole list is shown |
| Query.PlatformCaseInsensitive | advocate.py:287 | upper-case letters in the platform text do not change the list |
| Query.ActiveCount | advocate.py:559-560 | the active count is at most the number of cases, and is zero exactly when every case is resolved |
| Query.UrgentActiveCount | advocate.py:563-564 | the urgent-active count is at most the active count |
| Query.UrgentActiveOfUrgent | advocate.py:563-564 | the urgent-active count is the active count of the urgent cases |
| Query.UrgentActiveCountIsFilterSize | advocate.py:563-564 | the urgent-active count is the size of the dashboard list filtered on "urgent" minus the size of the one filtered on "urgent" and "resolved" |
| Query.ResolvedCount | advocate.py:571 | resolved count plus active count is the number of cases |
| Query.ResolvedCountIsFilterSize | advocate.py:571 | the resolved count is the length of the dashboard list filtered on "resolved" |
| Query.ResolutionRate | advocate.py:552-572 | the rate exists exactly when there are cases; it is resolved over total, with the numerator at most the denominator |
| Query.SeveritySum | advocate.py:567 | the sum of scores lies between 1 and 100 times the number of cases; for one case it is that case's score |
| Query.SeveritySumAppend | advocate.py:567 | the sum over two lists put together is the sum of the two sums |
| Query.AverageSeverity | advocate.py:552-568 | the average exists exactly when there are cases; it is the sum of the scores over the number of cases, and lies between 1 and 100 |
| CaseRegistry.CaseId | advocate.py:222 | an id is the five-character prefix "CASE-" or "LIVE-" followed by the decimal rendering of the counter value, whose digits read back as that value |
| CaseRegistry.CaseIdInjective | advocate.py:222 | an id determines both its prefix and its counter value |
| CaseRegistry.DistinctNumbersDistinctIds | advocate.py:626 | ids made from different counter values differ, whatever their prefixes |
| CaseRegistry.IdsDistinct | advocate.py:222-233 | in a registry numbered from 1000 no two cases share an id |
| CaseRegistry.FindUnique | advocate.py:334 | the case lookup finds is the only case with that id |
| CaseRegistry.NextIdUnused | advocate.py:222-233 | the id built from the counter's next value belongs to no existing case |
| CaseRegistry.LiveCase | advocate.py:626-635 | a streamed case has id "LIVE-<n>", title "[LIVE] " plus the sample's title, reporter "Live Stream", the sample's other fields and the drawn scores, status "open", and is consistent |
| CaseRegistry.LiveCases | advocate.py:623-637 | the streamed cases: one per draw, in draw order |
| CaseRegistry.LiveCasesAt | advocate.py:623-637 | the k-th streamed case is built from the k-th draw with id "LIVE-<start+k>": consecutive counter values |
| CaseRegistry.FirstGeneratedId | advocate.py:222 | with the counter at its initial 1000, the generated id is "CASE-1000" |
| CaseRegistry.Registry.constructor | advocate.py:12-15 | the session starts with no cases and the counter at 1000 |
| CaseRegistry.Registry.AddCase | advocate.py:222-233 | appends exactly one new case with id prefix+counter, bumps the counter by one, leaves earlier cases untouched, and lookup of the new id finds it |
| CaseRegistry.Registry.GenerateTestCase | advocate.py:220-233 | "Generate Test Case" appends the chosen sample as a new case "CASE-<counter>", reported by "System Generated", and bumps the counter |
| CaseRegistry.Registry.SimulateLiveStream | advocate.py:621-637 | offered only once there is a case; the live stream appends three "[LIVE] ..." cases "LIVE-<counter>", reported by "Live Stream", and bumps the shared counter by three |
| CaseRegistry.Registry.AddLiveCase | advocate.py:625-637 | one pass of the stream loop appends the case built from one draw and bumps the counter |
| CaseRegistry.Registry.UpdateStatusFromDashboard | advocate.py:309-317 | applies the dashboard status edit to the case with the id; an unknown id changes nothing; the invariant is kept |
| CaseRegistry.Registry.UpdateStatus | advocate.py:384-390 | applies the detail panel status edit to the selected case; an unknown id changes nothing |
| CaseRegistry.Registry.AssignCaseToMe | advocate.py:319-324 | applies "Assign to me" to the case with the id; an unknown id changes nothing |
| CaseRegistry.Registry.AssignCase | advocate.py:393-398 | applies the detail panel assignment to the selected case; an unknown id changes nothing |
| CaseRegistry.Registry.RecordResolution | advocate.py:404-408 | applies the resolution edit to the selected case; an unknown id changes nothing |
| CaseRegistry.Registry.AddAdvocacyAction | advocate.py:417-426 | appends the action to the selected case; an unknown id changes nothing |
| CaseRegistry.Registry.SendChatMessage | advocate.py:468-494 | applies the chat send to the selected case; an unknown id changes nothing |
| CaseRegistry.Registry.SendQuickSuggestion | advocate.py:507-514 | applies the quick suggestion to the selected case; an unknown id changes nothing |

`Registry.Valid()` is kept by every method. It says that the counter equals
1000 plus the number of cases. It also says that case `i` has id
`CASE-<1000+i>` or `LIVE-<1000+i>`, a status and a priority from the fixed
sets, scores within their ranges, chat turns from "user" or "ai", and only
pending actions. So ids rise by one in creation order and are never reused.

## Left out

- Rendering is not modelled: page setup, CSS, tabs, columns, buttons,
  `st.rerun`, the HTML strings, the sidebar's random "new case update" alert,
  and the Advocacy Center tab with its campaign builder (advocate.py:645-738).
  None of these holds registry state.
- Plotly charts, pandas data frames and `AICase.to_dict` are not modelled.
  They only convert cases for display.
- Randomness is not modelled. The results of `random.choice` and
  `random.randint` become parameters. The live stream's one-second sleep is
  dropped; each streamed case carries its own clock reading. The scores are
  constrained to their ranges; a drawn sample only to a priority from the
  fixed set, not to the six built-in samples.
- The clock is a `nat`. `AICase.__init__` reads the clock twice, so
  `created_at` and `updated_at` can differ by microseconds. The model uses one
  reading. `strftime` formatting of dates and chat times is not modelled.
- Floating point is not modelled. The average severity and the resolution
  rate are exact fractions (`Ratio`). The resolution-rate percentage, the
  progress percentage (advocate.py:536) and the resolution-hours histogram
  (advocate.py:603) are left out.
- `analytics['cases_handled']` (advocate.py:234) is not modelled. Only
  "Generate Test Case" increments it; the live stream does not.
- Object identity is not modelled. The dashboard edits the case object it is
  displaying, and the other panels look the case up by id. The model
  addresses every edit by id. Ids are unique (`IdsDistinct`, `FindUnique`),
  so both reach the same case.
- The detail panel pre-selects the current assignee with `list.index`. That
  raises `ValueError` when the assignee is "You", which "Assign to me" stores
  when the sidebar choice is Unassigned. The model does not capture this
  page abort.
- The constructor's default platform "Unknown" is not modelled, because every
  call passes a platform.
- Streamlit re-runs the whole script after each interaction. The model treats
  each widget action as one call.
- Text.Lower: lower-cases only the ASCII letters. Python's `str.lower()` also
  maps non-ASCII letters.
