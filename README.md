# ai-sentinel-watch core in Dafny

A Dafny model of the logic inside the ai-sentinel-watch dashboard, a browser
front end for watching AI agents. The dashboard shows incidents and agent
traces, manages policies and guardrails, and keeps a few organisation
settings. Most of it is markup over mock data. These are the parts with
behaviour, and they are what the model covers:

- **The sidebar rail** (`AppSidebar`). It holds four flags: `open` and
  `isMobile` come from the sidebar context; `isPinned` and `isHovering` belong
  to the component. The pointer handlers, the pin button and the effect that
  turns an outside open/close into a pin/unpin are methods of the class `Rail`.
  Each method is tied to a pure transition function, and the lemmas state the
  rail's invariants over those functions. The fixed navigation table and its
  exact-match `isActiveSection` are modelled too. So is what the rail renders
  for a given `expanded`.
- **The incident feed and the trace list** (`IssuesFeed`, `AgentTraces`). These
  are order-preserving filters driven by two selects and a search box. The
  trace page also builds a de-duplicated agent list in order of first
  appearance. Clicking a row routes to the item's detail page.
- **The mock data** (`MockIncidents`, `MockTraces`). This covers the generated
  ids, the field ranges the random draws allow, the dates the clock arithmetic
  produces, the fixed five-step trace shape with its timestamps, the trace
  status, and the lookups `getIncidentById`, `getIncidentsByStatus`,
  `getIncidentsBySeverity`, `getTraceById` and `getTracesByAgent`.
- **Toggle pages** (`Policies`, `Guardrails`, `Settings`). Each page is a class
  whose state is replaced by a pure toggle.
- **Decision tables** (`StatusBadge`, `MetricCard`). These are the badge style
  and label maps, the type label fallback, and the choice of change indicator
  on a metric card.

Shared pieces: `Collections` holds JavaScript's `filter`, `find` and
`Array.from(new Set(...))`. `Text` holds ASCII `toLowerCase`, `includes`,
`String(n)`, `padStart` and the single-occurrence `replace`. `Draws` holds
`Math.floor(Math.random() * n)` and the `setDate`/`setHours` clock arithmetic.
`Types` holds the domain types.

Conventions:
- A random draw is a real parameter in [0, 1).
- The current time (`Date.now()` / `new Date()`) is an integer parameter in
  milliseconds.
- The hour or day-of-month a date setter reads is also a parameter.
- Every lookup takes the list it searches as an argument, in place of the
  module-level constant.
- A filter select holds the string `"all"` or the written form of a value, as
  the page's `useState<string>` does.

## Model

| member | source | states |
|---|---|---|
| AppSidebar.AnyItemAtSpec | src/components/layout/AppSidebar.tsx:122-124 | (of `AppSidebar.IsActiveSection`) the item scan finds a match exactly when some item's url equals the current path |
| AppSidebar.NavigationUrlsDistinct | src/components/layout/AppSidebar.tsx:50-102 | no url occurs twice in the navigation table |
| AppSidebar.ExactlyOneActive | src/components/layout/AppSidebar.tsx:122-124 | (of `AppSidebar.IsActiveSection`) with distinct urls, a path equal to an item's url makes that item's section active and no other |
| AppSidebar.NoneActive | src/components/layout/AppSidebar.tsx:122-124 | (of `AppSidebar.IsActiveSection`) a path that is no item's url makes no section active |
| AppSidebar.NavigationHasNoDetailUrls | src/components/layout/AppSidebar.tsx:50-102 | no table url starts with `/incident/` or `/trace/` |
| AppSidebar.NothingActiveUnder | src/components/layout/AppSidebar.tsx:122-124 | a path under a prefix that no table url starts with makes no section active |
| AppSidebar.DetailPagesActivateNothing | src/components/layout/AppSidebar.tsx:122-124 | on `/incident/<id>` and `/trace/<id>` no section is active, whatever the id |
| AppSidebar.InitialState | src/components/layout/AppSidebar.tsx:106-107 | initially the pin equals `open`, hovering is off, and the state is settled |
| AppSidebar.TogglePinSpec | src/components/layout/AppSidebar.tsx:126-130 | (of `AppSidebar.TogglePin`) the pin button negates the pin, sets `open` to the new pin, touches nothing else, and two presses restore the pin |
| AppSidebar.MobileIgnoresPointer | src/components/layout/AppSidebar.tsx:113-145 | on mobile, mouse enter, mouse leave and the sync effect change nothing |
| AppSidebar.DesktopEnter | src/components/layout/AppSidebar.tsx:136-140 | (of `AppSidebar.EnterRail`) on desktop, entering sets hovering, keeps the pin, and opens the rail only if it is unpinned |
| AppSidebar.DesktopLeave | src/components/layout/AppSidebar.tsx:141-145 | (of `AppSidebar.LeaveRail`) on desktop, leaving clears hovering, keeps the pin, closes only an unpinned rail, and a pinned rail keeps `open` |
| AppSidebar.HoverNeverPins | src/components/layout/AppSidebar.tsx:113-140 | entering an unpinned desktop rail and running the effect opens it but leaves it unpinned |
| AppSidebar.SyncSettles | src/components/layout/AppSidebar.tsx:113-118 | (of `AppSidebar.Sync`) the effect changes only the pin; on desktop it establishes pin ⇒ open and (open ∧ ¬hovering) ⇒ pin; running it again changes nothing |
| AppSidebar.ExternalOpenIsPin | src/components/layout/AppSidebar.tsx:113-118 | an open/close from outside the rail while the pointer is elsewhere becomes the pin |
| AppSidebar.PointerKeepsPin | src/components/layout/AppSidebar.tsx:113-145 | from a settled desktop state, a pointer move followed by the effect never changes the pin |
| AppSidebar.StepSettles | src/components/layout/AppSidebar.tsx:113-118 | (of `AppSidebar.Step`) after any event and the effect, a desktop rail is settled |
| AppSidebar.RunSettles | src/components/layout/AppSidebar.tsx:113-145 | every event sequence ending on desktop ends settled |
| AppSidebar.PointerRunKeepsPin | src/components/layout/AppSidebar.tsx:113-145 | any sequence of pointer moves over a settled desktop rail leaves the pin unchanged |
| AppSidebar.MobilePointerRunIsIdentity | src/components/layout/AppSidebar.tsx:136-145 | on mobile, any sequence of pointer moves changes nothing |
| AppSidebar.HoverPreviewRoundTrip | src/components/layout/AppSidebar.tsx:113-145 | enter then leave on a settled, unhovered desktop rail restores the state exactly |
| AppSidebar.Rail.constructor | src/components/layout/AppSidebar.tsx:105-107 | the rail starts with the context's `open`/`isMobile`, the pin equal to `open`, and no hover |
| AppSidebar.Rail.HandlePin | src/components/layout/AppSidebar.tsx:126-130 | `handlePin` flips the pin and sets `open` to it, matching `TogglePin` |
| AppSidebar.Rail.MouseEnter | src/components/layout/AppSidebar.tsx:136-140 | `onMouseEnter` does nothing on mobile; on desktop it sets hovering and opens an unpinned rail, matching `EnterRail` |
| AppSidebar.Rail.MouseLeave | src/components/layout/AppSidebar.tsx:141-145 | `onMouseLeave` does nothing on mobile; on desktop it clears hovering and closes an unpinned rail, matching `LeaveRail` |
| AppSidebar.Rail.SyncPinWithOpen | src/components/layout/AppSidebar.tsx:113-118 | the effect reads one render's values, changes only the pin, leaves a desktop rail settled, and matches `Sync` |
| AppSidebar.Rail.SetOpen | src/components/layout/AppSidebar.tsx:105 | the context's `setOpen` changes `open` and nothing else |
| AppSidebar.Rail.SetMobile | src/components/layout/AppSidebar.tsx:105 | a viewport change sets `isMobile` and nothing else |
| AppSidebar.Rail.Handle | src/components/layout/AppSidebar.tsx:113-145 | one event followed by the effect gives `Step` of the old state and leaves a desktop rail settled |
| AppSidebar.RenderFollowsExpanded | src/components/layout/AppSidebar.tsx:153-206 | (of `AppSidebar.Render`) brand text, pin button, section labels, chevrons and item titles appear exactly when `open`; the pin button reads "Unpin sidebar" exactly when pinned |
| AppSidebar.RenderOpensActiveSection | src/components/layout/AppSidebar.tsx:181 | (of `AppSidebar.Render`) on a table url, exactly the section holding it starts expanded |
| AppSidebar.OnlyRootIsEndAnchored | src/components/layout/AppSidebar.tsx:201 | (of `AppSidebar.Render`) only the root item `/` uses end-anchored matching |
| Collections.FilterSpec | src/pages/IssuesFeed.tsx:34 | (of `Collections.Filter`) `filter` keeps exactly the elements that pass, every occurrence of each, as an order-preserving subsequence |
| Collections.FilterKeepsAll | src/pages/IssuesFeed.tsx:34 | when every element passes, `filter` returns the list unchanged |
| Collections.Find | src/mock-data/incidents.ts:78 | `find` returns the first element that passes, or nothing exactly when none passes |
| Collections.DistinctContents | src/pages/AgentTraces.tsx:39 | the de-duplicated list has no repeats and holds exactly the values of the input |
| Collections.DistinctFirstSeenOrder | src/pages/AgentTraces.tsx:39 | the de-duplicated list orders values by their first position in the input |
| Text.ContainsOccurs | src/pages/IssuesFeed.tsx:37-43 | `includes` holds exactly when the needle occurs at some position |
| Text.LowerProperties | src/pages/IssuesFeed.tsx:39-40 | lower-casing keeps length, is idempotent and leaves no ASCII capital |
| Text.SearchMatchesSpec | src/pages/IssuesFeed.tsx:37-43 | the search test passes exactly when the query is empty or occurs, ignoring ASCII case, in one of the two fields |
| Text.SearchIgnoresQueryCase | src/pages/IssuesFeed.tsx:39-40 | typing the query in a different case gives the same result |
| Text.Decimal | src/mock-data/incidents.ts:61 | `String(n)` is a non-empty digit string without a leading zero |
| Text.DecimalRoundTrip | src/mock-data/incidents.ts:61 | the digits `String(n)` writes read back as `n` |
| Text.PadStart | src/mock-data/incidents.ts:61 | `padStart` reaches the width, ends with the original string, and fills with the pad character |
| Text.ZeroPaddedRoundTrip | src/mock-data/incidents.ts:61 | zero padding keeps the number readable back |
| Text.ZeroPaddedInjective | src/mock-data/incidents.ts:61 | different numbers pad to different strings |
| Text.ZeroPaddedLength | src/mock-data/incidents.ts:61 | a number below 10^width pads to exactly `width` characters |
| Text.ReplaceFirstAbsent | src/mock-data/incidents.ts:64 | `replace` without an occurrence changes nothing |
| Text.ReplaceFirstAt | src/mock-data/incidents.ts:64 | `replace` with a one-character pattern changes only the first occurrence |
| Draws.RandomIndex | src/mock-data/incidents.ts:49-51 | `Math.floor(r * n)` is an index below `n` within one of `r * n` |
| Draws.RandomItem | src/mock-data/incidents.ts:49-51 | `randomItem` returns an element of the array |
| Draws.RandomIndexReachesAll | src/mock-data/incidents.ts:49-51 | every index below `n` comes from some draw |
| Draws.UnitsBack | src/mock-data/incidents.ts:43-47 | a setter given `field - x` (truncated toward zero) moves the date back by a whole number of units within one of `x` |
| Draws.RandomDate | src/mock-data/incidents.ts:43-47 | `randomDate(span)` lies a whole number of units, at most `span`, before now |
| Types.NamesDistinct | src/types/index.ts:3-5 | the written forms of statuses, severities, run statuses and types are injective and never "all" |
| MockIncidents.IncidentTitles | src/mock-data/incidents.ts:7-33 | every type has three candidate titles |
| MockIncidents.IncidentIdFormat | src/mock-data/incidents.ts:61 | an id is "INC-" and the 1-based index padded to four digits (eight characters below index 9999) |
| MockIncidents.IncidentIdInjective | src/mock-data/incidents.ts:61 | two indices with the same id are the same index |
| MockIncidents.FirstIncidentId | src/mock-data/incidents.ts:61 | the first id is "INC-0001" |
| MockIncidents.ShownTypeName | src/mock-data/incidents.ts:64 | (of `MockIncidents.IncidentDescription`) the description's type name keeps its length and has no underscore left after the single `replace` |
| MockIncidents.MakeIncidentFields | src/mock-data/incidents.ts:53-75 | (of `MockIncidents.MakeIncident`) each incident has its index's id, 1..500 events, 1..100 users, an agent id agent-1..agent-5, a listed agent name, a title of its type, a root cause, `lastSeen` within 7 days before now and `firstSeen` within 30 days before `lastSeen` |
| MockIncidents.MockIncidentList | src/mock-data/incidents.ts:53 | one incident per draw |
| MockIncidents.MockIncidentIdsDistinct | src/mock-data/incidents.ts:53-61 | incident `i` has id `IncidentId(i)` and no two generated incidents share an id |
| MockIncidents.GetIncidentById | src/mock-data/incidents.ts:77-79 | the result has the id and is the first incident with it; none exactly when no incident has it |
| MockIncidents.GetIncidentsByStatusSpec | src/mock-data/incidents.ts:81-83 | (of `MockIncidents.GetIncidentsByStatus`) exactly the incidents with that status, each as often as it occurs, in list order |
| MockIncidents.GetIncidentsBySeveritySpec | src/mock-data/incidents.ts:85-87 | (of `MockIncidents.GetIncidentsBySeverity`) exactly the incidents with that severity, each as often as it occurs, in list order |
| MockIncidents.LookupUniqueId | src/mock-data/incidents.ts:77-79 | (of `MockIncidents.GetIncidentById`) in any list where only incident `i` has its id, looking that id up returns incident `i` |
| MockIncidents.LookupGeneratedId | src/mock-data/incidents.ts:77-79 | looking up the id generated for index `i` returns incident `i` |
| MockTraces.StepOffsetValues | src/mock-data/traces.ts:24-76 | the step timestamps sit 0, 5, 155, 1355 and 1655 ms after the start |
| MockTraces.StepOffsetsIncrease | src/mock-data/traces.ts:24-76 | each step's timestamp is strictly later than every earlier step's |
| MockTraces.TraceSteps | src/mock-data/traces.ts:23-81 | every trace has five steps |
| MockTraces.GenerateTraceSteps | src/mock-data/traces.ts:23-81 | advancing `currentTime` in place yields exactly the steps `TraceSteps` describes |
| MockTraces.TraceStepsShape | src/mock-data/traces.ts:23-81 | step ids step-1..step-5, types in pipeline order, timestamps strictly increasing from the start, only the retrieval step can warn and only inference can fail |
| MockTraces.TraceStatusSpec | src/mock-data/traces.ts:87-95 | (of `MockTraces.TraceStatus`) status is error exactly when `hasError`, warning exactly when the warning draw fires without an error, success otherwise |
| MockTraces.MockTraceList | src/mock-data/traces.ts:83 | one trace per draw |
| MockTraces.TraceIdFormat | src/mock-data/traces.ts:91 | an id is "trace-" and the 1-based index padded to six digits (twelve characters below index 999999) |
| MockTraces.TraceIdInjective | src/mock-data/traces.ts:91 | two indices with the same id are the same index |
| MockTraces.MakeTraceFields | src/mock-data/traces.ts:83-102 | (of `MockTraces.MakeTrace`) each trace has its index's id, starts within 48 hours before now, has a listed agent and model, agent id agent-1..agent-5, user id user-0..user-999, and five steps starting at its start time |
| MockTraces.MockTraceIdsDistinct | src/mock-data/traces.ts:83-91 | trace `i` has id `TraceId(i)` and no two generated traces share an id |
| MockTraces.GetTraceById | src/mock-data/traces.ts:104-106 | the result has the id and is the first trace with it; none exactly when no trace has it |
| MockTraces.GetTracesByAgentSpec | src/mock-data/traces.ts:108-110 | (of `MockTraces.GetTracesByAgent`) exactly the traces with that agent name, each as often as it occurs, in list order |
| MockTraces.LookupUniqueId | src/mock-data/traces.ts:104-106 | (of `MockTraces.GetTraceById`) in any list where only trace `i` has its id, looking that id up returns trace `i` |
| MockTraces.LookupGeneratedId | src/mock-data/traces.ts:104-106 | looking up the id generated for index `i` returns trace `i` |
| IssuesFeed.KeepIncidentIsConjunction | src/pages/IssuesFeed.tsx:34-45 | (of `IssuesFeed.KeepIncident`) an incident is kept exactly when it passes the status and severity checks and the query is empty or found, ignoring case, in its title or agent name |
| IssuesFeed.FilteredIncidentsSpec | src/pages/IssuesFeed.tsx:34-45 | (of `IssuesFeed.FilteredIncidents`) the feed holds exactly the incidents passing both selects whose title or agent name contains the query ignoring case, each as often as it occurs, as a subsequence of the list |
| IssuesFeed.DefaultFiltersKeepAll | src/pages/IssuesFeed.tsx:30-45 | with "all", "all" and an empty query every incident is shown |
| IssuesFeed.SelectedValuesAreExact | src/pages/IssuesFeed.tsx:35-36 | selecting a status (severity) shows only incidents with exactly that status (severity) |
| IssuesFeed.IncidentPathSpec | src/pages/IssuesFeed.tsx:47-49 | (of `IssuesFeed.IncidentPath`) the row's route is "/incident/" followed by the id, distinct ids give distinct routes, and no sidebar section is active there |
| AgentTraces.AgentNamesOf | src/pages/AgentTraces.tsx:39 | one agent name per trace |
| AgentTraces.AgentsSpec | src/pages/AgentTraces.tsx:39 | (of `AgentTraces.Agents`) the agent list has no repeats, every entry is some trace's agent, and every trace's agent is listed |
| AgentTraces.AgentsInFirstSeenOrder | src/pages/AgentTraces.tsx:39 | (of `AgentTraces.Agents`) agents are listed in the order their first trace appears |
| AgentTraces.KeepTraceIsConjunction | src/pages/AgentTraces.tsx:41-52 | (of `AgentTraces.KeepTrace`) a trace is kept exactly when it passes the agent, status and search checks |
| AgentTraces.FilteredTracesSpec | src/pages/AgentTraces.tsx:41-52 | (of `AgentTraces.FilteredTraces`) the list holds exactly the traces passing both selects whose id or agent name contains the query ignoring case, each as often as it occurs, as a subsequence of the list |
| AgentTraces.DefaultFiltersKeepAll | src/pages/AgentTraces.tsx:35-52 | with "all", "all" and an empty query every trace is shown |
| AgentTraces.SelectedValuesAreExact | src/pages/AgentTraces.tsx:42-43 | selecting an agent shows only its traces; selecting a status shows only that status |
| AgentTraces.TracePathSpec | src/pages/AgentTraces.tsx:54-56 | (of `AgentTraces.TracePath`) the row's route is "/trace/" followed by the id, distinct ids give distinct routes, and no sidebar section is active there |
| Policies.MockPolicies | src/mock-data/policies.ts:3-57 | the fixture holds six policies |
| Policies.MockPolicyIdsDistinct | src/mock-data/policies.ts:3-57 | the fixture ids are distinct |
| Policies.MockPoliciesTriggers | src/mock-data/policies.ts:3-57 | only policy-5 is disabled, exactly it has never triggered, and the others triggered within the past week |
| Policies.TogglePolicySpec | src/pages/Policies.tsx:22-28 | (of `Policies.TogglePolicy`) toggling keeps length and id order, negates `enabled` of the matching policies leaving their other fields, and leaves the others unchanged |
| Policies.TogglePolicyTwice | src/pages/Policies.tsx:22-28 | toggling the same id twice restores the list |
| Policies.TogglePolicyAbsent | src/pages/Policies.tsx:22-28 | toggling an id no policy has changes nothing |
| Policies.PoliciesPage.constructor | src/pages/Policies.tsx:20 | the page starts with the fixture list |
| Policies.PoliciesPage.HandleToggle | src/pages/Policies.tsx:22-28 | the state becomes the toggled list |
| Guardrails.MockGuardrails | src/mock-data/policies.ts:59-88 | the fixture holds four guardrails |
| Guardrails.MockGuardrailsFacts | src/mock-data/policies.ts:59-88 | the fixture ids are distinct and every guardrail starts enabled |
| Guardrails.ToggleGuardrailSpec | src/pages/Guardrails.tsx:12-18 | (of `Guardrails.ToggleGuardrail`) toggling keeps length and id order, negates `enabled` of the matching guardrails leaving their other fields, and leaves the others unchanged |
| Guardrails.ToggleGuardrailTwice | src/pages/Guardrails.tsx:12-18 | toggling the same id twice restores the list |
| Guardrails.ToggleGuardrailAbsent | src/pages/Guardrails.tsx:12-18 | toggling an id no guardrail has changes nothing |
| Guardrails.GuardrailsPage.constructor | src/pages/Guardrails.tsx:10 | the page starts with the fixture list |
| Guardrails.GuardrailsPage.HandleToggle | src/pages/Guardrails.tsx:12-18 | the state becomes the toggled list |
| Settings.InitialSettingsValues | src/pages/Settings.tsx:9-16 | every switch starts on except the Slack integration |
| Settings.SettingsExtensionality | src/pages/Settings.tsx:9-16 | two settings records that agree at every key are equal |
| Settings.ToggleSpec | src/pages/Settings.tsx:18-20 | (of `Settings.Toggle`) a toggle negates its key and leaves every other key unchanged |
| Settings.ToggleTwice | src/pages/Settings.tsx:18-20 | toggling a key twice restores the settings |
| Settings.ToggleCommutes | src/pages/Settings.tsx:18-20 | toggles of two keys commute |
| Settings.SettingsPage.constructor | src/pages/Settings.tsx:9-16 | the page starts with the initial settings |
| Settings.SettingsPage.HandleToggle | src/pages/Settings.tsx:18-20 | the state becomes the toggled record |
| StatusBadge.StatusStylesFollowNames | src/components/ui/StatusBadge.tsx:10-14 | every status style is "badge-" followed by the status's written form |
| StatusBadge.SeverityStylesFollowNames | src/components/ui/StatusBadge.tsx:41-46 | every severity style is "badge-" followed by the severity's written form |
| StatusBadge.StatusLabelsHumanizeNames | src/components/ui/StatusBadge.tsx:16-20 | each status label is its written form capitalised |
| StatusBadge.SeverityLabelsHumanizeNames | src/components/ui/StatusBadge.tsx:48-53 | each severity label is its written form capitalised |
| StatusBadge.TypeLabelsHumanizeNames | src/components/ui/StatusBadge.tsx:74-89 | (of `StatusBadge.TypeLabel`) each known type's label is its written form with underscores as spaces and each word capitalised |
| StatusBadge.HumanizedTypeLabel | src/components/ui/StatusBadge.tsx:74-80 | every label in the type table is its key with underscores as spaces and each word capitalised |
| StatusBadge.LabelsDistinct | src/components/ui/StatusBadge.tsx:16-53 | distinct statuses (severities) get distinct labels |
| StatusBadge.UnknownTypeShownRaw | src/components/ui/StatusBadge.tsx:89 | (of `StatusBadge.TypeLabel`) a string that is none of the five types is shown unchanged |
| MetricCard.IndicatorCases | src/components/ui/MetricCard.tsx:20-40 | (of `MetricCard.Indicator`) no change shows nothing, zero shows only "No change", a non-zero change shows only a trend whose number is its positive absolute value |
| MetricCard.TrendDirection | src/components/ui/MetricCard.tsx:24-31 | (of `MetricCard.Indicator`) a reported decrease gets a down arrow in the success colour; anything else, including no type, an up arrow in the destructive colour |

## Left out

- React rendering: JSX trees, class-name strings and icons beyond the choices listed above, and the scheduling of state updates. An effect is modelled as one step run after each event; `AppSidebar.SyncSettles` shows a second run would change nothing.
- Radix `Collapsible`: what happens after `defaultOpen` belongs to the library, which is not part of this model.
- `NavLink` active styling: react-router's matching is not part of this model. Only the `end` flag is.
- The sidebar context (`useSidebar`) is not part of this model. Its `open`, `setOpen` and `isMobile` are plain state and events here.
- `Math.random()`: every draw is a parameter in [0, 1). Real arithmetic replaces the double-precision product.
- MockTraces.MakeTrace: the duration draws are not modelled. Neither is the short-circuit that skips the warning draw after an error, since each draw is an independent parameter.
- The clock: `Date.now()` and `new Date()` are parameters. One reading `now` stands for every call in a fixture or generated list, although the source reads the clock afresh for each element. So are the hour and day-of-month fields the date setters read, because the calendar is not modelled. Daylight-saving shifts are ignored, so a day is always 24 hours.
- The free-form `metadata` record of a trace step (src/mock-data/traces.ts lines 44, 55 and 66) is left out: it is opaque key-value data that no modelled operation reads.
- Floating point: trace and step durations, `completedAt`, `toFixed` formatting, the metric value, and the dashboard figures are left out.
- Date formatting comes from date-fns, which is not part of this model.
- `toLowerCase` maps only the ASCII letters A-Z. Unicode case folding is not modelled.
- StatusBadge.TypeLabel: a type string that names a property inherited by every JavaScript object (such as "constructor") would reach a function rather than a label. The model treats such a string as unknown.
- The detail pages, the reliability and risk dashboards and the models page are left out. They only render data, with not-found guards.
- The dashboard fixtures are left out. They are static data with no behaviour.
- `App.tsx`, the header, the layout and the filter bar are left out. They are markup and react-router's route table.
- The pages' lists are arguments, not the module-level mock constants. The generators take one draw record per element, and the source makes 25 incidents and 50 traces.
