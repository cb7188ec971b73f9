# Services page unit store, page status and superuser state

This project models the core of the Cockpit "Services" page:

- **The unit store of `ServicesPage`.**
  - It keeps one record per unit object path (`unit_by_path`) and an index from unit name to path (`path_by_id`).
  - It merges property deltas from the systemd bus into records (`updateProperties`) and computes the derived fields of a record (`HasFailed`, `CombinedState`, `AutomaticStartup` and its key).
  - It fills in the extra properties of active sockets and timers.
  - It lists units in three phases: `ListUnits`, `ListUnitFiles` and `LoadUnit`. It then prunes the records that were not seen. While the page is hidden it lists only failed units.
  - It reacts to `PropertiesChanged`, `JobNew`/`JobRemoved`, `Reloading` and visibility changes.
  - It summarises failed units into tab error marks and the page status.
  - It filters and sorts the rows shown on a tab.
- **`PageStatus`.** It publishes the page's own status (`set_own`) only when the status differs. It reads the statuses of all pages from session storage (`get`).
- **The `Superuser` state machine.** It computes whether the session may act as administrator and emits "changed" and "reconnect" events. Once the page asks for it, it reloads the page instead of changing a known value.

## Structure

Each file is one module:

| file | module | contents |
|---|---|---|
| `option.dfy` | `Opt` | the `Option` type |
| `order.dfy` | `Order` | the string order and JavaScript's `sort()` on string arrays, as values |
| `names.dfy` | `UnitNames` | unit-name tests: handled kinds, templates, the tab regular expression, the text filter |
| `units.dfy` | `Units` | the record and store datatypes, the derived fields, the property merge |
| `enrich.dfy` | `Enrich` | the socket and timer enrichment |
| `failures.dfy` | `Failures` | the failure summary |
| `view.dfy` | `View` | the filtered, sorted list of rows |
| `sync.dfy` | `Sync` | the listing phases, the pruning and the signal handlers, as functions on a `Page` value |
| `notifications.dfy` | `Notifications` | the `PageStatus` class |
| `superuser.dfy` | `Superuser` | the `SuperuserState` class and its step function |
| `services.dfy` | `Services` | the `ServicesPage` class |

### How the classes are tied to the specifications

- **`Units.ApplyDelta`** specifies `updateProperties`. The merge is a fold over the tracked field names.
- **`Sync`** specifies each listing phase as a fold over the bus reply's rows. The methods of `Services.ServicesPage` loop over the same rows. Each method's `ensures` states that the new store equals the fold.
- **`Snapshot()` and `Abstract()`** map the class fields to those values.
- **Bus replies are parameters.** A `Bus` value holds the replies of `ListUnits`, `ListUnitFiles`, `ListUnitsFiltered`, `LoadUnit` and `GetAll`. `None` stands for a call that failed.
- **Order of execution.** Promises run in program order. `setState` takes effect at once.

### JavaScript semantics written out

- **Object key order.** The order in which `unit_by_path` keys are first inserted is kept in `order`. The failure list follows it.
- **Array comparison and sorting.**
  - `JSON.stringify(a.sort()) == JSON.stringify(b.sort())` is modelled as multiset equality.
  - The in-place sort of the stored array is kept as the record's `inPlace` properties. It is written back even when no change is committed.
- **`substr(lastIndexOf(c) + 1)`** gives the text after the last `c`, or the whole name.
- **Delivered properties.** Every delivered property is a bus variant object, which is always truthy. So every delivered property is merged, empty strings, `false` and `0` included. Truthiness matters in two places only:
  - an empty `Id` binds no name;
  - an empty unit file state gives no startup text.

## Model

| member | source | states |
|---|---|---|
| Order.SortStrings | src/components/services.jsx:536 | `sort()` on a string array returns a sorted permutation of it |
| Order.SortedUnique | src/components/services.jsx:536 | two sorted arrays with the same elements are equal, so the sorted form is unique |
| Order.SortStringsEqualIff | src/components/services.jsx:536 | comparing two sorted arrays is equal exactly when the arrays hold the same multiset of strings |
| Order.SortStringsIdempotent | src/components/services.jsx:536 | sorting a sorted array again changes nothing |
| Order.SortedFixed | src/components/services.jsx:536 | a sorted array is its own sort, so re-sorting the stored array in place leaves it as it is |
| Order.LeqTotal | src/components/services.jsx:401 | the name order compares any two names |
| Order.LeqTransitive | src/components/services.jsx:401 | the name order is transitive |
| Order.LeqAntisymmetric | src/components/services.jsx:401 | names that sort both ways are equal |
| UnitNames.IndexOf | src/components/services.jsx:256 | the first position of the character, or -1 exactly when it is absent |
| UnitNames.LastIndexOf | src/components/services.jsx:257 | the last position of the character, or -1 exactly when it is absent |
| UnitNames.SuffixOfDotted | src/components/services.jsx:211 | the kind of "prefix.kind" is the text after the last dot, whatever the prefix holds |
| UnitNames.BaseNameAfterDir | src/components/services.jsx:299 | the unit name taken from "dir/name" is the name |
| UnitNames.IsUnitHandledIff | src/components/services.jsx:210-213 | a name is handled exactly when the text after its last dot (or the whole undotted name) is one of the tab kinds |
| UnitNames.HandledKinds | src/components/service-tabs.jsx:9-15 | "anything.kind" is handled for each of service, target, socket, timer, path |
| UnitNames.UnhandledKind | src/components/services.jsx:210-213 | a dotted name whose last part is not a tab kind is not handled |
| UnitNames.ServiceIsHandled | src/components/services.jsx:210-213 | "foo.service" is handled |
| UnitNames.MountIsNotHandled | src/components/services.jsx:210-213 | "foo.mount" is not handled |
| UnitNames.TemplateShape | src/components/services.jsx:255-259 | "prefix@.kind" is a template |
| UnitNames.InstanceShape | src/components/services.jsx:255-259 | "prefix@instance.kind" with a non-empty instance is not a template |
| UnitNames.NoAtNoTemplate | src/components/services.jsx:255-259 | a name without "@" is never a template |
| UnitNames.TemplateExamples | src/components/services.jsx:255-259 | "foo@.service" is a template and "foo@bar.service" is not |
| UnitNames.HandledNameMatchesOwnTab | src/components/services.jsx:731 | every "prefix.kind" matches the tab of its kind |
| UnitNames.TabRegexQuirk | src/components/services.jsx:731 | the tab regular expression's "." matches any character: "a.myservice" is shown on the service tab although it is not handled |
| Units.TrackedFacts | src/components/services.jsx:546-580 | the tracked fields are distinct and include "Id"; "UnitFileState" is tracked exactly when the file state is to be updated |
| Units.MergeAt | src/components/services.jsx:531-544 | field by field, a visited and delivered field takes the delivered value unless it is an equal scalar or the same array up to order; untracked or undelivered fields keep the stored value |
| Units.MergeChanged | src/components/services.jsx:531-544 | the merge reports a change exactly when some tracked field is delivered with a different value |
| Units.MergeIgnores | src/components/services.jsx:546-580 | a field the merge does not visit can be dropped from the delta without effect |
| Units.ApplyFrame | src/components/services.jsx:523-620 | `updateProperties` keeps the store consistent; it changes only the record at the path and the binding of the delta's name |
| Units.ApplyCommitsIffChanged | src/components/services.jsx:525-545 | the record is committed exactly when the first guard passes and some delivered tracked field differs |
| Units.ApplyReorderedArrayUnchanged | src/components/services.jsx:533-538 | an array delivered in another order than the stored one is no change |
| Units.ApplyIgnoresFileState | src/components/services.jsx:540-553 | without the update-file-state flag, a delivered "UnitFileState" has no effect at all |
| Units.ApplyTakesFileState | src/components/services.jsx:553 | with the flag set, a differing "UnitFileState" is committed and stored |
| Units.ApplyLands | src/components/services.jsx:525-619 | a delta that passes the first guard leaves a record at its path |
| Units.ApplyAgrees | src/components/services.jsx:531-544 | afterwards the record at the path agrees with every delivered tracked field |
| Units.ApplyBinds | src/components/services.jsx:527 | a non-empty delivered name is bound to the path |
| Units.InPlaceSameUpToOrder | src/components/services.jsx:536 | sorting the stored arrays in place keeps the record the same up to array order |
| Units.ApplyUncommitted | src/components/services.jsx:612 | when nothing changed, nothing is committed; only the name binding and the in-place array sort take effect |
| Units.ApplyNoop | src/components/services.jsx:612 | with nothing to change, nothing to sort and the name already bound, the store is left as it was |
| Units.ApplyTwice | src/components/services.jsx:523-620 | applying the same delta a second time commits nothing and changes no other record, binding or order |
| Units.ApplyTwiceSorts | src/components/services.jsx:536 | the second application leaves the record the same up to array order |
| Units.ApplyThrice | src/components/services.jsx:523-620 | a third application of the same delta leaves the store exactly as it was |
| Units.StartupPrefixesExclusive | src/components/services.jsx:496-510 | the enabled, disabled and static prefixes exclude one another |
| Units.WithDerivedIdempotent | src/components/services.jsx:480-521 | recomputing the derived fields of a record gives the same fields |
| Units.WithDerivedReadsStrings | src/components/services.jsx:480-521 | the derived fields depend only on the string values of LoadState, ActiveState and UnitFileState |
| Units.ApplyKeepsDerivedFresh | src/components/services.jsx:582 | if every stored record's derived fields agree with its properties, they still do after `updateProperties` |
| Units.CommittedRecordDerived | src/components/services.jsx:480-521 | on a committed record: HasFailed exactly when failed or loaded abnormally; Running exactly when active or activating; Failed to start exactly when failed; the load-state note exactly when loaded abnormally; the startup text Enabled, Disabled or Static with its key for those file-state prefixes, the raw file state for any other non-empty one and none for an empty or missing one |
| Units.StartupKeyIsSticky | src/components/services.jsx:495-513 | an enabled unit whose file state becomes "linked" shows "linked" but keeps the startup key "enabled" |
| Enrich.NextRun | src/components/services.jsx:440-452 | the next run uses the monotonic deadline plus boot time when there is no realtime deadline, the realtime deadline when there is no monotonic one, and otherwise the earlier of the two |
| Enrich.NextRunPicksEarlier | src/components/services.jsx:445-452 | with both deadlines set, the earlier one wins and a tie goes to the realtime deadline |
| Enrich.MonotonicTimerExample | src/components/services.jsx:432-442 | a timer 600 s after boot, with a known clock, runs at the expected wall-clock time |
| Enrich.Commit | src/components/services.jsx:469-476 | an enriched record is stored under its own path, with the name index unchanged |
| Enrich.CommitKeepsValid | src/components/services.jsx:469-476 | storing an enriched record keeps the store consistent and changes no other record |
| Enrich.EnrichmentKeepsDerivedFresh | src/components/services.jsx:404-477 | the enrichment fills in only timer or socket fields, so the derived fields stay fresh |
| Enrich.NeverTriggeredShowsUnknown | src/components/services.jsx:434-439 | a timer that never fired shows "unknown" as its last trigger and is stored |
| Enrich.NoDeadlineShowsUnknown | src/components/services.jsx:459-467 | a timer without deadlines shows "unknown" as its next run and is stored |
| Enrich.TimerEnrichmentIdempotent | src/components/services.jsx:422-477 | a record that already shows the timer's times is not stored again |
| Enrich.SocketEnrichment | src/components/services.jsx:404-420 | the socket's Listen is stored exactly when it differs, and enriching twice stores nothing the second time |
| Enrich.LateEnrichmentReinserts | src/components/services.jsx:469-476 | an enrichment that completes after its record was pruned puts the record back, at the end of the order |
| Failures.ScanDistinct | src/components/services.jsx:637-647 | the failed-name set holds each name once |
| Failures.ScanIds | src/components/services.jsx:640-648 | the scan lists exactly the names of the failed, found records of handled kinds among the scanned paths |
| Failures.ScanMarks | src/components/services.jsx:640-648 | the scan marks exactly the kinds of those records |
| Failures.TabErrorsIff | src/components/services.jsx:638-650 | a kind is marked exactly when some stored record of that kind is failed and found |
| Failures.FailedIdsIff | src/components/services.jsx:636-649 | the failure list names each reported unit once, and exactly those |
| Failures.FailureStatusIff | src/components/services.jsx:652-667 | the page status is cleared exactly when no record is reported; otherwise it is an error titled with the number of listed names (singular or plural form) and carrying the failure list as details |
| Failures.MarksMatchList | src/components/services.jsx:640-648 | every error mark belongs to a tab kind and comes with a listed name of that kind |
| Failures.TitleForms | src/components/services.jsx:655-661 | one failure gives the singular title and twelve give the plural |
| View.BeforeTotal | src/components/services.jsx:392-401 | `compareUnits` orders any two rows |
| View.BeforeTransitive | src/components/services.jsx:392-401 | `compareUnits` is transitive |
| View.BeforeAntisymmetric | src/components/services.jsx:392-401 | rows that sort both ways have the same name |
| View.SortEntries | src/components/services.jsx:759 | the sorted rows are a permutation of the filtered rows, sorted by `compareUnits` |
| View.FilteredIff | src/components/services.jsx:719-758 | a row is kept exactly when its name is known and maps to a record that passes the tab, not-found, text and startup-type tests |
| View.FilteredDistinct | src/components/services.jsx:719-758 | the filtered rows hold each row once |
| View.SortedEntriesUnique | src/components/services.jsx:759 | two sorted row lists with the same rows, keyed by name, are the same list |
| View.VisibleMembership | src/components/services.jsx:719-759 | the shown list holds exactly the shown names, each with its record |
| View.VisibleOrder | src/components/services.jsx:392-401 | failed units come first, and within each group names ascend |
| View.VisibleOrderIndependent | src/components/services.jsx:719-759 | the shown list does not depend on the order in which the page's names are enumerated |
| View.ShownFromNameIndex | src/components/services.jsx:719-758 | enumerating the keys of the name index, the shown list holds exactly the shown names, each with its record and none twice |
| View.NotFoundHidden | src/components/services.jsx:736 | a record whose load state is "not-found" is never shown |
| View.UnhandledKindOnServiceTab | src/components/services.jsx:727-734 | a unit whose name only contains the tab's kind is shown on that tab |
| Sync.KeepSeen | src/components/services.jsx:347-356 | the kept order holds exactly the seen paths of the old order |
| Sync.KeepSeenDistinct | src/components/services.jsx:347-356 | the kept order has no repeats |
| Sync.ApplyGrows | src/components/services.jsx:523-620 | `updateProperties` keeps the store consistent and never drops a record |
| Sync.RuntimePhaseStores | src/components/services.jsx:273-293 | the `ListUnits` phase keeps the store consistent; every handled row's path ends up seen and stored |
| Sync.FilePhaseGrows | src/components/services.jsx:295-339 | the `ListUnitFiles` phase keeps the store consistent and only grows it |
| Sync.FetchGrows | src/components/services.jsx:625-634 | `getUnitByPath` keeps the store consistent and never drops a record |
| Sync.LoadPhaseStores | src/components/services.jsx:318-338 | the `LoadUnit` phase keeps the store consistent; every loaded path ends up seen |
| Sync.PruneFacts | src/components/services.jsx:341-360 | pruning keeps exactly the seen records unchanged, drops every name bound to a dropped record and keeps the store consistent |
| Sync.ListingOutcome | src/components/services.jsx:261-371 | a completed full listing ends loading and marks the page fully loaded; it stores only seen paths, every handled runtime unit and every loaded unit file |
| Sync.ListingFailureKeepsLoading | src/components/services.jsx:365-370 | a failed `ListUnits` call leaves the page loading, so later property signals and reload signals are ignored |
| Sync.RuntimeIngestsHandled | src/components/services.jsx:275-292 | a handled runtime row adds its path to the store and the seen set |
| Sync.FailedRowPhaseStores | src/components/services.jsx:227-248 | the background listing keeps the store consistent and only grows it; every handled failed unit whose file was found ends up seen and stored |
| Sync.NotFoundRowSkipped | src/components/services.jsx:233-234 | a failed row whose load state is "not-found" is skipped |
| Sync.ListFailedOutcome | src/components/services.jsx:222-253 | a failed call changes nothing; otherwise nothing is pruned or forgotten, the loading flags stay, every handled failed unit whose file was found is stored and seen, and the marks and status describe the new store |
| Sync.TemplateFilesSkipped | src/components/services.jsx:304 | template unit files are skipped |
| Sync.RuntimeTakesInstance | src/components/services.jsx:279 | a runtime-listed template instance is taken in |
| Sync.UnhandledSkipped | src/components/services.jsx:302 | rows of unhandled kinds are skipped by the runtime, failed and file listings |
| Sync.JobSignalOutcome | src/components/services.jsx:156-169 | for any unit `LoadUnit` resolves, of any kind: its path is seen, the store stays consistent and only grows, the unit is stored once its properties arrive with a name, the loading flags stay and the summary describes the new store; an unresolved unit changes nothing |
| Sync.JobSignalAdmitsAnyKind | src/components/services.jsx:156-169 | an instance of the above: a mount unit, which no listing takes in, is stored and seen after a job signal |
| Sync.ProcessFailedDescribesStore | src/components/services.jsx:636-668 | the summary sets the marks and the status from the store, sends at most one notification and leaves the store alone |
| Sync.ProcessFailedIdempotent | src/components/services.jsx:636-668 | summarising twice sends nothing the second time |
| Services.ServicesPage.constructor | src/components/services.jsx:64-99 | a new page stores nothing, has seen nothing, is neither loading nor loaded and is consistent |
| Services.ServicesPage.MergeFields | src/components/services.jsx:531-580 | the `prop` loop computes the merge of the tracked fields |
| Services.ServicesPage.UpdateProperties | src/components/services.jsx:523-620 | the new store and the scheduled enrichment are those of `ApplyDelta`; nothing else changes and the store stays consistent |
| Services.ServicesPage.StoreMerged | src/components/services.jsx:584-619 | the record is stored, and its path appended to the order when it is new, exactly when the merge changed; the enrichment is scheduled from the record's kind and state |
| Services.ServicesPage.GetUnitByPath | src/components/services.jsx:625-634 | the `GetAll` reply is merged when the call succeeds |
| Services.ServicesPage.ProcessFailedUnits | src/components/services.jsx:636-668 | the marks, status and notifications are those of the failure summary of the store |
| Services.ServicesPage.PruneUnseen | src/components/services.jsx:341-360 | the store becomes the pruned store |
| Services.PruneLoop | src/components/services.jsx:343-356 | the loop keeps exactly the seen records and the names bound to them |
| Services.PruneStore | src/components/services.jsx:341-357 | the pruned copy of a consistent store is the store `Prune` describes |
| Services.ServicesPage.ListFailedUnits | src/components/services.jsx:222-253 | the page becomes the one `listFailedUnits` describes |
| Services.ServicesPage.ListFailedRows | src/components/services.jsx:227-248 | the store and seen set become the fold of the failed-row step over the reply |
| Services.ServicesPage.ListRuntimeUnits | src/components/services.jsx:275-293 | the store and seen set become the fold of the runtime step over the reply |
| Services.ServicesPage.ListFileUnits | src/components/services.jsx:297-339 | the store, seen set and load queue become the fold of the file step over the reply |
| Services.ServicesPage.ListFileRow | src/components/services.jsx:298-338 | one unit-file row is skipped, merged or queued as the file step says |
| Services.ServicesPage.LoadPending | src/components/services.jsx:318-338 | the store and seen set become the fold of the load step over the queue |
| Services.ServicesPage.ListUnits | src/components/services.jsx:261-371 | the page becomes the one `listUnits` describes, for a hidden or visible page |
| Services.ServicesPage.OnPropertiesChanged | src/components/services.jsx:143-154 | the page follows the signal handler, which is ignored while loading |
| Services.ServicesPage.OnJobSignal | src/components/services.jsx:156-169 | the page follows the job signal handler |
| Services.ServicesPage.OnReloadingSignal | src/components/services.jsx:172-178 | the page relists only when the reload is over and no listing runs |
| Services.ServicesPage.OnVisibility | src/components/services.jsx:126-135 | a page that becomes visible and is not fully loaded relists |
| Services.ServicesPage.CommitRecord | src/components/services.jsx:469-476 | the enriched record is stored under its own path |
| Services.ServicesPage.AddSocketProperties | src/components/services.jsx:404-420 | the store becomes the one the socket enrichment describes |
| Services.ServicesPage.AddTimerProperties | src/components/services.jsx:422-477 | the store becomes the one the timer enrichment describes |
| Services.RenderLastTrigger | src/components/services.jsx:425-439 | the last trigger shows "unknown" for a timer that never fired, else its calendar time; the change flag is set exactly when the shown value differs or the timer never fired |
| Services.RenderNextRun | src/components/services.jsx:440-467 | the next run shows "unknown" without deadlines, else the calendar time of the chosen deadline; the change flag is set exactly when the shown value differs or there is no deadline |
| Notifications.PageStatus.constructor | src/utils/notifications.js:5-20 | a new page status holds no status of its own, is not valid and has sent nothing |
| Notifications.PageStatus.TransportReady | src/utils/notifications.js:16-19 | lookups become valid and one "changed" event is dispatched |
| Notifications.PageStatus.OnStorage | src/utils/notifications.js:7-11 | only the page-status storage key dispatches "changed" |
| Notifications.PageStatus.SetOwn | src/utils/notifications.js:40-45 | the held status and the notifications sent follow `set_own` |
| Notifications.PageStatus.Get | src/utils/notifications.js:22-38 | undefined exactly when not valid; a status exactly when the storage parses and holds the page on the host (default: the transport's host); null otherwise |
| Notifications.SetOwnSameIsSilent | src/utils/notifications.js:41 | setting the status already held sends nothing and changes nothing |
| Notifications.SetOwnDifferentSendsOnce | src/utils/notifications.js:41-44 | a different status is taken over and sent exactly once |
| Notifications.SetOwnTwice | src/utils/notifications.js:40-45 | the same status set twice sends at most one notification |
| Notifications.SetOwnAllDeduplicates | src/utils/notifications.js:40-45 | over any run of calls, the notifications are no more than the calls, never repeat back to back, start with a change from the held status, end with the held status and come from the calls |
| Superuser.ComputeAllowed | src/utils/superuser.js:9-12 | unknown exactly when the proxy is invalid or initialising; otherwise allowed exactly when the current mode is not "none" |
| Superuser.SuperuserState.constructor | src/utils/superuser.js:14-17 | the initial value is the proxy's answer, with the reload flag off and nothing emitted |
| Superuser.SuperuserState.Changed | src/utils/superuser.js:21-32 | the state and the emitted events follow the `changed` step |
| Superuser.SuperuserState.ReloadPageOnChange | src/utils/superuser.js:50-52 | the reload flag is switched on and nothing else changes |
| Superuser.SuperuserState.OnProxyChanged | src/utils/superuser.js:46-48 | a proxy change runs `changed` with the recomputed value |
| Superuser.ChangeToSameIsNoop | src/utils/superuser.js:22 | a change to the value already held emits nothing |
| Superuser.ChangeReloads | src/utils/superuser.js:23-24 | with a known value and the flag set, a different value reloads the page and keeps the state |
| Superuser.ChangeUpdates | src/utils/superuser.js:25-30 | otherwise the value is taken over and "changed" is emitted, followed by "reconnect" exactly when the old value was known |
| Superuser.LeavingUnknownNeverReloads | src/utils/superuser.js:21-32 | leaving the unknown state never reloads the page |
| Superuser.ReloadFlagSticky | src/utils/superuser.js:50-52 | once set, the reload flag stays set |
| Superuser.KnownValueFrozenUnderReload | src/utils/superuser.js:21-32 | with the flag set and a known value, the state never changes again and only reloads are emitted |
| Superuser.ServicesPageSetup | src/components/services.jsx:34 | with the flag set at load time, the first known value is taken over and the next different value reloads the page |

## Left out

- Rendering: the React components, JSX, tabs, toolbar, dialogs and `shouldComponentUpdate` are not modelled. `setState` is modelled as taking effect at once. React batching and updater functions are not modelled.
- The D-Bus transport is not modelled. Every bus reply is a parameter (`Bus`). Proxies, `wait`, subscriptions and the `Subscribe` call are left out. So are the error logging of failed calls and the interleaving of concurrent promises: the replies are applied in program order.
- `updateTime` and `/proc/uptime` are not modelled. The clock reference is a parameter (`ClockRef`).
- `moment(...).calendar()` is modelled as an injective rendering `Calendar(usec)`. Locale-dependent formatting is left out.
- `gettext` and `ngettext` are not modelled. The translated strings are the English ones, and the plural form follows the English rule.
- `localeCompare` is replaced by comparing character codes from the left. Locale collation is left out.
- `toLowerCase` lowers ASCII letters only.
- `UnitNames.MatchesTab` models `id.match(".<tab>$")` only for a tab name without regular-expression metacharacters. The active tab comes from the URL (`cockpit.location.options.type`, services.jsx lines 202-203). Tab names supplied through the URL that hold metacharacters are left out.
- Loose equality between values of different JavaScript types is left out. A delivered value equals the stored one only when both are the same kind of value.
- `Units.Value` has no case for arrays of structures. So `Conditions` (services.jsx line 577), an array of tuples that the source compares as the JSON text of a `sort()` ordered by each element's string form, is not represented. The model holds only string arrays, strings, booleans and numbers.
- `Services.ServicesPage.AddTimerProperties` always computes the timer's times from its clock parameter. In the source, `clock_realtime_now` is undefined until `updateTime` has completed (services.jsx lines 40 and 57). A timer enrichment that arrives before then throws at line 433, and the record is not stored. The model does not capture that early failure.
- A record without an `Id` would make `unitNew.Id.endsWith` throw. This is not modelled: every stored record has a name, because a record only gets in with one.
- The socket `Listen` comparison by `JSON.stringify` is modelled as equality of the endpoint sequence.
- The fallback of `superuser.js` lines 34-44 to `cockpit.permission` is not modelled. It calls `changed` with the permission's value, which `Superuser.SuperuserState.Changed` covers.
- `Notifications.PageStatus.Get` treats any stored status as present. The `|| null` for a falsy stored status is not modelled, because statuses are objects.
- `on_navigate`, `onPermissionChanged` and the filter-input handlers only copy values into the render state. They are not modelled.
- The store's `order` records the insertion order of paths. It stands for JavaScript's key order of `unit_by_path`. Object keys that look like integers, which JavaScript enumerates first, are left out, because object paths start with "/".
