# Destinations routing service, modelled in Dafny

This project models the destinations service of the Jitsu event server
(`server/destinations/service.go`), together with the label extraction of its
metrics package (`extractLabels` in `server/metrics/prometheus.go`).

The service keeps the following state:

- the registry of live destination units (`unitsByName`);
- one shared incoming logger per token ID, with a count of the batch
  destinations that use it (`loggersUsageByTokenID`);
- three token-keyed routing maps: consumers, storages and destination IDs.

`init` reconciles this state against each new configuration snapshot in
three phases:

1. It closes and removes the units that the snapshot no longer names.
2. It keeps the unchanged units. It removes and recreates the changed ones,
   and creates the new ones.
3. It merges the new routing entries into the live maps.

`remove` unwinds one unit token by token. The accessors read the maps, and
`Close` closes every logger and every unit.

## Files

- `wrappers.dfy`: `Option` and `Result`.
- `units.dfy` (module `Units`):
  - destination configurations and units;
  - the collaborators, modelled as function values: the storage factory, the
    logger factory, the authorization service's token lookups, `getHash`, and
    the errors that closing reports;
  - `ReconciledUnits`, the registry that a reconciliation should leave.
- `tokenized.dfy` (module `Tokenized`): the token-keyed two-level maps
  (`TokenizedConsumers`, `TokenizedStorages`, `TokenizedIDs`) and their
  `Add`, `AddAll` and delete-then-drop-if-empty operations.
- `routing.dfy` (module `Routing`):
  - the routing tables;
  - the bodies of `remove`'s token loop (`UnregisterToken`,
    `UnregisterAll`) and of `init`'s token loop (`RegisterToken`,
    `RegisterAll`);
  - the invariant `Inv`. It says the tables are exactly what the live units
    register, and that each logger's usage equals the number of batch
    registrations holding it.
- `registry.dfy` (module `Registry`):
  - the service invariant `Consistent`;
  - the lemmas showing that `remove`, admitting a unit and the final merge
    keep it;
  - what the accessors then return;
  - what removing a staged batch unit does.
- `reconcile.dfy` (module `Reconciliation`):
  - value-level specifications of one `remove` (`Drop`), one creation
    (`Create`), one step of `init`'s configuration loop (`Step`), its
    removal loop (`RemoveAll`), its configuration loop (`StepAll`) and a
    whole cycle (`Reconcile`);
  - the lemmas about them.
- `destinations.dfy` (module `Destinations`):
  - the `Service` class, whose methods update its fields in place and are
    proved equal to those specifications;
  - the accessors;
  - `Close` and the lemmas about what it closes and reports.
- `sources.dfy` (module `Sources`): `NewService`'s check of the reload
  interval and its classification of the destinations source.
- `metrics.dfy` (module `Metrics`): `extractLabels` and the `strings.Split`
  it relies on.

The effects that the service has on the world are recorded in an append-only
log field, `effects`. They are:

- a call to the storage factory;
- the creation of a logger;
- the closing of a logger;
- the closing of a unit.

Go's unordered map iteration is modelled by an arbitrary choice of the next
key. The methods return the order they used as ghost sequences (`gone`,
`order`, `tokens`, `names`). Their specifications hold for every order.

## Model

| member | source | states |
|---|---|---|
| Metrics.Split | server/metrics/prometheus.go:109 | `strings.Split` yields at least one part, no part contains the separator, and joining the parts with the separator gives back the input |
| Metrics.SplitWithoutSeparator | server/metrics/prometheus.go:109 | a string without the separator splits into itself alone |
| Metrics.SplitAtFirst | server/metrics/prometheus.go:109 | the first part ends at the first separator and the rest is the split of what follows it |
| Metrics.SplitJoin | server/metrics/prometheus.go:109 | splitting the join of separator-free parts gives back exactly those parts (round trip) |
| Metrics.ExtractLabels | server/metrics/prometheus.go:108-115 | a name without `.` yields project `"-"` and the name itself; a name with `.` yields two labels without `.` |
| Metrics.ExtractLabelsUnsplit | server/metrics/prometheus.go:114 | a name without `.`, the empty name included, labels as (`"-"`, name) |
| Metrics.ExtractLabelsSplit | server/metrics/prometheus.go:109-112 | a name with `.` labels as (text before the first `.`, text between the first and the second `.` or to the end) |
| Sources.IndexOf | server/destinations/service.go:92-93 | the result is -1 or an occurrence, and no occurrence comes before it |
| Sources.ContainsOccurs | server/destinations/service.go:92 | `strings.Contains` holds exactly when the pattern occurs somewhere |
| Sources.ReplaceFirst | server/destinations/service.go:93 | the first occurrence of the pattern is replaced and the text before and after it is kept; a string without the pattern is returned unchanged |
| Sources.ClassifySource | server/destinations/service.go:89-98 | an http(s) prefix is watched over HTTP; otherwise `file://` anywhere or a leading `/` is a watched file, with the first `file://` removed; otherwise `{...}` is an inline payload; anything else fails as an unknown source naming it (each case stated in both directions) |
| Sources.StartupPlan | server/destinations/service.go:71-101 | a zero reload interval fails, and only it fails that way; otherwise a parsed section is applied, an empty source is "not configured", and any other source is classified |
| Sources.FileUrlPath | server/destinations/service.go:92-93 | `file://<path>` is watched as `<path>` |
| Sources.AbsolutePath | server/destinations/service.go:92-93 | an absolute path without `file://` is watched as it is |
| Sources.LiteralMentioningFileScheme | server/destinations/service.go:92-94 | the file check comes before the literal check: every `{...}` descriptor containing `file://` is watched as a file, with its first `file://` removed, and never applied as a literal |
| Units.ReconciledUnits | server/destinations/service.go:185-230 | after a cycle only snapshot names remain; an unchanged unit is kept; a changed or new destination with no resolved token, or whose creation fails, has no unit; otherwise it has the new unit with its resolved tokens and new hash |
| Units.ReconcileTwice | server/destinations/service.go:162-230 | a second cycle on the same snapshot, with a storage factory that answers each configuration the same way, removes nothing, finds every unit unchanged and leaves the registry as it is |
| Units.ReconcileAgain | server/destinations/service.go:162-230 | a second cycle on the same snapshot whose storage factory may answer differently removes nothing and keeps every unit; it adds units only for destinations whose creation failed the first time, and retries exactly the destinations with tokens that have no unit |
| Tokenized.Add | server/destinations/service.go:245-264 | adding sets exactly the one entry and keeps every other; the maps stay free of empty inner maps |
| Tokenized.AddAll | server/destinations/service.go:270-272 | merging keeps every entry of both maps, and the new entries win |
| Tokenized.Delete | server/destinations/service.go:283-317 | deleting removes exactly the one entry, keeps the others and drops an emptied token |
| Tokenized.Prune | server/destinations/service.go:297-299 | dropping a token whose inner map is empty keeps every entry |
| Tokenized.GetAdd | server/destinations/service.go:245-264 | after an add, the token's inner map gains the one key and the other tokens read as before |
| Tokenized.GetDelete | server/destinations/service.go:283-317 | after a delete, the token's inner map loses the key and the other tokens read as before |
| Tokenized.GetAddAll | server/destinations/service.go:270-272 | after a merge, each token reads as the union of both inner maps |
| Tokenized.ListValues | server/destinations/service.go:109-111 | listing an inner map yields each of its values once, paired with a distinct key, in some order |
| Routing.GetIds | server/destinations/service.go:310-317 | the IDs table built from the registrations has no empty inner map, and each token reads as the units routed for it |
| Routing.GetStorages | server/destinations/service.go:301-308 | the storages table built from the registrations has no empty inner map, and each token reads as the storages of the batch units routed for it |
| Routing.GetConsumers | server/destinations/service.go:283-299 | the consumers table has no empty inner map, and each token reads as its stream queues plus its shared logger |
| Routing.UnregisterAllNext | server/destinations/service.go:282-318 | `remove`'s token loop over one more token is the previous result followed by that token's step |
| Routing.NilDerefSticks | server/destinations/service.go:288-289 | once a token without a logger is reached in a batch unit's loop, the whole removal dereferences nil |
| Routing.UnregisterClosesLoggers | server/destinations/service.go:288-294 | `remove`'s token loop closes only loggers: of its own tokens, and ones that are then no longer in the table |
| Routing.UnregisterReleases | server/destinations/service.go:282-295 | removing a batch unit releases one hold per listing: a logger whose usage equals the unit's listings of its token is closed and dropped, any other listed logger keeps its usage less those listings, and other tokens' loggers are untouched |
| Routing.UnregisterAllKeeps | server/destinations/service.go:280-318 | removing a registered unit's tokens never dereferences nil, and keeps the tables matched to the remaining registrations and the usages equal to the remaining holds |
| Routing.RegisterAllNext | server/destinations/service.go:240-266 | `init`'s token loop over one more token is the previous result followed by that token's step |
| Routing.RegisterCreatesLoggers | server/destinations/service.go:250-255 | the token loop creates loggers only, for its own tokens that had none |
| Routing.RegisterKeepsLoggers | server/destinations/service.go:249-258 | the token loop never drops a logger |
| Routing.RegisterAllStaged | server/destinations/service.go:241-244 | a staged destination's token loop changes nothing |
| Routing.RegisterAllStream | server/destinations/service.go:246-247 | a stream destination's token loop leaves the loggers alone and creates none |
| Registry.RemovalKeeps | server/destinations/service.go:280-326 | mid-cycle, removing a live unit other than a staged batch unit does not dereference nil, and the tables match the remaining units |
| Registry.RemovalConsistent | server/destinations/service.go:280-326 | removing a live unit other than a staged batch unit keeps the service consistent |
| Registry.AdmissionKeeps | server/destinations/service.go:225-266 | registering a new unit whose queue agrees with its mode, as the cycle's latest, keeps the tables plus pending maps matched to the units |
| Registry.MergeKeeps | server/destinations/service.go:269-273 | merging the pending maps into the live ones at the end of a cycle gives tables matched to the units, with nothing pending |
| Registry.ConsistentTables | server/destinations/service.go:37-45 | in a consistent service, each routing map is exactly what the live, non-staged units register |
| Registry.ConsistentIds | server/destinations/service.go:136-144 | in a consistent service, a token's IDs are exactly the non-staged live units listing it |
| Registry.ConsistentStorages | server/destinations/service.go:127-134 | in a consistent service, a token's storages are exactly the storages of the non-staged batch units listing it |
| Registry.ConsistentConsumers | server/destinations/service.go:106-113 | in a consistent service, a token's consumers are the queues of the non-staged stream units listing it, under their names, plus its logger under the token |
| Registry.ConsistentLoggers | server/destinations/service.go:249-260 | in a consistent service, a token has a logger iff a non-staged batch unit lists it; its usage is the number of such listings |
| Registry.HeldByUnits | server/destinations/service.go:257-258 | the holds on a token's logger come from non-staged batch units, one per listing of the token |
| Registry.StagedBatchRemovalPanics | server/destinations/service.go:287-289 | removing a staged batch unit whose first token no other batch unit routes dereferences nil |
| Registry.StagedBatchRemovalClosesShared | server/destinations/service.go:241-244 | removing a staged batch unit can close the logger that another live batch unit, not staged, still routes through |
| Reconciliation.DropLog | server/destinations/service.go:280-326 | `remove` only appends to the log; it calls no factory and closes exactly the removed unit |
| Reconciliation.AdmitLog | server/destinations/service.go:240-266 | admitting a new unit only appends the loggers its token loop creates: it closes no unit and calls no factory |
| Reconciliation.CreateLog | server/destinations/service.go:211-230 | creation only appends to the log; it closes no unit and calls the factory exactly when some token resolves |
| Reconciliation.StepLog | server/destinations/service.go:185-267 | one destination's step calls the factory exactly when it is changed or new and has tokens, and closes exactly the changed live unit |
| Reconciliation.StepRegistry | server/destinations/service.go:185-230 | one destination's step sets the registry entry to the reconciled unit and updates the staged set accordingly |
| Reconciliation.StepKeeps | server/destinations/service.go:185-267 | a step whose factory output agrees with the mode, and does not recreate a staged batch unit, succeeds and keeps the tables matched |
| Reconciliation.CreateKeeps | server/destinations/service.go:211-266 | creating a destination that has no live unit keeps the tables plus pending maps matched |
| Reconciliation.DropKeeps | server/destinations/service.go:280-326 | mid-cycle removal of a unit other than a staged batch unit succeeds, keeps the tables matched and leaves the pending maps alone |
| Reconciliation.RemoveAll | server/destinations/service.go:166-179 | when the removal pass succeeds, exactly the listed units have left the registry and the staged set |
| Reconciliation.RemoveAllNext | server/destinations/service.go:175-177 | the removal pass over one more unit is the previous result followed by that unit's `remove` |
| Reconciliation.RemoveAllSticks | server/destinations/service.go:175-177 | once a removal has dereferenced nil, so has the whole pass |
| Reconciliation.RemoveAllLog | server/destinations/service.go:166-179 | the removal pass closes exactly the units it removes and calls no factory |
| Reconciliation.RemoveAllOnce | server/destinations/service.go:166-179 | the removal pass closes each unit it removes only once |
| Reconciliation.DropOnce | server/destinations/service.go:280-326 | `remove` closes its unit once and calls no factory |
| Reconciliation.RemoveAllKeeps | server/destinations/service.go:166-179 | when no staged batch unit is removed, the removal pass succeeds and keeps the service consistent |
| Reconciliation.StepAllNext | server/destinations/service.go:185-267 | the configuration loop over one more destination is the previous result followed by that destination's step |
| Reconciliation.StepAllSticks | server/destinations/service.go:205-208 | once a recreation has dereferenced nil, so has the whole loop |
| Reconciliation.StepAllPlan | server/destinations/service.go:185-267 | after the configuration loop, every visited destination has its reconciled unit and staged flag, and every other entry is as before |
| Reconciliation.StepAllLog | server/destinations/service.go:185-267 | the configuration loop calls the factory for exactly the changed or new destinations with tokens, and closes exactly the replaced units |
| Reconciliation.StepAllOnce | server/destinations/service.go:185-267 | the configuration loop closes no unit twice and calls the factory at most once per destination |
| Reconciliation.StepOnce | server/destinations/service.go:185-267 | one destination's pass closes its old unit at most once and calls the factory at most once |
| Reconciliation.CreateOnce | server/destinations/service.go:211-266 | creating a destination calls the factory at most once and closes no unit |
| Reconciliation.OnceAppend | server/destinations/service.go:162-276 | two stretches of the log that close and build different destinations together close and build each at most once |
| Reconciliation.StepAllKeeps | server/destinations/service.go:185-267 | when every factory output agrees with its mode and no staged batch unit is recreated, the configuration loop succeeds and keeps the tables matched |
| Reconciliation.ReconcileConsistent | server/destinations/service.go:162-276 | under the same conditions a whole `init` succeeds and leaves the service consistent, with nothing pending |
| Reconciliation.ReconcileUnits | server/destinations/service.go:162-276 | a successful `init` leaves the registry equal to `ReconciledUnits` of the old registry and the snapshot, whatever the iteration orders |
| Reconciliation.ReconcileStaged | server/destinations/service.go:240-244 | a successful `init` marks as staged exactly the units it created from staged configurations, plus the unchanged units that were already staged |
| Reconciliation.ReconcileLog | server/destinations/service.go:162-276 | `init` calls the factory for exactly the changed or new destinations with tokens, and closes exactly the units the snapshot drops or changes; no unit is closed twice and no destination is built twice |
| Reconciliation.StepAllQuiet | server/destinations/service.go:199-204 | a configuration loop over unchanged or absent destinations changes nothing but the log |
| Reconciliation.ReconcileQuiet | server/destinations/service.go:162-276 | `init` on a snapshot that the registry already reflects changes no table, unit or hold |
| Reconciliation.ReconcileIdempotent | server/destinations/service.go:162-276 | running `init` twice with the same snapshot, authorization state and a storage factory that answers each configuration the same way changes nothing the second time |
| Reconciliation.StepAllNoDrop | server/destinations/service.go:185-267 | a configuration loop that meets only absent or unchanged destinations never dereferences nil |
| Reconciliation.ReconcileRetry | server/destinations/service.go:162-276 | a second `init` with the same snapshot and authorization state but any storage factory never dereferences nil, closes no unit, keeps every unit of the first, adds units only for destinations whose creation failed in the first, and calls the factory for exactly the destinations with tokens and no unit |
| Destinations.LoggerClosingsClose | server/destinations/service.go:329-333 | the logger loop of `Close` closes each listed token's logger and no unit |
| Destinations.UnitClosingsClose | server/destinations/service.go:335-339 | the unit loop of `Close` closes each listed unit and no logger |
| Destinations.LoggerErrorsCount | server/destinations/service.go:329-333 | the logger loop reports at most one error per logger, and none iff every logger closes cleanly |
| Destinations.UnitErrorsCount | server/destinations/service.go:335-339 | the unit loop reports at most one error per unit, and none iff every unit closes cleanly |
| Destinations.ClosingsAppend | server/destinations/service.go:328-342 | the loggers and units a log of closings closes are those its two halves close |
| Destinations.LoggerLoopOutcome | server/destinations/service.go:329-333 | once every token has been visited, the logger loop has closed every shared logger and no unit, and reported at most one error per logger, none iff all closed cleanly |
| Destinations.UnitLoopOutcome | server/destinations/service.go:335-339 | once every unit has been visited, the unit loop has closed every live unit and no logger, and reported at most one error per unit, none iff all closed cleanly |
| Destinations.CloseLoggers | server/destinations/service.go:329-333 | the logger loop visits each token once and closes its logger, collecting `Error closing logger for token [t]: e` for each failure |
| Destinations.CloseUnits | server/destinations/service.go:335-339 | the unit loop visits each unit once and closes it, collecting `[name] Error closing destination unit: e` for each failure |
| Destinations.CloseAll | server/destinations/service.go:328-342 | the two loops of `Close` close every shared logger and every live unit exactly once, report at most one error per logger plus one per unit, and none iff every close succeeded |
| Destinations.Service.constructor | server/destinations/service.go:59-69 | a new service has empty maps, is consistent and not reloading |
| Destinations.Service.RemoveToken | server/destinations/service.go:283-317 | one pass of `remove`'s token loop updates the tables as `UnregisterToken` does, and panics exactly on a missing logger, having changed nothing |
| Destinations.Service.Remove | server/destinations/service.go:280-326 | `remove` unwinds the unit as `UnregisterAll` does, then closes it and drops it from the registry; it panics exactly when that dereferences nil; on a valid service it keeps `Valid` unless the unit is a staged batch unit |
| Destinations.Service.RemoveTokens | server/destinations/service.go:282-318 | `remove`'s token loop updates the tables as `UnregisterAll` does, stopping at the first nil dereference |
| Destinations.Service.AddToken | server/destinations/service.go:240-265 | one pass of `init`'s token loop updates the loggers and pending maps as `RegisterToken` does |
| Destinations.Service.AddTokens | server/destinations/service.go:240-266 | `init`'s token loop for a new unit updates the loggers and pending maps as `RegisterAll` does |
| Destinations.Service.CreateOrRecreate | server/destinations/service.go:185-267 | one destination's pass leaves the state `Step` specifies, and panics exactly when `Step` fails |
| Destinations.Service.Build | server/destinations/service.go:211-266 | the creation of a destination that has no live unit leaves the state `Create` specifies |
| Destinations.Service.Register | server/destinations/service.go:225-266 | registering a newly created unit leaves the state `Admit` specifies |
| Destinations.Service.RemoveAbsent | server/destinations/service.go:166-179 | visits each unit the snapshot drops exactly once, and leaves the state `RemoveAll` specifies for that order |
| Destinations.Service.CreateAll | server/destinations/service.go:181-267 | visits each snapshot destination exactly once, and leaves the state `StepAll` specifies for that order |
| Destinations.Service.Init | server/destinations/service.go:162-276 | `init` leaves the state `Reconcile` specifies for the orders it used; when it completes, the flag is cleared and nothing is pending; a valid service stays valid and does not panic when the factory fits every destination and no staged batch unit is removed |
| Destinations.Service.GetConsumers | server/destinations/service.go:106-113 | returns one consumer per registered key of the token, so exactly the token's consumers, and nothing for an unknown token |
| Destinations.Service.GetStorageByID | server/destinations/service.go:115-125 | returns the unit's storage iff a live unit has that name |
| Destinations.Service.GetStorages | server/destinations/service.go:127-134 | returns one storage per registered key of the token, so exactly the token's storages, and nothing for an unknown token |
| Destinations.Service.GetDestinationIDs | server/destinations/service.go:136-144 | returns a new map with the token's destination IDs as its keys, each marked true |
| Destinations.Service.Close | server/destinations/service.go:328-342 | closes every logger and then every unit, one at a time in map order, and returns the errors from both loops in that order; the maps stay as they are |

## Left out

- Locking (`sync.RWMutex`): the model is sequential. Readers running
  concurrently with `init` are not modelled.
- Logging: the warnings and errors that are logged and then ignored are
  dropped. So are the `Destinations are empty` and `Destinations aren't
  configured` messages.
- `updateDestinations`, `parseFromBytes` and viper's `Unmarshal`: the
  model starts from an already parsed snapshot. The unmarshal-failure return
  in `NewService` (lines 78-81) is not modelled.
- `resources.Watch` and its reload timer: `Sources.StartupPlan` states which
  watch or apply would start, not the watching itself.
- `NewTestService`: it exists only for tests.
- The storage factory, the logger factory, the authorization service,
  `getHash`, `Unit.Close` and `logger.Close`: these are parameters of the
  model (`Units.Collaborators`). Unit closing is recorded in the effect log,
  together with the error it reports. The unit type's own file is not part
  of this model.
- The `multierror` value that `Close` returns: it is modelled as the list
  of error messages in append order, not as its formatted text.
- `LoggerUsage`: in the model it is a value stored in the map, not a shared
  pointer. The Go code aliases it only within one loop pass, so the updates
  are the same. The `loggerUsage != nil` check (line 257) always holds in
  the model.
- `toDelete`: it is modelled as the set of names to remove. The unit is
  read from `unitsByName` at removal time. It is the same unit, since
  nothing else changes that entry during the pass.
- Panics: a nil logger dereference in `remove` is modelled as a `panicked`
  result, and the Go goroutine would not continue. The state after a panic
  is left unspecified, with two exceptions. A single token pass
  (`Service.RemoveToken`) that panics changes nothing. `Service.Remove`
  leaves the unit registry as it was.
- Strings: Go strings are byte strings, while the model uses Dafny strings
  (sequences of characters) for names, token IDs and source descriptors.
  This makes no difference here. Every pattern the model searches for (`.`,
  `http://`, `https://`, `file://`, `/`, `{`, `}`) is ASCII, and ASCII bytes
  never occur inside a UTF-8 multi-byte sequence.
- `StatusInstance.Reloading` is the field `reloading` of the service.
- Destinations.Service.Init: its contract keeps `Valid` (the service's
  `Consistent` tables) only conditionally, through
  `Reconciliation.ReconcileConsistent`. It holds only when every
  factory output has a queue exactly in stream mode, no stream unit routes
  a token equal to its own name, and no staged batch unit is removed or
  recreated. Without these conditions the code as written can break the
  tables (`Registry.StagedBatchRemovalPanics`,
  `Registry.StagedBatchRemovalClosesShared`).
- Destinations.Service.Remove: its contract keeps `Valid` only when the
  removed unit is not a staged batch unit (`Registry.RemovalConsistent`).
- Units.ReconcileTwice, Reconciliation.ReconcileIdempotent: both cycles use
  the same `Collaborators`, so `create` is a deterministic function of the
  destination. A storage that failed to be created in the first cycle fails
  again in the second. In Go the second `init` calls the factory again, and
  may succeed. That case is stated by `Units.ReconcileAgain` and
  `Reconciliation.ReconcileRetry`.
- Destinations.Service.GetConsumers: Go returns a nil slice for an unknown
  token, and the model returns an empty sequence.
- Destinations.Service.GetStorages: the same nil-versus-empty difference
  applies.
