# tera-game-state session controller, in Dafny

A verified model of `index.js` from tera-game-state: the `NetworkMod`
session controller (a three-state session machine with a loading-screen flag,
driven by protocol hooks and announcing lifecycle events), its submodule
registry (`initialize` / `destructor`), and the table join that `ClientMod`
runs once the host is ready.

Files, one module each:

- `wrappers.dfy` — `Option`, for JavaScript's `null`/`undefined` fields.
- `selector.dfy` — `Selector`: `split('.')` and `name.feature` parsing.
- `session.dfy` — `SessionState`: the session fields as a value, `setState`,
  `setLoadingScreen`, every hook handler, host delivery of packet streams,
  and an independent trace monitor (`Replay`) that a lifecycle-event listener
  would run; the lemmas prove every emitted trace is one the monitor accepts.
- `registry.dfy` — `SubmoduleRegistry`: one `initialize` call as a fold over
  its selectors, with the registry invariant (no name constructed twice) and
  the failure-handling properties.
- `network.dfy` — `Network.NetworkMod`: the controller as a class whose
  fields the handler methods update in place; every `emit` appends to the
  ghost trace `events`, and the controller's fields as a listener reads them
  at that `emit` to the parallel ghost trace `observed`; constructions, feature initialisations, logged
  errors and submodule destructor calls are ghost histories. Each method is
  proved against the value model of the two modules above.
- `catalog.dfy` — `Catalog`: the row types, the `forEach` loops of the ready
  handler (as loop methods and as folds), the "last row with this id"
  reference definition, and `ClientMod` as a class.

Modelling choices:

- `require('./lib/<name>')` followed by `new req(this)` is a fixed table from
  name to the instance built; a name missing from the table is a load that
  throws. An instance is reduced to the set of features whose
  `initialize(feature)` returns without throwing.
- `mod.error(...)` is a ghost log of `LoadFailed(name)` and
  `FeatureFailed(name, feature)` entries (one entry per failure; the source
  writes the message and the exception as two lines).
- The registry keeps its insertion order, because `destructor` visits it with
  `for ... in`, which follows insertion order.
- The awaited `mod.queryData` results are an input (`Tables`); attribute
  objects become records with the attributes the queries request.
- S_LOGIN calls `setLoadingScreen(true)` before `setState(INGAME)`
  (index.js:143), so from the lobby the trace is `enter_loading_screen`,
  `leave_character_lobby`, `enter_game`.
- `destructor` emits the old state's leave event before any submodule
  destructor runs (index.js:86, then 88-89); each recorded destructor call
  carries the length of the event trace at that moment. It does not remove
  registry entries one by one but drops the whole registry at the end
  (index.js:88-93). A second `destructor` call calls no submodule
  destructor (a `for ... in` over `undefined` visits nothing).

## Model

| member | source | states |
|---|---|---|
| Selector.Split | index.js:103 | `split('.')` always yields at least one part and no part contains the separator |
| Selector.JoinSplit | index.js:103 | joining the parts of a split with '.' gives back the selector |
| Selector.SplitJoin | index.js:103 | splitting the join of dot-free parts gives back the parts |
| Selector.ParseSelector | index.js:103 | the name and feature taken from a selector contain no '.' |
| Selector.PlainSelector | index.js:103 | a selector without '.' names that submodule and no feature |
| Selector.DottedSelector | index.js:103 | `name.feature` yields exactly that name and that feature |
| Selector.ExtraPartsIgnored | index.js:103 | only the first two parts are used: `name.feature.more` selects `name` and `feature` |
| SessionState.StateChangeIsObservable | index.js:154-168 | `setState(to)` ends in `to`; it emits nothing iff the state already was `to`, at most two events, and a listener replaying them (leave of the old state, then enter of the new one) ends in the new state |
| SessionState.LoadingChangeIsObservable | index.js:170-175 | `setLoadingScreen(b)` sets the flag and emits exactly `enter_loading_screen`/`leave_loading_screen` when the flag flips, nothing when it does not |
| SessionState.DeliverIsObservable | index.js:131-152 | each hooked packet emits a trace the listener monitor accepts, ending in the new state and flag; it emits exactly as many events as the changes call for (leave and enter events of the old and new state if the state changed, plus one if the flag flipped), so nothing iff neither changed |
| SessionState.RunIsObservable | index.js:131-175 | for every packet stream from every session, the whole emitted trace is accepted by the monitor and ends in the final state and flag, and its length is the sum over the packets of the events their state changes and flag flips call for: no event without a real change |
| SessionState.LoginScenario | index.js:143-145 | S_LOGIN from the lobby with no loading screen emits `enter_loading_screen`, `leave_character_lobby`, `enter_game` and ends INGAME, and a listener of `enter_loading_screen` still reads CHARACTER_LOBBY; a following S_SPAWN_ME emits only `leave_loading_screen` and stays INGAME |
| SessionState.DeliverSeesAnnounced | index.js:131-175 | for each hooked packet, every event comes with one listener snapshot, and a listener reads the state its event names (the old state for a leave event, the new one for an enter event) and the flag its loading-screen event announces |
| SessionState.RunSeesAnnounced | index.js:131-175 | the same for every packet stream: each listener of each event reads the state or flag that event announces |
| SessionState.BookkeepingLeavesPhase | index.js:132-150 | C_LOGIN_ARBITER, S_LOGIN_ACCOUNT_INFO, S_SELECT_USER and S_TBA_SELECT_USER emit nothing and change neither the state nor the loading flag |
| SessionState.LobbyAndExitTargets | index.js:142-146 | S_RETURN_TO_LOBBY always ends in CHARACTER_LOBBY with `isTBA` false, but its state-event listeners still read the old `isTBA` (it is cleared after `setState`); S_EXIT always ends in INVALID |
| SubmoduleRegistry.InitializeAppend | index.js:102-124 | processing `a + b` is processing `a` then `b`: no selector's outcome stops the selectors after it |
| SubmoduleRegistry.ProcessPreservesValid | index.js:103-123 | one selector keeps the registry invariant |
| SubmoduleRegistry.InitializePreservesValid | index.js:98-125 | `initialize` keeps the invariant: every loaded instance is the table's, load order lists each loaded name once, and the constructions so far are exactly the loaded names, so none was constructed twice |
| SubmoduleRegistry.InitializeKeepsLoaded | index.js:104-108 | an already-loaded name keeps the same instance, earlier load order is kept, and the histories only grow |
| SubmoduleRegistry.FailedLoadOnlyLogs | index.js:104-116 | a selector whose name is unloaded and cannot be loaded only appends `LoadFailed(name)` to the error log; no feature is initialised |
| SubmoduleRegistry.ProcessLogsFailure | index.js:104-114 | for a name that cannot be loaded, one selector leaves it unloaded and logs exactly one `LoadFailed` for it iff the selector names it |
| SubmoduleRegistry.FailedLoadIsRetried | index.js:104-114 | a name that cannot be loaded stays unloaded, and each selector naming it logs one more load failure: every later selector retries it |
| SubmoduleRegistry.FeatureCallPerSelector | index.js:103-123 | one selector calls `initialize(feature)` iff the feature is non-empty and the submodule is loaded at that moment (just loaded or loaded before), and logs `FeatureFailed(name, feature)` iff that call throws; nothing else changes after the load step |
| SubmoduleRegistry.DottedSelectorInitializesFeature | index.js:103-123 | `name.feature` on a loaded (or now loaded) submodule calls its `initialize(feature)`; a throwing call is logged as `FeatureFailed(name, feature)` and changes nothing else |
| SubmoduleRegistry.FeatureInitsNeedLoaded | index.js:116-123 | over a whole `initialize` call, every feature `initialize` was called with a non-empty feature on a submodule that is loaded |
| SubmoduleRegistry.FailureDoesNotStopLaterSelectors | index.js:98-124 | `initialize(['a', 'b.x'])` with `a` missing logs one load failure and still loads `b` and initialises `x` |
| SubmoduleRegistry.RepeatedInitializeConstructsOnce | index.js:98-124 | `initialize(['a', 'a', 'a.f', 'a.g'])` constructs `a` once and initialises `f` then `g` on that instance |
| Network.NetworkMod.constructor | index.js:64-83 | defaults: INVALID, no loading screen, null language/account fields, `isTBA` false, empty trace; then the registry is `initialize('me')` applied to an empty one |
| Network.NetworkMod.SetState | index.js:154-168 | updates `state` and appends to the trace exactly as `StateChange`; a listener of the leave event reads the old state, one of the enter event the new state; changes no other field |
| Network.NetworkMod.SetLoadingScreen | index.js:170-175 | updates the flag and appends to the trace exactly as `LoadingChange`, the flag already set when the listener runs; changes no other field |
| Network.NetworkMod.IsIngame | index.js:177 | true iff the state is INGAME |
| Network.NetworkMod.OnLoginArbiter | index.js:132-135 | sets `language` and `accountName`; nothing else changes |
| Network.NetworkMod.OnLoginAccountInfo | index.js:137-139 | sets `accountId`; nothing else changes |
| Network.NetworkMod.OnGetUserList | index.js:141 | ends in CHARACTER_LOBBY with the `setState` events; nothing else changes |
| Network.NetworkMod.OnReturnToLobby | index.js:142 | ends in CHARACTER_LOBBY with `isTBA` false and the `setState` events, whose listeners read the old `isTBA` |
| Network.NetworkMod.OnLogin | index.js:143 | ends INGAME in a loading screen (`isIngame` holds); `enter_loading_screen`, if the flag flipped, precedes the state events, and its listener reads the flag set and the old state |
| Network.NetworkMod.OnLoadTopo | index.js:144 | raises the loading screen, emitting `enter_loading_screen` only on a flip |
| Network.NetworkMod.OnSpawnMe | index.js:145 | lowers the loading screen, emitting `leave_loading_screen` only on a flip; the state is untouched |
| Network.NetworkMod.OnExit | index.js:146 | ends INVALID, emitting only the leave event of the old state |
| Network.NetworkMod.OnSelectUser | index.js:149 | clears `isTBA`; nothing else changes |
| Network.NetworkMod.OnTbaSelectUser | index.js:150 | sets `isTBA`; nothing else changes |
| Network.NetworkMod.Dispatch | index.js:131-152 | a delivered packet runs its hook, and S_SELECT_USER/S_TBA_SELECT_USER do nothing before major patch 99, exactly as `Deliver`, including the listener snapshots |
| Network.NetworkMod.LoadSubmodule | index.js:104-114 | the registry and histories afterwards are `Load` of the ones before: construct and record an unloaded name the table has, log `LoadFailed` for one it lacks, leave a loaded name alone |
| Network.NetworkMod.InitializeFeature | index.js:116-123 | the registry and histories afterwards are `InitFeature` of the ones before |
| Network.NetworkMod.Initialize | index.js:98-125 | the registry and its histories after the loop are `Initialize` of the ones before, and the invariant still holds |
| Network.NetworkMod.Destructor | index.js:85-96 | forces INVALID with only the old state's leave event, then calls every loaded submodule's destructor once in load order, each after that leave event, and drops the registry; a second call calls no destructor |
| Network.Lifecycle | index.js:64-96 | construct, `initialize`, any packet stream, `destructor`: every constructed submodule is destroyed exactly once, the whole trace is accepted by the monitor from INVALID back to INVALID, and every listener of every event reads the state or flag that event announces |
| Network.DeliverAll | index.js:131-175 | delivering any packet stream to a live controller keeps its trace acceptable to the monitor and every listener reading what its event announces, and constructs or destroys no submodule |
| Catalog.LastWithKey | index.js:18-20 | the reference for "last row wins": none iff no row has the id, otherwise a row with the id after which no row has it |
| Catalog.IndexedLookup | index.js:18-50 | after a `Map.set` loop, an id is present iff it was before or some row carries it, and its entry is built from the last such row |
| Catalog.MergedLookup | index.js:38-58 | merging a string table adds no id (unmatched rows are dropped), keeps the base attributes, and gives an entry the name and tooltip of the last string row with its id, or leaves them as they were |
| Catalog.IndexRows | index.js:18-20 | the loop computes `Indexed`, so an id is present iff it was before or some row carries it |
| Catalog.MergeStrings | index.js:38-45 | the loop computes `Merged`; it keeps the set of ids and every entry's base attributes |
| Catalog.UsersLookup | index.js:18-27 | from major patch 99 a hero row replaces the user entry with its id; an id without a hero row, and every id below patch 99, keeps the membership and entry given by the UserData rows |
| Catalog.NamedCatalogLookup | index.js:35-58 | an item or abnormality entry exists iff its base table has the id, carries the last such row's attributes, and has a name and tooltip iff some string row has its id |
| Catalog.ClientMod.constructor | index.js:10-15 | all four maps start empty and the ready listener has not run |
| Catalog.ClientMod.OnReady | index.js:16-59 | the first `ready` fills users, continents, items and abnormalities as the folds above; a second `ready` changes nothing (`once`) |

## Left out

- Listener dispatch of `EventEmitter` and `setMaxListeners(0)`: emitting is appending to the ghost trace `events`.
- Hook registration details (`order: -9999`, the fake/modified/silenced filter, packet versions, including the S_LOGIN_ACCOUNT_INFO version choice): host plumbing; each handler is a method called directly, or through `Dispatch`.
- Wire decoding of packets: handlers take decoded values.
- The submodules' own behaviour, including a submodule that calls back into `initialize` from its constructor or `initialize`, and a submodule `destructor` that throws (which would abort the source's loop): foreign code.
- The alias property `this[name]` that `initialize` sets and `destructor` deletes (index.js:108, 90): for ordinary names it only mirrors the registry entry (names that collide with `NetworkMod`'s own members are covered below).
- Selector names that collide with `Object.prototype` members (such as `constructor`), which the source's truthiness test treats as loaded, and integer-like names, which `for ... in` visits first: names are assumed to be ordinary keys.
- Selector names that collide with `NetworkMod`'s own members: for a getter-only member (`isIngame`, `serverId`) the `this[name]` assignment at index.js:108 throws after the instance was registered, so the source logs a load failure yet keeps the submodule loaded; a name such as `setState` or `initialize` overwrites the controller's own method. Such names are assumed absent.
- `Network.NetworkMod.Initialize`: requires the registry to exist; after `destructor` the source throws on `undefined[name]` outside any `try`.
- `this.mod` and `this.data` (index.js:68, 78, cleared at 94-95): the host and the shared catalog are not modelled as objects; the constructor takes the host's `majorPatchVersion` and the submodule table as parameters, and the `destructor` dropping both references has nothing to verify.
- `mod.error` message text, `serverId` (a passthrough to the host) and `RequireInterface`: delegation with nothing to verify.
- `mod.queryData`, the asynchronous sequencing and partial catalogs while the build is in flight: the query results are an input, and the handler runs as one step.
- Attribute value types are fixed (integers and strings; `value` and `time` as integers, no floating point), and string rows always carry both the name and the tooltip attributes.
