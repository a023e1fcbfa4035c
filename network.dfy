/** `NetworkMod` (index.js:63-179): the session controller object. Its
    fields are updated in place by the hook handlers; every `emit` appends to
    the ghost trace `events`, and the registry's constructions, feature
    initialisations, logged errors and destructor calls are recorded in
    ghost histories. */
module Network {
  import opened Wrappers
  import opened Selector
  import opened SessionState
  import opened SubmoduleRegistry

  /** One call of a submodule's `destructor`, with the number of lifecycle
      events the controller had emitted when it ran. */
  datatype DestructorCall = DestructorCall(name: string, afterEvents: nat)

  /** The submodule names of a sequence of destructor calls, in call order. */
  function CalledNames(calls: seq<DestructorCall>): (names: seq<string>)
    ensures |names| == |calls|
    ensures forall i :: 0 <= i < |calls| ==> names[i] == calls[i].name
  {
    seq(|calls|, i requires 0 <= i < |calls| => calls[i].name)
  }

  class NetworkMod {
    /** `mod.majorPatchVersion`, read when the hooks are installed. */
    const majorPatchVersion: int
    /** What `require('./lib/<name>')` followed by `new req(this)` yields. */
    const table: Table

    var state: GameState
    var isInLoadingScreen: bool
    var language: Option<string>
    var accountId: Option<int>
    var accountName: Option<string>
    var isTBA: bool
    /** `loadedSubmodules`; `None` once `destructor` has set it to undefined. */
    var loadedSubmodules: Option<Submodules>

    ghost var events: seq<Event>
    /** For each event in `events`, the fields a listener read while it fired. */
    ghost var observed: seq<Session>
    ghost var constructed: seq<string>
    ghost var featureInits: seq<FeatureCall>
    ghost var errors: seq<LogEntry>
    ghost var destroyed: seq<DestructorCall>

    ghost function View(): Session
      reads this
    {
      Session(state, isInLoadingScreen, language, accountName, accountId, isTBA)
    }

    ghost function RegistryView(): Registry
      reads this
      requires loadedSubmodules.Some?
    {
      Registry(loadedSubmodules.value, constructed, featureInits, errors)
    }

    /** While the registry exists it satisfies the registry invariant and no
        destructor has run; once it is gone every constructed submodule has
        been destroyed exactly once, in load order. */
    ghost predicate Valid()
      reads this
    {
      && Distinct(constructed)
      && (loadedSubmodules.Some? ==> SubmoduleRegistry.Valid(RegistryView(), table) && destroyed == [])
      && (loadedSubmodules.None? ==> CalledNames(destroyed) == constructed)
    }

    /** The constructor: default fields, hooks installed, then the default
        submodule `me` (index.js:64-83). */
    constructor (majorPatchVersion: int, table: Table)
      ensures Valid()
      ensures this.majorPatchVersion == majorPatchVersion && this.table == table
      ensures View() == Initial() && events == [] && observed == [] && destroyed == []
      ensures loadedSubmodules.Some?
      ensures RegistryView() == SubmoduleRegistry.Initialize(Empty(), table, ["me"])
    {
      this.majorPatchVersion := majorPatchVersion;
      this.table := table;
      state := Invalid;
      isInLoadingScreen := false;
      language := None;
      accountId := None;
      accountName := None;
      isTBA := false;
      loadedSubmodules := Some(Submodules(map[], []));
      events := [];
      observed := [];
      constructed := [];
      featureInits := [];
      errors := [];
      destroyed := [];
      new;
      Initialize(["me"]);
    }

    /** `setState` (index.js:154-168). */
    method SetState(to: GameState)
      modifies this`state, this`events, this`observed
      ensures View() == StateChange(old(View()), to).session
      ensures events == old(events) + StateChange(old(View()), to).emitted
      ensures observed == old(observed) + StateChange(old(View()), to).seen
    {
      if state != to {
        events := events + LeaveEvents(state);
        observed := observed + Repeat(View(), |LeaveEvents(state)|);
        state := to;
        events := events + EnterEvents(state);
        observed := observed + Repeat(View(), |EnterEvents(state)|);
      }
    }

    /** `setLoadingScreen` (index.js:170-175). */
    method SetLoadingScreen(b: bool)
      modifies this`isInLoadingScreen, this`events, this`observed
      ensures View() == LoadingChange(old(View()), b).session
      ensures events == old(events) + LoadingChange(old(View()), b).emitted
      ensures observed == old(observed) + LoadingChange(old(View()), b).seen
    {
      if isInLoadingScreen != b {
        isInLoadingScreen := b;
        events := events + if b then [EnterLoadingScreen] else [LeaveLoadingScreen];
        observed := observed + [View()];
      }
    }

    /** `isIngame` (index.js:177). */
    function IsIngame(): (r: bool)
      reads this
      ensures r <==> View().state == Ingame
    {
      state == Ingame
    }

    /** C_LOGIN_ARBITER (index.js:132-135). */
    method OnLoginArbiter(lang: string, name: string)
      modifies this`language, this`accountName
      ensures language == Some(lang) && accountName == Some(name)
    {
      language := Some(lang);
      accountName := Some(name);
    }

    /** S_LOGIN_ACCOUNT_INFO (index.js:137-139). */
    method OnLoginAccountInfo(id: int)
      modifies this`accountId
      ensures accountId == Some(id)
    {
      accountId := Some(id);
    }

    /** S_GET_USER_LIST (index.js:141). */
    method OnGetUserList()
      modifies this`state, this`events, this`observed
      ensures state == CharacterLobby
      ensures events == old(events) + StateChange(old(View()), CharacterLobby).emitted
      ensures observed == old(observed) + StateChange(old(View()), CharacterLobby).seen
    {
      SetState(CharacterLobby);
    }

    /** S_RETURN_TO_LOBBY (index.js:142): `isTBA` is cleared only after
        `enter_character_lobby` fired, so its listeners see the old flag. */
    method OnReturnToLobby()
      modifies this`state, this`isTBA, this`events, this`observed
      ensures state == CharacterLobby && !isTBA
      ensures events == old(events) + StateChange(old(View()), CharacterLobby).emitted
      ensures observed == old(observed) + StateChange(old(View()), CharacterLobby).seen
      ensures forall i :: |old(observed)| <= i < |observed| ==> observed[i].isTBA == old(isTBA)
    {
      SetState(CharacterLobby);
      isTBA := false;
    }

    /** S_LOGIN (index.js:143): the loading screen is raised before the state
        changes, so `enter_loading_screen` precedes the state events. */
    method OnLogin()
      modifies this`state, this`isInLoadingScreen, this`events, this`observed
      ensures state == Ingame && isInLoadingScreen && IsIngame()
      ensures events == old(events)
        + (if old(isInLoadingScreen) then [] else [EnterLoadingScreen])
        + StateChange(old(View()), Ingame).emitted
      ensures observed == old(observed) + Handle(old(View()), Login).seen
      ensures !old(isInLoadingScreen) ==> observed[|old(observed)|] == old(View()).(isInLoadingScreen := true)
    {
      SetLoadingScreen(true);
      SetState(Ingame);
    }

    /** S_LOAD_TOPO (index.js:144). */
    method OnLoadTopo()
      modifies this`isInLoadingScreen, this`events, this`observed
      ensures isInLoadingScreen
      ensures events == old(events) + (if old(isInLoadingScreen) then [] else [EnterLoadingScreen])
      ensures observed == old(observed) + (if old(isInLoadingScreen) then [] else [View()])
    {
      SetLoadingScreen(true);
    }

    /** S_SPAWN_ME (index.js:145). */
    method OnSpawnMe()
      modifies this`isInLoadingScreen, this`events, this`observed
      ensures !isInLoadingScreen
      ensures events == old(events) + (if old(isInLoadingScreen) then [LeaveLoadingScreen] else [])
      ensures observed == old(observed) + (if old(isInLoadingScreen) then [View()] else [])
    {
      SetLoadingScreen(false);
    }

    /** S_EXIT (index.js:146). */
    method OnExit()
      modifies this`state, this`events, this`observed
      ensures state == Invalid
      ensures events == old(events) + LeaveEvents(old(state))
      ensures observed == old(observed) + Repeat(old(View()), |LeaveEvents(old(state))|)
    {
      SetState(Invalid);
    }

    /** S_SELECT_USER (index.js:149). */
    method OnSelectUser()
      modifies this`isTBA
      ensures !isTBA
    {
      isTBA := false;
    }

    /** S_TBA_SELECT_USER (index.js:150). */
    method OnTbaSelectUser()
      modifies this`isTBA
      ensures isTBA
    {
      isTBA := true;
    }

    /** The host delivering packet `p` to the hooks `installHooks` registered
        (index.js:131-152). */
    method Dispatch(p: Packet)
      modifies this`state, this`isInLoadingScreen, this`language, this`accountName,
        this`accountId, this`isTBA, this`events, this`observed
      ensures View() == Deliver(old(View()), majorPatchVersion, p).session
      ensures events == old(events) + Deliver(old(View()), majorPatchVersion, p).emitted
      ensures observed == old(observed) + Deliver(old(View()), majorPatchVersion, p).seen
    {
      if !Hooked(majorPatchVersion, p) {
        return;
      }
      match p
      case LoginArbiter(lang, name) => OnLoginArbiter(lang, name);
      case LoginAccountInfo(id) => OnLoginAccountInfo(id);
      case GetUserList => OnGetUserList();
      case ReturnToLobby => OnReturnToLobby();
      case Login => OnLogin();
      case LoadTopo => OnLoadTopo();
      case SpawnMe => OnSpawnMe();
      case Exit => OnExit();
      case SelectUser => OnSelectUser();
      case TbaSelectUser => OnTbaSelectUser();
    }

    /** Loading one name unless it is loaded (index.js:104-114). */
    method LoadSubmodule(name: string)
      requires loadedSubmodules.Some?
      modifies this`loadedSubmodules, this`constructed, this`errors
      ensures loadedSubmodules.Some?
      ensures RegistryView() == Load(old(RegistryView()), table, name)
    {
      var subs := loadedSubmodules.value;
      if name !in subs.instances {
        if name in table {
          loadedSubmodules := Some(Submodules(subs.instances[name := table[name]], subs.order + [name]));
          constructed := constructed + [name];
        } else {
          errors := errors + [LoadFailed(name)];
        }
      }
    }

    /** Initialising a feature of a loaded submodule (index.js:116-123). */
    method InitializeFeature(name: string, feature: string)
      requires loadedSubmodules.Some?
      modifies this`featureInits, this`errors
      ensures RegistryView() == InitFeature(old(RegistryView()), name, feature)
    {
      var subs := loadedSubmodules.value;
      if feature != "" && name in subs.instances {
        featureInits := featureInits + [FeatureCall(name, feature)];
        if feature !in subs.instances[name].features {
          errors := errors + [FeatureFailed(name, feature)];
        }
      }
    }

    /** `initialize(submodules)` (index.js:98-125); a single selector string is
        passed as a one-element list. Calling it after `destructor` throws in
        the source, so the registry must still exist. */
    method Initialize(selectors: seq<string>)
      requires Valid() && loadedSubmodules.Some?
      modifies this`loadedSubmodules, this`constructed, this`featureInits, this`errors
      ensures Valid() && loadedSubmodules.Some?
      ensures RegistryView() == SubmoduleRegistry.Initialize(old(RegistryView()), table, selectors)
    {
      ghost var start := RegistryView();
      var i := 0;
      while i < |selectors|
        invariant 0 <= i <= |selectors|
        invariant loadedSubmodules.Some? && destroyed == []
        invariant RegistryView() == SubmoduleRegistry.Initialize(start, table, selectors[..i])
        invariant SubmoduleRegistry.Valid(RegistryView(), table)
      {
        ghost var before := RegistryView();
        var (name, feature) := ParseSelector(selectors[i]);
        LoadSubmodule(name);
        InitializeFeature(name, feature);
        ProcessPreservesValid(before, table, selectors[i]);
        InitializeAppend(start, table, selectors[..i], [selectors[i]]);
        assert selectors[..i + 1] == selectors[..i] + [selectors[i]];
        i := i + 1;
      }
      assert selectors[..i] == selectors;
    }

    /** `destructor` (index.js:85-96): forces INVALID first, so that live
        submodules still see the leave event, then calls each loaded
        submodule's destructor in load order, and drops the registry. A
        second call finds no registry and calls no destructor. */
    method Destructor()
      requires Valid()
      modifies this`state, this`events, this`observed, this`loadedSubmodules, this`destroyed
      ensures Valid() && loadedSubmodules.None?
      ensures state == Invalid
      ensures events == old(events) + LeaveEvents(old(state))
      ensures observed == old(observed) + Repeat(old(View()), |LeaveEvents(old(state))|)
      ensures View() == StateChange(old(View()), Invalid).session
      ensures events == old(events) + StateChange(old(View()), Invalid).emitted
      ensures observed == old(observed) + StateChange(old(View()), Invalid).seen
      ensures CalledNames(destroyed) == constructed
      ensures old(loadedSubmodules).Some? ==>
        && CalledNames(destroyed) == old(loadedSubmodules).value.order
        && forall i :: 0 <= i < |destroyed| ==> destroyed[i].afterEvents == |events|
      ensures old(loadedSubmodules).None? ==> destroyed == old(destroyed)
    {
      SetState(Invalid);
      if loadedSubmodules.Some? {
        var order := loadedSubmodules.value.order;
        var i := 0;
        while i < |order|
          modifies this`destroyed
          invariant 0 <= i <= |order|
          invariant |destroyed| == i
          invariant forall j :: 0 <= j < i ==> destroyed[j] == DestructorCall(order[j], |events|)
        {
          destroyed := destroyed + [DestructorCall(order[i], |events|)];
          i := i + 1;
        }
        assert CalledNames(destroyed) == order;
      }
      loadedSubmodules := None;
    }
  }

  /** A whole session: construction, a stream of packets, then destruction.
      Every submodule constructed along the way is destroyed exactly once and
      the lifecycle trace is one a listener can follow from INVALID back to
      INVALID, with every listener reading the state its event announces. */
  method Lifecycle(majorPatchVersion: int, table: Table, packets: seq<Packet>, selectors: seq<string>)
    returns (c: NetworkMod)
    ensures fresh(c) && c.loadedSubmodules.None? && c.state == Invalid
    ensures Distinct(c.constructed) && CalledNames(c.destroyed) == c.constructed
    ensures Replay(PhaseOf(Initial()), c.events) == Some(Phase(Invalid, c.isInLoadingScreen))
    ensures |c.observed| == |c.events|
    ensures forall i :: 0 <= i < |c.events| ==> SeesAnnounced(c.events[i], c.observed[i])
  {
    c := new NetworkMod(majorPatchVersion, table);
    c.Initialize(selectors);
    DeliverAll(c, packets);
    ghost var s := c.View();
    DeliverExtendsTrace(PhaseOf(Initial()), s, majorPatchVersion, Exit, c.events, c.observed);
    assert Deliver(s, majorPatchVersion, Exit) == StateChange(s, Invalid);
    c.Destructor();
  }

  /** The host delivering a stream of packets to a live controller: the trace
      stays one a listener can follow from INVALID, and every listener reads
      the state its event announces. */
  method DeliverAll(c: NetworkMod, packets: seq<Packet>)
    requires c.Valid() && c.loadedSubmodules.Some?
    requires Replay(PhaseOf(Initial()), c.events) == Some(PhaseOf(c.View()))
    requires AllSeeAnnounced(Step(c.View(), c.events, c.observed))
    modifies c
    ensures c.Valid() && c.loadedSubmodules.Some?
    ensures c.constructed == old(c.constructed) && c.destroyed == old(c.destroyed)
    ensures Replay(PhaseOf(Initial()), c.events) == Some(PhaseOf(c.View()))
    ensures AllSeeAnnounced(Step(c.View(), c.events, c.observed))
  {
    var i := 0;
    while i < |packets|
      invariant 0 <= i <= |packets|
      invariant c.Valid() && c.loadedSubmodules.Some?
      invariant c.constructed == old(c.constructed) && c.destroyed == old(c.destroyed)
      invariant Replay(PhaseOf(Initial()), c.events) == Some(PhaseOf(c.View()))
      invariant AllSeeAnnounced(Step(c.View(), c.events, c.observed))
    {
      DeliverExtendsTrace(PhaseOf(Initial()), c.View(), c.majorPatchVersion, packets[i], c.events, c.observed);
      c.Dispatch(packets[i]);
      i := i + 1;
    }
  }
}
