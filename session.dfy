/** The session state machine of `NetworkMod` as values: the tracked fields,
    the two deduplicating setters (index.js:154-175), the protocol hook
    handlers (index.js:131-152) and the lifecycle events they emit. */
module SessionState {
  import opened Wrappers

  /** `GameStates` (index.js:3-7). */
  datatype GameState = Invalid | CharacterLobby | Ingame

  /** The payload-free lifecycle events the controller emits. */
  datatype Event =
    | EnterCharacterLobby | LeaveCharacterLobby
    | EnterGame | LeaveGame
    | EnterLoadingScreen | LeaveLoadingScreen

  /** The session fields a hook handler may touch. */
  datatype Session = Session(
    state: GameState,
    isInLoadingScreen: bool,
    language: Option<string>,
    accountName: Option<string>,
    accountId: Option<int>,
    isTBA: bool)

  /** The values the constructor assigns (index.js:69-74). */
  function Initial(): Session
  {
    Session(Invalid, false, None, None, None, false)
  }

  /** The decoded protocol packets the controller hooks. */
  datatype Packet =
    | LoginArbiter(language: string, name: string)
    | LoginAccountInfo(accountId: int)
    | GetUserList
    | ReturnToLobby
    | Login
    | LoadTopo
    | SpawnMe
    | Exit
    | SelectUser
    | TbaSelectUser

  /** A new session together with the events emitted on the way to it and,
      for each event, the session fields a listener reads while it fires. */
  datatype Step = Step(session: Session, emitted: seq<Event>, seen: seq<Session>)

  /** `n` listeners' views of the same session. */
  function Repeat(s: Session, n: nat): (r: seq<Session>)
    ensures |r| == n && forall i :: 0 <= i < n ==> r[i] == s
  {
    seq(n, _ => s)
  }

  /** The event `setState` emits when leaving `s` (none for INVALID). */
  function LeaveEvents(s: GameState): seq<Event>
  {
    match s
    case Invalid => []
    case CharacterLobby => [LeaveCharacterLobby]
    case Ingame => [LeaveGame]
  }

  /** The event `setState` emits when entering `s` (none for INVALID). */
  function EnterEvents(s: GameState): seq<Event>
  {
    match s
    case Invalid => []
    case CharacterLobby => [EnterCharacterLobby]
    case Ingame => [EnterGame]
  }

  /** `setState(to)` (index.js:154-168): the leave event fires while the old
      state is still stored, the enter event after the new one is. */
  function StateChange(s: Session, to: GameState): Step
  {
    if s.state == to then Step(s, [], [])
    else
      var s' := s.(state := to);
      Step(s', LeaveEvents(s.state) + EnterEvents(to),
           Repeat(s, |LeaveEvents(s.state)|) + Repeat(s', |EnterEvents(to)|))
  }

  /** `setLoadingScreen(b)` (index.js:170-175). */
  function LoadingChange(s: Session, b: bool): Step
  {
    if s.isInLoadingScreen == b then Step(s, [], [])
    else
      var s' := s.(isInLoadingScreen := b);
      Step(s', if b then [EnterLoadingScreen] else [LeaveLoadingScreen], [s'])
  }

  /** The handler registered for packet `p` (index.js:132-150). */
  function Handle(s: Session, p: Packet): Step
  {
    match p
    case LoginArbiter(language, name) =>
      Step(s.(language := Some(language), accountName := Some(name)), [], [])
    case LoginAccountInfo(id) => Step(s.(accountId := Some(id)), [], [])
    case GetUserList => StateChange(s, CharacterLobby)
    case ReturnToLobby =>
      var t := StateChange(s, CharacterLobby);
      t.(session := t.session.(isTBA := false))
    case Login =>
      var t := LoadingChange(s, true);
      var u := StateChange(t.session, Ingame);
      Step(u.session, t.emitted + u.emitted, t.seen + u.seen)
    case LoadTopo => LoadingChange(s, true)
    case SpawnMe => LoadingChange(s, false)
    case Exit => StateChange(s, Invalid)
    case SelectUser => Step(s.(isTBA := false), [], [])
    case TbaSelectUser => Step(s.(isTBA := true), [], [])
  }

  /** Whether a handler for `p` is registered: S_SELECT_USER and
      S_TBA_SELECT_USER are hooked only from major patch 99 on (index.js:148). */
  predicate Hooked(majorPatchVersion: int, p: Packet)
  {
    (p.SelectUser? || p.TbaSelectUser?) ==> majorPatchVersion >= 99
  }

  /** Delivery of one packet by the host: an unhooked packet changes nothing. */
  function Deliver(s: Session, majorPatchVersion: int, p: Packet): Step
  {
    if Hooked(majorPatchVersion, p) then Handle(s, p) else Step(s, [], [])
  }

  /** Delivery of a stream of packets, one after another. */
  function Run(s: Session, majorPatchVersion: int, ps: seq<Packet>): Step
    decreases |ps|
  {
    if ps == [] then Step(s, [], [])
    else
      var t := Deliver(s, majorPatchVersion, ps[0]);
      var u := Run(t.session, majorPatchVersion, ps[1..]);
      Step(u.session, t.emitted + u.emitted, t.seen + u.seen)
  }

  // ---------------------------------------------------------------------
  // A reference monitor for lifecycle traces, independent of the handlers.

  /** What a listener can know from the events alone: the state last entered
      (INVALID once it was left) and whether a loading screen is showing. */
  datatype Phase = Phase(state: GameState, loading: bool)

  function PhaseOf(s: Session): Phase
  {
    Phase(s.state, s.isInLoadingScreen)
  }

  /** A listener's view of one event: a leave event needs the matching state,
      an enter event needs the state to have been left, and loading-screen
      events must alternate. `None` means the event makes no sense here. */
  function Observe(p: Phase, e: Event): Option<Phase>
  {
    match e
    case LeaveCharacterLobby => if p.state == CharacterLobby then Some(p.(state := Invalid)) else None
    case LeaveGame => if p.state == Ingame then Some(p.(state := Invalid)) else None
    case EnterCharacterLobby => if p.state == Invalid then Some(p.(state := CharacterLobby)) else None
    case EnterGame => if p.state == Invalid then Some(p.(state := Ingame)) else None
    case EnterLoadingScreen => if !p.loading then Some(p.(loading := true)) else None
    case LeaveLoadingScreen => if p.loading then Some(p.(loading := false)) else None
  }

  function Replay(p: Phase, trace: seq<Event>): Option<Phase>
    decreases |trace|
  {
    if trace == [] then Some(p)
    else
      match Observe(p, trace[0])
      case None => None
      case Some(q) => Replay(q, trace[1..])
  }

  /** Replaying a concatenation replays the first part, then the second. */
  lemma {:induction false} ReplayAppend(p: Phase, a: seq<Event>, b: seq<Event>)
    ensures Replay(p, a + b) == match Replay(p, a) case None => None case Some(q) => Replay(q, b)
    decreases |a|
  {
    if a == [] {
      assert a + b == b;
    } else {
      assert (a + b)[0] == a[0];
      assert (a + b)[1..] == a[1..] + b;
      match Observe(p, a[0])
      case None =>
      case Some(q) => ReplayAppend(q, a[1..], b);
    }
  }

  /** `setState` emits, for a real change, the leave event of the old state
      before the enter event of the new one, and nothing for a redundant set;
      a listener following the events ends up in the new state. */
  lemma StateChangeIsObservable(s: Session, to: GameState)
    ensures StateChange(s, to).session.state == to
    ensures StateChange(s, to).emitted == [] <==> s.state == to
    ensures |StateChange(s, to).emitted| <= 2
    ensures Replay(PhaseOf(s), StateChange(s, to).emitted) == Some(PhaseOf(StateChange(s, to).session))
  {
    var t := StateChange(s, to);
    if s.state != to {
      ReplayAppend(PhaseOf(s), LeaveEvents(s.state), EnterEvents(to));
    }
  }

  /** `setLoadingScreen(b)` emits exactly one event iff the flag flips:
      `enter_loading_screen` for true, `leave_loading_screen` for false. */
  lemma LoadingChangeIsObservable(s: Session, b: bool)
    ensures LoadingChange(s, b).session == s.(isInLoadingScreen := b)
    ensures LoadingChange(s, b).emitted ==
      if s.isInLoadingScreen == b then [] else if b then [EnterLoadingScreen] else [LeaveLoadingScreen]
    ensures Replay(PhaseOf(s), LoadingChange(s, b).emitted) == Some(PhaseOf(LoadingChange(s, b).session))
  {
  }

  /** The number of events a step from `before` to `after` must emit: one
      leave event for the old state and one enter event for the new one when
      the state really changed (none for INVALID), and one loading-screen
      event when the flag really flipped. */
  function ChangeEvents(before: Session, after: Session): nat
  {
    (if after.state == before.state then 0 else |LeaveEvents(before.state)| + |EnterEvents(after.state)|)
    + (if after.isInLoadingScreen == before.isInLoadingScreen then 0 else 1)
  }

  /** The sum of `ChangeEvents` over the steps of a packet stream. */
  function RunChangeEvents(s: Session, majorPatchVersion: int, ps: seq<Packet>): nat
    decreases |ps|
  {
    if ps == [] then 0
    else
      var t := Deliver(s, majorPatchVersion, ps[0]);
      ChangeEvents(s, t.session) + RunChangeEvents(t.session, majorPatchVersion, ps[1..])
  }

  /** Every delivered packet emits exactly the events a listener needs to
      follow the change of state and loading flag, and no more: one exit and
      one entry event per real state change, one loading-screen event per
      real flip, nothing for a redundant set. */
  lemma {:induction false} DeliverIsObservable(s: Session, v: int, p: Packet)
    ensures Replay(PhaseOf(s), Deliver(s, v, p).emitted) == Some(PhaseOf(Deliver(s, v, p).session))
    ensures Deliver(s, v, p).emitted == [] <==> PhaseOf(Deliver(s, v, p).session) == PhaseOf(s)
    ensures |Deliver(s, v, p).emitted| == ChangeEvents(s, Deliver(s, v, p).session)
  {
    if Hooked(v, p) {
      match p
      case GetUserList => StateChangeIsObservable(s, CharacterLobby);
      case ReturnToLobby => StateChangeIsObservable(s, CharacterLobby);
      case Exit => StateChangeIsObservable(s, Invalid);
      case Login =>
        var t := LoadingChange(s, true);
        LoadingChangeIsObservable(s, true);
        StateChangeIsObservable(t.session, Ingame);
        ReplayAppend(PhaseOf(s), t.emitted, StateChange(t.session, Ingame).emitted);
      case LoadTopo => LoadingChangeIsObservable(s, true);
      case SpawnMe => LoadingChangeIsObservable(s, false);
      case _ =>
    }
  }

  /** For every packet stream, the emitted trace is one a listener can follow
      from the initial state and flag to the final ones, and it is exactly as
      long as the real changes along the way demand: leave and enter events
      pair up with the actual state changes and loading-screen events with
      the actual flips, with no spurious pair. */
  lemma {:induction false} RunIsObservable(s: Session, v: int, ps: seq<Packet>)
    ensures Replay(PhaseOf(s), Run(s, v, ps).emitted) == Some(PhaseOf(Run(s, v, ps).session))
    ensures |Run(s, v, ps).emitted| == RunChangeEvents(s, v, ps)
    decreases |ps|
  {
    if ps != [] {
      var t := Deliver(s, v, ps[0]);
      DeliverIsObservable(s, v, ps[0]);
      RunIsObservable(t.session, v, ps[1..]);
      ReplayAppend(PhaseOf(s), t.emitted, Run(t.session, v, ps[1..]).emitted);
    }
  }

  /** What a listener of `e` reads from the controller while `e` fires is the
      state or flag that `e` announces: the state being left for a leave
      event (it is still stored), the state entered for an enter event, and
      the new flag for a loading-screen event (stored before the emit). */
  predicate SeesAnnounced(e: Event, s: Session)
  {
    match e
    case LeaveCharacterLobby => s.state == CharacterLobby
    case EnterCharacterLobby => s.state == CharacterLobby
    case LeaveGame => s.state == Ingame
    case EnterGame => s.state == Ingame
    case EnterLoadingScreen => s.isInLoadingScreen
    case LeaveLoadingScreen => !s.isInLoadingScreen
  }

  predicate AllSeeAnnounced(t: Step)
  {
    |t.seen| == |t.emitted| && forall i :: 0 <= i < |t.emitted| ==> SeesAnnounced(t.emitted[i], t.seen[i])
  }

  lemma ConcatSeeAnnounced(a: Step, b: Step, session: Session)
    requires AllSeeAnnounced(a) && AllSeeAnnounced(b)
    ensures AllSeeAnnounced(Step(session, a.emitted + b.emitted, a.seen + b.seen))
  {
    var c := Step(session, a.emitted + b.emitted, a.seen + b.seen);
    forall i | 0 <= i < |c.emitted| ensures SeesAnnounced(c.emitted[i], c.seen[i]) {
      if i >= |a.emitted| {
        assert c.emitted[i] == b.emitted[i - |a.emitted|];
        assert c.seen[i] == b.seen[i - |a.emitted|];
      }
    }
  }

  /** Every delivered packet lets each listener read the state or flag its
      event announces: a `leave_game` listener still sees INGAME, an
      `enter_game` listener already sees it. */
  lemma {:induction false} DeliverSeesAnnounced(s: Session, v: int, p: Packet)
    ensures AllSeeAnnounced(Deliver(s, v, p))
  {
    if Hooked(v, p) {
      match p
      case Login =>
        var t := LoadingChange(s, true);
        ConcatSeeAnnounced(t, StateChange(t.session, Ingame), Handle(s, p).session);
      case _ =>
    }
  }

  /** The same for every packet stream. */
  lemma {:induction false} RunSeesAnnounced(s: Session, v: int, ps: seq<Packet>)
    ensures AllSeeAnnounced(Run(s, v, ps))
    decreases |ps|
  {
    if ps != [] {
      var t := Deliver(s, v, ps[0]);
      DeliverSeesAnnounced(s, v, ps[0]);
      RunSeesAnnounced(t.session, v, ps[1..]);
      ConcatSeeAnnounced(t, Run(t.session, v, ps[1..]), Run(s, v, ps).session);
    }
  }

  /** A trace that a listener can follow from `start` to `s`, with every
      listener reading the state its event announces, stays so when one more
      packet is delivered in `s`. */
  lemma DeliverExtendsTrace(start: Phase, s: Session, v: int, p: Packet, events: seq<Event>, seen: seq<Session>)
    requires Replay(start, events) == Some(PhaseOf(s))
    requires AllSeeAnnounced(Step(s, events, seen))
    ensures var t := Deliver(s, v, p);
      && Replay(start, events + t.emitted) == Some(PhaseOf(t.session))
      && AllSeeAnnounced(Step(t.session, events + t.emitted, seen + t.seen))
  {
    var t := Deliver(s, v, p);
    DeliverIsObservable(s, v, p);
    ReplayAppend(start, events, t.emitted);
    DeliverSeesAnnounced(s, v, p);
    ConcatSeeAnnounced(Step(s, events, seen), t, t.session);
  }

  /** S_LOGIN from the character lobby: loading screen first, then the state
      change; a later S_SPAWN_ME only ends the loading screen (index.js:143, 145). */
  lemma LoginScenario(s: Session)
    requires s.state == CharacterLobby && !s.isInLoadingScreen
    ensures Handle(s, Login).emitted == [EnterLoadingScreen, LeaveCharacterLobby, EnterGame]
    ensures Handle(s, Login).session.state == Ingame
    ensures Handle(Handle(s, Login).session, SpawnMe).emitted == [LeaveLoadingScreen]
    ensures Handle(Handle(s, Login).session, SpawnMe).session.state == Ingame
    ensures Handle(s, Login).seen[0].state == CharacterLobby
  {
  }

  /** The bookkeeping handlers change only their own fields and emit nothing
      (index.js:132-139, 149-150). */
  lemma BookkeepingLeavesPhase(s: Session, p: Packet)
    requires p.LoginArbiter? || p.LoginAccountInfo? || p.SelectUser? || p.TbaSelectUser?
    ensures Handle(s, p).emitted == []
    ensures PhaseOf(Handle(s, p).session) == PhaseOf(s)
  {
  }

  /** S_RETURN_TO_LOBBY always ends in the lobby with the TBA flag cleared;
      S_EXIT always ends in INVALID (index.js:142, 146). */
  lemma LobbyAndExitTargets(s: Session)
    ensures Handle(s, ReturnToLobby).session.state == CharacterLobby
    ensures !Handle(s, ReturnToLobby).session.isTBA
    ensures Handle(s, Exit).session.state == Invalid
    ensures s.state != CharacterLobby ==>
      Handle(s, ReturnToLobby).seen[|Handle(s, ReturnToLobby).seen| - 1].isTBA == s.isTBA
  {
  }
}
