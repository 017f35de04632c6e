/** The connection supervisor: connection attempts, disconnects, shutdown, backend events and
    the automatic reconnect timer.  A step is one critical section of the service mutex, and
    the threads may interleave in any order.  Only commands (a user's connect or disconnect
    and a reconnect callback) hold the command lock for as long as they run. */
module Supervisor {

  const MAX_TRIES := 3

  datatype Phase = Disconnected | Connecting | Connected | Reconnecting | Failed

  datatype Attempt = Attempt(id: string, profile: string)

  /** A reconnect callback as it was scheduled.  `gen` is the generation it was tagged with and
      `chain` the generation of the first callback of its retry chain. */
  datatype Callback = Callback(profile: string, manualSeq: nat, attempt: nat, gen: nat, chain: nat)

  datatype Command = Idle | Manual | Scheduled(cb: Callback)

  /** What lies outside the service mutex: attempts and their contexts, the runtime's timers and
      the command lock. */
  datatype Env = Env(
    started: seq<Attempt>,        // every attempt, in order
    cancelled: set<string>,       // attempts whose context was cancelled
    pending: set<Callback>,       // callbacks scheduled, not run; stopping a timer may come too late
    dialled: set<Callback>,       // callbacks that went on to the backend
    command: Command)

  datatype State = State(
    phase: Phase,
    connectedID: string,          // the service's own record
    shownID: string,              // the connected profile in the published status
    currentID: string,
    shownCurrentID: string,
    attemptID: string,            // "" when no attempt is pending
    disconnectSeq: nat,
    timer: bool, rcProfile: string, rcAttempt: nat, rcSeq: nat, rcGen: nat,
    closed: bool,
    env: Env)

  /** What connection threads, disconnects, shutdown and backend events do. */
  datatype ConnStep =
    | Start(id: string, profile: string, allowReconnect: bool)
    | ReturnError(id: string, canceled: bool)
    | SetupFailed(id: string)
    | Publish(id: string)
    | CancelContext(id: string)
    | DisconnectBegin(manual: bool)
    | DisconnectFinish
    | CleanupFailed
    | CloseBegin
    | CloseFinish
    | Lost(repair: bool, error: bool)
    | NetworkChange
    | RepairFailed
    | Select(profile: string, shown: bool)

  /** What the reconnect timer and the commands that hold the command lock do. */
  datatype TimerStep =
    | Arm(profile: string, manualSeq: nat, enabled: bool)
    | Fire(cb: Callback, enabled: bool)
    | Dial(id: string)
    | CallbackDone(ok: bool, retryable: bool, enabled: bool)
    | ManualConnect
    | ManualDisconnect
    | CommandEnd

  datatype Action = Conn(c: ConnStep) | Timer(t: TimerStep)

  const Fresh := State(Disconnected, "", "", "", "", "", 0, false, "", 0, 0, 0, false, Env([], {}, {}, {}, Idle))

  // ---------------------------------------------------------------- critical sections

  predicate Known(s: State, id: string) {
    exists i :: 0 <= i < |s.env.started| && s.env.started[i].id == id
  }

  function ProfileOf(started: seq<Attempt>, id: string): string {
    if started == [] then "" else if started[|started| - 1].id == id then started[|started| - 1].profile
    else ProfileOf(started[..|started| - 1], id)
  }

  /** Whether a new attempt may be recorded: nothing else is under way and the profile is not
      connected already. */
  predicate MayStart(s: State, profile: string, allowReconnect: bool) {
    && (s.phase == Connecting || s.phase == Reconnecting ==>
          allowReconnect && s.phase == Reconnecting && s.shownCurrentID == profile)
    && !(s.phase == Connected && s.connectedID == profile)
  }

  function Recorded(s: State, id: string, profile: string, allowReconnect: bool): State {
    s.(phase := if allowReconnect then Reconnecting else Connecting, currentID := profile, shownCurrentID := profile,
       shownID := "", attemptID := id, env := s.env.(started := s.env.started + [Attempt(id, profile)]))
  }

  /** Ids are random: a step that would reuse one does not happen. */
  function DoStart(s: State, id: string, profile: string, allowReconnect: bool): State {
    if id == "" || profile == "" || Known(s, id) || !MayStart(s, profile, allowReconnect) then s
    else Recorded(s, id, profile, allowReconnect)
  }

  function DoReturnError(s: State, id: string, canceled: bool): State {
    if id == "" || s.attemptID != id then s
    else s.(attemptID := "", phase := if canceled || id in s.env.cancelled then Disconnected else Failed)
  }

  function DoSetupFailed(s: State, id: string): State {
    if id == "" || s.attemptID != id then s else s.(attemptID := "", phase := Failed)
  }

  function DoPublish(s: State, id: string): State {
    if id == "" || s.attemptID != id || id in s.env.cancelled then s
    else
      var profile := ProfileOf(s.env.started, id);
      s.(attemptID := "", connectedID := profile, shownID := profile, phase := Connected)
  }

  function StopReconnect(s: State): State {
    s.(timer := false, rcProfile := "", rcAttempt := 0, rcSeq := 0, rcGen := s.rcGen + 1)
  }

  function CancelAttempt(s: State): State {
    if s.attemptID == "" then s else s.(env := s.env.(cancelled := s.env.cancelled + {s.attemptID}))
  }

  function DoDisconnectBegin(s: State, manual: bool): State {
    var t := if manual then StopReconnect(s) else s;
    CancelAttempt(if manual && s.connectedID != "" then t.(disconnectSeq := s.disconnectSeq + 1) else t)
  }

  function DoDisconnectFinish(s: State): State {
    s.(attemptID := "", connectedID := "", shownID := "", phase := Disconnected)
  }

  function DoLost(s: State, repair: bool, error: bool): State {
    s.(connectedID := "", shownID := "", phase := if error then Failed else if repair then Reconnecting else Disconnected)
  }

  function Armed(s: State, cb: Callback): State {
    s.(rcGen := s.rcGen + 1, timer := true, rcProfile := cb.profile, rcAttempt := cb.attempt, rcSeq := cb.manualSeq,
       env := s.env.(pending := s.env.pending + {cb}))
  }

  /** Schedule reconnect number `attempt`; `enabled` says the profile exists and may reconnect. */
  function DoArm(s: State, profile: string, manualSeq: nat, attempt: nat, chain: nat, enabled: bool): State {
    if !enabled || s.currentID != profile || s.connectedID != "" || s.disconnectSeq != manualSeq then s
    else Armed(s, Callback(profile, manualSeq, attempt, s.rcGen + 1, chain))
  }

  predicate PassesGuard(s: State, cb: Callback) {
    s.rcGen == cb.gen && s.rcProfile == cb.profile && s.rcSeq == cb.manualSeq
  }

  /** The callback takes the command lock, checks that it is still the current one, and then
      that reconnecting still makes sense. */
  function DoFire(s: State, cb: Callback, enabled: bool): State {
    if cb !in s.env.pending || !s.env.command.Idle? then s
    else
      var t := s.(env := s.env.(pending := s.env.pending - {cb}));
      if !PassesGuard(s, cb) then t
      else if !enabled || s.currentID != cb.profile || s.connectedID != "" || s.disconnectSeq != cb.manualSeq
      then StopReconnect(t)
      else t.(timer := false, phase := Reconnecting, env := t.env.(command := Scheduled(cb)))
  }

  function DoDial(s: State, id: string): State {
    if !s.env.command.Scheduled? || s.env.command.cb in s.env.dialled then s
    else DoStart(s.(env := s.env.(dialled := s.env.dialled + {s.env.command.cb})), id, s.env.command.cb.profile, true)
  }

  function DoCallbackDone(s: State, ok: bool, retryable: bool, enabled: bool): State {
    if !s.env.command.Scheduled? then s
    else
      var cb, t := s.env.command.cb, s.(env := s.env.(command := Idle));
      if ok then StopReconnect(t)
      else if retryable && cb.attempt < MAX_TRIES then DoArm(t, cb.profile, cb.manualSeq, cb.attempt + 1, cb.chain, enabled)
      else StopReconnect(t.(phase := Failed))
  }

  function ApplyConn(s: State, a: ConnStep): State {
    match a
    case Start(id, profile, allow) => DoStart(s, id, profile, allow)
    case ReturnError(id, canceled) => DoReturnError(s, id, canceled)
    case SetupFailed(id) => DoSetupFailed(s, id)
    case Publish(id) => DoPublish(s, id)
    case CancelContext(id) => s.(env := s.env.(cancelled := s.env.cancelled + {id}))
    case DisconnectBegin(manual) => DoDisconnectBegin(s, manual)
    case DisconnectFinish => DoDisconnectFinish(s)
    case CleanupFailed => s.(phase := Failed)
    case CloseBegin => if s.closed then s else CancelAttempt(StopReconnect(s.(closed := true)))
    case CloseFinish => DoDisconnectFinish(s)
    case Lost(repair, error) => DoLost(s, repair, error)
    case NetworkChange => if s.connectedID == "" then s else s.(phase := Reconnecting)
    case RepairFailed => s.(phase := Failed)
    case Select(profile, shown) => s.(currentID := profile, shownCurrentID := if shown then profile else s.shownCurrentID)
  }

  function ApplyTimer(s: State, a: TimerStep): State {
    match a
    case Arm(profile, manualSeq, enabled) => DoArm(s, profile, manualSeq, 1, s.rcGen + 1, enabled)
    case Fire(cb, enabled) => DoFire(s, cb, enabled)
    case Dial(id) => DoDial(s, id)
    case CallbackDone(ok, retryable, enabled) => DoCallbackDone(s, ok, retryable, enabled)
    case ManualConnect => if s.env.command.Idle? then StopReconnect(s.(env := s.env.(command := Manual))) else s
    case ManualDisconnect => if s.env.command.Idle? then DoDisconnectBegin(s.(env := s.env.(command := Manual)), true) else s
    case CommandEnd => if s.env.command.Manual? then s.(env := s.env.(command := Idle)) else s
  }

  function Apply(s: State, a: Action): State {
    match a
    case Conn(c) => ApplyConn(s, c)
    case Timer(t) => ApplyTimer(s, t)
  }

  function Run(s: State, actions: seq<Action>): State
    decreases |actions|
  {
    if actions == [] then s else Run(Apply(s, actions[0]), actions[1..])
  }

  // ---------------------------------------------------------------- what a connected state means

  /** Attempts have distinct non-empty ids; a pending attempt is the one started last; and a
      published connection is the same everywhere, with no attempt pending beside it. */
  ghost predicate AttemptsOk(s: State) {
    && (forall i :: 0 <= i < |s.env.started| ==> s.env.started[i].id != "" && s.env.started[i].profile != "")
    && (forall i, j :: 0 <= i < j < |s.env.started| ==> s.env.started[i].id != s.env.started[j].id)
    && (s.attemptID != "" ==> s.env.started != [] && s.env.started[|s.env.started| - 1].id == s.attemptID)
    && (s.phase == Connected ==> s.connectedID == s.shownID != "" && s.attemptID == "")
  }

  // ---------------------------------------------------------------- reconnect callbacks

  ghost predicate CallbackOk(s: State, cb: Callback) {
    1 <= cb.attempt <= MAX_TRIES && 1 <= cb.chain <= cb.gen <= s.rcGen
  }

  /** `cb` can still run or is running; nothing its chain has dialled lies after it. */
  ghost predicate LiveOk(s: State, cb: Callback) {
    CallbackOk(s, cb) &&
    forall d :: d in s.env.dialled && d.chain == cb.chain ==> d.attempt < cb.attempt || d == cb
  }

  ghost predicate CallbacksOk(s: State) {
    && (forall cb :: cb in s.env.pending ==> LiveOk(s, cb) && cb !in s.env.dialled)
    && (forall cb :: cb in s.env.dialled ==> CallbackOk(s, cb))
    && (s.env.command.Scheduled? ==> LiveOk(s, s.env.command.cb) && s.env.command.cb !in s.env.pending)
    && (forall x, y :: x in s.env.pending && y in s.env.pending && (x.gen == y.gen || x.chain == y.chain) ==> x == y)
    && (s.env.command.Scheduled? ==> forall x :: x in s.env.pending ==> x.chain != s.env.command.cb.chain)
    && (forall x, y :: x in s.env.dialled && y in s.env.dialled && x.chain == y.chain && x.attempt == y.attempt ==> x == y)
  }

  ghost predicate Inv(s: State) {
    AttemptsOk(s) && CallbacksOk(s)
  }

  /** Steps that start no attempt. */
  lemma AttemptsKept(s: State, t: State)
    requires AttemptsOk(s) && t.env.started == s.env.started
    requires t.attemptID == "" || t.attemptID == s.attemptID
    requires t.phase == Connected ==>
               t.connectedID == t.shownID != "" && t.attemptID == ""
    ensures AttemptsOk(t)
  {
  }

  lemma StartKeepsAttempts(s: State, id: string, profile: string, allowReconnect: bool)
    requires AttemptsOk(s)
    ensures AttemptsOk(DoStart(s, id, profile, allowReconnect))
  {
    var t := DoStart(s, id, profile, allowReconnect);
    if t.env.started != s.env.started {
      assert forall i :: 0 <= i < |s.env.started| ==> t.env.started[i] == s.env.started[i] && s.env.started[i].id != id;
    }
  }

  lemma ProfileOfLast(started: seq<Attempt>, id: string)
    requires started != [] && started[|started| - 1].id == id
    ensures ProfileOf(started, id) == started[|started| - 1].profile
  {
  }

  lemma ConnKeepsAttempts(s: State, a: ConnStep)
    requires AttemptsOk(s)
    ensures AttemptsOk(ApplyConn(s, a))
  {
    if a.Start? {
      StartKeepsAttempts(s, a.id, a.profile, a.allowReconnect);
    } else {
      if a.Publish? && s.attemptID == a.id != "" { ProfileOfLast(s.env.started, a.id); }
      AttemptsKept(s, ApplyConn(s, a));
    }
  }

  lemma TimerKeepsAttempts(s: State, a: TimerStep)
    requires AttemptsOk(s)
    ensures AttemptsOk(ApplyTimer(s, a))
  {
    if a.Dial? {
      if s.env.command.Scheduled? {
        StartKeepsAttempts(s.(env := s.env.(dialled := s.env.dialled + {s.env.command.cb})), a.id, s.env.command.cb.profile, true);
      }
    } else {
      AttemptsKept(s, ApplyTimer(s, a));
    }
  }

  /** Steps that only move the generation forward. */
  lemma CallbacksKept(s: State, t: State)
    requires CallbacksOk(s) && t.env.pending == s.env.pending && t.env.dialled == s.env.dialled && s.rcGen <= t.rcGen
    requires t.env.command.Scheduled? ==> t.env.command == s.env.command
    ensures CallbacksOk(t)
  {
  }

  lemma ArmKeepsCallbacks(s: State, profile: string, manualSeq: nat, attempt: nat, chain: nat, enabled: bool)
    requires CallbacksOk(s) && 1 <= attempt <= MAX_TRIES && 1 <= chain <= s.rcGen + 1
    requires forall cb :: cb in s.env.dialled && cb.chain == chain ==> cb.attempt < attempt
    requires forall cb :: cb in s.env.pending ==> cb.chain != chain
    requires s.env.command.Scheduled? ==> s.env.command.cb.chain != chain
    ensures CallbacksOk(DoArm(s, profile, manualSeq, attempt, chain, enabled))
  {
    var t := DoArm(s, profile, manualSeq, attempt, chain, enabled);
    if t.env.pending != s.env.pending {
      var next := Callback(profile, manualSeq, attempt, s.rcGen + 1, chain);
      assert LiveOk(t, next);
      forall cb | cb in s.env.pending ensures LiveOk(t, cb) && cb.gen != next.gen {
        assert LiveOk(s, cb);
      }
      forall cb | cb in s.env.dialled ensures CallbackOk(t, cb) && cb.gen != next.gen {
        assert CallbackOk(s, cb);
      }
    }
  }

  lemma FireKeepsCallbacks(s: State, cb: Callback, enabled: bool)
    requires CallbacksOk(s)
    ensures CallbacksOk(DoFire(s, cb, enabled))
  {
    if cb in s.env.pending {
      assert LiveOk(s, cb);
      var t := s.(env := s.env.(pending := s.env.pending - {cb}));
      assert CallbacksOk(t);
    }
  }

  lemma DialKeepsCallbacks(s: State, id: string)
    requires CallbacksOk(s)
    ensures CallbacksOk(DoDial(s, id))
  {
    if s.env.command.Scheduled? && s.env.command.cb !in s.env.dialled {
      var t := s.(env := s.env.(dialled := s.env.dialled + {s.env.command.cb}));
      forall cb | cb in s.env.pending ensures LiveOk(t, cb) {
        assert LiveOk(s, cb);
      }
      assert CallbacksOk(t);
      CallbacksKept(t, DoDial(s, id));
    }
  }

  lemma DoneKeepsCallbacks(s: State, ok: bool, retryable: bool, enabled: bool)
    requires CallbacksOk(s)
    ensures CallbacksOk(DoCallbackDone(s, ok, retryable, enabled))
  {
    if s.env.command.Scheduled? {
      var cb, t := s.env.command.cb, s.(env := s.env.(command := Idle));
      CallbacksKept(s, t);
      if !ok && retryable && cb.attempt < MAX_TRIES {
        ArmKeepsCallbacks(t, cb.profile, cb.manualSeq, cb.attempt + 1, cb.chain, enabled);
      } else {
        CallbacksKept(t, DoCallbackDone(s, ok, retryable, enabled));
      }
    }
  }

  lemma FirstArmKeepsCallbacks(s: State, profile: string, manualSeq: nat, enabled: bool)
    requires CallbacksOk(s)
    ensures CallbacksOk(DoArm(s, profile, manualSeq, 1, s.rcGen + 1, enabled))
  {
    assert forall cb :: cb in s.env.pending ==> LiveOk(s, cb);
    assert forall cb :: cb in s.env.dialled ==> CallbackOk(s, cb);
    ArmKeepsCallbacks(s, profile, manualSeq, 1, s.rcGen + 1, enabled);
  }

  lemma TimerKeepsCallbacks(s: State, a: TimerStep)
    requires CallbacksOk(s)
    ensures CallbacksOk(ApplyTimer(s, a))
  {
    match a {
      case Arm(profile, manualSeq, enabled) => FirstArmKeepsCallbacks(s, profile, manualSeq, enabled);
      case Fire(cb, enabled) => FireKeepsCallbacks(s, cb, enabled);
      case Dial(id) => DialKeepsCallbacks(s, id);
      case CallbackDone(ok, retryable, enabled) => DoneKeepsCallbacks(s, ok, retryable, enabled);
      case ManualConnect => CallbacksKept(s, ApplyTimer(s, ManualConnect));
      case ManualDisconnect => CallbacksKept(s, ApplyTimer(s, ManualDisconnect));
      case CommandEnd => CallbacksKept(s, ApplyTimer(s, CommandEnd));
    }
  }

  lemma ConnKeepsCallbacks(s: State, a: ConnStep)
    requires CallbacksOk(s)
    ensures CallbacksOk(ApplyConn(s, a))
  {
    CallbacksKept(s, ApplyConn(s, a));
  }

  lemma ApplyKeepsInv(s: State, a: Action)
    requires Inv(s)
    ensures Inv(Apply(s, a))
  {
    match a
    case Conn(c) => ConnKeepsAttempts(s, c); ConnKeepsCallbacks(s, c);
    case Timer(t) => TimerKeepsAttempts(s, t); TimerKeepsCallbacks(s, t);
  }

  lemma {:induction false} RunKeepsInv(s: State, actions: seq<Action>)
    requires Inv(s)
    ensures Inv(Run(s, actions))
    decreases |actions|
  {
    if actions != [] {
      ApplyKeepsInv(s, actions[0]);
      RunKeepsInv(Apply(s, actions[0]), actions[1..]);
    }
  }

  // ---------------------------------------------------------------- attempts: the results

  /** In every run, Connected means: one profile, recorded and shown alike, no attempt pending. */
  lemma ConnectedIsConsistent(actions: seq<Action>)
    ensures var s := Run(Fresh, actions);
            s.phase == Connected ==> s.connectedID == s.shownID && s.connectedID != "" && s.attemptID == ""
  {
    RunKeepsInv(Fresh, actions);
  }

  /** In every run, a result is published only for the attempt started last, with its context
      still open, and it connects that attempt's profile. */
  lemma OnlyLatestAttemptPublishes(actions: seq<Action>, id: string)
    ensures var s := Run(Fresh, actions); var t := Apply(s, Conn(Publish(id)));
            t != s ==>
              && s.env.started != [] && s.env.started[|s.env.started| - 1].id == id && id !in s.env.cancelled
              && t.phase == Connected && t.connectedID == s.env.started[|s.env.started| - 1].profile
  {
    var s := Run(Fresh, actions);
    RunKeepsInv(Fresh, actions);
    if id != "" && s.attemptID == id { ProfileOfLast(s.env.started, id); }
  }

  /** The attempt can no longer publish: it is not the pending one, or its context is cancelled. */
  ghost predicate Dead(s: State, id: string) {
    id != "" && Known(s, id) && (s.attemptID != id || id in s.env.cancelled)
  }

  lemma ConnKeepsDead(s: State, a: ConnStep, id: string)
    requires Dead(s, id)
    ensures Dead(ApplyConn(s, a), id)
  {
    var i :| 0 <= i < |s.env.started| && s.env.started[i].id == id;
    assert ApplyConn(s, a).env.started[i] == s.env.started[i];
  }

  lemma TimerKeepsDead(s: State, a: TimerStep, id: string)
    requires Dead(s, id)
    ensures Dead(ApplyTimer(s, a), id)
  {
    var i :| 0 <= i < |s.env.started| && s.env.started[i].id == id;
    assert ApplyTimer(s, a).env.started[i] == s.env.started[i];
    assert a.Dial? && s.env.command.Scheduled? ==> Known(s.(env := s.env.(dialled := s.env.dialled + {s.env.command.cb})), id);
  }

  lemma {:induction false} RunKeepsDead(s: State, actions: seq<Action>, id: string)
    requires Dead(s, id)
    ensures Dead(Run(s, actions), id)
    decreases |actions|
  {
    if actions != [] {
      match actions[0] {
        case Conn(c) => ConnKeepsDead(s, c, id);
        case Timer(t) => TimerKeepsDead(s, t, id);
      }
      RunKeepsDead(Apply(s, actions[0]), actions[1..], id);
    }
  }

  /** The steps that end all attempts started so far: a disconnect or a shutdown, at its
      beginning or at its end, and the start of another attempt. */
  predicate Cuts(s: State, a: Action) {
    match a
    case Conn(DisconnectBegin(_)) => true
    case Conn(DisconnectFinish) => true
    case Conn(CloseBegin) => !s.closed
    case Conn(CloseFinish) => true
    case Conn(Start(_, _, _)) => ApplyConn(s, a.c) != s
    case Timer(ManualDisconnect) => s.env.command.Idle?
    case _ => false
  }

  lemma CutKillsAttempts(s: State, a: Action, id: string)
    requires Inv(s) && Known(s, id) && Cuts(s, a)
    ensures Dead(Apply(s, a), id)
  {
    var i :| 0 <= i < |s.env.started| && s.env.started[i].id == id;
    assert Apply(s, a).env.started[i] == s.env.started[i];
  }

  /** Late results never revive a connection: once a disconnect, a shutdown or another attempt
      has intervened, the session an earlier attempt returns changes nothing, and an error it
      returns does not make the state Connected, in every continuation. */
  lemma LateResultsNeverConnect(pre: seq<Action>, cut: Action, post: seq<Action>, id: string, canceled: bool)
    requires Known(Run(Fresh, pre), id) && Cuts(Run(Fresh, pre), cut)
    ensures var t := Run(Apply(Run(Fresh, pre), cut), post);
            && Apply(t, Conn(Publish(id))) == t
            && (Apply(t, Conn(ReturnError(id, canceled))).phase == Connected ==> Apply(t, Conn(ReturnError(id, canceled))) == t)
            && (Apply(t, Conn(SetupFailed(id))).phase == Connected ==> Apply(t, Conn(SetupFailed(id))) == t)
  {
    RunKeepsInv(Fresh, pre);
    CutKillsAttempts(Run(Fresh, pre), cut, id);
    RunKeepsDead(Apply(Run(Fresh, pre), cut), post, id);
  }

  /** No attempt is started. */
  ghost predicate StartsNothing(actions: seq<Action>) {
    forall a :: a in actions ==> !(a.Conn? && a.c.Start?) && !(a.Timer? && a.t.Dial?)
  }

  /** Not connected, and no attempt that could still publish. */
  predicate AtRest(s: State) {
    s.phase != Connected && (s.attemptID == "" || s.attemptID in s.env.cancelled)
  }

  lemma ConnKeepsRest(s: State, a: ConnStep)
    requires AtRest(s) && !a.Start?
    ensures AtRest(ApplyConn(s, a))
  {
  }

  lemma TimerKeepsRest(s: State, a: TimerStep)
    requires AtRest(s) && !a.Dial?
    ensures AtRest(ApplyTimer(s, a))
  {
  }

  lemma {:induction false} RunKeepsRest(s: State, actions: seq<Action>)
    requires AtRest(s) && StartsNothing(actions)
    ensures AtRest(Run(s, actions))
    decreases |actions|
  {
    if actions != [] {
      assert actions[0] in actions;
      match actions[0] {
        case Conn(c) => ConnKeepsRest(s, c);
        case Timer(t) => TimerKeepsRest(s, t);
      }
      RunKeepsRest(Apply(s, actions[0]), actions[1..]);
    }
  }

  ghost predicate Connects(s: State, actions: seq<Action>) {
    StartsNothing(actions) && Run(s, actions).phase == Connected
  }

  /** When a loss is honoured: after it the state can become Connected without a new attempt if
      and only if an attempt is pending and not cancelled when the loss is reported. */
  lemma LossIsHonouredIff(pre: seq<Action>, repair: bool, error: bool)
    ensures var s := Run(Fresh, pre);
            (exists post :: Connects(Apply(s, Conn(Lost(repair, error))), post))
            <==> s.attemptID != "" && s.attemptID !in s.env.cancelled
  {
    var s := Run(Fresh, pre);
    var t := Apply(s, Conn(Lost(repair, error)));
    RunKeepsInv(Fresh, pre);
    if s.attemptID != "" && s.attemptID !in s.env.cancelled {
      LossBeforePublicationIsForgotten(s, repair, error);
      var post := [Conn(Publish(s.attemptID))];
      assert post[1..] == [] && Run(t, post) == Apply(t, post[0]);
      assert Connects(t, post);
    } else {
      forall post | StartsNothing(post) ensures Run(t, post).phase != Connected {
        RunKeepsRest(t, post);
      }
    }
  }

  /** The half that fails, as a run: the pending attempt goes on to publish Connected. */
  lemma LossBeforePublicationIsForgotten(s: State, repair: bool, error: bool)
    requires Inv(s) && s.attemptID != "" && s.attemptID !in s.env.cancelled
    ensures Apply(Apply(s, Conn(Lost(repair, error))), Conn(Publish(s.attemptID))).phase == Connected
  {
  }

  // ---------------------------------------------------------------- reconnects: the results

  /** In every run at most one of the scheduled callbacks would be let through. */
  lemma AtMostOneCallbackPasses(actions: seq<Action>, x: Callback, y: Callback)
    ensures var s := Run(Fresh, actions);
            x in s.env.pending && y in s.env.pending && PassesGuard(s, x) && PassesGuard(s, y) ==> x == y
  {
    RunKeepsInv(Fresh, actions);
  }

  ghost predicate Stale(s: State, cb: Callback) {
    cb.gen < s.rcGen && s.env.command != Scheduled(cb) && cb !in s.env.dialled
  }

  lemma ConnKeepsStale(s: State, a: ConnStep, cb: Callback)
    requires Stale(s, cb)
    ensures Stale(ApplyConn(s, a), cb)
  {
  }

  lemma TimerKeepsStale(s: State, a: TimerStep, cb: Callback)
    requires Stale(s, cb)
    ensures Stale(ApplyTimer(s, a), cb)
  {
  }

  lemma {:induction false} RunKeepsStale(s: State, actions: seq<Action>, cb: Callback)
    requires Stale(s, cb)
    ensures Stale(Run(s, actions), cb)
    decreases |actions|
  {
    if actions != [] {
      match actions[0] {
        case Conn(c) => ConnKeepsStale(s, c, cb);
        case Timer(t) => TimerKeepsStale(s, t, cb);
      }
      RunKeepsStale(Apply(s, actions[0]), actions[1..], cb);
    }
  }

  /** A callback scheduled before a manual connect or disconnect never reaches the backend. */
  lemma ManualCommandDiscardsCallbacks(pre: seq<Action>, manual: TimerStep, post: seq<Action>, cb: Callback)
    requires manual == ManualConnect || manual == ManualDisconnect
    requires Run(Fresh, pre).env.command.Idle? && cb in Run(Fresh, pre).env.pending
    ensures cb !in Run(Apply(Run(Fresh, pre), Timer(manual)), post).env.dialled
  {
    var s := Run(Fresh, pre);
    RunKeepsInv(Fresh, pre);
    assert LiveOk(s, cb);
    RunKeepsStale(Apply(s, Timer(manual)), post, cb);
  }

  ghost function ChainUpTo(dialled: set<Callback>, chain: nat, k: nat): set<Callback> {
    set cb | cb in dialled && cb.chain == chain && cb.attempt <= k
  }

  lemma {:induction false} DialsPerChain(s: State, chain: nat, k: nat)
    requires CallbacksOk(s)
    ensures |ChainUpTo(s.env.dialled, chain, k)| <= k
  {
    if k == 0 {
      assert forall cb :: cb in s.env.dialled ==> CallbackOk(s, cb);
      assert ChainUpTo(s.env.dialled, chain, 0) == {};
    } else {
      DialsPerChain(s, chain, k - 1);
      var lower, upper := ChainUpTo(s.env.dialled, chain, k - 1), ChainUpTo(s.env.dialled, chain, k);
      if upper != lower {
        var last :| last in upper && last !in lower;
        assert upper == lower + {last};
      }
    }
  }

  /** In every run each retry chain reaches the backend at most three times. */
  lemma RetryChainIsBounded(actions: seq<Action>, chain: nat)
    ensures var dialled := Run(Fresh, actions).env.dialled;
            |set cb | cb in dialled && cb.chain == chain| <= 3
  {
    var s := Run(Fresh, actions);
    RunKeepsInv(Fresh, actions);
    DialsPerChain(s, chain, MAX_TRIES);
    assert forall cb :: cb in s.env.dialled ==> CallbackOk(s, cb);
    assert (set cb | cb in s.env.dialled && cb.chain == chain) == ChainUpTo(s.env.dialled, chain, MAX_TRIES);
  }

  /** Reconnecting still makes sense for the callback that is running. */
  predicate MayArm(s: State, cb: Callback, enabled: bool) {
    enabled && s.currentID == cb.profile && s.connectedID == "" && s.disconnectSeq == cb.manualSeq
  }

  function NextOf(s: State, cb: Callback): Callback {
    Callback(cb.profile, cb.manualSeq, cb.attempt + 1, s.rcGen + 1, cb.chain)
  }

  lemma RetryArms(s: State, cb: Callback, enabled: bool)
    requires CallbacksOk(s) && s.env.command == Scheduled(cb) && cb.attempt < MAX_TRIES && MayArm(s, cb, enabled)
    ensures var t := DoCallbackDone(s, false, true, enabled);
            && t.env.pending == s.env.pending + {NextOf(s, cb)} && t.timer
            && forall x :: x in t.env.pending && PassesGuard(t, x) <==> x == NextOf(s, cb)
  {
    assert forall x :: x in s.env.pending ==> LiveOk(s, x);
  }

  lemma RetryEnds(s: State, cb: Callback, retryable: bool, enabled: bool)
    requires CallbacksOk(s) && s.env.command == Scheduled(cb) && !(retryable && cb.attempt < MAX_TRIES)
    ensures var t := DoCallbackDone(s, false, retryable, enabled);
            t.phase == Failed && !t.timer && t.env.pending == s.env.pending && forall x :: x in t.env.pending ==> !PassesGuard(t, x)
  {
    assert forall x :: x in s.env.pending ==> LiveOk(s, x);
  }

  lemma NextIsNew(s: State, cb: Callback)
    requires CallbacksOk(s)
    ensures NextOf(s, cb) !in s.env.pending
  {
    assert forall x :: x in s.env.pending ==> LiveOk(s, x);
  }

  /** A callback that fails below the bound with a retryable error arms exactly one callback, the
      next of its chain and the only one that can pass, if and only if reconnecting still makes
      sense; if it does not, nothing changes but that the command lock is free.  Any other failure
      ends in the error state with no timer and no callback that can pass. */
  lemma FailedRetryAdvancesOrEnds(actions: seq<Action>, retryable: bool, enabled: bool)
    requires Run(Fresh, actions).env.command.Scheduled?
    ensures var s := Run(Fresh, actions); var cb := s.env.command.cb;
            var t := Apply(s, Timer(CallbackDone(false, retryable, enabled)));
            if retryable && cb.attempt < MAX_TRIES then
              && (NextOf(s, cb) in t.env.pending <==> MayArm(s, cb, enabled))
              && (MayArm(s, cb, enabled) ==>
                    t.env.pending == s.env.pending + {NextOf(s, cb)} && t.timer
                    && forall x :: x in t.env.pending && PassesGuard(t, x) <==> x == NextOf(s, cb))
              && (!MayArm(s, cb, enabled) ==> t == s.(env := s.env.(command := Idle)))
            else
              t.phase == Failed && !t.timer && t.env.pending == s.env.pending && forall x :: x in t.env.pending ==> !PassesGuard(t, x)
  {
    var s := Run(Fresh, actions);
    var cb := s.env.command.cb;
    RunKeepsInv(Fresh, actions);
    if !(retryable && cb.attempt < MAX_TRIES) {
      RetryEnds(s, cb, retryable, enabled);
    } else if MayArm(s, cb, enabled) {
      RetryArms(s, cb, enabled);
    } else {
      NextIsNew(s, cb);
    }
  }

  // ---------------------------------------------------------------- what undisturbed commands achieve

  lemma RunCons(s: State, a: Action, rest: seq<Action>)
    ensures Run(s, [a] + rest) == Run(Apply(s, a), rest)
  {
    assert ([a] + rest)[1..] == rest;
  }

  /** In every reachable state in which nothing is under way and the profile is not connected
      already, an attempt that nothing disturbs ends with its profile connected and shown. */
  lemma UndisturbedAttemptConnects(pre: seq<Action>, id: string, profile: string)
    requires var s := Run(Fresh, pre);
             && id != "" && profile != "" && !Known(s, id) && id !in s.env.cancelled
             && s.phase != Connecting && s.phase != Reconnecting && !(s.phase == Connected && s.connectedID == profile)
    ensures var t := Run(Run(Fresh, pre), [Conn(Start(id, profile, false))] + ([Conn(Publish(id))] + []));
            && t.phase == Connected && t.connectedID == t.shownID == profile && t.currentID == profile && t.attemptID == ""
            && t.env.started == Run(Fresh, pre).env.started + [Attempt(id, profile)]
  {
    var s := Run(Fresh, pre);
    var t := DoStart(s, id, profile, false);
    RunCons(s, Conn(Start(id, profile, false)), [Conn(Publish(id))] + []);
    RunCons(t, Conn(Publish(id)), []);
    ProfileOfLast(t.env.started, id);
  }

  /** The steps of an automatic reconnect after a loss. */
  function ReconnectSteps(cb: Callback, id: string): seq<Action> {
    [Timer(Fire(cb, true))] + ([Timer(Dial(id))] + ([Conn(Publish(id))] + ([Timer(CallbackDone(true, true, true))] + [])))
  }

  /** A loss of the connection that is in use arms one callback, and if nothing disturbs it that
      callback brings the same profile back and leaves no timer and no command behind. */
  lemma LostConnectionComesBack(s: State, id: string)
    requires Inv(s) && s.phase == Connected && s.currentID == s.connectedID == s.shownCurrentID && s.env.command.Idle?
    requires id != "" && !Known(s, id) && id !in s.env.cancelled
    ensures var cb := Callback(s.connectedID, s.disconnectSeq, 1, s.rcGen + 1, s.rcGen + 1);
            var lost := Apply(Apply(s, Conn(Lost(true, false))), Timer(Arm(s.connectedID, s.disconnectSeq, true)));
            var t := Run(lost, ReconnectSteps(cb, id));
            && lost.phase == Reconnecting && lost.connectedID == "" && lost.timer && cb in lost.env.pending && PassesGuard(lost, cb)
            && t.phase == Connected && t.connectedID == t.shownID == s.connectedID && t.attemptID == ""
            && !t.timer && t.env.command.Idle? && cb in t.env.dialled && cb !in t.env.pending
  {
    var cb := Callback(s.connectedID, s.disconnectSeq, 1, s.rcGen + 1, s.rcGen + 1);
    LossArms(s, cb);
    var lost := Apply(Apply(s, Conn(Lost(true, false))), Timer(Arm(s.connectedID, s.disconnectSeq, true)));
    CallbackReconnects(lost, cb, id);
    ReconnectRun(lost, cb, id);
  }

  lemma LossArms(s: State, cb: Callback)
    requires Inv(s) && s.phase == Connected && s.currentID == s.connectedID
    requires cb == Callback(s.connectedID, s.disconnectSeq, 1, s.rcGen + 1, s.rcGen + 1)
    ensures var lost := Apply(Apply(s, Conn(Lost(true, false))), Timer(Arm(s.connectedID, s.disconnectSeq, true)));
            && lost == s.(connectedID := "", shownID := "", phase := Reconnecting, rcGen := s.rcGen + 1, timer := true,
                          rcProfile := cb.profile, rcAttempt := 1, rcSeq := cb.manualSeq,
                          env := s.env.(pending := s.env.pending + {cb}))
            && cb !in s.env.dialled && PassesGuard(lost, cb)
  {
    assert cb in s.env.dialled ==> CallbackOk(s, cb);
  }

  lemma ReconnectRun(lost: State, cb: Callback, id: string)
    ensures Run(lost, ReconnectSteps(cb, id))
         == DoCallbackDone(DoPublish(DoDial(DoFire(lost, cb, true), id), id), true, true, true)
  {
    var s1 := DoFire(lost, cb, true);
    var s2 := DoDial(s1, id);
    var r3 := [Timer(CallbackDone(true, true, true))] + [];
    var r2 := [Conn(Publish(id))] + r3;
    RunCons(lost, Timer(Fire(cb, true)), [Timer(Dial(id))] + r2);
    RunCons(s1, Timer(Dial(id)), r2);
    RunCons(s2, Conn(Publish(id)), r3);
    RunCons(DoPublish(s2, id), Timer(CallbackDone(true, true, true)), []);
  }

  lemma CallbackReconnects(lost: State, cb: Callback, id: string)
    requires lost.phase == Reconnecting && lost.connectedID == "" && lost.env.command.Idle?
    requires lost.currentID == lost.shownCurrentID == cb.profile != "" && lost.disconnectSeq == cb.manualSeq
    requires cb in lost.env.pending && cb !in lost.env.dialled && PassesGuard(lost, cb)
    requires id != "" && !Known(lost, id) && id !in lost.env.cancelled
    ensures var t := DoCallbackDone(DoPublish(DoDial(DoFire(lost, cb, true), id), id), true, true, true);
            && t.phase == Connected && t.connectedID == t.shownID == cb.profile && t.attemptID == ""
            && !t.timer && t.env.command.Idle? && cb in t.env.dialled && cb !in t.env.pending
  {
    var s1 := DoFire(lost, cb, true);
    assert s1 == lost.(timer := false, phase := Reconnecting, env := lost.env.(pending := lost.env.pending - {cb}, command := Scheduled(cb)));
    assert !Known(s1, id);
    var s2 := DoDial(s1, id);
    assert s2.attemptID == id && s2.env.started == lost.env.started + [Attempt(id, cb.profile)];
    ProfileOfLast(s2.env.started, id);
  }

  /** A loss clears the connection everywhere at once and shows why. */
  lemma LossIsShown(s: State, repair: bool, error: bool)
    ensures var t := Apply(s, Conn(Lost(repair, error)));
            && t.connectedID == t.shownID == "" && t.env == s.env && t.currentID == s.currentID && t.attemptID == s.attemptID
            && (error ==> t.phase == Failed)
            && (!error && repair ==> t.phase == Reconnecting)
            && (!error && !repair ==> t.phase == Disconnected)
  {
  }

  // ---------------------------------------------------------------- the running service

  /** The service's fields, updated under its mutex; every method is one critical section.
      The ghost field is what the mutex does not guard. */
  class ConnectionService {
    var phase: Phase
    var connectedID: string
    var shownID: string
    var currentID: string
    var shownCurrentID: string
    var attemptID: string
    var disconnectSeq: nat
    var timer: bool
    var reconnectProfileID: string
    var reconnectAttempt: nat
    var reconnectSeq: nat
    var reconnectID: nat
    var closed: bool
    ghost var env: Env

    ghost function View(): State
      reads this
    {
      State(phase, connectedID, shownID, currentID, shownCurrentID, attemptID, disconnectSeq,
            timer, reconnectProfileID, reconnectAttempt, reconnectSeq, reconnectID, closed, env)
    }

    constructor ()
      ensures View() == Fresh
    {
      phase, connectedID, shownID, currentID, shownCurrentID, attemptID := Disconnected, "", "", "", "", "";
      disconnectSeq, timer, reconnectProfileID, reconnectAttempt, reconnectSeq, reconnectID := 0, false, "", 0, 0, 0;
      closed, env := false, Env([], {}, {}, {}, Idle);
    }

    /** Record an attempt under a new random id; `ok` says the backend is to be called. */
    method StartAttempt(id: string, profile: string, allowReconnect: bool) returns (ok: bool)
      modifies this
      ensures ok <==> MayStart(old(View()), profile, allowReconnect)
      ensures !ok ==> unchanged(this)
      ensures ok ==> View() == Recorded(old(View()), id, profile, allowReconnect)
      ensures old(phase) == Disconnected || old(phase) == Failed ==> ok
      ensures old(phase) == Connected ==> (ok <==> old(connectedID) != profile)
      ensures old(phase) == Connecting ==> !ok
      ensures old(phase) == Reconnecting ==> (ok <==> allowReconnect && old(shownCurrentID) == profile)
      ensures ok ==> attemptID == id && currentID == profile && shownCurrentID == profile && shownID == ""
      ensures ok ==> phase == (if allowReconnect then Reconnecting else Connecting) && connectedID == old(connectedID)
      ensures ok ==> env == old(env).(started := old(env.started) + [Attempt(id, profile)])
    {
      if phase == Connecting || phase == Reconnecting {
        if !(allowReconnect && phase == Reconnecting && shownCurrentID == profile) { return false; }
      }
      if phase == Connected && connectedID == profile { return false; }
      RecordAttempt(id, profile, allowReconnect);
      ok := true;
    }

    method RecordAttempt(id: string, profile: string, allowReconnect: bool)
      modifies `phase, `currentID, `shownCurrentID, `shownID, `attemptID, `env
      ensures View() == Recorded(old(View()), id, profile, allowReconnect)
    {
      phase := if allowReconnect then Reconnecting else Connecting;
      currentID, shownCurrentID, shownID := profile, profile, "";
      attemptID := id;
      env := env.(started := env.started + [Attempt(id, profile)]);
    }

    /** The backend returned an error; `contextCanceled` is the state of the attempt's context. */
    method FailAttempt(id: string, canceled: bool, contextCanceled: bool)
      requires id != "" && contextCanceled == (id in env.cancelled)
      modifies this
      ensures View() == DoReturnError(old(View()), id, canceled)
      ensures old(attemptID) != id ==> unchanged(this)
      ensures old(attemptID) == id ==> attemptID == "" && connectedID == old(connectedID) && env == old(env)
      ensures old(attemptID) == id ==> phase == if canceled || id in old(env.cancelled) then Disconnected else Failed
    {
      if attemptID != id { return; }
      attemptID := "";
      phase := if canceled || contextCanceled then Disconnected else Failed;
    }

    method AbandonSetup(id: string)
      requires id != ""
      modifies this
      ensures View() == DoSetupFailed(old(View()), id)
      ensures old(attemptID) != id ==> unchanged(this)
      ensures old(attemptID) == id ==> attemptID == "" && phase == Failed
    {
      if attemptID == id { attemptID, phase := "", Failed; }
    }

    /** The backend returned a session for the attempt to connect `profile`. */
    method PublishAttempt(id: string, profile: string, contextCanceled: bool) returns (ok: bool)
      requires id != "" && contextCanceled == (id in env.cancelled) && profile == ProfileOf(env.started, id)
      modifies this
      ensures View() == DoPublish(old(View()), id)
      ensures ok <==> old(attemptID) == id && !contextCanceled
      ensures ok ==> attemptID == "" && phase == Connected && connectedID == shownID == profile
      ensures !ok ==> unchanged(this)
    {
      if attemptID != id || contextCanceled { return false; }
      attemptID, connectedID, phase, shownID := "", profile, Connected, profile;
      ok := true;
    }

    method StopReconnectTimer()
      modifies `timer, `reconnectProfileID, `reconnectAttempt, `reconnectSeq, `reconnectID
      ensures View() == StopReconnect(old(View()))
      ensures !timer && reconnectProfileID == "" && reconnectID == old(reconnectID) + 1
    {
      timer, reconnectProfileID, reconnectAttempt, reconnectSeq := false, "", 0, 0;
      reconnectID := reconnectID + 1;
    }

    method BeginDisconnect(manual: bool)
      modifies this
      ensures View() == DoDisconnectBegin(old(View()), manual)
      ensures env == old(env).(cancelled := old(env.cancelled) + if old(attemptID) == "" then {} else {old(attemptID)})
      ensures manual ==> !timer && reconnectProfileID == "" && reconnectID > old(reconnectID)
      ensures !manual ==> timer == old(timer) && reconnectID == old(reconnectID)
      ensures disconnectSeq == old(disconnectSeq) + if manual && old(connectedID) != "" then 1 else 0
      ensures phase == old(phase) && connectedID == old(connectedID) && attemptID == old(attemptID)
    {
      if manual { StopReconnectTimer(); }
      if manual && connectedID != "" { disconnectSeq := disconnectSeq + 1; }
      if attemptID != "" { env := env.(cancelled := env.cancelled + {attemptID}); }
    }

    method FinishDisconnect()
      modifies this
      ensures View() == DoDisconnectFinish(old(View()))
      ensures attemptID == connectedID == shownID == "" && phase == Disconnected
    {
      attemptID, connectedID, phase, shownID := "", "", Disconnected, "";
    }

    method BeginClose()
      modifies this
      ensures View() == Apply(old(View()), Conn(CloseBegin))
      ensures closed && (old(closed) ==> unchanged(this))
      ensures !old(closed) ==> !timer && reconnectID > old(reconnectID) && (old(attemptID) != "" ==> old(attemptID) in env.cancelled)
    {
      if closed { return; }
      closed := true;
      StopReconnectTimer();
      if attemptID != "" { env := env.(cancelled := env.cancelled + {attemptID}); }
    }

    method StartReconnect(profile: string, manualSeq: nat, attempt: nat, enabled: bool, chain: nat)
      requires attempt >= 1
      modifies `timer, `reconnectProfileID, `reconnectAttempt, `reconnectSeq, `reconnectID, `env
      ensures View() == DoArm(old(View()), profile, manualSeq, attempt, chain, enabled)
      ensures var cb := Callback(profile, manualSeq, attempt, old(reconnectID) + 1, chain);
              if enabled && currentID == profile && connectedID == "" && disconnectSeq == manualSeq then
                && timer && env == old(env).(pending := old(env.pending) + {cb}) && PassesGuard(View(), cb)
                && reconnectID == old(reconnectID) + 1 && reconnectProfileID == profile && reconnectAttempt == attempt && reconnectSeq == manualSeq
              else unchanged(this)
    {
      if !enabled || currentID != profile || connectedID != "" || disconnectSeq != manualSeq { return; }
      ArmTimer(Callback(profile, manualSeq, attempt, reconnectID + 1, chain));
    }

    method ArmTimer(cb: Callback)
      modifies `timer, `reconnectProfileID, `reconnectAttempt, `reconnectSeq, `reconnectID, `env
      ensures View() == Armed(old(View()), cb)
    {
      reconnectID := reconnectID + 1;
      timer := true;
      env := env.(pending := env.pending + {cb});
      reconnectProfileID, reconnectAttempt, reconnectSeq := cb.profile, cb.attempt, cb.manualSeq;
    }

    /** A timer callback got the command lock; `go` says it may reconnect. */
    method RunScheduledReconnect(cb: Callback, enabled: bool) returns (go: bool)
      requires cb in env.pending && env.command.Idle?
      modifies this
      ensures View() == DoFire(old(View()), cb, enabled)
      ensures go <==> env.command == Scheduled(cb)
      ensures cb !in env.pending
      ensures go <==> && old(reconnectID) == cb.gen && old(reconnectProfileID) == cb.profile && old(reconnectSeq) == cb.manualSeq
                      && enabled && old(currentID) == cb.profile && old(connectedID) == "" && old(disconnectSeq) == cb.manualSeq
      ensures go ==> phase == Reconnecting && !timer
      ensures !go ==> phase == old(phase) && env.command == Idle
    {
      env := env.(pending := env.pending - {cb});
      if reconnectID != cb.gen || reconnectProfileID != cb.profile || reconnectSeq != cb.manualSeq { return false; }
      if !enabled || currentID != cb.profile || connectedID != "" || disconnectSeq != cb.manualSeq {
        StopReconnectTimer();
        return false;
      }
      timer := false;
      phase := Reconnecting;
      env := env.(command := Scheduled(cb));
      go := true;
    }

    method FinishScheduledReconnect(cb: Callback, ok: bool, retryable: bool, enabled: bool)
      requires env.command == Scheduled(cb) && cb.attempt >= 1
      modifies this
      ensures View() == DoCallbackDone(old(View()), ok, retryable, enabled)
      ensures env.command == Idle
      ensures ok ==> !timer && phase == old(phase) && env.pending == old(env.pending)
      ensures !ok && !(retryable && cb.attempt < MAX_TRIES) ==> !timer && phase == Failed && env.pending == old(env.pending)
      ensures !ok && retryable && cb.attempt < MAX_TRIES ==> phase == old(phase)
    {
      env := env.(command := Idle);
      if ok {
        StopReconnectTimer();
      } else if retryable && cb.attempt < MAX_TRIES {
        StartReconnect(cb.profile, cb.manualSeq, cb.attempt + 1, enabled, cb.chain);
      } else {
        phase := Failed;
        StopReconnectTimer();
      }
    }
  }

  // ---------------------------------------------------------------- the delay before a retry

  const MIN_DELAY := 2
  const MAX_DELAY := 60

  function Doubled(delay: nat, times: nat): nat
    decreases times
  {
    if times == 0 then delay else Doubled(2 * delay, times - 1)
  }

  lemma {:induction false} DoubledGrows(delay: nat, times: nat)
    ensures Doubled(delay, times) >= delay
    decreases times
  {
    if times > 0 { DoubledGrows(2 * delay, times - 1); }
  }

  lemma DoublingValues(more: nat)
    ensures Doubled(2, 0) == 2 && Doubled(2, 1) == 4 && Doubled(2, 2) == 8 && Doubled(2, 3) == 16 && Doubled(2, 4) == 32
    ensures Doubled(2, 5 + more) >= 64
  {
    assert Doubled(16, 1) == 32 && Doubled(8, 2) == 32 && Doubled(4, 3) == 32;
    assert Doubled(8, 1) == 16 && Doubled(4, 2) == 16;
    assert Doubled(2, 5 + more) == Doubled(4, 4 + more) == Doubled(8, 3 + more) == Doubled(16, 2 + more) == Doubled(32, 1 + more) == Doubled(64, more);
    DoubledGrows(64, more);
  }

  /** The delay in seconds doubles with each attempt, from two seconds up to one minute. */
  method ReconnectDelay(attempt: int) returns (delay: nat)
    ensures MIN_DELAY <= delay <= MAX_DELAY
    ensures var exact := Doubled(MIN_DELAY, if attempt < 1 then 0 else attempt - 1);
            delay == if exact > MAX_DELAY then MAX_DELAY else exact
    ensures attempt <= 1 ==> delay == 2
    ensures attempt == 2 ==> delay == 4
    ensures attempt == 3 ==> delay == 8
    ensures attempt == 4 ==> delay == 16
    ensures attempt == 5 ==> delay == 32
    ensures attempt >= 6 ==> delay == 60
  {
    DoublingValues(if attempt < 6 then 0 else attempt - 6);
    var n := if attempt < 1 then 1 else attempt;
    delay := MIN_DELAY;
    var i := 1;
    while i < n
      invariant 1 <= i <= n && MIN_DELAY <= delay <= MAX_DELAY
      invariant Doubled(delay, n - i) == Doubled(MIN_DELAY, n - 1)
    {
      delay := delay * 2;
      if delay >= MAX_DELAY {
        DoubledGrows(delay, n - i - 1);
        return MAX_DELAY;
      }
      i := i + 1;
    }
  }
}
