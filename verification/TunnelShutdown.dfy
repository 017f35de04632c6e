/** How a connection session and the controller of its tunnel close together: the close hook of
    the session, the once-guarded shutdown of the controller, and the drain of the workers. */
module TunnelShutdown {

  datatype Worker = Dynamic | Events | Outgoing | Incoming

  const ALL: set<Worker> := {Dynamic, Events, Outgoing, Incoming}

  /** The thread that is inside the once-guarded Close of the session, if any. */
  datatype Closer = Idle | Entered | ChannelClosed | HookTaken(found: bool) | InHook | Finished

  /** The thread that starts the controller.  Inline: it runs the hook itself. */
  datatype Starter = Ready | Marked | Inline | HookSet | DoneSet | Started

  /** The goroutine that waits for the session to close. */
  datatype Watcher = Absent | Waiting | Calling | Gone

  /** How far the once-guarded Close of the controller is. */
  datatype Phase = NotBegun | Draining | DynamicOver | ManagerOver | DeviceOver | Over

  datatype State = State(closer: Closer, hook: bool, hookRuns: nat, starter: Starter, watcher: Watcher, phase: Phase,
                         managerCloses: nat, deviceCloses: nat, running: set<Worker>, exited: set<Worker>, done: bool)

  const INITIAL: State := State(Idle, false, 0, Ready, Absent, NotBegun, 0, 0, {}, {}, false)

  predicate ChannelIsClosed(s: State) {
    !s.closer.Idle? && !s.closer.Entered?
  }

  /** Some thread has called Close of the controller and is still in it. */
  predicate CloseCalled(s: State) {
    s.closer.InHook? || s.starter.Inline? || s.watcher.Calling?
  }

  datatype SessionStep = EnterClose | CloseChannel | TakeHook | CallHook | ReturnFromHook
  datatype StartStep = MarkRunning | SetCloseHook | ReturnInline | SetTunnelDone | Spawn | Watch | ReturnWatch
  datatype DrainStep = Begin | SeeDynamicDone | CloseManager | CloseDevice | SpawnWaiter | Exit(worker: Worker) | CloseDone

  datatype Action = Session(session: SessionStep) | Start(start: StartStep) | Drain(drain: DrainStep)

  /** A step that is not enabled changes nothing. */
  function ApplySession(s: State, a: SessionStep): State {
    match a
    case EnterClose => if s.closer.Idle? then s.(closer := Entered) else s
    case CloseChannel => if s.closer.Entered? then s.(closer := ChannelClosed) else s
    case TakeHook => if s.closer.ChannelClosed? then s.(closer := HookTaken(s.hook)) else s
    case CallHook =>
      if !s.closer.HookTaken? then s
      else if s.closer.found then s.(closer := InHook, hookRuns := s.hookRuns + 1)
      else s.(closer := Finished)
    case ReturnFromHook => if s.closer.InHook? && s.phase.Over? then s.(closer := Finished) else s
  }

  function ApplyStart(s: State, a: StartStep): State {
    match a
    case MarkRunning => if s.starter.Ready? then s.(starter := Marked) else s
    case SetCloseHook =>
      if !s.starter.Marked? then s
      else if ChannelIsClosed(s) then s.(starter := Inline, hookRuns := s.hookRuns + 1)
      else s.(starter := HookSet, hook := true)
    case ReturnInline => if s.starter.Inline? && s.phase.Over? then s.(starter := HookSet) else s
    case SetTunnelDone => if s.starter.HookSet? then s.(starter := DoneSet) else s
    case Spawn => if s.starter.DoneSet? then s.(starter := Started, running := ALL, watcher := Waiting) else s
    case Watch => if s.watcher.Waiting? && ChannelIsClosed(s) then s.(watcher := Calling) else s
    case ReturnWatch => if s.watcher.Calling? && s.phase.Over? then s.(watcher := Gone) else s
  }

  /** A worker leaves when the session is closed; the dynamic one also when it is told to stop.
      The wait group is zero when no added worker is running any more. */
  function ApplyDrain(s: State, a: DrainStep): State {
    match a
    case Begin => if s.phase.NotBegun? && CloseCalled(s) then s.(phase := Draining) else s
    case SeeDynamicDone => if s.phase.Draining? && Dynamic in s.exited then s.(phase := DynamicOver) else s
    case CloseManager => if s.phase.DynamicOver? then s.(phase := ManagerOver, managerCloses := s.managerCloses + 1) else s
    case CloseDevice => if s.phase.ManagerOver? then s.(phase := DeviceOver, deviceCloses := s.deviceCloses + 1) else s
    case SpawnWaiter => if s.phase.DeviceOver? then s.(phase := Over) else s
    case Exit(w) =>
      if w in s.running && (ChannelIsClosed(s) || (w == Dynamic && !s.phase.NotBegun?))
      then s.(running := s.running - {w}, exited := s.exited + {w}) else s
    case CloseDone => if s.phase.Over? && s.running == {} then s.(done := true) else s
  }

  function Apply(s: State, a: Action): State {
    match a
    case Session(step) => ApplySession(s, step)
    case Start(step) => ApplyStart(s, step)
    case Drain(step) => ApplyDrain(s, step)
  }

  function Run(s: State, actions: seq<Action>): State
    decreases |actions|
  {
    if actions == [] then s else Run(Apply(s, actions[0]), actions[1..])
  }

  // ---------------------------------------------------------------- the invariant

  /** The hook is either installed before the channel closes and taken by the closer, or run by
      the starter, who then waits for workers that were never started. */
  ghost predicate HookInv(s: State) {
    && (s.hook <==> s.starter.HookSet? || s.starter.DoneSet? || s.starter.Started?)
    && (s.hook && s.closer.HookTaken? ==> s.closer.found)
    && (s.closer.HookTaken? && s.closer.found ==> s.hook)
    && (s.closer.InHook? ==> s.hook)
    && (s.starter.Inline? ==> ChannelIsClosed(s))
    && s.hookRuns == (if s.starter.Inline? then 1 else 0) + (if s.hook && (s.closer.InHook? || s.closer.Finished?) then 1 else 0)
  }

  ghost predicate WorkerInv(s: State) {
    && s.running !! s.exited
    && (if s.starter.Started? then s.running + s.exited == ALL && !s.watcher.Absent?
        else s.running == {} && s.exited == {} && s.watcher.Absent?)
    && (s.exited != {} ==> ChannelIsClosed(s))
    && (s.watcher.Calling? || s.watcher.Gone? ==> ChannelIsClosed(s))
  }

  predicate Past(s: State, phase: Phase) {
    match phase
    case NotBegun => true
    case Draining => !s.phase.NotBegun?
    case DynamicOver => !s.phase.NotBegun? && !s.phase.Draining?
    case ManagerOver => s.phase.ManagerOver? || s.phase.DeviceOver? || s.phase.Over?
    case DeviceOver => s.phase.DeviceOver? || s.phase.Over?
    case Over => s.phase.Over?
  }

  ghost predicate DrainInv(s: State) {
    && s.managerCloses == (if Past(s, ManagerOver) then 1 else 0)
    && s.deviceCloses == (if Past(s, DeviceOver) then 1 else 0)
    && (Past(s, DynamicOver) ==> Dynamic in s.exited)
    && (Past(s, Draining) ==> ChannelIsClosed(s))
    && (s.done ==> s.phase.Over? && s.running == {})
    && (s.watcher.Gone? ==> s.phase.Over?)
    && (s.closer.Finished? && s.hook ==> s.phase.Over?)
  }

  ghost predicate Inv(s: State) {
    HookInv(s) && WorkerInv(s) && DrainInv(s)
  }

  lemma SessionKeepsInv(s: State, a: SessionStep)
    requires Inv(s)
    ensures Inv(ApplySession(s, a))
  {
  }

  lemma StartKeepsInv(s: State, a: StartStep)
    requires Inv(s)
    ensures Inv(ApplyStart(s, a))
  {
  }

  lemma DrainKeepsInv(s: State, a: DrainStep)
    requires Inv(s)
    ensures Inv(ApplyDrain(s, a))
  {
  }

  lemma {:induction false} RunKeepsInv(s: State, actions: seq<Action>)
    requires Inv(s)
    ensures Inv(Run(s, actions))
    decreases |actions|
  {
    if actions != [] {
      match actions[0] {
        case Session(a) => SessionKeepsInv(s, a);
        case Start(a) => StartKeepsInv(s, a);
        case Drain(a) => DrainKeepsInv(s, a);
      }
      RunKeepsInv(Apply(s, actions[0]), actions[1..]);
    }
  }

  // ---------------------------------------------------------------- what holds in every run

  /** However setting the hook and closing the session interleave, the hook runs at most once, and
      exactly once when both are over. */
  lemma HookRunsOnce(actions: seq<Action>)
    ensures var s := Run(INITIAL, actions);
            && s.hookRuns <= 1
            && (s.closer.Finished? && !s.starter.Ready? && !s.starter.Marked? ==> s.hookRuns == 1)
  {
    RunKeepsInv(INITIAL, actions);
  }

  /** The network manager is closed once, after the worker that changes routes has left; the
      device is closed once and later; the session counts as drained only when both are closed
      and all four workers have left. */
  lemma ClosedInOrder(actions: seq<Action>)
    ensures var s := Run(INITIAL, actions);
            && s.deviceCloses <= s.managerCloses <= 1
            && (s.managerCloses == 1 ==> Dynamic in s.exited)
            && (s.done ==> s.managerCloses == 1 && s.deviceCloses == 1 && s.exited == ALL)
  {
    RunKeepsInv(INITIAL, actions);
  }

  // ---------------------------------------------------------------- when the drain completes

  /** The session closed before the controller set its hook. */
  predicate ClosedTooEarly(s: State) {
    ChannelIsClosed(s) && (s.starter.Ready? || s.starter.Marked? || s.starter.Inline?)
  }

  lemma StaysTooEarly(s: State, a: Action)
    requires Inv(s) && ClosedTooEarly(s)
    ensures ClosedTooEarly(Apply(s, a)) && Inv(Apply(s, a))
  {
    match a {
      case Session(step) => SessionKeepsInv(s, step);
      case Start(step) => StartKeepsInv(s, step);
      case Drain(step) => DrainKeepsInv(s, step);
    }
  }

  /** Then the starter waits for ever for a worker it has not started: nothing is ever closed. */
  lemma {:induction false} TooEarlyIsForever(s: State, actions: seq<Action>)
    requires Inv(s) && ClosedTooEarly(s)
    ensures var after := Run(s, actions);
            ClosedTooEarly(after) && after.managerCloses == 0 && after.deviceCloses == 0 && !after.done
    decreases |actions|
  {
    if actions != [] {
      StaysTooEarly(s, actions[0]);
      TooEarlyIsForever(Apply(s, actions[0]), actions[1..]);
    }
  }

  /** A step towards the end of the drain. */
  function Next(s: State): Action {
    match s.starter
    case Ready => Start(MarkRunning)
    case Marked => Start(SetCloseHook)
    case Inline => Start(ReturnInline)
    case HookSet => Start(SetTunnelDone)
    case DoneSet => Start(Spawn)
    case Started => NextClosing(s)
  }

  function NextClosing(s: State): Action {
    match s.closer
    case Idle => Session(EnterClose)
    case Entered => Session(CloseChannel)
    case ChannelClosed => Session(TakeHook)
    case HookTaken(_) => Session(CallHook)
    case InHook =>
      match s.phase {
        case NotBegun => Drain(Begin)
        case Draining => if Dynamic in s.running then Drain(Exit(Dynamic)) else Drain(SeeDynamicDone)
        case DynamicOver => Drain(CloseManager)
        case ManagerOver => Drain(CloseDevice)
        case DeviceOver => Drain(SpawnWaiter)
        case Over => Session(ReturnFromHook)
      }
    case Finished =>
      if Events in s.running then Drain(Exit(Events))
      else if Outgoing in s.running then Drain(Exit(Outgoing))
      else if Incoming in s.running then Drain(Exit(Incoming))
      else Drain(CloseDone)
  }

  function StarterRank(s: Starter): nat {
    match s case Ready => 5 case Marked => 4 case Inline => 3 case HookSet => 2 case DoneSet => 1 case Started => 0
  }

  function CloserRank(c: Closer): nat {
    match c case Idle => 5 case Entered => 4 case ChannelClosed => 3 case HookTaken(_) => 2 case InHook => 1 case Finished => 0
  }

  function PhaseRank(p: Phase): nat {
    match p case NotBegun => 5 case Draining => 4 case DynamicOver => 3 case ManagerOver => 2 case DeviceOver => 1 case Over => 0
  }

  function Left(s: State, w: Worker): nat {
    if w in s.exited then 0 else 1
  }

  /** Steps left to the end. */
  function Remaining(s: State): nat {
    StarterRank(s.starter) + CloserRank(s.closer) + PhaseRank(s.phase)
    + Left(s, Dynamic) + Left(s, Events) + Left(s, Outgoing) + Left(s, Incoming) + if s.done then 0 else 1
  }

  lemma StartApproaches(s: State)
    requires Inv(s) && !ClosedTooEarly(s) && !s.starter.Started?
    ensures var after := Apply(s, Next(s));
            !ClosedTooEarly(after) && Remaining(after) < Remaining(s)
  {
  }

  lemma ClosingApproaches(s: State)
    requires Inv(s) && s.starter.Started? && !s.done
    ensures var after := Apply(s, NextClosing(s));
            after.starter.Started? && Remaining(after) < Remaining(s)
  {
    assert Dynamic in s.running || Dynamic in s.exited;
    if s.closer.Finished? {
      assert s.phase.Over? && Dynamic in s.exited;
      if Events !in s.running && Outgoing !in s.running && Incoming !in s.running {
        assert s.running == {};
      }
    }
  }

  lemma NextApproaches(s: State)
    requires Inv(s) && !ClosedTooEarly(s) && !s.done
    ensures var after := Apply(s, Next(s));
            Inv(after) && !ClosedTooEarly(after) && Remaining(after) < Remaining(s)
  {
    match Next(s) {
      case Session(a) => SessionKeepsInv(s, a);
      case Start(a) => StartKeepsInv(s, a);
      case Drain(a) => DrainKeepsInv(s, a);
    }
    if s.starter.Started? { ClosingApproaches(s); } else { StartApproaches(s); }
  }

  ghost predicate Completes(s: State, actions: seq<Action>) {
    Run(s, actions).done
  }

  /** In every reachable state the drain can still complete if and only if the session did not
      close before the hook was set. */
  lemma {:induction false} CompletesIff(s: State)
    requires Inv(s)
    ensures (exists actions :: Completes(s, actions)) <==> !ClosedTooEarly(s)
    decreases Remaining(s)
  {
    if ClosedTooEarly(s) {
      forall actions ensures !Completes(s, actions) {
        TooEarlyIsForever(s, actions);
      }
    } else if s.done {
      assert Completes(s, []);
    } else {
      NextApproaches(s);
      var after := Apply(s, Next(s));
      CompletesIff(after);
      var actions :| Completes(after, actions);
      var longer := [Next(s)] + actions;
      assert longer[0] == Next(s) && longer[1..] == actions;
      assert Completes(s, longer);
    }
  }

  /** Starting the controller on a session that is already closed. */
  lemma StartOnClosedSessionHangs(actions: seq<Action>)
    ensures var early := Run(INITIAL, [Session(EnterClose), Session(CloseChannel), Start(MarkRunning), Start(SetCloseHook)]);
            && early.starter == Inline && early.hookRuns == 1
            && Run(early, actions).deviceCloses == 0 && !Run(early, actions).done
  {
    var begin := [Session(EnterClose), Session(CloseChannel), Start(MarkRunning), Start(SetCloseHook)];
    RunKeepsInv(INITIAL, begin);
    assert begin[1..] == [Session(CloseChannel), Start(MarkRunning), Start(SetCloseHook)];
    assert begin[1..][1..] == [Start(MarkRunning), Start(SetCloseHook)];
    assert begin[1..][1..][1..] == [Start(SetCloseHook)];
    assert begin[1..][1..][1..][1..] == [];
    var early := Run(INITIAL, begin);
    assert early.starter == Inline;
    TooEarlyIsForever(early, actions);
  }

  // ---------------------------------------------------------------- the objects

  /** The session and the controller, one method for each atomic step of their code.  A wait that
      cannot be over yet returns false. */
  class Tunnel {
    var closer: Closer
    var hook: bool
    var starter: Starter
    var watcher: Watcher
    var phase: Phase
    var running: set<Worker>
    var exited: set<Worker>
    var done: bool
    ghost var hookRuns: nat
    ghost var managerCloses: nat
    ghost var deviceCloses: nat

    ghost function View(): State
      reads this
    {
      State(closer, hook, hookRuns, starter, watcher, phase, managerCloses, deviceCloses, running, exited, done)
    }

    ghost predicate Valid()
      reads this
    {
      Inv(View())
    }

    constructor ()
      ensures View() == INITIAL && Valid()
    {
      closer, hook, starter, watcher, phase := Idle, false, Ready, Absent, NotBegun;
      running, exited, done := {}, {}, false;
      hookRuns, managerCloses, deviceCloses := 0, 0, 0;
    }

    // The session's Close.

    /** Only the first caller gets in. */
    method EnterClose() returns (first: bool)
      requires Valid()
      modifies `closer
      ensures Valid() && View() == ApplySession(old(View()), SessionStep.EnterClose) && (first <==> old(closer).Idle?)
    {
      SessionKeepsInv(View(), SessionStep.EnterClose);
      first := closer.Idle?;
      if first { closer := Entered; }
    }

    method CloseChannel()
      requires Valid() && closer.Entered?
      modifies `closer
      ensures Valid() && View() == ApplySession(old(View()), SessionStep.CloseChannel)
    {
      SessionKeepsInv(View(), SessionStep.CloseChannel);
      closer := ChannelClosed;
    }

    /** Under the hook lock; the hook that was found is called next. */
    method TakeHook() returns (found: bool)
      requires Valid() && closer.ChannelClosed?
      modifies `closer
      ensures Valid() && View() == ApplySession(old(View()), SessionStep.TakeHook) && found == hook
    {
      SessionKeepsInv(View(), SessionStep.TakeHook);
      found := hook;
      closer := HookTaken(found);
    }

    method CallHook()
      requires Valid() && closer.HookTaken?
      modifies `closer, `hookRuns
      ensures Valid() && View() == ApplySession(old(View()), SessionStep.CallHook)
    {
      SessionKeepsInv(View(), SessionStep.CallHook);
      if closer.found {
        closer, hookRuns := InHook, hookRuns + 1;
      } else {
        closer := Finished;
      }
    }

    method ReturnFromHook() returns (over: bool)
      requires Valid() && closer.InHook?
      modifies `closer
      ensures Valid() && View() == ApplySession(old(View()), SessionStep.ReturnFromHook) && (over <==> phase.Over?)
    {
      SessionKeepsInv(View(), SessionStep.ReturnFromHook);
      over := phase.Over?;
      if over { closer := Finished; }
    }

    // The controller's Start.

    /** A controller starts once. */
    method MarkRunning() returns (ok: bool)
      requires Valid()
      modifies `starter
      ensures Valid() && View() == ApplyStart(old(View()), StartStep.MarkRunning) && (ok <==> old(starter).Ready?)
    {
      StartKeepsInv(View(), StartStep.MarkRunning);
      ok := starter.Ready?;
      if ok { starter := Marked; }
    }

    /** Under the hook lock: on a session that is already closed the hook runs here and now. */
    method SetCloseHook() returns (inline: bool)
      requires Valid() && starter.Marked?
      modifies `starter, `hook, `hookRuns
      ensures Valid() && View() == ApplyStart(old(View()), StartStep.SetCloseHook)
      ensures inline <==> ClosedTooEarly(View())
    {
      StartKeepsInv(View(), StartStep.SetCloseHook);
      inline := !closer.Idle? && !closer.Entered?;
      if inline {
        starter, hookRuns := Inline, hookRuns + 1;
      } else {
        starter, hook := HookSet, true;
      }
    }

    /** The hook that runs inline never comes back. */
    method ReturnInline() returns (over: bool)
      requires Valid() && starter.Inline?
      ensures View() == ApplyStart(View(), StartStep.ReturnInline) && !over
    {
      over := phase.Over?;
    }

    method SetTunnelDone()
      requires Valid() && starter.HookSet?
      modifies `starter
      ensures Valid() && View() == ApplyStart(old(View()), StartStep.SetTunnelDone)
    {
      StartKeepsInv(View(), StartStep.SetTunnelDone);
      starter := DoneSet;
    }

    /** Add four to the wait group and start the workers and the watcher. */
    method Spawn()
      requires Valid() && starter.DoneSet?
      modifies `starter, `running, `watcher
      ensures Valid() && View() == ApplyStart(old(View()), StartStep.Spawn)
    {
      StartKeepsInv(View(), StartStep.Spawn);
      starter, running, watcher := Started, ALL, Waiting;
    }

    method Watch() returns (closed: bool)
      requires Valid() && watcher.Waiting?
      modifies `watcher
      ensures Valid() && View() == ApplyStart(old(View()), StartStep.Watch) && (closed <==> ChannelIsClosed(View()))
    {
      StartKeepsInv(View(), StartStep.Watch);
      closed := !closer.Idle? && !closer.Entered?;
      if closed { watcher := Calling; }
    }

    method ReturnWatch() returns (over: bool)
      requires Valid() && watcher.Calling?
      modifies `watcher
      ensures Valid() && View() == ApplyStart(old(View()), StartStep.ReturnWatch) && (over <==> phase.Over?)
    {
      StartKeepsInv(View(), StartStep.ReturnWatch);
      over := phase.Over?;
      if over { watcher := Gone; }
    }

    // The controller's Close, and the workers.

    /** Only the first caller gets in; it tells the dynamic worker to stop. */
    method BeginDrain() returns (first: bool)
      requires Valid() && CloseCalled(View())
      modifies `phase
      ensures Valid() && View() == ApplyDrain(old(View()), DrainStep.Begin) && (first <==> old(phase).NotBegun?)
    {
      DrainKeepsInv(View(), DrainStep.Begin);
      first := phase.NotBegun?;
      if first { phase := Draining; }
    }

    method SeeDynamicDone() returns (over: bool)
      requires Valid() && phase.Draining?
      modifies `phase
      ensures Valid() && View() == ApplyDrain(old(View()), DrainStep.SeeDynamicDone) && (over <==> Dynamic in exited)
    {
      DrainKeepsInv(View(), DrainStep.SeeDynamicDone);
      over := Dynamic in exited;
      if over { phase := DynamicOver; }
    }

    /** The manager, then the device, then the goroutine that waits for the workers. */
    method CloseBoth()
      requires Valid() && phase.DynamicOver?
      modifies `phase, `managerCloses, `deviceCloses
      ensures Valid() && managerCloses == 1 && deviceCloses == 1
      ensures View() == ApplyDrain(ApplyDrain(ApplyDrain(old(View()), DrainStep.CloseManager), DrainStep.CloseDevice), DrainStep.SpawnWaiter)
    {
      DrainKeepsInv(View(), DrainStep.CloseManager);
      phase, managerCloses := ManagerOver, managerCloses + 1;
      DrainKeepsInv(View(), DrainStep.CloseDevice);
      phase, deviceCloses := DeviceOver, deviceCloses + 1;
      DrainKeepsInv(View(), DrainStep.SpawnWaiter);
      phase := Over;
    }

    method Exit(w: Worker) returns (left: bool)
      requires Valid() && w in running
      modifies `running, `exited
      ensures Valid() && View() == ApplyDrain(old(View()), DrainStep.Exit(w)) && (left <==> w !in running)
    {
      DrainKeepsInv(View(), DrainStep.Exit(w));
      left := (!closer.Idle? && !closer.Entered?) || (w == Dynamic && !phase.NotBegun?);
      if left { running, exited := running - {w}, exited + {w}; }
    }

    /** The waiter: the session counts as drained when the wait group is down to zero. */
    method CloseDone() returns (drained: bool)
      requires Valid() && phase.Over?
      modifies `done
      ensures Valid() && View() == ApplyDrain(old(View()), DrainStep.CloseDone)
      ensures drained ==> exited == ALL && managerCloses == 1 && deviceCloses == 1
      ensures drained <==> running == {}
    {
      DrainKeepsInv(View(), DrainStep.CloseDone);
      drained := running == {};
      if drained { done := true; }
    }
  }
}
