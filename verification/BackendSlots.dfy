/** The VPN backend's two slots: the connection being set up and the one in use.  Any number
    of Connect and Disconnect calls interleave; each holds the mutex only to look at the slots
    or to swap them, and tears connections down outside it.  A Connect call runs the set-up of
    its connection in a goroutine of its own, which goes on when the call is cancelled. */
module BackendSlots {
  import opened Common

  /** Where the Connect call that owns a connection stands. */
  datatype Stage =
    | TearingDown(stale: nat)      // the connection it replaced still has to be disconnected
    | Dialling                     // waiting for the set-up or for a cancellation
    | Cancelled                    // to be passed to Disconnect before the set-up is over
    | Draining                     // passed to Disconnect; waiting for the set-up, for a while
    | Dialled                      // a session exists; first check of the slot to come
    | Monitoring                   // first check passed; second check to come
    | Doomed(clear: bool)          // to be passed to Disconnect, then out of its slot if `clear`
    | Clearing
    | Ended

  datatype Setup = Running | Over(ok: bool)

  datatype Threads = Threads(
    stages: map<nat, Stage>,       // one entry per Connect call, under its own connection
    holding: map<nat, set<nat>>,   // what each Disconnect call has taken and not yet torn down
    setups: map<nat, Setup>,
    begun: set<nat>,               // connections whose set-up has begun a session
    live: set<nat>,                // those whose session has not been closed since
    late: set<nat>,                // those that began it after their cancelled call had disconnected
    published: set<nat>)

  datatype State = State(connecting: Option<nat>, active: Option<nat>, env: Threads)

  /** Steps of the Connect call of `c`. */
  datatype ConnectStep =
    | StaleGone(ok: bool)
    | Cancel
    | CancelDisconnect
    | CancelEnd                    // the set-up is over, or the call has waited long enough
    | DialEnds
    | FirstCheck
    | MonitorFails
    | SecondCheck
    | TearDown
    | Clear

  /** Steps of the set-up of `c` and of its session. */
  datatype SetupStep = SessionBegins | SetupOver(ok: bool) | SessionDies

  datatype Action =
    | Begin(c: nat)
    | Call(c: nat, step: ConnectStep)
    | Dial(c: nat, setup: SetupStep)
    | DisconnectBegin(d: nat)
    | DisconnectNext(d: nat, c: nat)

  const Fresh := State(None, None, Threads(map[], map[], map[], {}, {}, {}, {}))

  function OptSet(o: Option<nat>): set<nat> {
    match o case None => {} case Some(c) => {c}
  }

  predicate At(env: Threads, c: nat, stage: Stage) {
    c in env.stages && env.stages[c] == stage
  }

  function MoveTo(env: Threads, c: nat, stage: Stage): Threads {
    env.(stages := env.stages[c := stage])
  }

  function StartSetup(env: Threads, c: nat): Threads {
    MoveTo(env, c, Dialling).(setups := env.setups[c := Running])
  }

  /** Disconnecting closes the session there is; a session that begins later is not affected. */
  function Close(env: Threads, c: nat): Threads {
    env.(live := env.live - {c})
  }

  function DoBegin(s: State, c: nat): State {
    if c in s.env.stages || s.connecting.Some? then s
    else if s.active.Some? then State(Some(c), None, MoveTo(s.env, c, TearingDown(s.active.value)))
    else State(Some(c), None, StartSetup(s.env, c))
  }

  function DoStaleGone(s: State, c: nat, ok: bool): State {
    if c !in s.env.stages || !s.env.stages[c].TearingDown? then s
    else
      var env := Close(s.env, s.env.stages[c].stale);
      s.(env := if ok then StartSetup(env, c) else MoveTo(env, c, Clearing))
  }

  /** The set-up delivers its result: an error, a session, or a session that has closed itself. */
  function DoDialEnds(s: State, c: nat): State {
    if !At(s.env, c, Dialling) || c !in s.env.setups || s.env.setups[c].Running? then s
    else if !s.env.setups[c].ok then s.(env := MoveTo(s.env, c, Doomed(true)))
    else s.(env := MoveTo(s.env, c, if c in s.env.live then Dialled else Clearing))
  }

  function DoFirstCheck(s: State, c: nat): State {
    if !At(s.env, c, Dialled) then s
    else s.(env := MoveTo(s.env, c, if s.connecting == Some(c) then Monitoring else Doomed(false)))
  }

  function DoSecondCheck(s: State, c: nat): State {
    if !At(s.env, c, Monitoring) then s
    else if s.connecting == Some(c)
    then State(None, Some(c), MoveTo(s.env, c, Ended).(published := s.env.published + {c}))
    else s.(env := MoveTo(s.env, c, Doomed(false)))
  }

  function DoTearDown(s: State, c: nat): State {
    if c !in s.env.stages || !s.env.stages[c].Doomed? then s
    else s.(env := MoveTo(Close(s.env, c), c, if s.env.stages[c].clear then Clearing else Ended))
  }

  function DoClear(s: State, c: nat): State {
    if !At(s.env, c, Clearing) then s
    else s.(connecting := if s.connecting == Some(c) then None else s.connecting, env := MoveTo(s.env, c, Ended))
  }

  function DoCall(s: State, c: nat, step: ConnectStep): State {
    match step
    case StaleGone(ok) => DoStaleGone(s, c, ok)
    case Cancel => if At(s.env, c, Dialling) then s.(env := MoveTo(s.env, c, Cancelled)) else s
    case CancelDisconnect => if At(s.env, c, Cancelled) then s.(env := MoveTo(Close(s.env, c), c, Draining)) else s
    case CancelEnd => if At(s.env, c, Draining) then s.(env := MoveTo(s.env, c, Clearing)) else s
    case DialEnds => DoDialEnds(s, c)
    case FirstCheck => DoFirstCheck(s, c)
    case MonitorFails => if At(s.env, c, Monitoring) then s.(env := MoveTo(s.env, c, Doomed(true))) else s
    case SecondCheck => DoSecondCheck(s, c)
    case TearDown => DoTearDown(s, c)
    case Clear => DoClear(s, c)
  }

  predicate IsRunning(env: Threads, c: nat) {
    c in env.setups && env.setups[c].Running?
  }

  /** The Connect call no longer waits for its set-up. */
  predicate GaveUp(env: Threads, c: nat) {
    At(env, c, Draining) || At(env, c, Clearing) || At(env, c, Ended)
  }

  function DoDial(s: State, c: nat, setup: SetupStep): State {
    match setup
    case SessionBegins =>
      if !IsRunning(s.env, c) || c in s.env.begun then s
      else s.(env := s.env.(begun := s.env.begun + {c}, live := s.env.live + {c},
                            late := if GaveUp(s.env, c) then s.env.late + {c} else s.env.late))
    case SetupOver(ok) => if IsRunning(s.env, c) then s.(env := s.env.(setups := s.env.setups[c := Over(ok)])) else s
    case SessionDies => s.(env := Close(s.env, c))
  }

  function DoDisconnectBegin(s: State, d: nat): State {
    if d in s.env.holding then s
    else State(None, None, s.env.(holding := s.env.holding[d := OptSet(s.connecting) + OptSet(s.active)]))
  }

  function DoDisconnectNext(s: State, d: nat, c: nat): State {
    if d !in s.env.holding || c !in s.env.holding[d] then s
    else s.(env := Close(s.env, c).(holding := s.env.holding[d := s.env.holding[d] - {c}]))
  }

  function Apply(s: State, a: Action): State {
    match a
    case Begin(c) => DoBegin(s, c)
    case Call(c, step) => DoCall(s, c, step)
    case Dial(c, setup) => DoDial(s, c, setup)
    case DisconnectBegin(d) => DoDisconnectBegin(s, d)
    case DisconnectNext(d, c) => DoDisconnectNext(s, d, c)
  }

  function Run(s: State, actions: seq<Action>): State
    decreases |actions|
  {
    if actions == [] then s else Run(Apply(s, actions[0]), actions[1..])
  }

  // ---------------------------------------------------------------- the invariant

  /** The Connect call of `c` will still look after whatever session its set-up begins. */
  predicate Busy(env: Threads, c: nat) {
    c in env.stages &&
    match env.stages[c]
    case Dialling => true
    case Cancelled => true
    case Dialled => true
    case Monitoring => true
    case Doomed(_) => true
    case _ => false
  }

  /** Some call is still responsible for `c`: its own Connect, the Disconnect that took it, or
      the Connect that replaced it. */
  ghost predicate Owed(env: Threads, c: nat) {
    || Busy(env, c)
    || (exists d :: d in env.holding && c in env.holding[d])
    || (exists o :: o in env.stages && env.stages[o] == TearingDown(c))
  }

  ghost predicate Accounted(s: State, c: nat) {
    s.active == Some(c) || Owed(s.env, c) || c in s.env.late
  }

  /** What the stage of a call says about its set-up. */
  predicate StageOk(env: Threads, c: nat)
    requires c in env.stages
  {
    match env.stages[c]
    case TearingDown(_) => c !in env.setups
    case Dialling => c in env.setups && c !in env.late
    case Cancelled => c in env.setups && c !in env.late
    case Draining => c in env.setups
    case Dialled => c in env.setups && env.setups[c].Over? && c !in env.late
    case Monitoring => c in env.setups && env.setups[c].Over? && c !in env.late
    case Doomed(_) => c in env.setups && env.setups[c].Over? && c !in env.late
    case _ => true
  }

  ghost predicate SlotsOk(s: State) {
    && (s.connecting.Some? ==> s.active.None? && s.connecting.value in s.env.stages &&
                                 s.env.stages[s.connecting.value] !in {Ended, Doomed(false)})
    && (s.active.Some? ==> s.active.value in s.env.published)
    && (forall c :: c in s.env.published ==> At(s.env, c, Ended) && c !in s.env.late && !IsRunning(s.env, c))
  }

  ghost predicate Inv(s: State) {
    && SlotsOk(s)
    && (forall c :: c in s.env.stages ==> StageOk(s.env, c))
    && (forall c :: c in s.env.setups ==> c in s.env.stages)
    && s.env.live <= s.env.begun && s.env.late <= s.env.begun && (forall c :: c in s.env.begun ==> c in s.env.setups)
    && (forall c :: c in s.env.live ==> Accounted(s, c))
  }

  /** An obligation survives every step that does not discharge it. */
  lemma OwedKept(env: Threads, env': Threads, c: nat)
    requires Owed(env, c)
    requires Busy(env, c) ==> Busy(env', c)
    requires forall d :: d in env.holding && c in env.holding[d] ==> d in env'.holding && c in env'.holding[d]
    requires forall o :: o in env.stages && env.stages[o] == TearingDown(c) ==> o in env'.stages && env'.stages[o] == TearingDown(c)
    ensures Owed(env', c)
  {
    if exists d :: d in env.holding && c in env.holding[d] {
      var d :| d in env.holding && c in env.holding[d];
      assert d in env'.holding;
    } else if exists o :: o in env.stages && env.stages[o] == TearingDown(c) {
      var o :| o in env.stages && env.stages[o] == TearingDown(c);
      assert o in env'.stages;
    }
  }

  lemma BeginKeepsInv(s: State, c: nat)
    requires Inv(s)
    ensures Inv(DoBegin(s, c))
  {
    var t := DoBegin(s, c);
    forall x | x in t.env.live ensures Accounted(t, x) {
      if Owed(s.env, x) { OwedKept(s.env, t.env, x); }
      if s.active == Some(x) && t != s { assert t.env.stages[c] == TearingDown(x); }
    }
  }

  lemma DisconnectKeepsInv(s: State, d: nat)
    requires Inv(s)
    ensures Inv(DoDisconnectBegin(s, d))
  {
    var t := DoDisconnectBegin(s, d);
    if t != s {
      forall x | x in t.env.live ensures Accounted(t, x) {
        if s.active == Some(x) {
          assert x in t.env.holding[d];
        } else if Owed(s.env, x) {
          OwedKept(s.env, t.env, x);
        }
      }
    }
  }

  lemma TearingKeepsInv(s: State, d: nat, c: nat)
    requires Inv(s)
    ensures Inv(DoDisconnectNext(s, d, c))
  {
    var t := DoDisconnectNext(s, d, c);
    forall x | x in t.env.live ensures Accounted(t, x) {
      if Owed(s.env, x) && t != s { OwedKept(s.env, t.env, x); }
    }
  }

  lemma DialKeepsInv(s: State, c: nat, setup: SetupStep)
    requires Inv(s)
    ensures Inv(DoDial(s, c, setup))
  {
    var t := DoDial(s, c, setup);
    forall x | x in t.env.live ensures Accounted(t, x) {
      if x in s.env.live {
        if Owed(s.env, x) { OwedKept(s.env, t.env, x); }
      } else {
        assert StageOk(s.env, c) && (Busy(t.env, c) || GaveUp(s.env, c));
      }
    }
  }

  /** A step of the Connect call of `c` that leaves the other calls and their obligations alone. */
  lemma OwnStepKeepsInv(s: State, t: State, c: nat)
    requires Inv(s) && c in s.env.stages && c in t.env.stages
    requires t.env == s.env.(stages := s.env.stages[c := t.env.stages[c]], live := t.env.live,
                             setups := t.env.setups, published := t.env.published)
    requires t.env.live <= s.env.live
    requires t.env.setups == s.env.setups || t.env.setups == s.env.setups[c := Running]
    requires s.env.stages[c].TearingDown? ==> t.env.stages[c] == s.env.stages[c] || s.env.stages[c].stale !in t.env.live
    requires c in t.env.live ==> Accounted(t, c)
    requires StageOk(t.env, c) && SlotsOk(t)
    requires t.active == s.active || t.active == Some(c)
    requires s.active == Some(c) ==> t.active == Some(c)
    requires t.active == Some(c) && s.active != Some(c) ==> s.active.None?
    ensures Inv(t)
  {
    forall x | x in t.env.live ensures Accounted(t, x) {
      if x != c && Owed(s.env, x) { OwedKept(s.env, t.env, x); }
    }
  }

  lemma CancelKeepsInv(s: State, c: nat, step: ConnectStep)
    requires Inv(s) && (step.Cancel? || step.CancelDisconnect? || step.CancelEnd?)
    ensures Inv(DoCall(s, c, step))
  {
    var t := DoCall(s, c, step);
    if t != s {
      if Owed(s.env, c) && !step.CancelDisconnect? { OwedKept(s.env, t.env, c); }
      OwnStepKeepsInv(s, t, c);
    }
  }

  lemma EarlyKeepsInv(s: State, c: nat, step: ConnectStep)
    requires Inv(s) && (step.StaleGone? || step.DialEnds? || step.TearDown?)
    ensures Inv(DoCall(s, c, step))
  {
    var t := DoCall(s, c, step);
    if t != s { OwnStepKeepsInv(s, t, c); }
  }

  lemma LateKeepsInv(s: State, c: nat, step: ConnectStep)
    requires Inv(s) && (step.FirstCheck? || step.MonitorFails? || step.SecondCheck? || step.Clear?)
    ensures Inv(DoCall(s, c, step))
  {
    var t := DoCall(s, c, step);
    if t != s {
      if Owed(s.env, c) && t.active == s.active { OwedKept(s.env, t.env, c); }
      OwnStepKeepsInv(s, t, c);
    }
  }

  lemma ApplyKeepsInv(s: State, a: Action)
    requires Inv(s)
    ensures Inv(Apply(s, a))
  {
    match a
    case Begin(c) => BeginKeepsInv(s, c);
    case Dial(c, setup) => DialKeepsInv(s, c, setup);
    case DisconnectBegin(d) => DisconnectKeepsInv(s, d);
    case DisconnectNext(d, c) => TearingKeepsInv(s, d, c);
    case Call(c, step) =>
      if step.Cancel? || step.CancelDisconnect? || step.CancelEnd? { CancelKeepsInv(s, c, step); }
      else if step.StaleGone? || step.DialEnds? || step.TearDown? { EarlyKeepsInv(s, c, step); }
      else { LateKeepsInv(s, c, step); }
  }

  lemma {:induction false} RunKeepsInv(s: State, actions: seq<Action>)
    requires Inv(s)
    ensures Inv(Run(s, actions))
    decreases |actions|
  {
    if actions != [] {
      ApplyKeepsInv(s, actions[0]);
      RunKeepsInv(Apply(s, actions[0]), actions[1..]);
    }
  }

  // ---------------------------------------------------------------- the results

  /** In every run, every live session is the active one, or some call still owes it a Disconnect,
      or it began after its own call had been cancelled and had disconnected what there was.
      While one connection is being set up no other is in use. */
  lemma NoDroppedConnection(actions: seq<Action>, c: nat)
    ensures var s := Run(Fresh, actions);
            && (c in s.env.live ==> Accounted(s, c))
            && (s.connecting.Some? ==> s.active.None?)
  {
    RunKeepsInv(Fresh, actions);
  }

  /** All calls have returned. */
  ghost predicate Quiet(s: State) {
    && (forall c :: c in s.env.stages ==> s.env.stages[c].Ended?)
    && (forall d :: d in s.env.holding ==> s.env.holding[d] == {})
  }

  /** Once all calls have returned nothing is being set up in a slot, and the active connection is
      the only one with a live session if and only if no live session began after its call had
      been cancelled. */
  lemma QuietBackendHoldsOnlyTheActiveIff(actions: seq<Action>)
    requires Quiet(Run(Fresh, actions))
    ensures var s := Run(Fresh, actions);
            && s.connecting.None?
            && (s.env.live <= OptSet(s.active) <==> s.env.live !! s.env.late)
            && (forall c :: c in s.env.live ==> (s.active == Some(c) <==> c !in s.env.late))
  {
    var s := Run(Fresh, actions);
    RunKeepsInv(Fresh, actions);
    forall c | c in s.env.live ensures s.active == Some(c) <==> c !in s.env.late {
      assert Accounted(s, c) && !Owed(s.env, c);
    }
  }

  /** A live session no call and no slot knows of. */
  ghost predicate Leaked(s: State, c: nat) {
    && At(s.env, c, Ended) && !IsRunning(s.env, c) && c in s.env.live
    && s.connecting != Some(c) && s.active != Some(c)
    && !(exists d :: d in s.env.holding && c in s.env.holding[d])
    && !(exists o :: o in s.env.stages && s.env.stages[o] == TearingDown(c))
  }

  /** Steps that leave the call of `c` where it is and hand `c` to nobody. */
  lemma LeakKept(s: State, t: State, c: nat)
    requires Leaked(s, c)
    requires At(t.env, c, Ended) && !IsRunning(t.env, c) && c in t.env.live
    requires t.connecting != Some(c) && t.active != Some(c)
    requires forall d :: d in t.env.holding ==> c !in t.env.holding[d] || (d in s.env.holding && c in s.env.holding[d])
    requires forall o :: o in t.env.stages ==> t.env.stages[o] != TearingDown(c) || (o in s.env.stages && s.env.stages[o] == TearingDown(c))
    ensures Leaked(t, c)
  {
  }

  lemma LeakSurvivesCall(s: State, x: nat, step: ConnectStep, c: nat)
    requires Leaked(s, c)
    ensures Leaked(DoCall(s, x, step), c)
  {
    LeakKept(s, DoCall(s, x, step), c);
  }

  lemma LeakedStays(s: State, a: Action, c: nat)
    requires Leaked(s, c) && a != Dial(c, SessionDies)
    ensures Leaked(Apply(s, a), c)
  {
    match a
    case Begin(x) => LeakKept(s, DoBegin(s, x), c);
    case Call(x, step) => LeakSurvivesCall(s, x, step, c);
    case Dial(x, setup) => LeakKept(s, DoDial(s, x, setup), c);
    case DisconnectBegin(d) => LeakKept(s, DoDisconnectBegin(s, d), c);
    case DisconnectNext(d, x) => LeakKept(s, DoDisconnectNext(s, d, x), c);
  }

  /** It stays that way: unless the session ends by itself, in no continuation does anyone
      disconnect it or use it. */
  lemma {:induction false} LeakIsForGood(s: State, actions: seq<Action>, c: nat)
    requires Leaked(s, c) && Dial(c, SessionDies) !in actions
    ensures Leaked(Run(s, actions), c)
    decreases |actions|
  {
    if actions != [] {
      assert actions[0] in actions;
      LeakedStays(s, actions[0], c);
      LeakIsForGood(Apply(s, actions[0]), actions[1..], c);
    }
  }

  lemma RunCons(s: State, a: Action, rest: seq<Action>)
    ensures Run(s, [a] + rest) == Run(Apply(s, a), rest)
  {
    assert ([a] + rest)[1..] == rest;
  }

  /** The run of a user who disconnects before the dial: both Disconnect calls find no session, the
      set-up then succeeds, and its call only clears the slot. */
  const CancelEarly: seq<Action> :=
    [Begin(0)] + ([Call(0, Cancel)] + ([Call(0, CancelDisconnect)] + ([DisconnectBegin(0)] + ([DisconnectNext(0, 0)] + []))))

  const SucceedLate: seq<Action> :=
    [Dial(0, SessionBegins)] + ([Dial(0, SetupOver(true))] + ([Call(0, CancelEnd)] + ([Call(0, Clear)] + [])))

  /** Nobody holds connection 0, and its set-up goes on. */
  const Abandoned: State := State(None, None, Threads(map[0 := Draining], map[0 := {}], map[0 := Running], {}, {}, {}, {}))

  lemma CancelEarlyAbandons()
    ensures Run(Fresh, CancelEarly) == Abandoned
  {
    var r4 := [DisconnectNext(0, 0)] + [];
    var r3 := [DisconnectBegin(0)] + r4;
    var r2 := [Call(0, CancelDisconnect)] + r3;
    var r1 := [Call(0, Cancel)] + r2;
    var s1 := State(Some(0), None, Threads(map[0 := Dialling], map[], map[0 := Running], {}, {}, {}, {}));
    var s2 := State(Some(0), None, Threads(map[0 := Cancelled], map[], map[0 := Running], {}, {}, {}, {}));
    var s3 := State(Some(0), None, Threads(map[0 := Draining], map[], map[0 := Running], {}, {}, {}, {}));
    var s4 := State(None, None, Threads(map[0 := Draining], map[0 := {0}], map[0 := Running], {}, {}, {}, {}));
    assert Apply(Fresh, Begin(0)) == s1 && Apply(s1, Call(0, Cancel)) == s2 && Apply(s2, Call(0, CancelDisconnect)) == s3;
    assert OptSet(s3.connecting) + OptSet(s3.active) == {0} && s4.env.holding[0] - {0} == {};
    assert Apply(s3, DisconnectBegin(0)) == s4 && Apply(s4, DisconnectNext(0, 0)) == Abandoned;
    RunCons(Fresh, Begin(0), r1);
    RunCons(s1, Call(0, Cancel), r2);
    RunCons(s2, Call(0, CancelDisconnect), r3);
    RunCons(s3, DisconnectBegin(0), r4);
    RunCons(s4, DisconnectNext(0, 0), []);
  }

  lemma CancelledConnectLeaksItsSession()
    ensures Run(Fresh, CancelEarly) == Abandoned
    ensures var s := Run(Abandoned, SucceedLate);
            Quiet(s) && s.connecting.None? && s.active.None? && s.env.live == {0} && Leaked(s, 0)
  {
    CancelEarlyAbandons();
    var r3 := [Call(0, Clear)] + [];
    var r2 := [Call(0, CancelEnd)] + r3;
    var r1 := [Dial(0, SetupOver(true))] + r2;
    var s1 := State(None, None, Threads(map[0 := Draining], map[0 := {}], map[0 := Running], {0}, {0}, {0}, {}));
    var s2 := State(None, None, Threads(map[0 := Draining], map[0 := {}], map[0 := Over(true)], {0}, {0}, {0}, {}));
    var s3 := State(None, None, Threads(map[0 := Clearing], map[0 := {}], map[0 := Over(true)], {0}, {0}, {0}, {}));
    var s4 := State(None, None, Threads(map[0 := Ended], map[0 := {}], map[0 := Over(true)], {0}, {0}, {0}, {}));
    assert Apply(Abandoned, Dial(0, SessionBegins)) == s1 && Apply(s1, Dial(0, SetupOver(true))) == s2;
    assert Apply(s2, Call(0, CancelEnd)) == s3 && Apply(s3, Call(0, Clear)) == s4;
    RunCons(Abandoned, Dial(0, SessionBegins), r1);
    RunCons(s1, Dial(0, SetupOver(true)), r2);
    RunCons(s2, Call(0, CancelEnd), r3);
    RunCons(s3, Call(0, Clear), []);
    assert Run(Abandoned, SucceedLate) == s4;
  }

  // ---------------------------------------------------------------- what is achieved and kept

  /** What some call is about to disconnect is in no slot. */
  ghost predicate Exclusive(s: State) {
    && (forall d, x :: d in s.env.holding && x in s.env.holding[d] ==> Gone(s, x))
    && (forall o :: o in s.env.stages && s.env.stages[o].TearingDown? ==> Gone(s, s.env.stages[o].stale))
    && (s.connecting.Some? ==> s.connecting.value in s.env.stages)
    && (s.active.Some? ==> s.active.value in s.env.stages)
  }

  predicate Gone(s: State, x: nat) {
    x in s.env.stages && s.connecting != Some(x) && s.active != Some(x)
  }

  /** Steps that put nothing into a slot that a call is about to disconnect. */
  lemma ExclusiveKept(s: State, t: State)
    requires Exclusive(s)
    requires forall x :: Gone(s, x) ==> Gone(t, x)
    requires forall d, x :: d in t.env.holding && x in t.env.holding[d] ==>
               (d in s.env.holding && x in s.env.holding[d]) || Gone(t, x)
    requires forall o :: o in t.env.stages && t.env.stages[o].TearingDown? ==>
               (o in s.env.stages && s.env.stages[o] == t.env.stages[o]) || Gone(t, t.env.stages[o].stale)
    requires t.connecting.Some? ==> t.connecting.value in t.env.stages
    requires t.active.Some? ==> t.active.value in t.env.stages
    ensures Exclusive(t)
  {
  }

  lemma ApplyKeepsExclusive(s: State, a: Action)
    requires Inv(s) && Exclusive(s)
    ensures Exclusive(Apply(s, a))
  {
    match a {
      case Begin(c) => ExclusiveKept(s, DoBegin(s, c));
      case Dial(c, setup) => ExclusiveKept(s, DoDial(s, c, setup));
      case DisconnectBegin(d) => ExclusiveKept(s, DoDisconnectBegin(s, d));
      case DisconnectNext(d, c) => ExclusiveKept(s, DoDisconnectNext(s, d, c));
      case Call(c, step) => CallKeepsExclusive(s, c, step);
    }
  }

  lemma CallKeepsExclusive(s: State, x: nat, step: ConnectStep)
    requires Exclusive(s)
    ensures Exclusive(DoCall(s, x, step))
  {
    ExclusiveKept(s, DoCall(s, x, step));
  }

  lemma {:induction false} RunKeepsExclusive(s: State, actions: seq<Action>)
    requires Inv(s) && Exclusive(s)
    ensures Inv(Run(s, actions)) && Exclusive(Run(s, actions))
    decreases |actions|
  {
    if actions != [] {
      ApplyKeepsInv(s, actions[0]);
      ApplyKeepsExclusive(s, actions[0]);
      RunKeepsExclusive(Apply(s, actions[0]), actions[1..]);
    }
  }

  /** A Connect call that nothing disturbs, with the disconnect of the connection it replaces. */
  function Undisturbed(s: State, c: nat): seq<Action> {
    [Begin(c)] + ((if s.active.Some? then [Call(c, StaleGone(true))] else [])
    + Rest(c))
  }

  /** The connection is in use: active, with a live session that nobody is about to disconnect. */
  ghost predicate InUse(s: State, c: nat) {
    && s.active == Some(c) && s.connecting.None? && c in s.env.live
    && Inv(s) && Exclusive(s)
  }

  /** In every reachable state with a free connecting slot, such a call ends with its connection
      in use, and with the session of the connection it replaced closed. */
  lemma UndisturbedConnectSucceeds(pre: seq<Action>, c: nat)
    requires Run(Fresh, pre).connecting.None? && c !in Run(Fresh, pre).env.stages
    ensures var s := Run(Fresh, pre); var t := Run(s, Undisturbed(s, c));
            && InUse(t, c) && c in t.env.published && At(t.env, c, Ended)
            && (s.active.Some? ==> s.active.value !in t.env.live)
            && t.env.live == (s.env.live - OptSet(s.active)) + {c}
  {
    var s := Run(Fresh, pre);
    RunKeepsInv(Fresh, pre);
    RunKeepsExclusive(Fresh, pre);
    RunKeepsExclusive(s, Undisturbed(s, c));
    var s2 := if s.active.Some? then DoStaleGone(DoBegin(s, c), c, true) else DoBegin(s, c);
    SetupSucceeds(s, s2, c);
    UndisturbedRun(s, c);
    RestOfSetup(s2, c);
  }

  /** What remains once the connection that was replaced is gone. */
  function Rest(c: nat): seq<Action> {
    [Dial(c, SessionBegins)] + ([Dial(c, SetupOver(true))] + ([Call(c, DialEnds)] + ([Call(c, FirstCheck)] + ([Call(c, SecondCheck)] + []))))
  }

  lemma UndisturbedRun(s: State, c: nat)
    ensures var s1 := DoBegin(s, c);
            Run(s, Undisturbed(s, c)) == Run(if s.active.Some? then DoStaleGone(s1, c, true) else s1, Rest(c))
  {
    var s1 := DoBegin(s, c);
    if s.active.Some? {
      RunCons(s, Begin(c), [Call(c, StaleGone(true))] + Rest(c));
      RunCons(s1, Call(c, StaleGone(true)), Rest(c));
    } else {
      assert [] + Rest(c) == Rest(c);
      RunCons(s, Begin(c), Rest(c));
    }
  }

  lemma RestOfSetup(s: State, c: nat)
    ensures Run(s, Rest(c))
         == DoSecondCheck(DoFirstCheck(DoDialEnds(DoDial(DoDial(s, c, SessionBegins), c, SetupOver(true)), c), c), c)
  {
    var r5 := [Call(c, SecondCheck)] + [];
    var r4 := [Call(c, FirstCheck)] + r5;
    var r3 := [Call(c, DialEnds)] + r4;
    var r2 := [Dial(c, SetupOver(true))] + r3;
    var s1 := DoDial(s, c, SessionBegins);
    var s2 := DoDial(s1, c, SetupOver(true));
    var s3 := DoDialEnds(s2, c);
    RunCons(s, Dial(c, SessionBegins), r2);
    RunCons(s1, Dial(c, SetupOver(true)), r3);
    RunCons(s2, Call(c, DialEnds), r4);
    RunCons(s3, Call(c, FirstCheck), r5);
    RunCons(DoFirstCheck(s3, c), Call(c, SecondCheck), []);
  }

  lemma SetupSucceeds(s: State, s2: State, c: nat)
    requires Inv(s) && s.connecting.None? && c !in s.env.stages
    requires s2 == if s.active.Some? then DoStaleGone(DoBegin(s, c), c, true) else DoBegin(s, c)
    ensures var s4 := DoDial(DoDial(s2, c, SessionBegins), c, SetupOver(true));
            var t := DoSecondCheck(DoFirstCheck(DoDialEnds(s4, c), c), c);
            && t.active == Some(c) && t.connecting.None? && c in t.env.published && At(t.env, c, Ended)
            && t.env.live == (s.env.live - OptSet(s.active)) + {c}
  {
    assert c !in s.env.setups && c !in s.env.begun && c !in s.env.live;
    assert At(s2.env, c, Dialling) && s2.env.setups == s.env.setups[c := Running] && s2.env.begun == s.env.begun;
    assert s2.env.live == s.env.live - OptSet(s.active);
  }

  /** Steps other than a new Connect, a Disconnect and the end of the session itself. */
  predicate LeavesAlone(a: Action, c: nat) {
    !a.Begin? && !a.DisconnectBegin? && a != Dial(c, SessionDies)
  }

  lemma CallKeepsUse(s: State, x: nat, step: ConnectStep, c: nat)
    requires InUse(s, c)
    ensures var t := DoCall(s, x, step); t.active == Some(c) && t.connecting.None? && c in t.env.live
  {
    assert At(s.env, c, Ended);
  }

  /** A connection in use stays in use until one of these: no step of any other call, late or
      not, closes its session or takes it out of its slot. */
  lemma {:induction false} InUseUntilTaken(s: State, actions: seq<Action>, c: nat)
    requires InUse(s, c) && forall a :: a in actions ==> LeavesAlone(a, c)
    ensures InUse(Run(s, actions), c)
    decreases |actions|
  {
    if actions != [] {
      var a := actions[0];
      assert a in actions;
      ApplyKeepsInv(s, a);
      ApplyKeepsExclusive(s, a);
      if a.Call? { CallKeepsUse(s, a.c, a.step, c); }
      if a.DisconnectNext? && a.d in s.env.holding && a.c in s.env.holding[a.d] { assert Gone(s, a.c); }
      assert InUse(Apply(s, a), c);
      InUseUntilTaken(Apply(s, a), actions[1..], c);
    }
  }

  /** Taken out of its slot without being published. */
  ghost predicate Superseded(s: State, c: nat) {
    c in s.env.stages && s.connecting != Some(c) && s.active != Some(c) && c !in s.env.published
  }

  lemma SupersededStays(s: State, a: Action, c: nat)
    requires Superseded(s, c)
    ensures Superseded(Apply(s, a), c)
  {
  }

  lemma {:induction false} RunKeepsSuperseded(s: State, actions: seq<Action>, c: nat)
    requires Superseded(s, c)
    ensures Superseded(Run(s, actions), c)
    decreases |actions|
  {
    if actions != [] {
      SupersededStays(s, actions[0], c);
      RunKeepsSuperseded(Apply(s, actions[0]), actions[1..], c);
    }
  }

  /** A Disconnect that overtakes a Connect wins: the connection it took from the connecting
      slot never becomes active and is never published, in any continuation. */
  lemma TakenConnectionIsNeverPublished(pre: seq<Action>, d: nat, post: seq<Action>, c: nat)
    requires Run(Fresh, pre).connecting == Some(c) && d !in Run(Fresh, pre).env.holding
    ensures var t := Run(Apply(Run(Fresh, pre), DisconnectBegin(d)), post);
            c !in t.env.published && t.active != Some(c)
  {
    RunKeepsInv(Fresh, pre);
    RunKeepsSuperseded(Apply(Run(Fresh, pre), DisconnectBegin(d)), post, c);
  }

  // ---------------------------------------------------------------- the critical sections

  class Backend {
    var connecting: Option<nat>
    var active: Option<nat>
    ghost var env: Threads

    ghost function View(): State
      reads this
    {
      State(connecting, active, env)
    }

    constructor ()
      ensures View() == Fresh
    {
      connecting, active, env := None, None, Fresh.env;
    }

    /** Claim the connecting slot for a new connection and take the active one out of use. */
    method Begin(c: nat) returns (ok: bool, stale: Option<nat>)
      requires c !in env.stages
      modifies this
      ensures View() == DoBegin(old(View()), c)
      ensures ok <==> old(connecting).None?
      ensures ok ==> stale == old(active) && connecting == Some(c) && active == None
      ensures ok ==> c in env.stages && env.stages[c] == if stale.Some? then TearingDown(stale.value) else Dialling
      ensures !ok ==> unchanged(this)
    {
      if connecting.Some? { return false, None; }
      stale := active;
      active := None;
      connecting := Some(c);
      env := if stale.Some? then MoveTo(env, c, TearingDown(stale.value)) else StartSetup(env, c);
      ok := true;
    }

    method StillConnecting(c: nat) returns (ok: bool)
      requires At(env, c, Dialled)
      modifies this`env
      ensures View() == DoFirstCheck(old(View()), c) && ok == (connecting == Some(c))
      ensures env == old(env).(stages := old(env.stages)[c := if ok then Monitoring else Doomed(false)])
    {
      ok := connecting == Some(c);
      env := MoveTo(env, c, if ok then Monitoring else Doomed(false));
    }

    method Publish(c: nat) returns (ok: bool)
      requires At(env, c, Monitoring)
      modifies this
      ensures View() == DoSecondCheck(old(View()), c) && ok == (old(connecting) == Some(c))
      ensures ok ==> active == Some(c) && connecting == None && c in env.published && At(env, c, Ended)
      ensures !ok ==> active == old(active) && connecting == old(connecting) && At(env, c, Doomed(false))
      ensures env.live == old(env.live) && env.holding == old(env.holding)
    {
      if connecting != Some(c) {
        env := MoveTo(env, c, Doomed(false));
        return false;
      }
      connecting := None;
      active := Some(c);
      env := MoveTo(env, c, Ended).(published := env.published + {c});
      ok := true;
    }

    method ClearConnecting(c: nat)
      requires At(env, c, Clearing)
      modifies this
      ensures View() == DoClear(old(View()), c)
      ensures active == old(active) && connecting == if old(connecting) == Some(c) then None else old(connecting)
    {
      if connecting == Some(c) { connecting := None; }
      env := MoveTo(env, c, Ended);
    }

    /** Empty both slots; the caller disconnects what was in them. */
    method Take(d: nat) returns (dialling: Option<nat>, used: Option<nat>)
      requires d !in env.holding
      modifies this
      ensures View() == DoDisconnectBegin(old(View()), d)
      ensures dialling == old(connecting) && used == old(active) && connecting == None && active == None
      ensures d in env.holding && forall c :: c in env.holding[d] <==> dialling == Some(c) || used == Some(c)
      ensures env.live == old(env.live)
    {
      dialling, used := connecting, active;
      connecting, active := None, None;
      env := env.(holding := env.holding[d := OptSet(dialling) + OptSet(used)]);
    }
  }
}
