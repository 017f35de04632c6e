/** The daemon's numbered event stream: a ring of the last 1024 notifications, bounded queues
    for the watchers, and watches that resume from a revision they have already seen.  The
    specification is an unbounded log; event number r of the log has revision r. */
module EventStream {
  import opened Common

  const RING := 1024
  const QUEUE := 32
  const U64 := 0x1_0000_0000_0000_0000

  datatype Notify = Snapshot(revision: nat) | Event(revision: nat, payload: string)

  /** One watch: what its forwarder still has to send, its live queue, and what was delivered.
      `base` is the revision at which the watch began, `start` what it began with. */
  datatype Watch = Watch(start: seq<Notify>, base: nat, pending: seq<Notify>, hand: Option<Notify>,
                         live: seq<Notify>, registered: bool, closed: bool, delivered: seq<Notify>)

  /** `log` is the specification's record of every payload ever emitted. */
  datatype Hub = Hub(log: seq<string>, revision: nat, ring: seq<Notify>, watches: map<nat, Watch>, next: nat)

  datatype Action =
    | Emit(payload: string)
    | Subscribe(sameEpoch: bool, since: nat)
    | Take(id: nat)       // the forwarder receives from its live queue
    | Send(id: nat)       // the forwarder sends to the client
    | Finish(id: nat)     // the forwarder sees its live queue closed and drained
    | Cancel(id: nat)     // the client went away

  function Events(log: seq<string>, from: nat, to: nat): (r: seq<Notify>)
    requires from <= to <= |log|
    ensures |r| == to - from
    ensures forall i :: 0 <= i < |r| ==> r[i] == Event(from + i + 1, log[from + i])
  {
    seq(to - from, i requires 0 <= i < to - from => Event(from + i + 1, log[from + i]))
  }

  function Since(ring: seq<Notify>, since: nat): seq<Notify> {
    if ring == [] then []
    else if ring[0].revision > since then [ring[0]] + Since(ring[1..], since)
    else Since(ring[1..], since)
  }

  /** The three tests of a subscription.  `since` comes from the client, so adding one wraps. */
  predicate NeedsSnapshot(h: Hub, sameEpoch: bool, since: nat) {
    || !sameEpoch || since == 0
    || (|h.ring| > 0 && (since + 1) % U64 < h.ring[0].revision)
    || (Since(h.ring, since) == [] && since < h.revision)
  }

  function Enqueue(w: Watch, e: Notify): Watch {
    if !w.registered then w
    else if |w.live| < QUEUE then w.(live := w.live + [e])
    else w.(registered := false)
  }

  /** The forwarder receives from its live queue once the start has been sent. */
  function TakeStep(w: Watch): Watch {
    if w.pending == [] && w.hand.None? && w.live != [] then w.(hand := Some(w.live[0]), live := w.live[1..]) else w
  }

  function SendStep(w: Watch): Watch {
    if w.pending != [] then w.(pending := w.pending[1..], delivered := w.delivered + [w.pending[0]])
    else if w.hand.Some? then w.(hand := None, delivered := w.delivered + [w.hand.value])
    else w
  }

  /** The live queue is closed and drained: the client's channel closes. */
  function FinishStep(w: Watch): Watch {
    if w.pending == [] && w.hand.None? && w.live == [] && !w.registered then w.(closed := true) else w
  }

  /** The client went away: no more events are queued. */
  function CancelStep(w: Watch): Watch {
    w.(registered := false)
  }

  function Push(ring: seq<Notify>, e: Notify): seq<Notify> {
    var r := ring + [e];
    if |r| > RING then r[|r| - RING..] else r
  }

  function EnqueueAll(watches: map<nat, Watch>, e: Notify): map<nat, Watch> {
    map id | id in watches :: Enqueue(watches[id], e)
  }

  function OpenWatch(h: Hub, sameEpoch: bool, since: nat): Watch {
    var start := if NeedsSnapshot(h, sameEpoch, since) then [Snapshot(h.revision)] else Since(h.ring, since);
    Watch(start, h.revision, start, None, [], true, false, [])
  }

  function Replace(h: Hub, id: nat, step: Watch -> Watch): Hub {
    if id in h.watches then h.(watches := h.watches[id := step(h.watches[id])]) else h
  }

  function Apply(h: Hub, a: Action): Hub {
    match a
    case Emit(payload) =>
      var e := Event(h.revision + 1, payload);
      Hub(h.log + [payload], h.revision + 1, Push(h.ring, e), EnqueueAll(h.watches, e), h.next)
    case Subscribe(sameEpoch, since) =>
      h.(watches := h.watches[h.next := OpenWatch(h, sameEpoch, since)], next := h.next + 1)
    case Take(id) => Replace(h, id, TakeStep)
    case Send(id) => Replace(h, id, SendStep)
    case Finish(id) => Replace(h, id, FinishStep)
    case Cancel(id) => Replace(h, id, CancelStep)
  }

  function Run(h: Hub, actions: seq<Action>): Hub
    decreases |actions|
  {
    if actions == [] then h else Run(Apply(h, actions[0]), actions[1..])
  }

  const Fresh := Hub([], 0, [], map[], 0)

  // ---------------------------------------------------------------- the ring refines the log

  function Oldest(revision: nat): nat {
    if revision > RING then revision - RING else 0
  }

  ghost predicate RingOk(h: Hub) {
    h.revision == |h.log| && h.ring == Events(h.log, Oldest(h.revision), h.revision)
  }

  lemma SinceOfEvents(log: seq<string>, from: nat, since: nat)
    requires from <= |log|
    ensures Since(Events(log, from, |log|), since) ==
            Events(log, if since > |log| then |log| else if since < from then from else since, |log|)
    decreases |log| - from
  {
    var r := Events(log, from, |log|);
    if from < |log| {
      assert r[1..] == Events(log, from + 1, |log|);
      SinceOfEvents(log, from + 1, since);
    }
  }

  // ---------------------------------------------------------------- the stream of one watch

  /** What a watch was promised: its start, then every later event up to `to`. */
  function Promised(log: seq<string>, w: Watch, to: nat): seq<Notify>
    requires w.base <= to <= |log|
  {
    w.start + Events(log, w.base, to)
  }

  function InFlight(w: Watch): seq<Notify> {
    w.delivered + w.pending + (match w.hand case None => [] case Some(e) => [e]) + w.live
  }

  /** The revision of the last event that was queued for the watch. */
  function Reach(w: Watch): int {
    w.base + |InFlight(w)| - |w.start|
  }

  /** Delivered, pending, in hand and queued are together exactly what was promised, up to the
      present while the watch is registered and up to some revision once it is not. */
  ghost predicate WatchOk(log: seq<string>, w: Watch) {
    && |w.live| <= QUEUE
    && (w.hand.Some? ==> w.pending == [])
    && (w.closed ==> !w.registered && w.pending == [] && w.hand.None? && w.live == [])
    && w.base <= Reach(w) <= |log| && (w.registered ==> Reach(w) == |log|)
    && InFlight(w) == Promised(log, w, Reach(w))
  }

  ghost predicate Inv(h: Hub) {
    RingOk(h) && (forall id :: id in h.watches ==> id < h.next && WatchOk(h.log, h.watches[id]))
  }

  lemma EventsGrow(log: seq<string>, payload: string, from: nat, to: nat)
    requires from <= to <= |log|
    ensures Events(log + [payload], from, to) == Events(log, from, to)
    ensures Events(log + [payload], from, |log| + 1) == Events(log, from, |log|) + [Event(|log| + 1, payload)]
  {
  }

  lemma PushKeepsRing(h: Hub, payload: string)
    requires RingOk(h)
    ensures RingOk(Apply(h, Emit(payload)))
  {
    var o, log := Oldest(h.revision), h.log + [payload];
    EventsGrow(h.log, payload, o, h.revision);
    assert h.ring + [Event(h.revision + 1, payload)] == Events(log, o, |log|);
    if h.revision >= RING {
      assert Events(log, o, |log|)[1..] == Events(log, o + 1, |log|);
    }
  }

  lemma EnqueueKeepsWatch(log: seq<string>, payload: string, w: Watch)
    requires WatchOk(log, w)
    ensures WatchOk(log + [payload], Enqueue(w, Event(|log| + 1, payload)))
  {
    var e := Event(|log| + 1, payload);
    EventsGrow(log, payload, w.base, Reach(w));
    if w.registered && |w.live| < QUEUE {
      assert InFlight(Enqueue(w, e)) == InFlight(w) + [e];
    } else {
      assert InFlight(Enqueue(w, e)) == InFlight(w);
    }
  }

  /** What a step never changes: the log grows, and a watch keeps its start and its base. */
  ghost predicate Extends(h: Hub, h': Hub) {
    && h.log <= h'.log && h.next <= h'.next
    && forall id :: id in h.watches ==>
         id in h'.watches && h'.watches[id].start == h.watches[id].start && h'.watches[id].base == h.watches[id].base
  }

  lemma SameFlightKeepsWatch(log: seq<string>, w: Watch, w': Watch)
    requires WatchOk(log, w)
    requires InFlight(w') == InFlight(w) && w'.start == w.start && w'.base == w.base
    requires |w'.live| <= |w.live| && (w'.registered ==> w.registered) && (w'.hand.Some? ==> w'.pending == [])
    requires w'.closed ==> !w'.registered && w'.pending == [] && w'.hand.None? && w'.live == []
    ensures WatchOk(log, w')
  {
  }

  lemma SendingKeepsWatch(log: seq<string>, w: Watch)
    requires WatchOk(log, w)
    ensures WatchOk(log, TakeStep(w)) && WatchOk(log, SendStep(w))
  {
    assert InFlight(TakeStep(w)) == InFlight(w);
    SameFlightKeepsWatch(log, w, TakeStep(w));
    assert InFlight(SendStep(w)) == InFlight(w);
    SameFlightKeepsWatch(log, w, SendStep(w));
  }

  lemma ClosingKeepsWatch(log: seq<string>, w: Watch)
    requires WatchOk(log, w)
    ensures WatchOk(log, FinishStep(w)) && WatchOk(log, CancelStep(w))
  {
    assert InFlight(FinishStep(w)) == InFlight(w);
    SameFlightKeepsWatch(log, w, FinishStep(w));
    assert InFlight(CancelStep(w)) == InFlight(w);
    SameFlightKeepsWatch(log, w, CancelStep(w));
  }

  lemma EnqueueAllKeepsWatches(log: seq<string>, payload: string, watches: map<nat, Watch>)
    requires forall id :: id in watches ==> WatchOk(log, watches[id])
    ensures var after := EnqueueAll(watches, Event(|log| + 1, payload));
            forall id :: id in after ==> WatchOk(log + [payload], after[id])
  {
    forall id | id in watches ensures WatchOk(log + [payload], Enqueue(watches[id], Event(|log| + 1, payload))) {
      EnqueueKeepsWatch(log, payload, watches[id]);
    }
  }

  lemma EmitExtends(h: Hub, payload: string)
    ensures Extends(h, Apply(h, Emit(payload)))
  {
  }

  lemma EmitKeepsInv(h: Hub, payload: string)
    requires Inv(h)
    ensures Inv(Apply(h, Emit(payload))) && Extends(h, Apply(h, Emit(payload)))
  {
    PushKeepsRing(h, payload);
    EnqueueAllKeepsWatches(h.log, payload, h.watches);
    EmitExtends(h, payload);
  }

  lemma SubscribeKeepsInv(h: Hub, sameEpoch: bool, since: nat)
    requires Inv(h)
    ensures Inv(Apply(h, Subscribe(sameEpoch, since))) && Extends(h, Apply(h, Subscribe(sameEpoch, since)))
  {
    var w := OpenWatch(h, sameEpoch, since);
    assert WatchOk(h.log, w) by {
      assert InFlight(w) == w.start;
    }
  }

  lemma ReplaceKeepsInv(h: Hub, id: nat, step: Watch -> Watch)
    requires Inv(h)
    requires id in h.watches ==>
               && WatchOk(h.log, step(h.watches[id]))
               && step(h.watches[id]).start == h.watches[id].start && step(h.watches[id]).base == h.watches[id].base
    ensures Inv(Replace(h, id, step)) && Extends(h, Replace(h, id, step))
  {
  }

  lemma ApplyKeepsInv(h: Hub, a: Action)
    requires Inv(h)
    ensures Inv(Apply(h, a)) && Extends(h, Apply(h, a))
  {
    if a.Emit? {
      EmitKeepsInv(h, a.payload);
    } else if a.Subscribe? {
      SubscribeKeepsInv(h, a.sameEpoch, a.since);
    } else {
      if a.id in h.watches {
        SendingKeepsWatch(h.log, h.watches[a.id]);
        ClosingKeepsWatch(h.log, h.watches[a.id]);
      }
      match a
      case Take(id) => ReplaceKeepsInv(h, id, TakeStep);
      case Send(id) => ReplaceKeepsInv(h, id, SendStep);
      case Finish(id) => ReplaceKeepsInv(h, id, FinishStep);
      case Cancel(id) => ReplaceKeepsInv(h, id, CancelStep);
    }
  }

  // ---------------------------------------------------------------- whole runs

  lemma {:induction false} RunKeepsInv(h: Hub, actions: seq<Action>)
    requires Inv(h)
    ensures Inv(Run(h, actions)) && Extends(h, Run(h, actions))
    decreases |actions|
  {
    if actions != [] {
      ApplyKeepsInv(h, actions[0]);
      RunKeepsInv(Apply(h, actions[0]), actions[1..]);
    }
  }

  /** A client at revision `since` can be served from the ring: same epoch, not new, and at most
      1024 events behind.  (The largest revision number wraps around and counts as behind.) */
  predicate Resumable(sameEpoch: bool, since: nat, revision: nat) {
    sameEpoch && 0 < since && revision <= since + 1024 && !(since == 0xFFFF_FFFF_FFFF_FFFF && revision > 0)
  }

  /** In every reachable hub a subscription starts with a snapshot exactly when the client is not
      resumable; otherwise it starts with exactly the log's events after `since`. */
  lemma SubscriptionStart(h: Hub, sameEpoch: bool, since: nat)
    requires Inv(h) && since < U64
    ensures NeedsSnapshot(h, sameEpoch, since) <==> !Resumable(sameEpoch, since, h.revision)
    ensures !NeedsSnapshot(h, sameEpoch, since) ==>
              Since(h.ring, since) == Events(h.log, if since > |h.log| then |h.log| else since, |h.log|)
  {
    SinceOfEvents(h.log, Oldest(h.revision), since);
  }

  /** The whole stream a subscription made in `before` is entitled to when the log is `log`. */
  ghost function Entitled(before: Hub, sameEpoch: bool, since: nat, log: seq<string>, to: nat): seq<Notify>
    requires before.revision <= to <= |log|
  {
    if !Resumable(sameEpoch, since, before.revision) then [Snapshot(before.revision)] + Events(log, before.revision, to)
    else Events(log, if since > before.revision then before.revision else since, to)
  }

  /** No gap and no duplicate, under every interleaving: what a watch has delivered is a prefix
      of a snapshot, or of the log from `since`, followed by every later event; and when its
      channel closes everything up to the revision at which it was dropped has arrived. */
  lemma WatchStreamIsGapless(pre: seq<Action>, sameEpoch: bool, since: nat, post: seq<Action>)
    requires since < U64
    ensures var before := Run(Fresh, pre);
            var after := Run(Apply(before, Subscribe(sameEpoch, since)), post);
            && before.revision == |before.log| && before.log <= after.log
            && before.next in after.watches
            && StreamIs(before, sameEpoch, since, after.log, after.watches[before.next])
  {
    var before := Run(Fresh, pre);
    RunKeepsInv(Fresh, pre);
    SubscribeKeepsInv(before, sameEpoch, since);
    SubscriptionStart(before, sameEpoch, since);
    RunKeepsInv(Apply(before, Subscribe(sameEpoch, since)), post);
    var after := Run(Apply(before, Subscribe(sameEpoch, since)), post);
    StreamFromStart(before, sameEpoch, since, after.log, after.watches[before.next]);
  }

  ghost predicate StreamIs(before: Hub, sameEpoch: bool, since: nat, log: seq<string>, w: Watch)
    requires before.revision <= |log|
  {
    && w.delivered <= Entitled(before, sameEpoch, since, log, |log|)
    && (w.registered ==> InFlight(w) == Entitled(before, sameEpoch, since, log, |log|))
    && (w.closed ==> before.revision <= Reach(w) <= |log| && w.delivered == Entitled(before, sameEpoch, since, log, Reach(w)))
  }

  lemma StreamFromStart(before: Hub, sameEpoch: bool, since: nat, log: seq<string>, w: Watch)
    requires RingOk(before) && before.log <= log && WatchOk(log, w) && w.base == before.revision
    requires w.start == if Resumable(sameEpoch, since, before.revision)
                        then Events(before.log, if since > |before.log| then |before.log| else since, |before.log|)
                        else [Snapshot(before.revision)]
    ensures StreamIs(before, sameEpoch, since, log, w)
  {
    assert Promised(log, w, Reach(w)) == Entitled(before, sameEpoch, since, log, Reach(w));
    assert Entitled(before, sameEpoch, since, log, Reach(w)) <= Entitled(before, sameEpoch, since, log, |log|);
    assert w.delivered <= InFlight(w);
    if w.closed { assert InFlight(w) == w.delivered; }
  }

  // ---------------------------------------------------------------- who gets an event

  /** A watch with room for it gets exactly this event; a full one loses its registration and
      nothing else; the others are left alone. */
  ghost predicate HandsOver(before: map<nat, Watch>, after: map<nat, Watch>, e: Notify) {
    && after.Keys == before.Keys
    && forall id :: id in before ==>
         && (before[id].registered && |before[id].live| < 32 ==>
               after[id].registered && after[id].live == before[id].live + [e])
         && (before[id].registered && |before[id].live| >= 32 ==> !after[id].registered && after[id].live == before[id].live)
         && (!before[id].registered ==> after[id] == before[id])
         && after[id].(live := before[id].live, registered := before[id].registered) == before[id]
  }

  /** The step at which the watch stops getting events: its client leaves, or an event finds its
      queue full. */
  ghost predicate LosesAt(h: Hub, actions: seq<Action>, id: nat, k: int) {
    && 0 <= k < |actions|
    && (actions[k] == Cancel(id)
        || (actions[k].Emit? && id in Run(h, actions[..k]).watches && |Run(h, actions[..k]).watches[id].live| >= 32))
  }

  lemma LosesLater(h: Hub, actions: seq<Action>, id: nat, k: int)
    requires actions != []
    ensures LosesAt(Apply(h, actions[0]), actions[1..], id, k) <==> k >= 0 && LosesAt(h, actions, id, k + 1)
  {
    if 0 <= k < |actions| - 1 {
      assert actions[..k + 1][1..] == actions[1..][..k];
      assert actions[..k + 1][0] == actions[0];
    }
  }

  lemma OneStepLoses(h: Hub, a: Action, id: nat)
    requires Inv(h) && id in h.watches
    ensures id in Apply(h, a).watches
    ensures Apply(h, a).watches[id].registered <==>
              h.watches[id].registered && a != Cancel(id) && !(a.Emit? && |h.watches[id].live| >= QUEUE)
  {
  }

  /** A watch is registered at the end of a run if and only if its client did not leave and no
      event found its queue full. */
  lemma {:induction false} RegisteredIff(h: Hub, actions: seq<Action>, id: nat)
    requires Inv(h) && id in h.watches
    ensures id in Run(h, actions).watches
    ensures Run(h, actions).watches[id].registered <==> h.watches[id].registered && !exists k :: LosesAt(h, actions, id, k)
    decreases |actions|
  {
    if actions != [] {
      var next := Apply(h, actions[0]);
      ApplyKeepsInv(h, actions[0]);
      OneStepLoses(h, actions[0], id);
      RegisteredIff(next, actions[1..], id);
      LosesNowOrLater(h, actions, id);
    }
  }

  lemma LosesNowOrLater(h: Hub, actions: seq<Action>, id: nat)
    requires id in h.watches && actions != []
    ensures (exists k :: LosesAt(h, actions, id, k)) <==>
              || actions[0] == Cancel(id) || (actions[0].Emit? && |h.watches[id].live| >= QUEUE)
              || exists k :: LosesAt(Apply(h, actions[0]), actions[1..], id, k)
  {
    assert actions[..0] == [];
    assert LosesAt(h, actions, id, 0) <==> actions[0] == Cancel(id) || (actions[0].Emit? && |h.watches[id].live| >= QUEUE);
    if k :| LosesAt(h, actions, id, k) {
      if k > 0 { LosesLater(h, actions, id, k - 1); }
    }
    if k :| LosesAt(Apply(h, actions[0]), actions[1..], id, k) { LosesLater(h, actions, id, k); }
  }

  // ---------------------------------------------------------------- what the forwarder achieves

  /** A turn of the forwarder delivers the next notification that is on its way, if there is one;
      the watch is closed once none is left and it is not registered any more. */
  ghost predicate Advances(w: Watch, w': Watch) {
    && w'.delivered == (if InFlight(w) == w.delivered then w.delivered else InFlight(w)[..|w.delivered| + 1])
    && InFlight(w') == InFlight(w) && w'.start == w.start && w'.base == w.base && w'.registered == w.registered
    && (InFlight(w') == w'.delivered && !w.registered ==> w'.closed)
    && (w'.closed ==> w.closed || (InFlight(w') == w'.delivered && !w.registered))
  }

  function Turns(id: nat, n: nat): seq<Action> {
    if n == 0 then [] else [Take(id), Send(id), Finish(id)] + Turns(id, n - 1)
  }

  /** What is still on its way to the client. */
  function Waiting(w: Watch): seq<Notify> {
    w.pending + (match w.hand case None => [] case Some(e) => [e]) + w.live
  }

  lemma FlightSplits(w: Watch)
    ensures InFlight(w) == w.delivered + Waiting(w)
  {
  }

  lemma TakeKeepsWaiting(w: Watch)
    ensures Waiting(TakeStep(w)) == Waiting(w) && TakeStep(w).delivered == w.delivered
    ensures Waiting(w) != [] ==> TakeStep(w).pending != [] || TakeStep(w).hand.Some?
  {
  }

  lemma SendDelivers(w: Watch)
    requires w.pending != [] || w.hand.Some?
    ensures Waiting(w) != [] && Waiting(SendStep(w)) == Waiting(w)[1..]
    ensures SendStep(w).delivered == w.delivered + [Waiting(w)[0]]
  {
  }

  lemma FirstArrives<T>(delivered: seq<T>, waiting: seq<T>)
    requires waiting != []
    ensures (delivered + [waiting[0]]) + waiting[1..] == delivered + waiting
    ensures (delivered + waiting)[..|delivered| + 1] == delivered + [waiting[0]]
    ensures delivered + waiting != delivered
  {
  }

  lemma EmptyWaiting(w: Watch)
    ensures Waiting(w) == [] <==> w.pending == [] && w.hand.None? && w.live == []
    ensures Waiting(w) == [] <==> InFlight(w) == w.delivered
  {
    FlightSplits(w);
    assert |InFlight(w)| == |w.delivered| + |Waiting(w)|;
  }

  /** Sending and finishing in terms of what is waiting. */
  lemma SendAndFinish(t: Watch)
    requires Waiting(t) != [] ==> t.pending != [] || t.hand.Some?
    ensures var v := FinishStep(SendStep(t));
            && v.registered == t.registered && v.start == t.start && v.base == t.base
            && v.delivered == t.delivered + Waiting(t)[..if Waiting(t) == [] then 0 else 1]
            && Waiting(v) == Waiting(t)[if Waiting(t) == [] then 0 else 1..]
            && (v.closed <==> t.closed || (Waiting(v) == [] && !t.registered))
  {
    var u := SendStep(t);
    EmptyWaiting(t);
    if Waiting(t) != [] { SendDelivers(t); }
    EmptyWaiting(u);
  }

  lemma TurnAdvances(w: Watch)
    ensures Advances(w, FinishStep(SendStep(TakeStep(w))))
  {
    var t := TakeStep(w);
    var v := FinishStep(SendStep(t));
    TakeKeepsWaiting(w);
    SendAndFinish(t);
    EmptyWaiting(w);
    EmptyWaiting(v);
    FlightSplits(w);
    FlightSplits(v);
    if Waiting(w) != [] { FirstArrives(w.delivered, Waiting(w)); }
  }

  lemma OneTurn(h: Hub, id: nat)
    requires Inv(h) && id in h.watches
    ensures var after := Apply(Apply(Apply(h, Take(id)), Send(id)), Finish(id));
            Inv(after) && after.log == h.log && id in after.watches && Advances(h.watches[id], after.watches[id])
  {
    TurnAdvances(h.watches[id]);
    ApplyKeepsInv(h, Take(id));
    ApplyKeepsInv(Apply(h, Take(id)), Send(id));
    ApplyKeepsInv(Apply(Apply(h, Take(id)), Send(id)), Finish(id));
  }

  lemma RunTurns(h: Hub, id: nat, n: nat)
    requires n > 0
    ensures Run(h, Turns(id, n)) == Run(Apply(Apply(Apply(h, Take(id)), Send(id)), Finish(id)), Turns(id, n - 1))
  {
    var rest := Turns(id, n - 1);
    var tail := [Finish(id)] + rest;
    RunCons(h, Take(id), [Send(id)] + tail);
    RunCons(Apply(h, Take(id)), Send(id), tail);
    RunCons(Apply(Apply(h, Take(id)), Send(id)), Finish(id), rest);
    assert Turns(id, n) == [Take(id)] + ([Send(id)] + tail);
  }

  lemma RunCons(h: Hub, a: Action, rest: seq<Action>)
    ensures Run(h, [a] + rest) == Run(Apply(h, a), rest)
  {
    assert ([a] + rest)[1..] == rest;
  }

  /** After enough turns everything on its way has been delivered, in order, and the channel of a
      watch that is not registered any more is closed. */
  lemma {:induction false} ForwarderDelivers(h: Hub, id: nat, n: nat)
    requires Inv(h) && id in h.watches && n > |InFlight(h.watches[id])| - |h.watches[id].delivered|
    ensures var after := Run(h, Turns(id, n));
            && after.log == h.log && id in after.watches
            && after.watches[id].delivered == InFlight(h.watches[id])
            && after.watches[id].registered == h.watches[id].registered
            && (after.watches[id].closed <==> !h.watches[id].registered)
    decreases n
  {
    var w := h.watches[id];
    var next := Apply(Apply(Apply(h, Take(id)), Send(id)), Finish(id));
    assert w.delivered <= InFlight(w);
    OneTurn(h, id);
    RunTurns(h, id, n);
    if n > 1 {
      ForwarderDelivers(next, id, n - 1);
    }
  }

  /** The whole promise: a client that stays and whose queue no event finds full receives, in
      order, everything it is entitled to, once its forwarder has had enough turns. */
  lemma UndroppedWatchGetsEverything(pre: seq<Action>, sameEpoch: bool, since: nat, post: seq<Action>, n: nat)
    requires since < U64
    requires !exists k :: LosesAt(Apply(Run(Fresh, pre), Subscribe(sameEpoch, since)), post, Run(Fresh, pre).next, k)
    ensures var before := Run(Fresh, pre); var id := before.next;
            var after := Run(Apply(before, Subscribe(sameEpoch, since)), post);
            var end := Run(after, Turns(id, n));
            && before.revision <= |after.log| && id in after.watches && after.watches[id].registered
            && (n > |InFlight(after.watches[id])| ==>
                  id in end.watches && end.watches[id].delivered == Entitled(before, sameEpoch, since, after.log, |after.log|))
  {
    var before := Run(Fresh, pre);
    var joined := Apply(before, Subscribe(sameEpoch, since));
    RunKeepsInv(Fresh, pre);
    SubscribeKeepsInv(before, sameEpoch, since);
    RunKeepsInv(joined, post);
    RegisteredIff(joined, post, before.next);
    WatchStreamIsGapless(pre, sameEpoch, since, post);
    var after := Run(joined, post);
    if n > |InFlight(after.watches[before.next])| { ForwarderDelivers(after, before.next, n); }
  }

  // ---------------------------------------------------------------- the running hub

  class EventHub {
    const epoch: string
    ghost var log: seq<string>
    var revision: nat
    var ring: seq<Notify>
    var watches: map<nat, Watch>
    var next: nat

    ghost function View(): Hub
      reads this
    {
      Hub(log, revision, ring, watches, next)
    }

    constructor (epoch: string)
      ensures View() == Fresh && this.epoch == epoch
    {
      this.epoch, log, revision, ring, watches, next := epoch, [], 0, [], map[], 0;
    }

    /** Queue an event for every watcher; one whose queue is full is dropped instead. */
    method Broadcast(e: Notify)
      modifies this`watches
      ensures watches == EnqueueAll(old(watches), e)
      ensures HandsOver(old(watches), watches, e)
    {
      var todo := watches.Keys;
      while todo != {}
        invariant watches.Keys == old(watches).Keys && todo <= watches.Keys
        invariant forall id :: id in watches ==>
                    watches[id] == if id in todo then old(watches)[id] else Enqueue(old(watches)[id], e)
      {
        var id :| id in todo;
        var w := watches[id];
        if w.registered {
          if |w.live| < QUEUE {
            watches := watches[id := w.(live := w.live + [e])];
          } else {
            watches := watches[id := w.(registered := false)];
          }
        }
        todo := todo - {id};
      }
    }

    /** The ring keeps the last 1024 events. */
    method Keep(e: Notify)
      modifies this`ring
      ensures ring == Push(old(ring), e) && ring != [] && ring[|ring| - 1] == e
    {
      ring := ring + [e];
      if |ring| > RING { ring := ring[|ring| - RING..]; }
    }

    /** Number an event, keep it in the ring and hand it to the watchers. */
    method Emit(payload: string)
      modifies this
      ensures View() == Apply(old(View()), Action.Emit(payload))
      ensures revision == old(revision) + 1 && ring != [] && ring[|ring| - 1] == Event(revision, payload)
      ensures HandsOver(old(watches), watches, Event(revision, payload))
    {
      revision := revision + 1;
      var e := Event(revision, payload);
      log := log + [payload];
      Keep(e);
      Broadcast(e);
    }

    method WatchSince(clientEpoch: string, since: nat) returns (id: nat)
      requires since < U64
      modifies this
      ensures View() == Apply(old(View()), Subscribe(clientEpoch == epoch, since)) && id == old(next)
      ensures id in watches && watches[id].registered && !watches[id].closed && watches[id].live == []
    {
      var needSnapshot := clientEpoch != epoch || since == 0;
      if !needSnapshot && |ring| > 0 && (since + 1) % U64 < ring[0].revision { needSnapshot := true; }
      var replay: seq<Notify> := [];
      if !needSnapshot {
        assert ring[0..] == ring;
        for i := 0 to |ring|
          invariant replay + Since(ring[i..], since) == Since(ring, since)
        {
          if ring[i].revision > since { replay := replay + [ring[i]]; }
          assert ring[i..][1..] == ring[i + 1..];
        }
        assert ring[|ring|..] == [] && replay + [] == replay;
      }
      if !needSnapshot && replay == [] && since < revision { needSnapshot := true; }
      id := next;
      var start := if needSnapshot then [Snapshot(revision)] else replay;
      watches := watches[id := Watch(start, revision, start, None, [], true, false, [])];
      next := next + 1;
    }

    method CancelWatch(id: nat)
      modifies this`watches
      ensures View() == Apply(old(View()), Cancel(id))
      ensures id in watches ==> watches == old(watches)[id := old(watches)[id].(registered := false)]
    {
      if id in watches { watches := watches[id := watches[id].(registered := false)]; }
    }

    /** One turn of a watch's forwarder: the start first, then the live queue, then close. */
    method Forward(id: nat)
      modifies this`watches
      ensures View() == Apply(Apply(Apply(old(View()), Take(id)), Send(id)), Finish(id))
      ensures id in old(watches) ==> id in watches && Advances(old(watches)[id], watches[id])
    {
      if id in watches {
        TurnAdvances(watches[id]);
        var w := watches[id];
        if w.pending == [] && w.hand.None? && w.live != [] {
          w := w.(hand := Some(w.live[0]), live := w.live[1..]);
        }
        if w.pending != [] {
          w := w.(delivered := w.delivered + [w.pending[0]], pending := w.pending[1..]);
        } else if w.hand.Some? {
          w := w.(delivered := w.delivered + [w.hand.value], hand := None);
        }
        if w.pending == [] && w.hand.None? && w.live == [] && !w.registered { w := w.(closed := true); }
        assert w == FinishStep(SendStep(TakeStep(watches[id])));
        watches := watches[id := w];
      }
    }
  }
}
