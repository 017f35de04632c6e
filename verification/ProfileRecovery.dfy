/** What starts of the daemon make of the states a crash can leave behind.  A start first checks
    the state file and refuses one that does not pass; only then does it replay an open intent.
    So a replay that is itself interrupted is taken up again only if what it left passes the
    checks. */
module ProfileRecovery {
  import opened Common
  import opened ProfileStore

  // ---------------------------------------------------------------- starts

  /** The states a start can stop in: a file that is refused stays as it is. */
  function StartPoints(d: Durable): seq<Durable> {
    if Loadable(d.data) then RecoveryPoints(d) else [d]
  }

  /** What a start that runs to its end without store errors leaves behind. */
  function Started(d: Durable): Durable {
    if Loadable(d.data) then Recovered(d) else d
  }

  /** Interrupted starts, one after the other. */
  ghost predicate Restarts(chain: seq<Durable>) {
    |chain| > 0 && forall i :: 1 <= i < |chain| ==> chain[i] in StartPoints(chain[i - 1])
  }

  function Last(chain: seq<Durable>): Durable
    requires |chain| > 0
  {
    chain[|chain| - 1]
  }

  /** A replay passes the checks of start-up wherever it stops. */
  ghost predicate ReplaysLoad(d: Durable) {
    forall c :: c in RecoveryPoints(d) ==> Loadable(c.data)
  }

  lemma {:induction false} RefusedForGood(chain: seq<Durable>)
    requires Restarts(chain) && !Loadable(chain[0].data)
    ensures Last(chain) == chain[0]
  {
    if |chain| > 1 {
      assert chain[1] == chain[0];
      RefusedForGood(chain[1..]);
    }
  }

  /** Whenever the daemon does start again, after any number of interrupted starts, it ends in the
      state of one uninterrupted replay. */
  lemma {:induction false} AcceptedStartRecovers(chain: seq<Durable>)
    requires Restarts(chain) && WellFormed(chain[0]) && Loadable(Last(chain).data)
    ensures Started(Last(chain)) == Recovered(chain[0])
  {
    if |chain| > 1 {
      if !Loadable(chain[0].data) {
        RefusedForGood(chain);
        assert false;
      }
      ReplayIsRestartable(chain[0], chain[1]);
      AcceptedStartRecovers(chain[1..]);
    }
  }

  lemma {:induction false} RestartsStay(d: Durable, chain: seq<Durable>)
    requires WellFormed(d) && ReplaysLoad(d) && Restarts(chain) && chain[0] in RecoveryPoints(d)
    ensures Last(chain) in RecoveryPoints(d)
  {
    if |chain| > 1 {
      ReplayIsRestartable(d, chain[0]);
      RestartsStay(d, chain[1..]);
    }
  }

  /** The last start is accepted, completes in `end`, and the next one is accepted too. */
  ghost predicate Settles(chain: seq<Durable>, end: Durable)
    requires |chain| > 0
  {
    Loadable(Last(chain).data) && Started(Last(chain)) == end && Loadable(end.data)
  }

  ghost predicate AllSettle(d: Durable, end: Durable) {
    forall chain :: Restarts(chain) && chain[0] == d ==> Settles(chain, end)
  }

  /** Every chain of interrupted starts settles in the recovered state if and only if no point of
      the replay fails the checks of start-up. */
  lemma RestartsConvergeIff(d: Durable)
    requires WellFormed(d)
    ensures AllSettle(d, Recovered(d)) <==> ReplaysLoad(d)
  {
    ReplayEndsRecovered(d);
    if ReplaysLoad(d) {
      forall chain | Restarts(chain) && chain[0] == d ensures Settles(chain, Recovered(d)) {
        RestartsStay(d, chain);
        ReplayIsRestartable(d, Last(chain));
      }
    } else {
      var c :| c in RecoveryPoints(d) && !Loadable(c.data);
      var chain := if Loadable(d.data) then [d, c] else [d];
      assert Restarts(chain) && chain[0] == d && !Settles(chain, Recovered(d));
    }
  }

  // ---------------------------------------------------------------- create and update

  /** What a create or an update stores: a profile the checks accept, which stays in its hands. */
  ghost predicate Storable(d: Data, p: Profile) {
    && p.secretRef != "" && ValidProfile(p)
    && var q := Lookup(d.profiles, p.id); (q.Some? ==> q.value.scope == p.scope && q.value.owner == p.owner)
  }

  lemma IntentIsNotChecked(d: Data, it: Option<Intent>)
    ensures Loadable(d.(intent := it)) <==> Loadable(d)
  {
  }

  /** A replay changes the profile list and the intent, nothing else in the state file. */
  lemma ReplayData(d: Durable, x: Durable)
    requires x in RecoveryPoints(d)
    ensures x.data == d.data.(profiles := x.data.profiles, intent := x.data.intent)
    ensures x.data.profiles == d.data.profiles
            || (d.data.intent.Some? &&
                var it := d.data.intent.value;
                if it.kind == "delete" then x.data.profiles == RemoveProfile(d.data.profiles, it.profileID)
                else it.newProfile.Some? && x.data.profiles == PutProfile(d.data.profiles, it.profileID, it.newProfile.value))
  {
    var points := RecoveryPoints(d);
    var i :| 0 <= i < |points| && x == points[i];
    if i > 0 {
      var it := d.data.intent.value;
      if it.kind == "delete" {
        assert x.data.profiles == RemoveProfile(d.data.profiles, it.profileID);
      } else if it.newRef !in d.secrets {
        assert x == Recovered(d) && x.data == d.data.(intent := None);
      } else {
        assert x.data.profiles == PutProfile(d.data.profiles, it.profileID, it.newProfile.value);
      }
    }
  }

  lemma CommitData(b: Durable, p: Profile, password: string, oldRef: string, k: nat)
    requires k < |CommitPoints(b, b.data, p, password, oldRef)|
    ensures var c := CommitPoints(b, b.data, p, password, oldRef)[k];
            && c.data == b.data.(profiles := c.data.profiles, intent := c.data.intent)
            && (c.data.profiles == b.data.profiles || c.data.profiles == PutProfile(b.data.profiles, p.id, p))
            && (k == 0 || c.data.intent.None? || c.data.intent == Some(UpsertIntent(p, oldRef)))
            && (k == 0 ==> c == b)
  {
  }

  lemma CommitReplaysLoad(b: Durable, p: Profile, password: string, oldRef: string, k: nat)
    requires Consistent(b) && CommitRequest(b, p, password, oldRef) && Loadable(b.data) && Storable(b.data, p)
    requires k < |CommitPoints(b, b.data, p, password, oldRef)|
    ensures ReplaysLoad(CommitPoints(b, b.data, p, password, oldRef)[k])
  {
    var c := CommitPoints(b, b.data, p, password, oldRef)[k];
    var put := b.data.(profiles := PutProfile(b.data.profiles, p.id, p));
    PutTwice(b.data.profiles, p);
    PutKeepsLoadable(b.data, p);
    CommitData(b, p, password, oldRef, k);
    forall x | x in RecoveryPoints(c) ensures Loadable(x.data) {
      ReplayData(c, x);
      assert x.data == b.data.(intent := x.data.intent) || x.data == put.(intent := x.data.intent);
      IntentIsNotChecked(b.data, x.data.intent);
      IntentIsNotChecked(put, x.data.intent);
    }
  }

  /** Crash atomicity of create and update: stop the commit at any effect, interrupt as many
      starts as you like, let one finish.  No start is refused, and the stores hold exactly the
      old or exactly the new profiles, with exactly the matching secrets and no intent. */
  lemma CreateOrUpdateIsCrashAtomic(b: Durable, p: Profile, password: string, oldRef: string, chain: seq<Durable>)
    requires Consistent(b) && CommitRequest(b, p, password, oldRef) && Loadable(b.data) && Storable(b.data, p)
    requires Restarts(chain) && chain[0] in CommitPoints(b, b.data, p, password, oldRef)
    ensures var end := Started(Last(chain));
            Settles(chain, end) && (end == b || end == Committed(b, p, password, oldRef)) && Consistent(end)
  {
    var k :| 0 <= k < |CommitPoints(b, b.data, p, password, oldRef)| && chain[0] == CommitPoints(b, b.data, p, password, oldRef)[k];
    CommitIsAtomic(b, p, password, oldRef, k);
    CommitKeepsConsistency(b, p, password, oldRef);
    CommitReplaysLoad(b, p, password, oldRef, k);
    RestartsConvergeIff(chain[0]);
  }

  // ---------------------------------------------------------------- delete

  /** Some reference names the profile as current or selected. */
  predicate Referred(d: Data, id: string) {
    (d.current != "" && d.current == id) || id in d.selected.Values
  }

  /** Machine mode is bound to the profile. */
  predicate Bound(d: Data, id: string) {
    d.mode == "machine" && d.machine == id
  }

  function DeletePoint(b: Durable, id: string, k: nat): Durable
    requires Lookup(b.data.profiles, id).Some? && k < 5
  {
    DeletePoints(b, b.data, id, Lookup(b.data.profiles, id).value.secretRef)[k]
  }

  lemma EarlyDeleteData(b: Durable, id: string, x: Durable)
    requires Lookup(b.data.profiles, id).Some? && x in RecoveryPoints(DeletePoint(b, id, 1))
    ensures x.data == b.data.(intent := x.data.intent)
            || x.data == b.data.(profiles := RemoveProfile(b.data.profiles, id)).(intent := x.data.intent)
  {
    ReplayData(DeletePoint(b, id, 1), x);
  }

  lemma EarlyDeleteReplaysLoadIff(b: Durable, id: string)
    requires Consistent(b) && Loadable(b.data) && Lookup(b.data.profiles, id).Some?
    ensures ReplaysLoad(DeletePoint(b, id, 1)) <==> !Bound(b.data, id) && !Referred(b.data, id)
  {
    var c := DeletePoint(b, id, 1);
    var removed := b.data.(profiles := RemoveProfile(b.data.profiles, id));
    RemoveKeepsLoadable(b.data, id);
    ReplayEndsRecovered(c);
    IntentIsNotChecked(removed, None);
    assert Recovered(c).data == removed.(intent := None);
    forall x | x in RecoveryPoints(c) && Loadable(removed) ensures Loadable(x.data) {
      EarlyDeleteData(b, id, x);
      IntentIsNotChecked(b.data, x.data.intent);
      IntentIsNotChecked(removed, x.data.intent);
    }
  }

  lemma BoundFailsAfterRemove(ps: seq<Profile>, id: string)
    requires DistinctIds(ps)
    ensures !ControlOk(RemoveProfile(ps, id), "machine", id)
  {
    NoIndex(RemoveProfile(ps, id), id);
  }

  lemma LateDeleteData(b: Durable, id: string, k: nat, x: Durable)
    requires Consistent(b) && Lookup(b.data.profiles, id).Some? && 2 <= k < 5
    requires x in RecoveryPoints(DeletePoint(b, id, k))
    ensures x.data == Pruned(b.data, id).(intent := x.data.intent)
  {
    RemoveTwice(b.data.profiles, id);
    ReplayData(DeletePoint(b, id, k), x);
  }

  lemma LateDeleteReplaysLoadIff(b: Durable, id: string, k: nat)
    requires Consistent(b) && Loadable(b.data) && Lookup(b.data.profiles, id).Some? && 2 <= k < 5
    ensures ReplaysLoad(DeletePoint(b, id, k)) <==> !Bound(b.data, id)
  {
    var c := DeletePoint(b, id, k);
    ReplayEndsRecovered(c);
    if Bound(b.data, id) {
      BoundFailsAfterRemove(b.data.profiles, id);
      LateDeleteData(b, id, k, c);
      IntentIsNotChecked(Pruned(b.data, id), c.data.intent);
    } else {
      PruneKeepsLoadable(b.data, id);
      forall x | x in RecoveryPoints(c) ensures Loadable(x.data) {
        LateDeleteData(b, id, k, x);
        IntentIsNotChecked(Pruned(b.data, id), x.data.intent);
      }
    }
  }

  /** Exactly that profile and its secret are gone, all else agrees, and the daemon can start. */
  ghost predicate Deleted(b: Durable, id: string, end: Durable)
    requires Lookup(b.data.profiles, id).Some?
  {
    && end.data.profiles == RemoveProfile(b.data.profiles, id)
    && end.secrets == b.secrets - {Lookup(b.data.profiles, id).value.secretRef}
    && Consistent(end) && Loadable(end.data)
  }

  ghost predicate AlwaysDeleted(b: Durable, id: string, c: Durable)
    requires Lookup(b.data.profiles, id).Some?
  {
    forall chain :: Restarts(chain) && chain[0] == c ==> Deleted(b, id, Started(Last(chain)))
  }

  /** Once the intent of a delete is on disk, every crash and every chain of interrupted starts
      ends with exactly that profile and its secret gone, if and only if machine mode is not bound
      to the profile and either the delete had pruned the references to it or there were none. */
  lemma DeleteIsCrashAtomicIff(b: Durable, id: string, k: nat)
    requires Consistent(b) && Loadable(b.data) && Lookup(b.data.profiles, id).Some? && 1 <= k < 5
    ensures AlwaysDeleted(b, id, DeletePoint(b, id, k)) <==> !Bound(b.data, id) && (k >= 2 || !Referred(b.data, id))
  {
    var c := DeletePoint(b, id, k);
    DeletePointRecovers(b, id, k);
    RemoveKeepsConsistency(b, id, Recovered(c));
    if k == 1 { EarlyDeleteReplaysLoadIff(b, id); } else { LateDeleteReplaysLoadIff(b, id, k); }
    RestartsConvergeIff(c);
    if ReplaysLoad(c) {
      forall chain | Restarts(chain) && chain[0] == c ensures Deleted(b, id, Started(Last(chain))) {
        assert Settles(chain, Recovered(c));
      }
    } else {
      RefusalPreventsDelete(b, id, c);
    }
  }

  lemma RefusalPreventsDelete(b: Durable, id: string, c: Durable)
    requires Lookup(b.data.profiles, id).Some? && !ReplaysLoad(c)
    ensures !AlwaysDeleted(b, id, c)
  {
    var x :| x in RecoveryPoints(c) && !Loadable(x.data);
    var chain := if Loadable(c.data) then [c, x] else [c];
    assert Restarts(chain) && chain[0] == c && !Loadable(Last(chain).data);
    assert !Deleted(b, id, Started(Last(chain)));
  }

  /** Without that condition: whenever the daemon does start again the delete is complete. */
  lemma AcceptedStartCompletesDelete(b: Durable, id: string, k: nat, chain: seq<Durable>)
    requires Consistent(b) && Lookup(b.data.profiles, id).Some? && 1 <= k < 5
    requires Restarts(chain) && chain[0] == DeletePoint(b, id, k) && Loadable(Last(chain).data)
    ensures var end := Started(Last(chain));
            && end.data.profiles == RemoveProfile(b.data.profiles, id)
            && end.secrets == b.secrets - {Lookup(b.data.profiles, id).value.secretRef}
            && Consistent(end)
  {
    DeletePointRecovers(b, id, k);
    AcceptedStartRecovers(chain);
    RemoveKeepsConsistency(b, id, Recovered(chain[0]));
  }

  /** The failing family: a delete interrupted right after its intent, whose replay is interrupted
      right after its first write.  The intent stays open and the secret stays in its store,
      whatever starts follow. */
  lemma InterruptedReplayIsStuck(b: Durable, id: string)
    requires Consistent(b) && Loadable(b.data) && Lookup(b.data.profiles, id).Some?
    requires Bound(b.data, id) || Referred(b.data, id)
    ensures var c := DeletePoint(b, id, 1); var s := RecoveryPoints(c)[1];
            && Restarts([c, s]) && Loadable(c.data) && !Loadable(s.data)
            && s.data.intent.Some? && Lookup(b.data.profiles, id).value.secretRef in s.secrets
            && forall chain :: Restarts(chain) && chain[0] == s ==> Started(Last(chain)) == s
  {
    var c := DeletePoint(b, id, 1);
    var s := RecoveryPoints(c)[1];
    var removed := b.data.(profiles := RemoveProfile(b.data.profiles, id));
    RemoveKeepsLoadable(b.data, id);
    IntentIsNotChecked(b.data, c.data.intent);
    IntentIsNotChecked(removed, c.data.intent);
    assert s.data == removed.(intent := c.data.intent);
    assert Lookup(b.data.profiles, id).value.secretRef in Refs(b.data.profiles);
    forall chain | Restarts(chain) && chain[0] == s ensures Started(Last(chain)) == s {
      RefusedForGood(chain);
    }
  }

  /** One crash is enough.  The start after it completes the delete, and the file this leaves
      passes the checks of the start after next if and only if nothing refers to the profile. */
  lemma CompletedReplayLoadsIff(b: Durable, id: string)
    requires Consistent(b) && Loadable(b.data) && Lookup(b.data.profiles, id).Some?
    ensures var c := DeletePoint(b, id, 1); var end := Started(c);
            && Loadable(c.data) && Consistent(end)
            && end.data.profiles == RemoveProfile(b.data.profiles, id)
            && end.secrets == b.secrets - {Lookup(b.data.profiles, id).value.secretRef}
            && (Loadable(end.data) <==> !Bound(b.data, id) && !Referred(b.data, id))
  {
    var c := DeletePoint(b, id, 1);
    var removed := b.data.(profiles := RemoveProfile(b.data.profiles, id));
    DeletePointRecovers(b, id, 1);
    RemoveKeepsConsistency(b, id, Recovered(c));
    RemoveKeepsLoadable(b.data, id);
    IntentIsNotChecked(b.data, c.data.intent);
    IntentIsNotChecked(removed, None);
    assert Recovered(c).data == removed.(intent := None);
  }

  /** The family is not empty: the only profile, while it is current. */
  lemma DeletingTheCurrentProfileCanStick()
    ensures var p := Profile("p", "r", UserScope, "u", 1399, "");
            var b := Durable(Data(2, [p], "p", map[], "user", "", None), map["r" := "secret"]);
            Consistent(b) && Loadable(b.data) && Lookup(b.data.profiles, "p") == Some(p) && Referred(b.data, "p")
            && !AlwaysDeleted(b, "p", DeletePoint(b, "p", 1))
  {
    var p := Profile("p", "r", UserScope, "u", 1399, "");
    var b := Durable(Data(2, [p], "p", map[], "user", "", None), map["r" := "secret"]);
    assert p.owner[0] == 'u';
    FirstIndex([p], "p", 0);
    assert Consistent(b) && Loadable(b.data);
    DeleteIsCrashAtomicIff(b, "p", 1);
  }

  // ---------------------------------------------------------------- runs of the daemon

  /** A state start-up accepts and from which a replay ends with matching stores. */
  ghost predicate Safe(d: Durable) {
    Loadable(d.data) && WellFormed(d) && Consistent(Recovered(d))
  }

  ghost function SafeStates(): iset<Durable> {
    iset d: Durable | Safe(d)
  }

  /** From a safe state, whenever the daemon starts again its stores agree. */
  lemma SafeStatesRecover(chain: seq<Durable>)
    requires Restarts(chain) && Safe(chain[0]) && Loadable(Last(chain).data)
    ensures Consistent(Started(Last(chain)))
  {
    AcceptedStartRecovers(chain);
  }

  /** A start that runs to its end stays safe exactly when the file it leaves passes the checks. */
  lemma StartStaysSafeIff(d: Durable)
    requires Safe(d)
    ensures Started(d).data.intent.None? && Consistent(Started(d))
    ensures Safe(Started(d)) <==> Loadable(Started(d).data)
  {
    SettledIsSafe(Started(d));
  }

  /** It does not after a delete of a referenced profile that stopped right after its intent. */
  lemma StartAfterInterruptedDelete(b: Durable, id: string)
    requires Consistent(b) && Loadable(b.data) && Lookup(b.data.profiles, id).Some?
    ensures Safe(DeletePoint(b, id, 1))
    ensures Safe(Started(DeletePoint(b, id, 1))) <==> !Bound(b.data, id) && !Referred(b.data, id)
  {
    DeletePointRecovers(b, id, 1);
    CompletedReplayLoadsIff(b, id);
    StartStaysSafeIff(DeletePoint(b, id, 1));
  }

  lemma SettledIsSafe(d: Durable)
    requires d.data.intent.None?
    ensures Safe(d) <==> Loadable(d.data) && Consistent(d)
  {
  }

  /** Every state of a commit is safe, whatever is on disk when it begins. */
  lemma CommitPointsAreSafe(b: Durable, m: Data, p: Profile, password: string, oldRef: string)
    requires Safe(b) && Safe(Durable(m, b.secrets)) && m.intent.None?
    requires CommitRequest(Durable(m, b.secrets), p, password, oldRef) && Storable(m, p)
    ensures forall c :: c in CommitPoints(b, m, p, password, oldRef) ==> Safe(c)
  {
    var points := CommitPoints(b, m, p, password, oldRef);
    var base := Durable(m, b.secrets);
    assert Consistent(base) by { SettledIsSafe(base); }
    forall k: nat | k < |points| ensures Safe(points[k]) {
      CommitPointsAgree(b, m, p, password, oldRef, k);
      if k > 0 { CommitPointIsSafe(base, p, password, oldRef, k); }
    }
  }

  lemma CommitPointsAgree(b: Durable, m: Data, p: Profile, password: string, oldRef: string, k: nat)
    requires k < |CommitPoints(b, m, p, password, oldRef)|
    ensures CommitPoints(b, m, p, password, oldRef)[k]
         == if k == 0 then b else CommitPoints(Durable(m, b.secrets), m, p, password, oldRef)[k]
  {
  }

  lemma CommitPointIsSafe(b: Durable, p: Profile, password: string, oldRef: string, k: nat)
    requires Consistent(b) && CommitRequest(b, p, password, oldRef) && Loadable(b.data) && Storable(b.data, p)
    requires k < |CommitPoints(b, b.data, p, password, oldRef)|
    ensures Safe(CommitPoints(b, b.data, p, password, oldRef)[k])
  {
    CommitIsAtomic(b, p, password, oldRef, k);
    CommitKeepsConsistency(b, p, password, oldRef);
    CommitReplaysLoad(b, p, password, oldRef, k);
    ReplayEndsRecovered(CommitPoints(b, b.data, p, password, oldRef)[k]);
  }

  lemma DeletePointsAreSafe(b: Durable, m: Data, id: string)
    requires Safe(b) && Safe(Durable(m, b.secrets)) && m.intent.None?
    requires Lookup(m.profiles, id).Some? && !Bound(m, id)
    ensures forall c :: c in DeletePoints(b, m, id, Lookup(m.profiles, id).value.secretRef) ==> Safe(c)
  {
    var points := DeletePoints(b, m, id, Lookup(m.profiles, id).value.secretRef);
    var base := Durable(m, b.secrets);
    assert Consistent(base) by { SettledIsSafe(base); }
    forall k: nat | k < |points| ensures Safe(points[k]) {
      DeletePointsAgree(b, m, id, k);
      if k > 0 { DeletePointIsSafe(base, id, k); }
    }
  }

  lemma DeletePointsAgree(b: Durable, m: Data, id: string, k: nat)
    requires Lookup(m.profiles, id).Some? && k < 5
    ensures DeletePoints(b, m, id, Lookup(m.profiles, id).value.secretRef)[k]
         == if k == 0 then b else DeletePoint(Durable(m, b.secrets), id, k)
  {
  }

  lemma DeletePointIsSafe(b: Durable, id: string, k: nat)
    requires Consistent(b) && Loadable(b.data) && Lookup(b.data.profiles, id).Some? && !Bound(b.data, id) && 1 <= k < 5
    ensures Safe(DeletePoint(b, id, k))
  {
    DeleteWritesLoadable(b, b.data, id, Lookup(b.data.profiles, id).value.secretRef);
    DeletePointRecovers(b, id, k);
    RemoveKeepsConsistency(b, id, Recovered(DeletePoint(b, id, k)));
  }

  // ---------------------------------------------------------------- a delete over an open intent

  /** The open intent is one a transaction of this daemon left when it failed. */
  predicate Interrupted(m: Data) {
    m.intent.Some? &&
    var it := m.intent.value;
    || (it.newProfile.Some? && it == UpsertIntent(it.newProfile.value, it.oldRef))
    || (it == DeleteIntent(it.profileID, it.oldRef) && Lookup(m.profiles, it.profileID).None?)
  }

  /** The transaction left no secret of its own behind: a delete had removed it; a create or update
      had not stored the new one, or its profile names it already and the previous one is gone. */
  predicate SecretsInPlace(m: Data, secrets: map<string, string>) {
    m.intent.None? ||
    var it := m.intent.value;
    if it.kind == "delete" then it.oldRef !in secrets
    else
      || it.newRef !in secrets
      || (Lookup(m.profiles, it.profileID).Some?
          && Lookup(m.profiles, it.profileID).value.secretRef == it.newRef
          && (it.oldRef == it.newRef || it.oldRef !in secrets))
  }

  lemma PutOfSameRef(ps: seq<Profile>, p: Profile)
    requires Lookup(ps, p.id).Some? && Lookup(ps, p.id).value.secretRef == p.secretRef
    ensures Refs(PutProfile(ps, p.id, p)) == Refs(ps)
    ensures DistinctRefs(PutProfile(ps, p.id, p)) <==> DistinctRefs(ps)
  {
    var qs := PutProfile(ps, p.id, p);
    assert |qs| == |ps| && forall k :: 0 <= k < |ps| ==> qs[k].secretRef == ps[k].secretRef;
  }

  lemma PutOfNewRef(ps: seq<Profile>, p: Profile)
    requires DistinctRefs(PutProfile(ps, p.id, p))
    requires Lookup(ps, p.id).Some? ==> Lookup(ps, p.id).value.secretRef != p.secretRef
    ensures p.secretRef !in Refs(ps)
  {
    var i, qs := IndexOf(ps, p.id), PutProfile(ps, p.id, p);
    assert qs[if i < 0 then |ps| else i] == p;
    assert forall k :: 0 <= k < |ps| && k != i ==> qs[k] == ps[k];
  }

  lemma AfterInterruptedUpsert(m: Data, secrets: map<string, string>)
    requires Safe(Durable(m, secrets)) && Interrupted(m) && m.intent.value.kind == "upsert"
    ensures Consistent(Durable(m.(intent := None), secrets)) <==> SecretsInPlace(m, secrets)
    ensures SecretsInPlace(m, secrets) <==> secrets.Keys <= Refs(m.profiles)
  {
    var it, ps := m.intent.value, m.profiles;
    var end := Recovered(Durable(m, secrets));
    if it.newRef !in secrets {
      assert end == Durable(m.(intent := None), secrets);
    } else {
      var p := it.newProfile.value;
      assert end.data.profiles == PutProfile(ps, p.id, p) && end.secrets == DropRef(secrets, it.oldRef, it.newRef);
      if Lookup(ps, p.id).Some? && Lookup(ps, p.id).value.secretRef == p.secretRef {
        PutOfSameRef(ps, p);
      } else {
        PutOfNewRef(ps, p);
      }
    }
  }

  lemma AfterInterruptedDelete(m: Data, secrets: map<string, string>)
    requires Safe(Durable(m, secrets)) && Interrupted(m) && m.intent.value.kind == "delete"
    ensures Consistent(Durable(m.(intent := None), secrets)) <==> SecretsInPlace(m, secrets)
    ensures SecretsInPlace(m, secrets) <==> secrets.Keys <= Refs(m.profiles)
  {
    var it := m.intent.value;
    var end := Recovered(Durable(m, secrets));
    assert end.data == m.(intent := None);
    if it.oldRef !in secrets { assert end.secrets == secrets; }
  }

  ghost predicate AllSafe(points: seq<Durable>) {
    forall c :: c in points ==> Safe(c)
  }

  /** Every state of a delete is safe, an intent being open or not, if and only if machine mode is
      not bound to the profile and the open intent's secrets are in place.  Where they are not, the
      delete ends without an intent and with stores that disagree. */
  lemma DeletePointsAreSafeIff(b: Durable, m: Data, id: string)
    requires Safe(b) && Safe(Durable(m, b.secrets)) && (m.intent.Some? ==> Interrupted(m))
    requires Lookup(m.profiles, id).Some?
    ensures var points := DeletePoints(b, m, id, Lookup(m.profiles, id).value.secretRef);
            && (Consistent(points[4]) <==> SecretsInPlace(m, b.secrets))
            && (AllSafe(points) <==> !Bound(m, id) && SecretsInPlace(m, b.secrets))
  {
    var ref := Lookup(m.profiles, id).value.secretRef;
    var points := DeletePoints(b, m, id, ref);
    var base := Durable(m.(intent := None), b.secrets);
    DeleteOverwritesIntent(b, m, id, ref);
    InPlaceIsConsistentIff(m, b.secrets);
    if !SecretsInPlace(m, b.secrets) { DeleteKeepsStray(b, m, id); }
    assert points[4] in points;
    SettledIsSafe(points[4]);
    if SecretsInPlace(m, b.secrets) {
      LastDeletePoint(b, m, id, ref);
      RemoveKeepsConsistency(base, id, points[4]);
      if Bound(m, id) {
        BoundFailsAfterRemove(m.profiles, id);
        assert !Loadable(points[4].data);
      } else {
        DeletePointsAreSafe(b, base.data, id);
      }
    }
  }

  lemma InPlaceIsConsistentIff(m: Data, secrets: map<string, string>)
    requires Safe(Durable(m, secrets)) && (m.intent.Some? ==> Interrupted(m))
    ensures Consistent(Durable(m.(intent := None), secrets)) <==> SecretsInPlace(m, secrets)
    ensures SecretsInPlace(m, secrets) <==> secrets.Keys <= Refs(m.profiles)
    ensures SecretsInPlace(m, secrets) ==> Safe(Durable(m.(intent := None), secrets))
  {
    IntentIsNotChecked(m, None);
    SettledIsSafe(Durable(m.(intent := None), secrets));
    if m.intent.None? {
      assert m.(intent := None) == m;
    } else if m.intent.value.kind == "delete" {
      AfterInterruptedDelete(m, secrets);
    } else {
      AfterInterruptedUpsert(m, secrets);
    }
  }

  lemma DeleteOverwritesIntent(b: Durable, m: Data, id: string, ref: string)
    ensures DeletePoints(b, m, id, ref) == DeletePoints(b, m.(intent := None), id, ref)
  {
  }

  lemma RemoveAddsNoRef(ps: seq<Profile>, id: string)
    ensures Refs(RemoveProfile(ps, id)) <= Refs(ps)
  {
    var i, qs := IndexOf(ps, id), RemoveProfile(ps, id);
    assert forall k :: 0 <= k < |qs| ==> qs[k] == ps[if i < 0 || k < i then k else k + 1];
  }

  /** A secret that belongs to no stored profile outlives the delete of another one. */
  lemma DeleteKeepsStray(b: Durable, m: Data, id: string)
    requires DistinctIds(m.profiles) && Lookup(m.profiles, id).Some?
    requires !(b.secrets.Keys <= Refs(m.profiles))
    ensures !Consistent(DeletePoints(b, m, id, Lookup(m.profiles, id).value.secretRef)[4])
  {
    var i := IndexOf(m.profiles, id);
    var stray :| stray in b.secrets && stray !in Refs(m.profiles);
    assert m.profiles[i].secretRef in Refs(m.profiles);
    LastDeletePoint(b, m, id, m.profiles[i].secretRef);
    RemoveAddsNoRef(m.profiles, id);
    assert stray in b.secrets - {m.profiles[i].secretRef};
  }

  /** The failing half: a create whose secret was stored fails, and another profile is deleted.  The
      secret of the create stays behind, and no intent is left to say so. */
  lemma DeleteOverOpenCreate()
    ensures var p := Profile("p", "r", UserScope, "u", 1399, "");
            var q := Profile("q", "s", UserScope, "u", 1399, "");
            var m := Data(2, [p], "", map[], "user", "", Some(UpsertIntent(q, "")));
            var b := Durable(m, map["r" := "x", "s" := "y"]);
            var end := DeletePoints(b, m, "p", "r")[4];
            && Safe(b) && Interrupted(m) && !Bound(m, "p") && !SecretsInPlace(m, b.secrets)
            && end == Durable(Data(2, [], "", map[], "user", "", None), map["s" := "y"]) && !Consistent(end)
  {
    var p := Profile("p", "r", UserScope, "u", 1399, "");
    var q := Profile("q", "s", UserScope, "u", 1399, "");
    var m := Data(2, [p], "", map[], "user", "", Some(UpsertIntent(q, "")));
    var b := Durable(m, map["r" := "x", "s" := "y"]);
    OpenCreateIsSafe(p, q);
    FirstIndex([p], "p", 0);
    DeletePointsAreSafeIff(b, m, "p");
    LastDeletePoint(b, m, "p", "r");
    assert Pruned(m, "p").profiles == [] && Pruned(m, "p").selected == map[];
    assert b.secrets - {"r"} == map["s" := "y"];
  }

  lemma OpenCreateIsSafe(p: Profile, q: Profile)
    requires p == Profile("p", "r", UserScope, "u", 1399, "") && q == Profile("q", "s", UserScope, "u", 1399, "")
    ensures var m := Data(2, [p], "", map[], "user", "", Some(UpsertIntent(q, "")));
            Safe(Durable(m, map["r" := "x", "s" := "y"])) && Interrupted(m) && Lookup([p], "q").None?
  {
    var m := Data(2, [p], "", map[], "user", "", Some(UpsertIntent(q, "")));
    var b := Durable(m, map["r" := "x", "s" := "y"]);
    assert p.owner[0] == 'u';
    NoIndex([p], "q");
    var both := [p, q];
    assert PutProfile([p], "q", q) == both;
    assert both[0] == p && both[1] == q;
    assert Recovered(b) == Durable(m.(profiles := both, intent := None), b.secrets);
    assert Refs(both) == {"r", "s"} == b.secrets.Keys;
  }

  /** Writes that change only references stay safe as long as the file passes the checks. */
  lemma ReferencesAreSafe(d: Durable, e: Durable)
    requires Safe(d) && Loadable(e.data) && e.secrets == d.secrets
    requires e.data.profiles == d.data.profiles && e.data.intent == d.data.intent
    ensures Safe(e)
  {
    assert Recovered(e).secrets == Recovered(d).secrets && Recovered(e).data.profiles == Recovered(d).data.profiles;
  }
}
