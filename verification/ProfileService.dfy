/** The profile commands of the daemon, running on in-memory fields and two durable stores
    that can fail.  Every durable state an operation passes through is recorded in a ghost
    trail, so a contract about the trail is a contract about every crash point. */
module ProfileService {
  import opened Common
  import opened ProfileStore
  import opened ProfileRecovery
  import opened ProfileSections

  datatype Secret = Found(value: string) | NotFound | Unreadable

  datatype Outcome = Done | Failed(code: string)

  /** The state file (replaced atomically) and the secret store.  A call that reports an
      error may or may not have taken effect.  Reliable stores report none. */
  class Stores {
    const reliable: bool
    var data: Data
    var secrets: map<string, string>
    ghost var trail: seq<Durable>

    ghost function Now(): Durable
      reads this
    {
      Durable(data, secrets)
    }

    /** All durable states since the trail had `n` entries, and the present one, are in `plan`. */
    ghost predicate Within(n: nat, plan: iset<Durable>)
      reads this
    {
      n <= |trail| && Now() in plan && forall k :: n <= k < |trail| ==> trail[k] in plan
    }

    constructor (data: Data, secrets: map<string, string>, reliable: bool)
      ensures Now() == Durable(data, secrets) && trail == [] && this.reliable == reliable
    {
      this.reliable := reliable;
      this.data, this.secrets, trail := data, secrets, [];
    }

    method Save(d: Data, ghost n: nat, ghost plan: iset<Durable>) returns (ok: bool)
      requires Within(n, plan) && Durable(d, secrets) in plan
      modifies this
      ensures Within(n, plan)
      ensures secrets == old(secrets) && (data == d || (!ok && data == old(data)))
      ensures trail == old(trail) + [Now()] && (reliable ==> ok)
    {
      var effect: bool := *;
      ok := *;
      ok := ok || reliable;
      if ok || effect { data := d; }
      trail := trail + [Now()];
    }

    method Put(ref: string, value: string, ghost n: nat, ghost plan: iset<Durable>) returns (ok: bool)
      requires Within(n, plan) && Durable(data, secrets[ref := value]) in plan
      modifies this
      ensures Within(n, plan)
      ensures data == old(data)
      ensures secrets == old(secrets)[ref := value] || (!ok && secrets == old(secrets))
      ensures trail == old(trail) + [Now()] && (reliable ==> ok)
    {
      var effect: bool := *;
      ok := *;
      ok := ok || reliable;
      if ok || effect { secrets := secrets[ref := value]; }
      trail := trail + [Now()];
    }

    /** Deleting an absent reference succeeds. */
    method Delete(ref: string, ghost n: nat, ghost plan: iset<Durable>) returns (ok: bool)
      requires Within(n, plan) && Durable(data, secrets - {ref}) in plan
      modifies this
      ensures Within(n, plan)
      ensures data == old(data)
      ensures secrets == old(secrets) - {ref} || (!ok && secrets == old(secrets))
      ensures trail == old(trail) + [Now()] && (reliable ==> ok)
    {
      var effect: bool := *;
      ok := *;
      ok := ok || reliable;
      if ok || effect { secrets := secrets - {ref}; }
      trail := trail + [Now()];
    }

    method Get(ref: string) returns (r: Secret)
      ensures r.Found? ==> ref in secrets && r.value == secrets[ref]
      ensures r.NotFound? ==> ref !in secrets
      ensures reliable ==> !r.Unreadable?
    {
      var readable: bool := *;
      r := if !readable && !reliable then Unreadable else if ref in secrets then Found(secrets[ref]) else NotFound;
    }
  }

  ghost function AllStates(): iset<Durable> {
    iset d: Durable | d.Durable?
  }

  datatype Actor = Actor(id: string, system: bool, admin: bool)

  predicate MayMutate(actor: Actor, p: Profile) {
    actor.system || (if p.scope == MachineScope then actor.admin else p.scope == UserScope && p.owner == actor.id)
  }

  /** The reference under which a commit keeps the secret; "" when the random source failed. */
  function NewRef(id: string, password: string, oldRef: string, randomID: Option<string>): string {
    if password == "" then oldRef
    else if randomID.None? then ""
    else "profile/" + id + "/" + randomID.value
  }

  function WithRef(p: Profile, password: string, oldRef: string, randomID: Option<string>): Profile {
    p.(secretRef := NewRef(p.id, password, oldRef, randomID))
  }

  /** One owner's selection is set; every other owner keeps exactly what it had. */
  ghost predicate SelectsOnly(before: map<string, string>, after: map<string, string>, owner: string, id: string) {
    && owner in after && after[owner] == id
    && forall other :: other != owner ==> (other in after <==> other in before) && (other in after ==> after[other] == before[other])
  }

  class Service {
    const stores: Stores
    var profiles: seq<Profile>
    var currentID: string
    var selectedProfiles: map<string, string>
    var controlMode: string
    var machineProfileID: string
    var intent: Option<Intent>
    var storeReady: bool
    var secretReady: bool

    ghost function Mem(): Data
      reads this
    {
      Data(2, profiles, currentID, selectedProfiles, controlMode, machineProfileID, intent)
    }

    /** Memory and the state file agree and no transaction is open. */
    ghost predicate Settled()
      reads this, stores
    {
      Mem() == stores.data && intent.None?
    }

    /** Every durable state since the trail had `n` entries lies in `plan`, and so does the one a
        write of the present memory would leave. */
    ghost predicate Keeps(n: nat, plan: iset<Durable>)
      reads this, stores
    {
      stores.Within(n, plan) && Durable(Mem(), stores.secrets) in plan
    }

    /** The invariant of the running daemon: wherever it is stopped, start-up accepts the state
        file and a replay ends with stores that agree; an open intent is one of its own. */
    ghost predicate Valid(n: nat)
      reads this, stores
    {
      Keeps(n, SafeStates()) && (intent.Some? ==> Interrupted(Mem()))
    }

    constructor (stores: Stores)
      ensures this.stores == stores && intent.None?
    {
      this.stores := stores;
      profiles, currentID, selectedProfiles, controlMode, machineProfileID := [], "", map[], "user", "";
      intent, storeReady, secretReady := None, true, true;
    }

    method FindIndex(id: string) returns (index: int)
      ensures index == IndexOf(profiles, id)
    {
      index := -1;
      for i := 0 to |profiles|
        invariant index == -1
        invariant forall j :: 0 <= j < i ==> profiles[j].id != id
      {
        if profiles[i].id == id {
          FirstIndex(profiles, id, i);
          return i;
        }
      }
      NoIndex(profiles, id);
    }

    method Persist(ghost n: nat, ghost plan: iset<Durable>) returns (ok: bool)
      requires stores.Within(n, plan) && Durable(Mem(), stores.secrets) in plan
      modifies this`storeReady, stores
      ensures storeReady == ok && stores.secrets == old(stores.secrets)
      ensures stores.data == Mem() || (!ok && stores.data == old(stores.data))
      ensures stores.Within(n, plan) && (stores.reliable ==> ok)
    {
      ok := stores.Save(Data(2, profiles, currentID, selectedProfiles, controlMode, machineProfileID, intent), n, plan);
      storeReady := ok;
    }

    /** The last step of every transaction; on failure the intent stays open. */
    method ClearIntent(ghost n: nat, ghost plan: iset<Durable>) returns (ok: bool)
      requires stores.Within(n, plan) && Durable(Mem().(intent := None), stores.secrets) in plan
      modifies this`intent, this`storeReady, stores
      ensures stores.Within(n, plan) && storeReady == ok && stores.secrets == old(stores.secrets)
      ensures ok ==> intent.None? && stores.Now() == Durable(Mem(), old(stores.secrets))
      ensures !ok ==> intent == old(intent)
      ensures stores.reliable ==> ok
    {
      var completed := intent;
      intent := None;
      ok := Persist(n, plan);
      if !ok { intent := completed; }
    }

    method DropSecret(ref: string, ghost n: nat, ghost plan: iset<Durable>) returns (ok: bool)
      requires stores.Within(n, plan) && Durable(stores.data, stores.secrets - {ref}) in plan
      modifies this`secretReady, stores
      ensures stores.Within(n, plan) && stores.data == old(stores.data)
      ensures stores.secrets == old(stores.secrets) - {ref} || (!ok && stores.secrets == old(stores.secrets))
      ensures stores.reliable ==> ok
    {
      ok := stores.Delete(ref, n, plan);
      secretReady := ok;
    }

    /** Create (`index` < 0) or replace a profile together with its secret.  `randomID` is the
        random part of a new reference; None when the random source fails.  Every durable state
        on the way is a commit point: it lies in every `plan` that holds all commit points. */
    method Commit(index: int, profile: Profile, password: string, oldRef: string, randomID: Option<string>,
                  ghost n: nat, ghost plan: iset<Durable>)
      returns (r: Outcome, committed: Profile)
      requires Keeps(n, plan)
      requires index == IndexOf(profiles, profile.id)
      requires var p := WithRef(profile, password, oldRef, randomID);
               p.secretRef != "" && intent.None? ==> forall c :: c in CommitPoints(stores.Now(), Mem(), p, password, oldRef) ==> c in plan
      modifies this`profiles, this`intent, this`storeReady, this`secretReady, stores
      ensures committed == WithRef(profile, password, oldRef, randomID)
      ensures old(intent).Some? || committed.secretRef == "" ==>
                r.Failed? && unchanged(this) && unchanged(stores)
      ensures Keeps(n, plan)
      ensures r.Done? ==>
                && storeReady && Mem() == stores.data
                && stores.Now() == CommitPoints(old(stores.Now()), old(Mem()), committed, password, oldRef)[5]
      ensures profiles == old(profiles) || profiles == PutProfile(old(profiles), committed.id, committed)
      ensures intent == old(intent) || intent.None? || intent == Some(UpsertIntent(committed, oldRef))
      ensures stores.reliable ==> (r.Done? <==> old(intent).None? && committed.secretRef != "")
    {
      committed := WithRef(profile, password, oldRef, randomID);
      ghost var points := CommitPoints(stores.Now(), Mem(), committed, password, oldRef);
      assert committed.secretRef != "" && intent.None? ==>
          points[0] in plan && points[1] in plan && points[2] in plan && points[3] in plan && points[4] in plan && points[5] in plan;
      if intent.Some? { return Failed("transaction_pending"), committed; }
      if committed.secretRef == "" { return Failed("no_secret_reference"), committed; }
      intent := Some(UpsertIntent(committed, oldRef));
      var ok := Persist(n, plan);
      if !ok {
        intent := None;
        return Failed("write_intent"), committed;
      }
      if password != "" {
        ok := stores.Put(committed.secretRef, password, n, plan);
        secretReady := ok;
        if !ok { return Failed("write_secret"), committed; }
      }
      profiles := if index < 0 then profiles + [committed] else profiles[index := committed];
      assert Mem() == points[3].data;
      ok := Persist(n, plan);
      if !ok { return Failed("commit_state"), committed; }
      if oldRef != "" && oldRef != committed.secretRef {
        ok := DropSecret(oldRef, n, plan);
        if !ok { return Failed("delete_old_secret"), committed; }
      }
      assert Durable(Mem(), stores.secrets) == points[4];
      ok := ClearIntent(n, plan);
      r := if ok then Done else Failed("clear_intent");
    }

    method ReplayUpsert(it: Intent, ghost n: nat, ghost plan: iset<Durable>) returns (r: Outcome)
      requires intent == Some(it) && it.version == 1 && it.kind == "upsert"
      requires Mem() == stores.data && stores.Within(n, plan)
      requires forall c :: c in RecoveryPoints(stores.Now()) ==> c in plan
      modifies this`profiles, this`intent, this`storeReady, this`secretReady, stores
      ensures stores.Within(n, plan)
      ensures stores.reliable ==> (r.Done? <==> it.newProfile.Some? && it.newRef != "")
      ensures r.Done? ==> stores.Now() == Recovered(old(stores.Now())) && Mem() == stores.data && intent.None?
    {
      ghost var points := RecoveryPoints(stores.Now());
      if it.newProfile.None? || it.newRef == "" { return Failed("invalid_upsert"); }
      var found := stores.Get(it.newRef);
      if found.Unreadable? { return Failed("read_secret"); }
      assert points[1] in plan;
      var ok: bool;
      if found.NotFound? {
        intent := None;
        ok := Persist(n, plan);
        return if ok then Done else Failed("roll_back");
      }
      assert points[2] in plan && points[3] in plan;
      secretReady := true;
      var index := FindIndex(it.profileID);
      profiles := if index < 0 then profiles + [it.newProfile.value] else profiles[index := it.newProfile.value];
      ok := Persist(n, plan);
      if !ok { return Failed("recover_state"); }
      if it.oldRef != "" && it.oldRef != it.newRef {
        ok := DropSecret(it.oldRef, n, plan);
        if !ok { return Failed("recover_secret"); }
      }
      ok := ClearIntent(n, plan);
      r := if ok then Done else Failed("clear_intent");
    }

    method ReplayDelete(it: Intent, ghost n: nat, ghost plan: iset<Durable>) returns (r: Outcome)
      requires intent == Some(it) && it.version == 1 && it.kind == "delete"
      requires Mem() == stores.data && stores.Within(n, plan)
      requires forall c :: c in RecoveryPoints(stores.Now()) ==> c in plan
      modifies this`profiles, this`intent, this`storeReady, this`secretReady, stores
      ensures stores.Within(n, plan)
      ensures stores.reliable ==> r.Done?
      ensures r.Done? ==> stores.Now() == Recovered(old(stores.Now())) && Mem() == stores.data && intent.None?
    {
      ghost var points := RecoveryPoints(stores.Now());
      assert points[1] in plan && points[2] in plan && points[3] in plan;
      var index := FindIndex(it.profileID);
      if index >= 0 { profiles := profiles[..index] + profiles[index + 1..]; }
      var ok := Persist(n, plan);
      if !ok { return Failed("recover_deletion"); }
      if it.oldRef != "" {
        ok := DropSecret(it.oldRef, n, plan);
        if !ok { return Failed("recover_secret"); }
      }
      ok := ClearIntent(n, plan);
      r := if ok then Done else Failed("clear_intent");
    }

    /** Replay the intent found at start-up.  A store error stops it; the next start retries. */
    method RecoverIntent(ghost n: nat, ghost plan: iset<Durable>) returns (r: Outcome)
      requires Mem() == stores.data && stores.Within(n, plan)
      requires forall c :: c in RecoveryPoints(stores.Now()) ==> c in plan
      modifies this`profiles, this`intent, this`storeReady, this`secretReady, stores
      ensures stores.Within(n, plan)
      ensures stores.reliable ==> (r.Done? <==> old(intent).None? || Supported(old(intent).value))
      ensures r.Done? ==> stores.Now() == Recovered(old(stores.Now())) && Mem() == stores.data && intent.None?
    {
      if intent.None? { return Done; }
      var it := intent.value;
      if it.version != 1 { return Failed("unsupported_version"); }
      if it.kind == "upsert" {
        r := ReplayUpsert(it, n, plan);
      } else if it.kind == "delete" {
        r := ReplayDelete(it, n, plan);
      } else {
        r := Failed("unsupported_kind");
      }
    }

    /** Start-up: check the state file, take it over, replay what is left open. */
    method Load(ghost n: nat, ghost plan: iset<Durable>) returns (r: Outcome)
      requires stores.Within(n, plan)
      requires forall c :: c in StartPoints(stores.Now()) ==> c in plan
      modifies this, stores
      ensures stores.Within(n, plan)
      ensures !Loadable(old(stores.data)) ==> r.Failed? && unchanged(stores)
      ensures stores.reliable ==>
        (r.Done? <==> Loadable(old(stores.data)) && (old(stores.data).intent.None? || Supported(old(stores.data).intent.value)))
      ensures r.Done? ==> stores.Now() == Started(old(stores.Now())) && Settled()
      ensures r.Done? && Safe(old(stores.Now())) && Loadable(stores.data) ==> Valid(|stores.trail|)
    {
      storeReady := true;
      if !Loadable(stores.data) { return Failed("rejected_state"); }
      profiles, currentID, selectedProfiles := stores.data.profiles, stores.data.current, stores.data.selected;
      controlMode, machineProfileID, intent := stores.data.mode, stores.data.machine, stores.data.intent;
      r := RecoverIntent(n, plan);
    }

    /** Take a stored profile and all references to it out of memory. */
    method Forget(id: string, index: int)
      requires index == IndexOf(profiles, id) && index >= 0
      modifies this`profiles, this`selectedProfiles, this`currentID
      ensures Mem() == Pruned(old(Mem()), id)
    {
      profiles := profiles[..index] + profiles[index + 1..];
      selectedProfiles := map owner | owner in selectedProfiles && selectedProfiles[owner] != id :: selectedProfiles[owner];
      if currentID == id {
        currentID := if |profiles| == 1 then profiles[0].id else "";
      }
    }

    /** Remove a profile, the references to it and its secret. */
    method DeleteProfile(id: string, ghost n: nat, ghost plan: iset<Durable>) returns (r: Outcome)
      requires Keeps(n, plan) && Durable(Mem().(intent := None), stores.secrets) in plan
      requires Lookup(profiles, id).Some? ==>
                 forall c :: c in DeletePoints(stores.Now(), Mem(), id, Lookup(profiles, id).value.secretRef) ==> c in plan
      modifies this`profiles, this`selectedProfiles, this`currentID, this`intent, this`storeReady, this`secretReady, stores
      ensures Keeps(n, plan)
      ensures Lookup(old(profiles), id).None? ==> r.Failed? && unchanged(this) && unchanged(stores)
      ensures r.Done? ==>
                && storeReady && Mem() == stores.data
                && stores.Now() == DeletePoints(old(stores.Now()), old(Mem()), id, Lookup(old(profiles), id).value.secretRef)[4]
      ensures r.Done? ==> ForgetsOnly(old(Mem()), Mem(), id) && ForgetsOnly(old(Mem()), stores.data, id) && intent.None?
      ensures stores.reliable ==> (r.Done? <==> Lookup(old(profiles), id).Some?)
      ensures Mem().(intent := None) == old(Mem()).(intent := None) || Mem().(intent := None) == Pruned(old(Mem()), id).(intent := None)
      ensures || intent.None?
              || (intent == old(intent) && profiles == old(profiles))
              || (exists ref :: intent == Some(DeleteIntent(id, ref)) && profiles == RemoveProfile(old(profiles), id))
    {
      var index := FindIndex(id);
      if index < 0 { return Failed("not_found"); }
      var ref := profiles[index].secretRef;
      ghost var points := DeletePoints(stores.Now(), Mem(), id, ref);
      assert points[1] in plan && points[2] in plan && points[3] in plan && points[4] in plan;
      intent := Some(DeleteIntent(id, ref));
      var ok := Persist(n, plan);
      if !ok {
        intent := None;
        return Failed("write_intent");
      }
      Forget(id, index);
      assert Mem() == points[2].data;
      ok := Persist(n, plan);
      if !ok { return Failed("commit_state"); }
      ok := DropSecret(ref, n, plan);
      if !ok { return Failed("delete_secret"); }
      assert Durable(Mem(), stores.secrets) == points[3];
      PrunedForgetsOnly(old(Mem()), id, None);
      ok := ClearIntent(n, plan);
      r := if ok then Done else Failed("clear_intent");
    }

    // ------------------------------------------------- the critical sections of the commands

    predicate MayWrite(actor: Actor)
      reads this
    {
      actor.id != "" &&
      (actor.system || (intent.None? && storeReady && secretReady && (controlMode != "machine" || actor.admin)))
    }

    /** Who may write: the system always; others only while no transaction is open and both stores
        work, and in machine mode only administrators; nobody without an identity. */
    lemma WhoMayWrite(actor: Actor)
      ensures actor.id == "" ==> !MayWrite(actor)
      ensures actor.id != "" && actor.system ==> MayWrite(actor)
      ensures actor.id != "" && !actor.system && (intent.Some? || !storeReady || !secretReady) ==> !MayWrite(actor)
      ensures actor.id != "" && !actor.system && intent.None? && storeReady && secretReady ==>
                (MayWrite(actor) <==> controlMode == "machine" ==> actor.admin)
    {
    }

    /** Whose profiles: machine profiles are for administrators, a user's own for that user only. */
    lemma WhoMayMutate(actor: Actor, p: Profile)
      ensures actor.system ==> MayMutate(actor, p)
      ensures !actor.system && p.scope == MachineScope ==> (MayMutate(actor, p) <==> actor.admin)
      ensures !actor.system && p.scope == UserScope ==> (MayMutate(actor, p) <==> p.owner == actor.id)
      ensures !actor.system && p.scope == UnknownScope ==> !MayMutate(actor, p)
    {
    }

    /** The random source never repeats itself: a new reference is not in the secret store. */
    ghost predicate FreshRef(id: string, randomID: Option<string>)
      reads stores
    {
      randomID.Some? ==> NewRef(id, "password", "", randomID) !in stores.secrets
    }

    /** The profile a command names, if the actor may change it. */
    method ProfileForActor(actor: Actor, id: string) returns (p: Option<Profile>)
      ensures p == match Lookup(profiles, id) case None => None case Some(q) => if MayMutate(actor, q) then Some(q) else None
    {
      var index := FindIndex(id);
      p := if index < 0 || !MayMutate(actor, profiles[index]) then None else Some(profiles[index]);
    }

    method CommitSafely(index: int, profile: Profile, password: string, oldRef: string, randomID: Option<string>, ghost n: nat)
      returns (r: Outcome)
      requires Valid(n) && FreshRef(profile.id, randomID)
      requires index == IndexOf(profiles, profile.id) && ValidProfile(profile)
      requires if index < 0 then oldRef == "" && password != ""
               else profiles[index].scope == profile.scope && profiles[index].owner == profile.owner && oldRef == profiles[index].secretRef
      modifies this`profiles, this`intent, this`storeReady, this`secretReady, stores
      ensures Valid(n)
      ensures stores.reliable ==> (r.Done? <==> old(intent).None? && (password == "" || randomID.Some?))
      ensures r.Done? ==> stores.data == Mem()
      ensures r.Done? ==> var p := WithRef(profile, password, oldRef, randomID);
                          && Lookup(profiles, profile.id) == Some(p)
                          && profiles == PutProfile(old(profiles), profile.id, p)
                          && intent.None? && old(intent).None?
                          && stores.secrets == DropRef(if password == "" then old(stores.secrets) else old(stores.secrets)[p.secretRef := password], oldRef, p.secretRef)
    {
      var stored := WithRef(profile, password, oldRef, randomID);
      LookupAfterPut(profiles, stored, stored.id);
      if stored.secretRef != "" && intent.None? {
        RequestIsFresh(profile, password, oldRef, randomID, n);
        CommitPointsAreSafe(stores.Now(), Mem(), stored, password, oldRef);
      }
      r, stored := Commit(index, profile, password, oldRef, randomID, n, SafeStates());
    }

    /** A command enters a commit the way the crash results require it. */
    lemma RequestIsFresh(profile: Profile, password: string, oldRef: string, randomID: Option<string>, n: nat)
      requires Valid(n) && intent.None? && FreshRef(profile.id, randomID)
      requires oldRef == match Lookup(profiles, profile.id) case None => "" case Some(q) => q.secretRef
      requires WithRef(profile, password, oldRef, randomID).secretRef != ""
      ensures CommitRequest(Durable(Mem(), stores.secrets), WithRef(profile, password, oldRef, randomID), password, oldRef)
    {
      SettledIsSafe(Durable(Mem(), stores.secrets));
      var i := IndexOf(profiles, profile.id);
      assert i >= 0 ==> profiles[i].secretRef in Refs(profiles);
    }

    /** Store a new profile.  Its id comes from the random source. */
    method CreateProfile(profile: Profile, password: string, randomID: Option<string>, ghost n: nat) returns (r: Outcome)
      requires Valid(n) && FreshRef(profile.id, randomID)
      modifies this, stores
      ensures Valid(n)
      ensures r.Done? ==> Lookup(old(profiles), profile.id).None? && stores.data == Mem()
      ensures r.Done? ==> Lookup(profiles, profile.id) == Some(WithRef(profile, password, "", randomID))
      ensures r.Done? ==> profiles == old(profiles) + [WithRef(profile, password, "", randomID)]
      ensures r.Done? ==> stores.secrets == old(stores.secrets)[NewRef(profile.id, password, "", randomID) := password]
      ensures stores.reliable ==>
        (r.Done? <==> ValidProfile(profile) && Lookup(old(profiles), profile.id).None? && password != "" && randomID.Some? && old(intent).None?)
      ensures selectedProfiles == old(selectedProfiles)
      ensures r.Done? ==> currentID == if old(currentID) == "" then profile.id else old(currentID)
    {
      if !ValidProfile(profile) { return Failed("invalid_profile"); }
      var index := FindIndex(profile.id);
      if index >= 0 { return Failed("id_exists"); }
      if password == "" { return Failed("password_required"); }
      r := CommitSafely(-1, profile, password, "", randomID, n);
      if r.Failed? { return; }
      ghost var before := Durable(Mem(), stores.secrets);
      if currentID == "" { currentID := profile.id; }
      ReferencesAreSafe(before, Durable(Mem(), stores.secrets));
      var ok := Persist(n, SafeStates());
      if !ok { r := Failed("persist"); }
    }

    /** The second half of an update: new settings for the profile now stored under the id and, when
        given, a new password. */
    method UpdateProfile(id: string, mtu: int, settings: string, password: Option<string>, randomID: Option<string>, ghost n: nat)
      returns (r: Outcome)
      requires Valid(n) && FreshRef(id, randomID)
      modifies this`profiles, this`intent, this`storeReady, this`secretReady, stores
      ensures Valid(n)
      ensures r.Done? ==> Lookup(old(profiles), id).Some? && password != Some("") && stores.data == Mem() && intent.None?
      ensures r.Done? ==>
                var previous := Lookup(old(profiles), id).value;
                var p := WithRef(previous.(mtu := mtu, settings := settings), if password.Some? then password.value else "", previous.secretRef, randomID);
                profiles == PutProfile(old(profiles), id, p) && Lookup(profiles, id) == Some(p)
      ensures stores.reliable ==>
        (r.Done? <==> Lookup(old(profiles), id).Some? && ValidProfile(Lookup(old(profiles), id).value.(mtu := mtu))
                      && password != Some("") && (password.Some? ==> randomID.Some?) && old(intent).None?)
      ensures r.Done? && password.Some? ==>
                var ref := Lookup(profiles, id).value.secretRef; ref in stores.secrets && stores.secrets[ref] == password.value
      ensures r.Done? && password.None? ==> stores.secrets == old(stores.secrets)
    {
      var index := FindIndex(id);
      if index < 0 { return Failed("not_found"); }
      var profile := profiles[index].(mtu := mtu, settings := settings);
      if !ValidProfile(profile) { return Failed("invalid_profile"); }
      if password == Some("") { return Failed("empty_password"); }
      var secret := if password.Some? then password.value else "";
      r := CommitSafely(index, profile, secret, profiles[index].secretRef, randomID, n);
    }

    /** A section that writes references only.  Where its guard fails the file it writes is one the
        next start refuses. */
    method WriteReferences(ghost s: Section, ghost before: Data, ghost n: nat) returns (ok: bool)
      requires stores.Within(n, SafeStates()) && Safe(Durable(before, stores.secrets)) && DistinctIds(before.profiles)
      requires intent.Some? ==> Interrupted(before)
      requires !s.Stored? && !s.Removed? && Mem() == After(before, s)
      modifies this`storeReady, stores
      ensures Guard(before, s) ==> Valid(n)
      ensures stores.secrets == old(stores.secrets)
      ensures ok ==> stores.data == Mem() && (Loadable(stores.data) <==> Guard(before, s))
      ensures stores.reliable ==> ok
    {
      SectionIsLoadableIff(before, s);
      assert profiles == before.profiles && intent == before.intent;
      ghost var plan := if Guard(before, s) then SafeStates() else AllStates();
      if Guard(before, s) { ReferencesAreSafe(Durable(before, stores.secrets), Durable(Mem(), stores.secrets)); }
      ok := Persist(n, plan);
    }

    /** The second half of a create. */
    method SelectCreated(actor: Actor, scope: Scope, id: string, ghost n: nat) returns (ok: bool)
      requires Valid(n)
      modifies this`selectedProfiles, this`currentID, this`storeReady, stores
      ensures var s := ChosenNew(actor.id, scope, actor.system || actor.admin, id);
              && Mem() == After(old(Mem()), s)
              && (Guard(old(Mem()), s) ==> Valid(n))
              && (ok ==> stores.data == Mem() && (Loadable(stores.data) <==> Guard(old(Mem()), s)))
      ensures var s := ChosenNew(actor.id, scope, actor.system || actor.admin, id); Guard(Mem(), s) <==> Guard(old(Mem()), s)
      ensures scope == UserScope ==> SelectsOnly(old(selectedProfiles), selectedProfiles, actor.id, id)
      ensures scope != UserScope ==> selectedProfiles == old(selectedProfiles)
      ensures currentID == if actor.system || actor.admin then id else old(currentID)
      ensures stores.reliable ==> ok
    {
      ghost var before := Mem();
      if scope == UserScope { selectedProfiles := selectedProfiles[actor.id := id]; }
      if actor.system || actor.admin { currentID := id; }
      ok := WriteReferences(ChosenNew(actor.id, scope, actor.system || actor.admin, id), before, n);
    }

    /** The second half of connecting, with the profile the first half had found. */
    method SelectForConnect(actor: Actor, p: Profile, ghost n: nat) returns (r: Outcome)
      requires Valid(n)
      modifies this`selectedProfiles, this`currentID, this`storeReady, stores
      ensures var s := Chosen(actor.id, p);
              && (r == Failed("machine_mode_required") ==> unchanged(this) && unchanged(stores) && Valid(n))
              && (r != Failed("machine_mode_required") ==> Mem() == After(old(Mem()), s))
              && (Guard(old(Mem()), s) ==> Valid(n))
              && (r.Done? ==> stores.data == Mem() && (Loadable(stores.data) <==> Guard(old(Mem()), s)))
      ensures Guard(Mem(), Chosen(actor.id, p)) <==> Guard(old(Mem()), Chosen(actor.id, p))
      ensures r == Failed("machine_mode_required") <==> p.scope == MachineScope && (controlMode != "machine" || machineProfileID != p.id)
      ensures r != Failed("machine_mode_required") ==>
        && currentID == p.id
        && (if p.scope == UserScope && p.owner == actor.id then SelectsOnly(old(selectedProfiles), selectedProfiles, actor.id, p.id)
            else selectedProfiles == old(selectedProfiles))
      ensures stores.reliable ==> r.Done? || r == Failed("machine_mode_required")
    {
      if p.scope == MachineScope && (controlMode != "machine" || machineProfileID != p.id) {
        return Failed("machine_mode_required");
      }
      ghost var before := Mem();
      if p.scope == UserScope && p.owner == actor.id {
        selectedProfiles := selectedProfiles[actor.id := p.id];
      }
      currentID := p.id;
      var ok := WriteReferences(Chosen(actor.id, p), before, n);
      r := if ok then Done else Failed("persist");
    }

    /** The second half of a change of the control mode. */
    method WriteControlMode(mode: string, id: string, ghost n: nat) returns (ok: bool)
      requires Valid(n) && (mode == "user" || mode == "machine")
      modifies this`controlMode, this`machineProfileID, this`currentID, this`storeReady, stores
      ensures var s := BoundTo(mode, id);
              && Mem() == After(old(Mem()), s)
              && (Guard(old(Mem()), s) ==> Valid(n))
              && (ok ==> stores.data == Mem() && (Loadable(stores.data) <==> Guard(old(Mem()), s)))
      ensures controlMode == mode && (mode == "machine" ==> machineProfileID == id && currentID == id)
      ensures Guard(Mem(), BoundTo(mode, id)) <==> Guard(old(Mem()), BoundTo(mode, id))
      ensures mode == "user" ==> machineProfileID == "" && currentID == old(currentID)
      ensures stores.reliable ==> ok
    {
      ghost var before := Mem();
      controlMode := mode;
      machineProfileID := if mode == "user" then "" else id;
      if mode == "machine" { currentID := id; }
      ok := WriteReferences(BoundTo(mode, id), before, n);
    }

    /** What the second half of a delete makes of what it finds. */
    lemma RemovalIsJudged(b: Durable, m: Data, id: string)
      requires Safe(b) && Safe(Durable(m, b.secrets)) && (m.intent.Some? ==> Interrupted(m)) && Lookup(m.profiles, id).Some?
      ensures var points := DeletePoints(b, m, id, Lookup(m.profiles, id).value.secretRef);
              && points[4] == Durable(After(m, Removed(id)).(intent := None), b.secrets - {Lookup(m.profiles, id).value.secretRef})
              && (Loadable(points[4].data) <==> Guard(m, Removed(id)))
              && (Consistent(points[4]) <==> SecretsInPlace(m, b.secrets))
              && (SecretsInPlace(m, b.secrets) && Guard(m, Removed(id)) ==>
                    AllSafe(points) && Safe(Durable(m.(intent := None), b.secrets)))
      ensures Lookup(RemoveProfile(m.profiles, id), id).None?
    {
      SectionIsLoadableIff(m, Removed(id));
      IntentIsNotChecked(After(m, Removed(id)), None);
      LastDeletePoint(b, m, id, Lookup(m.profiles, id).value.secretRef);
      DeletePointsAreSafeIff(b, m, id);
      InPlaceIsConsistentIff(m, b.secrets);
      NoIndex(RemoveProfile(m.profiles, id), id);
    }

    /** The second half of a delete.  It does not look for an open intent, nor at the mode again. */
    method RemoveProfileNow(id: string, ghost n: nat) returns (r: Outcome)
      requires Valid(n)
      modifies this`profiles, this`selectedProfiles, this`currentID, this`intent, this`storeReady, this`secretReady, stores
      ensures SecretsInPlace(old(Mem()), old(stores.secrets)) && Guard(old(Mem()), Removed(id)) ==> Valid(n)
      ensures r.Done? ==> ForgetsOnly(old(Mem()), Mem(), id) && ForgetsOnly(old(Mem()), stores.data, id) && intent.None?
      ensures stores.reliable ==> (r.Done? <==> Lookup(old(profiles), id).Some?)
      ensures r.Done? ==> Lookup(old(profiles), id).Some?
      ensures r.Done? ==> Mem() == stores.data && Mem() == After(old(Mem()), Removed(id)).(intent := None)
      ensures r.Done? ==> stores.secrets == old(stores.secrets) - {Lookup(old(profiles), id).value.secretRef}
      ensures r.Done? ==> (Loadable(stores.data) <==> Guard(old(Mem()), Removed(id)))
      ensures r.Done? ==> (Consistent(stores.Now()) <==> SecretsInPlace(old(Mem()), old(stores.secrets)))
    {
      ghost var plan := AllStates();
      if Lookup(profiles, id).Some? {
        RemovalIsJudged(stores.Now(), Mem(), id);
        if SecretsInPlace(Mem(), stores.secrets) && Guard(Mem(), Removed(id)) { plan := SafeStates(); }
      }
      r := DeleteProfile(id, n, plan);
    }

    // ------------------------------------------------- the commands, with others in between

    /** Some other command, run to its end. */
    method OtherCommand(ghost n: nat)
      requires Valid(n)
      modifies this, stores
      ensures Valid(n)
    {
      var actor: Actor := *;
      var profile: Profile := *;
      var storing: bool := *;
      if storing {
        OtherStore(profile, n);
      } else {
        OtherReference(actor, profile.id, n);
      }
    }

    method OtherStore(profile: Profile, ghost n: nat)
      requires Valid(n)
      modifies this, stores
      ensures Valid(n)
    {
      var password: string := *;
      var randomID: Option<string> := *;
      var isNew: bool := *;
      if randomID.Some? && NewRef(profile.id, "password", "", randomID) in stores.secrets { return; }
      if isNew {
        var r := CreateProfile(profile, password, randomID, n);
      } else {
        var r := UpdateProfile(profile.id, profile.mtu, profile.settings, Some(password), randomID, n);
      }
    }

    method OtherReference(actor: Actor, id: string, ghost n: nat)
      requires Valid(n)
      modifies this, stores
      ensures Valid(n)
    {
      var kind: int := *;
      var found := ProfileForActor(actor, id);
      var memory := Data(2, profiles, currentID, selectedProfiles, controlMode, machineProfileID, intent);
      if kind == 0 && SecretsInPlace(memory, stores.secrets) && !(controlMode == "machine" && machineProfileID == id) {
        var r := RemoveProfileNow(id, n);
      } else if kind == 1 && found.Some? {
        FoundMayBeChosen(actor, found.value);
        var r := SelectForConnect(actor, found.value, n);
      } else if kind == 2 && found.Some? && found.value.scope == MachineScope {
        var ok := WriteControlMode("machine", id, n);
      } else if kind == 3 {
        var ok := WriteControlMode("user", "", n);
      }
    }

    lemma FoundMayBeChosen(actor: Actor, p: Profile)
      requires Loadable(Mem()) && Lookup(profiles, p.id) == Some(p)
      ensures Guard(Mem(), Chosen(actor.id, p))
    {
      var i := IndexOf(profiles, p.id);
      assert ValidProfile(profiles[i]);
    }

    /** The mutex is free: any number of other commands may run. */
    method OtherCommands(ghost n: nat)
      requires Valid(n)
      modifies this, stores
      ensures Valid(n)
    {
      var rounds :| 0 <= rounds;
      for i := 0 to rounds
        invariant Valid(n)
      {
        OtherCommand(n);
      }
    }

    /** The first half of a create: a machine profile belongs to the system, any other one to the
        actor. */
    method BeginCreate(actor: Actor, scope: Scope, mtu: int, settings: string, password: string,
                       newID: Option<string>, randomID: Option<string>, ghost n: nat) returns (r: Outcome)
      requires Valid(n) && (newID.Some? ==> FreshRef(newID.value, randomID))
      modifies this, stores
      ensures Valid(n)
      ensures !old(MayWrite(actor)) ==> r.Failed? && unchanged(this) && unchanged(stores)
      ensures stores.reliable ==>
        (r.Done? <==> old(MayWrite(actor)) && password != "" && (scope == MachineScope ==> actor.admin || actor.system)
                      && newID.Some? && Lookup(old(profiles), newID.value).None? && randomID.Some? && old(intent).None?
                      && ValidProfile(Profile(newID.value, "", scope, if scope == MachineScope then "system" else actor.id, mtu, settings)))
      ensures r.Done? ==> newID.Some? && password != "" && (scope == MachineScope ==> actor.admin || actor.system)
      ensures r.Done? ==>
                var owner := if scope == MachineScope then "system" else actor.id;
                && Lookup(old(profiles), newID.value).None?
                && profiles == old(profiles) + [WithRef(Profile(newID.value, "", scope, owner, mtu, settings), password, "", randomID)]
    {
      if !MayWrite(actor) { return Failed("refused"); }
      if password == "" { return Failed("password_required"); }
      if scope == MachineScope && !actor.admin && !actor.system { return Failed("admin_required"); }
      if newID.None? { return Failed("random_source"); }
      var profile := Profile(newID.value, "", scope, if scope == MachineScope then "system" else actor.id, mtu, settings);
      r := CreateProfile(profile, password, randomID, n);
    }

    method CreateProfileFor(actor: Actor, scope: Scope, mtu: int, settings: string, password: string,
                            newID: Option<string>, randomID: Option<string>, ghost n: nat)
      returns (r: Outcome, created: Option<string>)
      requires Valid(n) && (newID.Some? ==> FreshRef(newID.value, randomID))
      modifies this, stores
      ensures !old(MayWrite(actor)) ==> r.Failed? && unchanged(this) && unchanged(stores)
      ensures r.Done? ==> created.Some? && created == newID && (scope == MachineScope ==> actor.admin || actor.system)
      ensures created.None? ==> r.Failed? && Valid(n)
      ensures created.Some? ==> (Guard(Mem(), ChosenNew(actor.id, scope, actor.system || actor.admin, created.value)) ==> Valid(n))
      ensures r.Done? ==>
                && stores.data == Mem()
                && (Loadable(stores.data) <==> Guard(Mem(), ChosenNew(actor.id, scope, actor.system || actor.admin, created.value)))
      ensures stores.reliable && created.Some? ==> r.Done?
      ensures r.Done? && scope == UserScope ==> actor.id in selectedProfiles && selectedProfiles[actor.id] == created.value
      ensures r.Done? && (actor.system || actor.admin) ==> currentID == created.value
    {
      created := None;
      r := BeginCreate(actor, scope, mtu, settings, password, newID, randomID, n);
      if r.Failed? { return; }
      OtherCommands(n);
      created := newID;
      var ok := SelectCreated(actor, scope, newID.value, n);
      r := if ok then Done else Failed("persist");
    }

    /** Change the settings of a stored profile and, when given, its password.  The permission is
        tested in an earlier section than the write. */
    method UpdateProfileFor(actor: Actor, id: string, mtu: int, settings: string, password: Option<string>, ghost n: nat)
      returns (r: Outcome)
      requires Valid(n)
      modifies this, stores
      ensures Valid(n)
      ensures !old(MayWrite(actor)) || password == Some("") ==> r.Failed? && unchanged(this) && unchanged(stores)
      ensures r.Done? ==> Lookup(old(profiles), id).Some? && MayMutate(actor, Lookup(old(profiles), id).value)
      ensures r.Done? ==>
                && intent.None? && stores.data == Mem()
                && Lookup(profiles, id).Some? && Lookup(profiles, id).value.mtu == mtu && Lookup(profiles, id).value.settings == settings
    {
      if !MayWrite(actor) { return Failed("refused"); }
      var found := ProfileForActor(actor, id);
      if found.None? { return Failed("not_found"); }
      if password == Some("") { return Failed("empty_password"); }
      OtherCommands(n);
      var randomID: Option<string>  := *;
      if randomID.Some? && NewRef(id, "password", "", randomID) in stores.secrets { randomID := None; }
      r := UpdateProfile(id, mtu, settings, password, randomID, n);
    }

    method DeleteProfileFor(actor: Actor, id: string, ghost n: nat) returns (r: Outcome, ghost inPlace: bool)
      requires Valid(n)
      modifies this, stores
      ensures old(controlMode) == "machine" && old(machineProfileID) == id ==> r.Failed? && unchanged(this) && unchanged(stores)
      ensures r.Done? ==> old(MayWrite(actor)) && Lookup(old(profiles), id).Some? && MayMutate(actor, Lookup(old(profiles), id).value)
      ensures r.Done? ==> stores.data == Mem() && (Loadable(stores.data) <==> Guard(Mem(), Removed(id)))
      ensures r.Done? ==> (Consistent(stores.Now()) <==> inPlace)
      ensures inPlace && Guard(Mem(), Removed(id)) ==> Valid(n)
    {
      inPlace := true;
      if !MayWrite(actor) { return Failed("refused"), true; }
      var found := ProfileForActor(actor, id);
      if found.None? { return Failed("not_found"), true; }
      if controlMode == "machine" && machineProfileID == id { return Failed("machine_mode_locked"), true; }
      OtherCommands(n);
      inPlace := SecretsInPlace(Mem(), stores.secrets);
      r := RemoveProfileNow(id, n);
    }

    /** The persistent half of connecting: remember the selection before dialling. */
    method ConnectFor(actor: Actor, id: string, ghost n: nat) returns (r: Outcome, checked: Option<Profile>)
      requires Valid(n)
      modifies this, stores
      ensures checked.None? ==> r.Failed? && unchanged(this) && unchanged(stores) && Valid(n)
      ensures checked.Some? ==> old(MayWrite(actor)) && checked == Lookup(old(profiles), id) && MayMutate(actor, checked.value)
      ensures checked.Some? <==> old(MayWrite(actor)) && Lookup(old(profiles), id).Some? && MayMutate(actor, Lookup(old(profiles), id).value)
      ensures r.Done? ==> currentID == id && stores.data == Mem()
      ensures r.Done? && checked.value.scope == UserScope && checked.value.owner == actor.id ==>
                actor.id in selectedProfiles && selectedProfiles[actor.id] == id
      ensures r.Done? ==> (Loadable(stores.data) <==> Guard(Mem(), Chosen(actor.id, checked.value)))
      ensures checked.Some? && Guard(Mem(), Chosen(actor.id, checked.value)) ==> Valid(n)
    {
      checked := None;
      if !MayWrite(actor) { return Failed("refused"), None; }
      checked := ProfileForActor(actor, id);
      if checked.None? { return Failed("not_found"), None; }
      OtherCommands(n);
      r := SelectForConnect(actor, checked.value, n);
    }

    /** The first half of a change of the control mode. */
    method CheckControlMode(actor: Actor, mode: string, id: string) returns (r: Outcome)
      ensures r != Failed("persist")
      ensures r.Done? <==>
                && (actor.system || actor.admin) && (mode == "user" || mode == "machine")
                && (mode == "machine" ==> Lookup(profiles, id).Some? && Lookup(profiles, id).value.scope == MachineScope)
    {
      if !actor.system && !actor.admin { return Failed("admin_required"); }
      if mode != "user" && mode != "machine" { return Failed("invalid_control_mode"); }
      if mode == "machine" {
        var found := ProfileForActor(actor, id);
        if found.None? { return Failed("not_found"); }
        if found.value.scope != MachineScope { return Failed("invalid_profile_scope"); }
      }
      r := Done;
    }

    /** Switch between user and machine mode; `idle` says whether the running connection, if
        any, could be taken down first, which is done without the mutex. */
    method SetControlMode(actor: Actor, mode: string, id: string, idle: bool, ghost n: nat) returns (r: Outcome)
      requires Valid(n)
      modifies this, stores
      ensures r.Done? ==> (actor.system || actor.admin) && controlMode == mode && stores.data == Mem()
      ensures r.Done? && mode == "machine" ==>
                machineProfileID == id && currentID == id
                && Lookup(old(profiles), id).Some? && Lookup(old(profiles), id).value.scope == MachineScope
      ensures stores.reliable ==>
        (r.Done? <==> idle && (actor.system || actor.admin) && (mode == "user" || mode == "machine")
                      && (mode == "machine" ==> Lookup(old(profiles), id).Some? && Lookup(old(profiles), id).value.scope == MachineScope))
      ensures r.Done? ==> (Loadable(stores.data) <==> Guard(Mem(), BoundTo(mode, id)))
      ensures (r.Failed? && r != Failed("persist")) || Guard(Mem(), BoundTo(mode, id)) ==> Valid(n)
    {
      r := CheckControlMode(actor, mode, id);
      if r.Failed? { return; }
      OtherCommands(n);
      if !idle { return Failed("disconnect"); }
      var ok := WriteControlMode(mode, id, n);
      r := if ok then Done else Failed("persist");
    }
  }
}
