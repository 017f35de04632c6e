/** The two durable stores behind a profile and the intent protocol that ties them together.

    A profile lives in the state file, its password in a separate secret store, and no
    operation updates both at once.  The daemon therefore writes an intent before it
    touches either, and replays a left-over intent at start-up.  This module defines what
    one replay leaves behind, which durable states a transaction or a replay passes
    through, and proves that every one of them leads to the old or to the new state. */
module ProfileStore {
  import opened Common

  datatype Scope = UserScope | MachineScope | UnknownScope

  /** `settings` stands for the fields that no check or transaction looks at. */
  datatype Profile = Profile(id: string, secretRef: string, scope: Scope, owner: string, mtu: int, settings: string)

  datatype Intent = Intent(version: int, kind: string, profileID: string,
                           newProfile: Option<Profile>, oldRef: string, newRef: string)

  datatype Data = Data(schema: int, profiles: seq<Profile>, current: string, selected: map<string, string>,
                       mode: string, machine: string, intent: Option<Intent>)

  /** What survives a crash: the state file and the secret store. */
  datatype Durable = Durable(data: Data, secrets: map<string, string>)

  // ---------------------------------------------------------------- profile lists

  function IndexOf(ps: seq<Profile>, id: string): (i: int)
    ensures -1 <= i < |ps|
    ensures i >= 0 ==> ps[i].id == id
    ensures forall j :: 0 <= j < (if i >= 0 then i else |ps|) ==> ps[j].id != id
  {
    if ps == [] then -1
    else if ps[0].id == id then 0
    else
      var i := IndexOf(ps[1..], id);
      assert forall j :: 1 <= j < |ps| ==> ps[j] == ps[1..][j - 1];
      if i < 0 then -1 else i + 1
  }

  /** The profile a lookup by id returns: the first one. */
  function Lookup(ps: seq<Profile>, id: string): Option<Profile> {
    var i := IndexOf(ps, id);
    if i < 0 then None else Some(ps[i])
  }

  function PutProfile(ps: seq<Profile>, id: string, p: Profile): seq<Profile> {
    var i := IndexOf(ps, id);
    if i < 0 then ps + [p] else ps[i := p]
  }

  function RemoveProfile(ps: seq<Profile>, id: string): seq<Profile> {
    var i := IndexOf(ps, id);
    if i < 0 then ps else ps[..i] + ps[i + 1..]
  }

  ghost predicate DistinctIds(ps: seq<Profile>) {
    forall i, j :: 0 <= i < j < |ps| ==> ps[i].id != ps[j].id
  }

  ghost predicate DistinctRefs(ps: seq<Profile>) {
    forall i, j :: 0 <= i < j < |ps| ==> ps[i].secretRef != ps[j].secretRef
  }

  ghost function Refs(ps: seq<Profile>): set<string> {
    set i | 0 <= i < |ps| :: ps[i].secretRef
  }

  lemma FirstIndex(ps: seq<Profile>, id: string, i: int)
    requires 0 <= i < |ps| && ps[i].id == id
    requires forall j :: 0 <= j < i ==> ps[j].id != id
    ensures IndexOf(ps, id) == i
  {
  }

  lemma NoIndex(ps: seq<Profile>, id: string)
    requires forall j :: 0 <= j < |ps| ==> ps[j].id != id
    ensures IndexOf(ps, id) == -1
  {
  }

  lemma LookupAfterPut(ps: seq<Profile>, p: Profile, id: string)
    ensures Lookup(PutProfile(ps, p.id, p), id) == if id == p.id then Some(p) else Lookup(ps, id)
  {
    var qs := PutProfile(ps, p.id, p);
    var i, k := IndexOf(ps, p.id), IndexOf(ps, id);
    if id == p.id {
      FirstIndex(qs, id, if i < 0 then |ps| else i);
    } else if k < 0 {
      NoIndex(qs, id);
    } else {
      FirstIndex(qs, id, k);
    }
  }

  lemma LookupAfterRemove(ps: seq<Profile>, gone: string, id: string)
    requires id != gone
    ensures Lookup(RemoveProfile(ps, gone), id) == Lookup(ps, id)
  {
    var qs := RemoveProfile(ps, gone);
    var i, k := IndexOf(ps, gone), IndexOf(ps, id);
    if k < 0 {
      NoIndex(qs, id);
    } else if i < 0 || k < i {
      FirstIndex(qs, id, k);
    } else {
      FirstIndex(qs, id, k - 1);
    }
  }

  lemma PutTwice(ps: seq<Profile>, p: Profile)
    ensures PutProfile(PutProfile(ps, p.id, p), p.id, p) == PutProfile(ps, p.id, p)
    ensures DistinctIds(ps) ==> DistinctIds(PutProfile(ps, p.id, p))
  {
    var i := IndexOf(ps, p.id);
    FirstIndex(PutProfile(ps, p.id, p), p.id, if i < 0 then |ps| else i);
  }

  lemma RemoveTwice(ps: seq<Profile>, id: string)
    requires DistinctIds(ps)
    ensures RemoveProfile(RemoveProfile(ps, id), id) == RemoveProfile(ps, id)
    ensures DistinctIds(RemoveProfile(ps, id))
  {
    NoIndex(RemoveProfile(ps, id), id);
  }

  // ---------------------------------------------------------------- replaying an intent

  predicate Supported(it: Intent) {
    it.version == 1 && ((it.kind == "upsert" && it.newProfile.Some? && it.newRef != "") || it.kind == "delete")
  }

  function DropRef(secrets: map<string, string>, previous: string, next: string): map<string, string> {
    if previous != "" && previous != next then secrets - {previous} else secrets
  }

  lemma DropTwice(secrets: map<string, string>, previous: string, next: string)
    ensures DropRef(DropRef(secrets, previous, next), previous, next) == DropRef(secrets, previous, next)
  {
  }

  /** The state one uninterrupted replay without store errors leaves behind. */
  function Recovered(d: Durable): Durable {
    if d.data.intent.None? || !Supported(d.data.intent.value) then d
    else
      var it := d.data.intent.value;
      if it.kind == "delete" then
        Durable(d.data.(profiles := RemoveProfile(d.data.profiles, it.profileID), intent := None),
                DropRef(d.secrets, it.oldRef, ""))
      else if it.newRef in d.secrets then
        Durable(d.data.(profiles := PutProfile(d.data.profiles, it.profileID, it.newProfile.value), intent := None),
                DropRef(d.secrets, it.oldRef, it.newRef))
      else
        d.(data := d.data.(intent := None))
  }

  /** Every durable state a replay started at `d` can stop in, in the order of its effects. */
  function RecoveryPoints(d: Durable): seq<Durable> {
    if d.data.intent.None? || !Supported(d.data.intent.value) then [d]
    else
      var it := d.data.intent.value;
      if it.kind == "upsert" && it.newRef !in d.secrets then [d, Recovered(d)]
      else
        var ps := if it.kind == "delete" then RemoveProfile(d.data.profiles, it.profileID)
                  else PutProfile(d.data.profiles, it.profileID, it.newProfile.value);
        var d1 := d.(data := d.data.(profiles := ps));
        [d, d1, d1.(secrets := Recovered(d).secrets), Recovered(d)]
  }

  /** What the transactions guarantee about a stored intent. */
  ghost predicate WellFormed(d: Durable) {
    && DistinctIds(d.data.profiles)
    && (d.data.intent.Some? && d.data.intent.value.newProfile.Some? ==>
          d.data.intent.value.newProfile.value.id == d.data.intent.value.profileID)
  }

  /** A replay stopped anywhere can be started again: it ends in the same state, and on the way
      it passes only through states the first replay could have passed through. */
  lemma ReplayIsRestartable(d: Durable, c: Durable)
    requires WellFormed(d) && c in RecoveryPoints(d)
    ensures WellFormed(c) && Recovered(c) == Recovered(d)
    ensures forall x :: x in RecoveryPoints(c) ==> x in RecoveryPoints(d)
  {
    if d.data.intent.Some? && Supported(d.data.intent.value) {
      var it := d.data.intent.value;
      if it.kind == "delete" {
        RemoveTwice(d.data.profiles, it.profileID);
      } else {
        PutTwice(d.data.profiles, it.newProfile.value);
      }
      DropTwice(d.secrets, it.oldRef, if it.kind == "delete" then "" else it.newRef);
    }
  }

  lemma ReplayEndsRecovered(d: Durable)
    ensures d in RecoveryPoints(d) && Recovered(d) in RecoveryPoints(d)
  {
    var points := RecoveryPoints(d);
    assert points[0] == d && points[|points| - 1] == Recovered(d);
  }

  // ---------------------------------------------------------------- create and update

  function UpsertIntent(p: Profile, oldRef: string): Intent {
    Intent(1, "upsert", p.id, Some(p), oldRef, p.secretRef)
  }

  /** The state after a create (`oldRef` empty) or an update (`password` empty when unchanged). */
  function Committed(b: Durable, p: Profile, password: string, oldRef: string): Durable {
    Durable(b.data.(profiles := PutProfile(b.data.profiles, p.id, p), intent := None),
            DropRef(if password == "" then b.secrets else b.secrets[p.secretRef := password], oldRef, p.secretRef))
  }

  /** The durable states of a commit that starts with `b` in the stores and `m` in memory. */
  function CommitPoints(b: Durable, m: Data, p: Profile, password: string, oldRef: string): seq<Durable> {
    var d1 := Durable(m.(intent := Some(UpsertIntent(p, oldRef))), b.secrets);
    var d2 := if password == "" then d1 else d1.(secrets := b.secrets[p.secretRef := password]);
    var d3 := d2.(data := d2.data.(profiles := PutProfile(m.profiles, p.id, p)));
    var d4 := d3.(secrets := DropRef(d2.secrets, oldRef, p.secretRef));
    [b, d1, d2, d3, d4, d4.(data := d4.data.(intent := None))]
  }

  /** The stores agree: no open intent, and exactly one secret per profile. */
  ghost predicate Consistent(d: Durable) {
    && d.data.intent.None?
    && DistinctIds(d.data.profiles) && DistinctRefs(d.data.profiles)
    && d.secrets.Keys == Refs(d.data.profiles)
    && "" !in d.secrets
  }

  /** How the callers enter a commit: a new password gets a reference nobody uses yet, an
      unchanged password keeps the old reference, and a profile that is not stored has none. */
  ghost predicate CommitRequest(b: Durable, p: Profile, password: string, oldRef: string) {
    && p.secretRef != ""
    && (password != "" ==> p.secretRef !in b.secrets && p.secretRef != oldRef)
    && (password == "" ==> p.secretRef == oldRef)
    && oldRef == match Lookup(b.data.profiles, p.id) case None => "" case Some(q) => q.secretRef
  }

  /** From every durable state of a commit, replay leads to the old state or to the new one;
      it is the old one exactly as long as the new password has not been stored. */
  lemma CommitIsAtomic(b: Durable, p: Profile, password: string, oldRef: string, k: nat)
    requires Consistent(b) && CommitRequest(b, p, password, oldRef)
    requires k < |CommitPoints(b, b.data, p, password, oldRef)|
    ensures var c := CommitPoints(b, b.data, p, password, oldRef)[k];
            WellFormed(c) &&
            Recovered(c) == if k == 0 || (k == 1 && password != "") then b else Committed(b, p, password, oldRef)
  {
    PutTwice(b.data.profiles, p);
    var s := if password == "" then b.secrets else b.secrets[p.secretRef := password];
    assert DropRef(DropRef(s, oldRef, p.secretRef), oldRef, p.secretRef) == DropRef(s, oldRef, p.secretRef);
    assert oldRef != "" ==> oldRef in Refs(b.data.profiles);
    assert b.data.(intent := Some(UpsertIntent(p, oldRef))).(intent := None) == b.data;
  }

  lemma PutSwapsRef(ps: seq<Profile>, p: Profile)
    requires DistinctIds(ps) && DistinctRefs(ps)
    requires var q := Lookup(ps, p.id);
             p.secretRef in Refs(ps) ==> q.Some? && q.value.secretRef == p.secretRef
    ensures var q := Lookup(ps, p.id); var qs := PutProfile(ps, p.id, p);
            && DistinctRefs(qs)
            && Refs(qs) == (if q.None? then Refs(ps) else Refs(ps) - {q.value.secretRef}) + {p.secretRef}
  {
    var i, qs := IndexOf(ps, p.id), PutProfile(ps, p.id, p);
    assert forall k :: 0 <= k < |ps| ==> ps[k].secretRef in Refs(ps);
    forall r | r in Refs(ps) && (i < 0 || r != ps[i].secretRef) ensures r in Refs(qs) {
      var k :| 0 <= k < |ps| && ps[k].secretRef == r;
      assert qs[k] == ps[k];
    }
    assert qs[if i < 0 then |ps| else i] == p;
  }

  lemma CommitKeepsConsistency(b: Durable, p: Profile, password: string, oldRef: string)
    requires Consistent(b) && CommitRequest(b, p, password, oldRef)
    ensures Consistent(Committed(b, p, password, oldRef))
  {
    var ps := b.data.profiles;
    PutTwice(ps, p);
    assert oldRef != "" ==> oldRef in Refs(ps) by {
      var i := IndexOf(ps, p.id);
      assert i >= 0 ==> ps[i].secretRef in Refs(ps);
    }
    PutSwapsRef(ps, p);
  }

  /** A commit changes the secret of its own profile only: that is the new password, or the old
      one if none was given; every other profile keeps its secret. */
  lemma CommitChangesOneSecret(b: Durable, p: Profile, password: string, oldRef: string)
    requires Consistent(b) && CommitRequest(b, p, password, oldRef)
    ensures var end := Committed(b, p, password, oldRef);
            && p.secretRef in end.secrets
            && (password != "" ==> end.secrets[p.secretRef] == password)
            && (password == "" ==> p.secretRef in b.secrets && end.secrets[p.secretRef] == b.secrets[p.secretRef])
            && forall i :: 0 <= i < |b.data.profiles| && b.data.profiles[i].id != p.id ==>
                 var ref := b.data.profiles[i].secretRef;
                 ref in b.secrets && ref in end.secrets && end.secrets[ref] == b.secrets[ref]
  {
    var ps, k := b.data.profiles, IndexOf(b.data.profiles, p.id);
    assert k >= 0 ==> ps[k].secretRef in Refs(ps);
    forall i | 0 <= i < |ps| && ps[i].id != p.id
      ensures ps[i].secretRef in b.secrets && ps[i].secretRef != oldRef && ps[i].secretRef != p.secretRef
    {
      assert ps[i].secretRef in Refs(ps);
      assert k >= 0 ==> ps[k].secretRef != ps[i].secretRef;
    }
  }

  // ---------------------------------------------------------------- delete

  function DeleteIntent(id: string, ref: string): Intent {
    Intent(1, "delete", id, None, ref, "")
  }

  /** The state file after the profile and the references to it are gone. */
  function Pruned(d: Data, id: string): Data {
    var ps := RemoveProfile(d.profiles, id);
    d.(profiles := ps,
       selected := map owner | owner in d.selected && d.selected[owner] != id :: d.selected[owner],
       current := if d.current != id then d.current else if |ps| == 1 then ps[0].id else "")
  }

  /** What a delete keeps: every owner exactly its own selection unless that was the profile; the
      other profiles in their order; the current profile unless it was that one, in which case the
      sole remaining one becomes current; the mode and the machine profile. */
  ghost predicate ForgetsOnly(before: Data, after: Data, id: string) {
    var i := IndexOf(before.profiles, id);
    && i >= 0 && after.profiles == before.profiles[..i] + before.profiles[i + 1..]
    && (forall owner :: owner in after.selected <==> owner in before.selected && before.selected[owner] != id)
    && (forall owner :: owner in after.selected ==> after.selected[owner] == before.selected[owner])
    && (before.current != id ==> after.current == before.current)
    && (before.current == id && |after.profiles| == 1 ==> after.current == after.profiles[0].id)
    && (before.current == id && |after.profiles| != 1 ==> after.current == "")
    && after.mode == before.mode && after.machine == before.machine && after.schema == before.schema
  }

  lemma PrunedForgetsOnly(d: Data, id: string, intent: Option<Intent>)
    requires Lookup(d.profiles, id).Some?
    ensures ForgetsOnly(d, Pruned(d, id).(intent := intent), id)
  {
  }

  function DeletePoints(b: Durable, m: Data, id: string, ref: string): seq<Durable> {
    var d1 := Durable(m.(intent := Some(DeleteIntent(id, ref))), b.secrets);
    var d2 := d1.(data := Pruned(d1.data, id));
    var d3 := d2.(secrets := b.secrets - {ref});
    [b, d1, d2, d3, d3.(data := d3.data.(intent := None))]
  }

  lemma LastDeletePoint(b: Durable, m: Data, id: string, ref: string)
    ensures DeletePoints(b, m, id, ref)[4] == Durable(Pruned(m, id).(intent := None), b.secrets - {ref})
  {
  }

  lemma RemoveDropsOneRef(ps: seq<Profile>, id: string)
    requires DistinctIds(ps) && DistinctRefs(ps) && Lookup(ps, id).Some?
    ensures Refs(RemoveProfile(ps, id)) == Refs(ps) - {Lookup(ps, id).value.secretRef}
    ensures DistinctRefs(RemoveProfile(ps, id))
  {
    var i, qs := IndexOf(ps, id), RemoveProfile(ps, id);
    forall r | r in Refs(ps) - {ps[i].secretRef} ensures r in Refs(qs) {
      var k :| 0 <= k < |ps| && ps[k].secretRef == r;
      assert qs[if k < i then k else k - 1] == ps[k];
    }
  }

  /** The stores after a delete; the references are pruned only if the delete got that far. */
  lemma DeletePointRecovers(b: Durable, id: string, k: nat)
    requires Consistent(b) && Lookup(b.data.profiles, id).Some? && 1 <= k < 5
    ensures var ref := Lookup(b.data.profiles, id).value.secretRef;
            var c := DeletePoints(b, b.data, id, ref)[k];
            && WellFormed(c)
            && Recovered(c).data.profiles == RemoveProfile(b.data.profiles, id)
            && Recovered(c).data.intent.None?
            && Recovered(c).secrets == b.secrets - {ref}
  {
    var ref := Lookup(b.data.profiles, id).value.secretRef;
    assert ref in Refs(b.data.profiles);
    RemoveTwice(b.data.profiles, id);
    assert b.secrets - {ref} - {ref} == b.secrets - {ref};
  }

  lemma RemoveKeepsConsistency(b: Durable, id: string, end: Durable)
    requires Consistent(b) && Lookup(b.data.profiles, id).Some? && end.data.intent.None?
    requires end.data.profiles == RemoveProfile(b.data.profiles, id)
    requires end.secrets == b.secrets - {Lookup(b.data.profiles, id).value.secretRef}
    ensures Consistent(end)
  {
    RemoveTwice(b.data.profiles, id);
    RemoveDropsOneRef(b.data.profiles, id);
  }

  // ---------------------------------------------------------------- what start-up accepts

  /** White space as Unicode has it. */
  predicate Space(c: char) {
    var code := c as int;
    || 9 <= code <= 13 || code == 32 || code == 0x85 || code == 0xA0
    || code == 0x1680 || 0x2000 <= code <= 0x200A || code == 0x2028 || code == 0x2029
    || code == 0x202F || code == 0x205F || code == 0x3000
  }

  predicate Blank(s: string) {
    forall i :: 0 <= i < |s| ==> Space(s[i])
  }

  predicate ValidProfile(p: Profile) {
    p.scope != UnknownScope && !Blank(p.owner) && 576 <= p.mtu <= 9000
  }

  predicate SelectionOk(ps: seq<Profile>, owner: string, id: string) {
    !Blank(owner) &&
    match Lookup(ps, id)
    case None => false
    case Some(p) => p.scope == UserScope && p.owner == owner
  }

  predicate ProfilesOk(ps: seq<Profile>) {
    forall i :: 0 <= i < |ps| ==> ps[i].secretRef != "" && ValidProfile(ps[i])
  }

  predicate SelectionsOk(ps: seq<Profile>, selected: map<string, string>) {
    forall owner :: owner in selected ==> SelectionOk(ps, owner, selected[owner])
  }

  predicate ControlOk(ps: seq<Profile>, mode: string, machine: string) {
    if mode == "machine" then Lookup(ps, machine).Some? && Lookup(ps, machine).value.scope == MachineScope
    else mode == "user" && machine == ""
  }

  /** The checks of start-up. */
  predicate Loadable(d: Data) {
    && d.schema == 2
    && ProfilesOk(d.profiles)
    && (d.current != "" ==> Lookup(d.profiles, d.current).Some?)
    && SelectionsOk(d.profiles, d.selected)
    && ControlOk(d.profiles, d.mode, d.machine)
  }

  /** A profile put in keeps the file loadable when it does not change hands. */
  lemma PutKeepsLoadable(d: Data, p: Profile)
    requires Loadable(d) && p.secretRef != "" && ValidProfile(p)
    requires var q := Lookup(d.profiles, p.id);
             q.Some? ==> q.value.scope == p.scope && q.value.owner == p.owner
    ensures Loadable(d.(profiles := PutProfile(d.profiles, p.id, p)))
  {
    var qs := PutProfile(d.profiles, p.id, p);
    forall owner | owner in d.selected ensures SelectionOk(qs, owner, d.selected[owner]) {
      LookupAfterPut(d.profiles, p, d.selected[owner]);
    }
    LookupAfterPut(d.profiles, p, d.current);
    LookupAfterPut(d.profiles, p, d.machine);
  }

  lemma SelectionsAfterRemove(ps: seq<Profile>, id: string, selected: map<string, string>)
    requires SelectionsOk(ps, selected) && id !in selected.Values
    ensures SelectionsOk(RemoveProfile(ps, id), selected)
  {
    forall owner | owner in selected ensures SelectionOk(RemoveProfile(ps, id), owner, selected[owner]) {
      assert selected[owner] in selected.Values;
      LookupAfterRemove(ps, id, selected[owner]);
    }
  }

  lemma DanglingSelection(ps: seq<Profile>, id: string, selected: map<string, string>)
    requires DistinctIds(ps) && id in selected.Values
    ensures !SelectionsOk(RemoveProfile(ps, id), selected)
  {
    NoIndex(RemoveProfile(ps, id), id);
    var owner :| owner in selected && selected[owner] == id;
    assert !SelectionOk(RemoveProfile(ps, id), owner, selected[owner]);
  }

  /** Removing a profile keeps the file loadable exactly when nothing refers to it. */
  lemma RemoveKeepsLoadable(d: Data, id: string)
    requires Loadable(d) && DistinctIds(d.profiles)
    ensures Loadable(d.(profiles := RemoveProfile(d.profiles, id))) <==>
            (d.current == "" || d.current != id) && id !in d.selected.Values && (d.mode == "machine" ==> d.machine != id)
  {
    NoIndex(RemoveProfile(d.profiles, id), id);
    if d.current != id { LookupAfterRemove(d.profiles, id, d.current); }
    if d.machine != id { LookupAfterRemove(d.profiles, id, d.machine); }
    if id in d.selected.Values {
      DanglingSelection(d.profiles, id, d.selected);
    } else {
      SelectionsAfterRemove(d.profiles, id, d.selected);
    }
  }

  lemma ProfilesAfterRemove(ps: seq<Profile>, id: string)
    requires ProfilesOk(ps)
    ensures ProfilesOk(RemoveProfile(ps, id))
  {
  }

  lemma CurrentAfterPrune(d: Data, id: string)
    requires d.current != "" ==> Lookup(d.profiles, d.current).Some?
    ensures Pruned(d, id).current != "" ==> Lookup(Pruned(d, id).profiles, Pruned(d, id).current).Some?
  {
    var qs := RemoveProfile(d.profiles, id);
    if d.current != id {
      LookupAfterRemove(d.profiles, id, d.current);
    } else if |qs| == 1 {
      FirstIndex(qs, qs[0].id, 0);
    }
  }

  lemma ControlAfterRemove(ps: seq<Profile>, id: string, mode: string, machine: string)
    requires ControlOk(ps, mode, machine) && !(mode == "machine" && machine == id)
    ensures ControlOk(RemoveProfile(ps, id), mode, machine)
  {
    if machine != id { LookupAfterRemove(ps, id, machine); }
  }

  lemma SelectionsAfterPrune(d: Data, id: string)
    requires SelectionsOk(d.profiles, d.selected)
    ensures SelectionsOk(Pruned(d, id).profiles, Pruned(d, id).selected)
  {
    var kept := Pruned(d, id).selected;
    assert SelectionsOk(d.profiles, kept) && id !in kept.Values;
    SelectionsAfterRemove(d.profiles, id, kept);
  }

  lemma PruneKeepsLoadable(d: Data, id: string)
    requires Loadable(d) && !(d.mode == "machine" && d.machine == id)
    ensures Loadable(Pruned(d, id))
  {
    ProfilesAfterRemove(d.profiles, id);
    CurrentAfterPrune(d, id);
    SelectionsAfterPrune(d, id);
    ControlAfterRemove(d.profiles, id, d.mode, d.machine);
  }

  /** Every state file a commit writes passes the checks of start-up. */
  lemma CommitWritesLoadable(b: Durable, m: Data, p: Profile, password: string, oldRef: string)
    requires Loadable(b.data) && Loadable(m) && p.secretRef != "" && ValidProfile(p)
    requires var q := Lookup(m.profiles, p.id);
             q.Some? ==> q.value.scope == p.scope && q.value.owner == p.owner
    ensures forall c :: c in CommitPoints(b, m, p, password, oldRef) ==> Loadable(c.data)
  {
    PutKeepsLoadable(m, p);
  }

  lemma DeleteWritesLoadable(b: Durable, m: Data, id: string, ref: string)
    requires Loadable(b.data) && Loadable(m) && !(m.mode == "machine" && m.machine == id)
    ensures forall c :: c in DeletePoints(b, m, id, ref) ==> Loadable(c.data)
  {
    PruneKeepsLoadable(m.(intent := Some(DeleteIntent(id, ref))), id);
  }
}
