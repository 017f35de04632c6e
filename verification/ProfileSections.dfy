/** The critical sections in which the profile commands write the state file.  A command checks
    the profile it is given in one section and writes in a later one, without looking again; other
    commands may run between the two.  This module says when such a write leaves a file the next
    start accepts, and what in between can break it. */
module ProfileSections {
  import opened Common
  import opened ProfileStore

  datatype Section =
    | Stored(p: Profile)                                                  // a create or an update
    | Removed(id: string)
    | Chosen(actor: string, p: Profile)                                   // connect, with the profile it had checked
    | ChosenNew(actor: string, scope: Scope, privileged: bool, id: string)   // the second half of a create
    | BoundTo(mode: string, id: string)                                   // control mode

  /** The state file a completed section leaves. */
  function After(d: Data, s: Section): Data {
    match s
    case Stored(p) => d.(profiles := PutProfile(d.profiles, p.id, p))
    case Removed(id) => Pruned(d, id)
    case Chosen(actor, p) =>
      d.(selected := if p.scope == UserScope && p.owner == actor then d.selected[actor := p.id] else d.selected, current := p.id)
    case ChosenNew(actor, scope, privileged, id) =>
      d.(selected := if scope == UserScope then d.selected[actor := id] else d.selected,
         current := if privileged then id else d.current)
    case BoundTo(mode, id) =>
      d.(mode := mode, machine := if mode == "user" then "" else id, current := if mode == "machine" then id else d.current)
  }

  predicate Names(d: Data, id: string) {
    id == "" || Lookup(d.profiles, id).Some?
  }

  /** What has to hold when the section runs. */
  predicate Guard(d: Data, s: Section) {
    match s
    case Stored(p) =>
      && p.secretRef != "" && ValidProfile(p)
      && (forall owner :: owner in d.selected && d.selected[owner] == p.id ==> p.scope == UserScope && p.owner == owner)
      && (d.mode == "machine" && d.machine == p.id ==> p.scope == MachineScope)
    case Removed(id) => !(d.mode == "machine" && d.machine == id)
    case Chosen(actor, p) =>
      && Names(d, p.id)
      && (p.scope == UserScope && p.owner == actor ==> SelectionOk(d.profiles, actor, p.id))
    case ChosenNew(actor, scope, privileged, id) =>
      && (scope == UserScope ==> SelectionOk(d.profiles, actor, id))
      && (privileged ==> Names(d, id))
    case BoundTo(mode, id) =>
      mode == "user" || (mode == "machine" && Lookup(d.profiles, id).Some? && Lookup(d.profiles, id).value.scope == MachineScope)
  }

  lemma StoredProfileIsOkIff(ps: seq<Profile>, p: Profile)
    requires ProfilesOk(ps)
    ensures ProfilesOk(PutProfile(ps, p.id, p)) <==> p.secretRef != "" && ValidProfile(p)
  {
    var i := IndexOf(ps, p.id);
    assert PutProfile(ps, p.id, p)[if i < 0 then |ps| else i] == p;
  }

  lemma StoredIsLoadableIff(d: Data, p: Profile)
    requires Loadable(d)
    ensures Loadable(After(d, Stored(p))) <==> Guard(d, Stored(p))
  {
    var qs := PutProfile(d.profiles, p.id, p);
    StoredProfileIsOkIff(d.profiles, p);
    forall id ensures Lookup(qs, id) == if id == p.id then Some(p) else Lookup(d.profiles, id) {
      LookupAfterPut(d.profiles, p, id);
    }
    forall owner | owner in d.selected
      ensures SelectionOk(qs, owner, d.selected[owner]) <==> (d.selected[owner] == p.id ==> p.scope == UserScope && p.owner == owner)
    {
      assert SelectionOk(d.profiles, owner, d.selected[owner]);
    }
  }

  lemma RemovedIsLoadableIff(d: Data, id: string)
    requires Loadable(d) && DistinctIds(d.profiles)
    ensures Loadable(After(d, Removed(id))) <==> Guard(d, Removed(id))
  {
    if Guard(d, Removed(id)) {
      PruneKeepsLoadable(d, id);
    } else {
      NoIndex(RemoveProfile(d.profiles, id), id);
    }
  }

  lemma SelectingIsOkIff(ps: seq<Profile>, selected: map<string, string>, owner: string, id: string)
    requires SelectionsOk(ps, selected)
    ensures SelectionsOk(ps, selected[owner := id]) <==> SelectionOk(ps, owner, id)
  {
    if SelectionsOk(ps, selected[owner := id]) {
      assert owner in selected[owner := id];
    }
  }

  /** A section leaves a file the next start accepts if and only if its guard holds when it runs. */
  lemma SectionIsLoadableIff(d: Data, s: Section)
    requires Loadable(d) && DistinctIds(d.profiles)
    ensures Loadable(After(d, s)) <==> Guard(d, s)
  {
    match s
    case Stored(p) => StoredIsLoadableIff(d, p);
    case Removed(id) => RemovedIsLoadableIff(d, id);
    case Chosen(actor, p) => SelectingIsOkIff(d.profiles, d.selected, actor, p.id);
    case ChosenNew(actor, scope, privileged, id) => SelectingIsOkIff(d.profiles, d.selected, actor, id);
    case BoundTo(mode, id) =>
  }

  /** Each check of start-up decides on its own: of a file that is accepted, change one thing, and it
      is still accepted if and only if the new value is good. */
  lemma EachCheckCounts(d: Data, schema: int, id: string, owner: string, mode: string, p: Profile)
    requires Loadable(d) && DistinctIds(d.profiles)
    ensures Loadable(d.(schema := schema)) <==> schema == 2
    ensures Loadable(d.(current := id)) <==> id == "" || Lookup(d.profiles, id).Some?
    ensures Loadable(d.(selected := d.selected[owner := id])) <==>
              !Blank(owner) && Lookup(d.profiles, id).Some? && Lookup(d.profiles, id).value.scope == UserScope && Lookup(d.profiles, id).value.owner == owner
    ensures Loadable(d.(mode := mode, machine := id)) <==>
              || (mode == "user" && id == "")
              || (mode == "machine" && Lookup(d.profiles, id).Some? && Lookup(d.profiles, id).value.scope == MachineScope)
    ensures Lookup(d.profiles, p.id).None? ==>
              (Loadable(d.(profiles := d.profiles + [p])) <==>
                 p.secretRef != "" && (p.scope == UserScope || p.scope == MachineScope) && !Blank(p.owner) && 576 <= p.mtu <= 9000)
  {
    SelectingIsOkIff(d.profiles, d.selected, owner, id);
    if Lookup(d.profiles, p.id).None? {
      StoredIsLoadableIff(d, p);
      forall o | o in d.selected ensures d.selected[o] != p.id {
        assert SelectionOk(d.profiles, o, d.selected[o]);
      }
    }
  }

  // ---------------------------------------------------------------- runs of sections

  function Run(d: Data, sections: seq<Section>): Data
    decreases |sections|
  {
    if sections == [] then d else Run(After(d, sections[0]), sections[1..])
  }

  ghost predicate AllGuarded(d: Data, sections: seq<Section>)
    decreases |sections|
  {
    sections == [] || (Guard(d, sections[0]) && AllGuarded(After(d, sections[0]), sections[1..]))
  }

  ghost predicate AllLoadable(d: Data, sections: seq<Section>) {
    forall k :: 0 <= k <= |sections| ==> Loadable(Run(d, sections[..k]))
  }

  lemma AfterKeepsIds(d: Data, s: Section)
    requires DistinctIds(d.profiles)
    ensures DistinctIds(After(d, s).profiles)
  {
    match s
    case Stored(p) => PutTwice(d.profiles, p);
    case Removed(id) => RemoveTwice(d.profiles, id);
    case _ =>
  }

  lemma AllLoadableSplits(d: Data, sections: seq<Section>)
    requires sections != []
    ensures AllLoadable(d, sections) <==> Loadable(d) && AllLoadable(After(d, sections[0]), sections[1..])
  {
    var next, rest := After(d, sections[0]), sections[1..];
    forall k: nat | 1 <= k <= |sections| ensures Run(d, sections[..k]) == Run(next, rest[..k - 1]) {
      assert sections[..k][1..] == rest[..k - 1];
    }
    if AllLoadable(d, sections) {
      assert Loadable(Run(d, sections[..0]));
      forall k: nat | k <= |rest| ensures Loadable(Run(next, rest[..k])) {
        assert Loadable(Run(d, sections[..k + 1]));
      }
    }
  }

  /** Sections of any commands, in any order and with any stale arguments: every file they write is
      accepted by the next start if and only if every guard held when its section ran. */
  lemma {:induction false} RunIsLoadableIff(d: Data, sections: seq<Section>)
    requires Loadable(d) && DistinctIds(d.profiles)
    ensures AllLoadable(d, sections) <==> AllGuarded(d, sections)
    decreases |sections|
  {
    if sections == [] {
      assert forall k :: 0 <= k <= 0 ==> sections[..k] == [];
    } else {
      var next := After(d, sections[0]);
      AllLoadableSplits(d, sections);
      SectionIsLoadableIff(d, sections[0]);
      AfterKeepsIds(d, sections[0]);
      if Loadable(next) {
        RunIsLoadableIff(next, sections[1..]);
      } else {
        assert !AllLoadable(next, sections[1..]) by { assert Run(next, sections[1..][..0]) == next; }
      }
    }
  }

  // ---------------------------------------------------------------- between check and write

  /** A create or an update leaves a stored profile in its hands. */
  predicate KeepsHands(d: Data, t: Section) {
    t.Stored? ==>
      match Lookup(d.profiles, t.p.id)
      case None => true
      case Some(q) => q.scope == t.p.scope && q.owner == t.p.owner
  }

  /** The one thing in between that breaks a pending section: the removal of the profile it is
      about to name, or, for a removal, machine mode being bound to the profile. */
  predicate Breaks(t: Section, pending: Section)
    requires !pending.Stored?
  {
    match pending
    case Removed(id) => t == BoundTo("machine", id)
    case Chosen(_, p) => t == Removed(p.id)
    case ChosenNew(_, scope, privileged, id) => t == Removed(id) && (scope == UserScope || privileged)
    case BoundTo(mode, id) => t == Removed(id) && mode == "machine"
  }

  function Target(s: Section): string
    requires !s.Stored?
  {
    match s
    case Removed(id) => id
    case Chosen(_, p) => p.id
    case ChosenNew(_, _, _, id) => id
    case BoundTo(_, id) => id
  }

  lemma LookupAfter(d: Data, t: Section, id: string)
    requires DistinctIds(d.profiles) && KeepsHands(d, t) && Lookup(d.profiles, id).Some?
    ensures var q := Lookup(After(d, t).profiles, id);
            if t == Removed(id) then q.None?
            else q.Some? && q.value.scope == Lookup(d.profiles, id).value.scope && q.value.owner == Lookup(d.profiles, id).value.owner
  {
    match t
    case Stored(p) => LookupAfterPut(d.profiles, p, id);
    case Removed(gone) => if gone == id { NoIndex(RemoveProfile(d.profiles, id), id); } else { LookupAfterRemove(d.profiles, gone, id); }
    case _ =>
  }

  /** A guard that held when the command checked it still holds when the command writes, if and
      only if nothing broke it in between. */
  lemma GuardSurvivesIff(d: Data, t: Section, pending: Section)
    requires DistinctIds(d.profiles) && !pending.Stored? && Target(pending) != ""
    requires Guard(d, pending) && KeepsHands(d, t)
    ensures Guard(After(d, t), pending) <==> !Breaks(t, pending)
  {
    if Lookup(d.profiles, Target(pending)).Some? { LookupAfter(d, t, Target(pending)); }
  }

  ghost predicate NeverBroken(d: Data, between: seq<Section>, pending: Section)
    requires !pending.Stored?
    decreases |between|
  {
    between == []
    || (KeepsHands(d, between[0]) && !Breaks(between[0], pending) && NeverBroken(After(d, between[0]), between[1..], pending))
  }

  /** So whatever runs in between, unless it breaks the guard the late write is accepted. */
  lemma {:induction false} LateWriteIsLoadable(d: Data, between: seq<Section>, pending: Section)
    requires DistinctIds(d.profiles) && !pending.Stored? && Target(pending) != ""
    requires Guard(d, pending) && NeverBroken(d, between, pending) && Loadable(Run(d, between))
    ensures Loadable(After(Run(d, between), pending))
    decreases |between|
  {
    if between == [] {
      SectionIsLoadableIff(d, pending);
    } else {
      GuardSurvivesIff(d, between[0], pending);
      AfterKeepsIds(d, between[0]);
      LateWriteIsLoadable(After(d, between[0]), between[1..], pending);
    }
  }

  /** The run that fails: an administrator checks a machine profile for machine mode, it is deleted
      while the running connection is taken down, and the mode is bound to it all the same. */
  lemma DeleteBetweenCheckAndWrite()
    ensures var p := Profile("p", "r", MachineScope, "system", 1399, "");
            var d := Data(2, [p], "", map[], "user", "", None);
            && Loadable(d) && Guard(d, BoundTo("machine", "p")) && Guard(d, Removed("p"))
            && Loadable(Run(d, [Removed("p")])) && !Loadable(Run(d, [Removed("p"), BoundTo("machine", "p")]))
  {
    var p := Profile("p", "r", MachineScope, "system", 1399, "");
    var d := Data(2, [p], "", map[], "user", "", None);
    assert p.owner[0] == 's';
    FirstIndex([p], "p", 0);
    var gone := After(d, Removed("p"));
    SectionIsLoadableIff(d, Removed("p"));
    GuardSurvivesIff(d, Removed("p"), BoundTo("machine", "p"));
    AfterKeepsIds(d, Removed("p"));
    SectionIsLoadableIff(gone, BoundTo("machine", "p"));
    assert [Removed("p")][1..] == [];
    assert [Removed("p"), BoundTo("machine", "p")][1..] == [BoundTo("machine", "p")];
    assert [BoundTo("machine", "p")][1..] == [];
  }
}
