/** The platform network manager, the journal that records what it may have installed, and the
    recovery that runs from that journal after a crash. */
module NetworkJournal {
  import opened Common
  import opened Prefixes
  import opened RouteTable

  datatype Config = Config(gateway: bool, server: Option<Prefix>, includes: seq<Prefix>, excludes: seq<Prefix>)

  function ServerList(cfg: Config): seq<Prefix> {
    match cfg.server case None => [] case Some(p) => [p]
  }

  ghost predicate ConfigValid(cfg: Config) {
    && (cfg.server.Some? ==> Valid(cfg.server.value))
    && AllValid(ServerList(cfg)) && AllValid(cfg.includes) && AllValid(cfg.excludes)
  }

  /** No entry has host bits, so that it names the route exactly as it is in the table. */
  ghost predicate AllMasked(ps: seq<Prefix>) {
    forall i :: 0 <= i < |ps| ==> Masked(ps[i]) == ps[i]
  }

  ghost predicate Canonical(j: Journal) {
    && AllMasked(j.server) && AllMasked(j.includes) && AllMasked(j.excludes)
    && AllMasked(j.dynamicInclude) && AllMasked(j.dynamicExclude)
  }

  /** The routes a journal lists. */
  ghost function Listed(j: Journal): set<Route> {
    Keys(MaskedSet(j.server) + MaskedSet(j.excludes) + MaskedSet(j.dynamicExclude), Physical)
    + Keys(MaskedSet(j.includes) + MaskedSet(j.dynamicInclude), Tunnel)
  }

  ghost predicate NarrowOnly(rs: set<Route>) {
    forall r :: r in rs ==> Narrow(r.dst)
  }

  /** A crash in this moment can be cleaned up: the journal lists every IPv4 route of ours.  A
      wider route is never looked for again. */
  ghost predicate Covered(m: Moment) {
    match m.journal
    case None => NarrowRoutes(m.mine) == {}
    case Some(j) => NarrowRoutes(m.mine) <= Listed(j) && Canonical(j)
  }

  /** The recoverable moments; with `narrow`, those in which we have IPv4 routes only. */
  ghost function CoveredMoments(narrow: bool): iset<Moment> {
    iset m: Moment | Covered(m) && (narrow ==> NarrowOnly(m.mine))
  }

  /** The journal lists everything that is installed, whatever its width. */
  ghost predicate ListsEverything(m: Moment) {
    m.mine <= match m.journal case None => {} case Some(j) => Listed(j)
  }

  lemma NarrowMomentsListEverything(m: Moment)
    requires m in CoveredMoments(true)
    ensures ListsEverything(m)
  {
    assert NarrowRoutes(m.mine) == m.mine;
  }

  ghost function AllMoments(): iset<Moment> {
    iset m: Moment | m.Moment?
  }

  lemma JournalCovers(j: Journal, wanted: set<Route>, narrow: bool)
    requires NarrowRoutes(wanted) <= Listed(j) && Canonical(j) && (narrow ==> NarrowOnly(wanted))
    ensures forall m: Moment :: m.journal == Some(j) && m.mine <= wanted ==> m in CoveredMoments(narrow)
  {
  }

  // ---------------------------------------------------------------- list helpers

  function Without(ps: seq<Prefix>, removed: set<Prefix>): seq<Prefix> {
    if ps == [] then []
    else if Masked(ps[0]) in removed then Without(ps[1..], removed)
    else [ps[0]] + Without(ps[1..], removed)
  }

  lemma MaskedCons(p: Prefix, rest: seq<Prefix>)
    ensures MaskedSet([p] + rest) == {Masked(p)} + MaskedSet(rest)
    ensures AllValid([p] + rest) <==> Valid(p) && AllValid(rest)
  {
    var all := [p] + rest;
    assert all[0] == p && forall i :: 1 <= i < |all| ==> all[i] == rest[i - 1];
    assert forall i :: 0 <= i < |rest| ==> rest[i] == all[i + 1];
  }

  lemma {:induction false} WithoutIsSubtraction(ps: seq<Prefix>, removed: set<Prefix>)
    ensures MaskedSet(Without(ps, removed)) == MaskedSet(ps) - removed
    ensures AllValid(ps) ==> AllValid(Without(ps, removed))
  {
    if ps != [] {
      WithoutIsSubtraction(ps[1..], removed);
      assert ps == [ps[0]] + ps[1..];
      MaskedCons(ps[0], ps[1..]);
      MaskedCons(ps[0], Without(ps[1..], removed));
    }
  }

  lemma MaskedSetSnoc(ps: seq<Prefix>, i: nat)
    requires i < |ps|
    ensures MaskedSet(ps[..i + 1]) == MaskedSet(ps[..i]) + {Masked(ps[i])}
  {
    assert forall k :: 0 <= k < i ==> ps[..i + 1][k] == ps[..i][k];
    assert ps[..i + 1][i] == ps[i];
  }

  /** The server route is installed separately; leave it out of the excluded routes. */
  method WithoutPrefixes(ps: seq<Prefix>, removed: seq<Prefix>) returns (out: seq<Prefix>)
    ensures out == Without(ps, MaskedSet(removed))
  {
    var gone: set<Prefix> := {};
    for i := 0 to |removed|
      invariant gone == MaskedSet(removed[..i])
    {
      MaskedSetSnoc(removed, i);
      gone := gone + {Masked(removed[i])};
    }
    assert removed[..|removed|] == removed;
    out := [];
    assert ps[0..] == ps;
    for i := 0 to |ps|
      invariant out + Without(ps[i..], gone) == Without(ps, gone)
    {
      assert ps[i..][1..] == ps[i + 1..];
      if Masked(ps[i]) !in gone { out := out + [ps[i]]; }
    }
    assert ps[|ps|..] == [] && out + [] == out;
  }

  /** The values of both lists, each once, in first-occurrence order. */
  method UnionPrefixes(first: seq<Prefix>, second: seq<Prefix>) returns (out: seq<Prefix>)
    ensures Distinct(out) && Elements(out) == Elements(first) + Elements(second)
  {
    out := [];
    var values := first + second;
    for i := 0 to |values|
      invariant Distinct(out) && Elements(out) == Elements(values[..i])
    {
      assert Elements(values[..i + 1]) == Elements(values[..i]) + {values[i]};
      if values[i] !in out {
        assert Elements(out + [values[i]]) == Elements(out) + {values[i]};
        out := out + [values[i]];
      } else {
        assert values[i] in Elements(out);
      }
    }
    assert values[..|values|] == values;
    assert Elements(values) == Elements(first) + Elements(second);
  }

  lemma MaskedElements(ps: seq<Prefix>, qs: seq<Prefix>, rs: seq<Prefix>)
    requires Elements(rs) == Elements(ps) + Elements(qs)
    ensures MaskedSet(rs) == MaskedSet(ps) + MaskedSet(qs)
  {
    forall p | p in MaskedSet(rs) ensures p in MaskedSet(ps) + MaskedSet(qs) {
      var i :| 0 <= i < |rs| && Masked(rs[i]) == p;
      assert rs[i] in Elements(rs);
      if rs[i] in ps { var k :| 0 <= k < |ps| && ps[k] == rs[i]; } else { var k :| 0 <= k < |qs| && qs[k] == rs[i]; }
    }
    forall p | p in MaskedSet(ps) + MaskedSet(qs) ensures p in MaskedSet(rs) {
      var q :| (q in ps || q in qs) && Masked(q) == p;
      assert q in Elements(rs);
      var k :| 0 <= k < |rs| && rs[k] == q;
    }
  }

  lemma UnionIsMasked(ps: seq<Prefix>, qs: seq<Prefix>, rs: seq<Prefix>)
    requires Elements(rs) == Elements(ps) + Elements(qs) && AllMasked(ps) && AllMasked(qs)
    ensures AllMasked(rs)
  {
    forall i | 0 <= i < |rs| ensures Masked(rs[i]) == rs[i] {
      assert rs[i] in Elements(rs);
    }
  }

  // ---------------------------------------------------------------- the platform manager

  /** The five sets of routes the manager owns. */
  datatype Group = Server | Includes | Excludes | DynamicInclude | DynamicExclude

  function ViaOf(g: Group): Via {
    if g == Includes || g == DynamicInclude then Tunnel else Physical
  }

  type Ownership = map<Group, set<Prefix>>

  ghost function RoutesOf(owned: Ownership): set<Route> {
    set g, p | g in owned && p in owned[g] :: Route(p, ViaOf(g))
  }

  /** No route belongs to two groups, and without a physical link its groups are empty. */
  ghost predicate Separate(owned: Ownership, localLink: bool) {
    && (forall g: Group :: g in owned)
    && (forall g, h :: g in owned && h in owned && g != h && ViaOf(g) == ViaOf(h) ==> owned[g] !! owned[h])
    && (!localLink ==> forall g :: g in owned && ViaOf(g) == Physical ==> owned[g] == {})
  }

  lemma KeyIn(ps: set<Prefix>, p: Prefix, via: Via)
    ensures Route(p, via) in Keys(ps, via) <==> p in ps
  {
  }

  /** Replacing one group by what a reconciliation left of it: the groups stay separate. */
  lemma ReplacedStaysSeparate(owned: Ownership, g: Group, own: set<Prefix>, localLink: bool, before: set<Route>)
    requires Separate(owned, localLink) && RoutesOf(owned) <= before
    requires Keys(own - owned[g], ViaOf(g)) !! before
    requires !localLink && ViaOf(g) == Physical ==> own == {}
    ensures Separate(owned[g := own], localLink)
  {
    forall h | h in owned && h != g && ViaOf(h) == ViaOf(g) ensures owned[h] !! own {
      forall p | p in owned[h] ensures p !in own {
        assert Route(p, ViaOf(h)) in RoutesOf(owned);
        KeyIn(own - owned[g], p, ViaOf(g));
      }
    }
  }

  lemma RoutesOfReplaced(owned: Ownership, g: Group, own: set<Prefix>, localLink: bool)
    requires Separate(owned, localLink)
    ensures RoutesOf(owned[g := own]) == (RoutesOf(owned) - Keys(owned[g], ViaOf(g))) + Keys(own, ViaOf(g))
  {
    var next := owned[g := own];
    forall r | r in RoutesOf(next) ensures r in (RoutesOf(owned) - Keys(owned[g], ViaOf(g))) + Keys(own, ViaOf(g)) {
      var h, p :| h in next && p in next[h] && r == Route(p, ViaOf(h));
      if h != g { assert r in RoutesOf(owned); }
    }
    forall r | r in (RoutesOf(owned) - Keys(owned[g], ViaOf(g))) + Keys(own, ViaOf(g)) ensures r in RoutesOf(next) {
      if r in Keys(own, ViaOf(g)) {
        assert r.dst in next[g];
      } else {
        var h, p :| h in owned && p in owned[h] && r == Route(p, ViaOf(h));
        assert h != g && p in next[h];
      }
    }
  }

  /** What is left behind when `rest` of `group` stays owned is not IPv4. */
  lemma RemainingAreWide(mine: set<Route>, all: set<Route>, group: set<Prefix>, rest: set<Prefix>, via: Via)
    requires all <= mine && NarrowRoutes(mine) <= all && Keys(group, via) <= all
    ensures var after := (mine - Keys(group, via)) + Keys(Remains(group, rest), via);
            var owned := (all - Keys(group, via)) + Keys(rest, via);
            owned <= after && NarrowRoutes(after) <= owned
  {
    forall r | r in NarrowRoutes((mine - Keys(group, via)) + Keys(Remains(group, rest), via))
      ensures r in (all - Keys(group, via)) + Keys(rest, via)
    {
      if r !in mine - Keys(group, via) { assert r.dst in Remains(group, rest) && Narrow(r.dst); }
    }
  }

  lemma GroupIsOwned(owned: Ownership, g: Group)
    requires g in owned
    ensures Keys(owned[g], ViaOf(g)) <= RoutesOf(owned)
  {
  }

  const NoRoutes: Ownership := map[Server := {}, Includes := {}, Excludes := {}, DynamicInclude := {}, DynamicExclude := {}]

  lemma EveryGroupIsEmpty()
    ensures forall g: Group :: g in NoRoutes
  {
    forall g: Group ensures g in NoRoutes {
      match g case Server => case Includes => case Excludes => case DynamicInclude => case DynamicExclude =>
    }
  }

  /** Everything a configuration may put into the table. */
  ghost function Wanted(cfg: Config): set<Route> {
    Keys(MaskedSet(ServerList(cfg)) + MaskedSet(cfg.excludes), Physical) + Keys(MaskedSet(cfg.includes), Tunnel)
  }

  /** What a successful installation owns: without a physical link, the tunnel routes only. */
  ghost predicate IsInstalled(owned: Ownership, cfg: Config)
    requires forall g: Group :: g in owned
  {
    && owned[Server] == MaskedSet(ServerList(cfg))
    && owned[Includes] == MaskedSet(cfg.includes)
    && owned[Excludes] == if cfg.gateway then MaskedSet(cfg.excludes) - MaskedSet(ServerList(cfg)) else {}
  }

  lemma SingleMasked(p: Prefix)
    ensures MaskedSet([p]) == {Masked(p)}
  {
    var ps := [p];
    assert Masked(ps[0]) in MaskedSet(ps);
  }

  /** That is, network by network: the one of the server, those of the included prefixes inside the
      tunnel, and with a physical link those of the excluded prefixes but for the server's. */
  lemma InstalledMeans(owned: Ownership, cfg: Config, q: Prefix)
    requires (forall g: Group :: g in owned) && ConfigValid(cfg) && IsInstalled(owned, cfg)
    ensures q in owned[Server] <==> cfg.server.Some? && IsNetworkOf(q, cfg.server.value)
    ensures q in owned[Includes] <==> exists i :: 0 <= i < |cfg.includes| && IsNetworkOf(q, cfg.includes[i])
    ensures q in owned[Excludes] <==>
              && cfg.gateway && !(cfg.server.Some? && IsNetworkOf(q, cfg.server.value))
              && exists i :: 0 <= i < |cfg.excludes| && IsNetworkOf(q, cfg.excludes[i])
  {
    MaskedSetIsNetworks(cfg.includes);
    MaskedSetIsNetworks(cfg.excludes);
    if cfg.server.Some? {
      MaskedIsNetworkIff(cfg.server.value, q);
      SingleMasked(cfg.server.value);
    }
  }

  lemma WantedParts(cfg: Config)
    ensures Keys(MaskedSet(ServerList(cfg)), Physical) <= Wanted(cfg)
    ensures Keys(MaskedSet(cfg.includes), Tunnel) <= Wanted(cfg)
    ensures Keys(MaskedSet(cfg.excludes) - MaskedSet(ServerList(cfg)), Physical) <= Wanted(cfg)
  {
  }

  /** No route of the configuration is in the table already, so that a reliable machine takes all. */
  ghost predicate Unoccupied(cfg: Config, routes: set<Route>) {
    && Keys(MaskedSet(ServerList(cfg)), Physical) !! routes && Keys(MaskedSet(cfg.includes), Tunnel) !! routes
    && (cfg.gateway ==> Keys(MaskedSet(cfg.excludes) - MaskedSet(ServerList(cfg)), Physical) !! routes)
  }

  lemma SameOccupants(ps: set<Prefix>, via: Via, routes: set<Route>, routes': set<Route>)
    requires forall p :: p in ps ==> (Route(p, via) in routes <==> Route(p, via) in routes')
    ensures Keys(ps, via) !! routes <==> Keys(ps, via) !! routes'
  {
  }

  /** No host route that would be new is in the table already. */
  ghost predicate HostsUnoccupied(owned: Ownership, localLink: bool, inside: seq<Prefix>, outside: seq<Prefix>, routes: set<Route>)
    requires forall g: Group :: g in owned
  {
    && Keys(MaskedSet(inside) - owned[DynamicInclude], Tunnel) !! routes
    && (localLink ==> Keys(MaskedSet(outside) - owned[DynamicExclude], Physical) !! routes)
  }

  class PlatformManager {
    const host: Machine
    var localLink: bool
    var owned: Ownership

    /** What the manager claims is in the table, and it knows every IPv4 route it has there. */
    ghost predicate Tracked()
      reads this, host
    {
      && Separate(owned, localLink)
      && RoutesOf(owned) <= host.mine && NarrowRoutes(host.mine) <= RoutesOf(owned)
    }

    constructor (host: Machine)
      ensures this.host == host && owned == NoRoutes && !localLink
    {
      this.host, localLink, owned := host, false, NoRoutes;
    }

    /** Reconcile one group without leaving the routes in `wanted`. */
    method SyncGroup(g: Group, next: seq<Prefix>, ghost wanted: set<Route>, ghost n: nat, ghost plan: iset<Moment>)
      returns (ok: bool)
      requires Tracked() && AllValid(next) && host.Within(n, plan)
      requires host.mine <= wanted && Keys(MaskedSet(next), ViaOf(g)) <= wanted
      requires forall m: Moment :: m.journal == host.journal && m.mine <= wanted ==> m in plan
      modifies this`owned, host
      ensures Tracked() && host.Within(n, plan) && host.journal == old(host.journal)
      ensures host.mine <= wanted
      ensures ok && (ViaOf(g) == Tunnel || localLink) ==> owned == old(owned)[g := MaskedSet(next)]
      ensures ok && ViaOf(g) == Physical && !localLink ==> owned == old(owned)
      ensures forall h :: h in owned && h != g ==> owned[h] == old(owned)[h]
      ensures owned[g] <= old(owned)[g] + MaskedSet(next)
      ensures host.reliable ==>
        (ok <==> (ViaOf(g) == Physical && !localLink) || Keys(MaskedSet(next) - old(owned)[g], ViaOf(g)) !! old(host.routes))
      ensures forall x: Route :: x.via != ViaOf(g) ==> (x in host.routes <==> x in old(host.routes))
      ensures old(owned)[g] == {} ==> host.routes == old(host.routes) + Keys(owned[g], ViaOf(g))
    {
      GroupIsOwned(owned, g);
      var own, r := SyncRoutes(host, owned[g], next, ViaOf(g), ViaOf(g) == Tunnel || localLink, n, plan);
      ReplacedStaysSeparate(owned, g, own, localLink, old(host.routes));
      RoutesOfReplaced(owned, g, own, localLink);
      RemainingAreWide(old(host.mine), RoutesOf(owned), owned[g], own, ViaOf(g));
      KeysMonotone(Remains(owned[g], own), owned[g] + MaskedSet(next), ViaOf(g));
      KeysMonotone(own, owned[g] + MaskedSet(next), ViaOf(g));
      owned := owned[g := own];
      ok := r.Synced?;
    }

    /** Install a configuration.  The address, link and DNS calls in between may fail too. */
    method Set(cfg: Config, ghost wanted: set<Route>, ghost n: nat, ghost plan: iset<Moment>) returns (ok: bool)
      requires Tracked() && owned == NoRoutes && ConfigValid(cfg) && host.Within(n, plan)
      requires host.mine <= wanted && Wanted(cfg) <= wanted
      requires forall m: Moment :: m.journal == host.journal && m.mine <= wanted ==> m in plan
      modifies this, host
      ensures Tracked() && host.Within(n, plan) && host.journal == old(host.journal)
      ensures host.mine <= wanted && owned[DynamicInclude] == {} && owned[DynamicExclude] == {}
      ensures host.reliable ==> (ok <==> (cfg.server.Some? ==> cfg.gateway) && Unoccupied(cfg, old(host.routes)))
      ensures ok ==> IsInstalled(owned, cfg) && (cfg.server.Some? ==> localLink)
    {
      ok := *;
      ok := ok || host.reliable;
      if !ok { return; }
      localLink := cfg.gateway;
      if cfg.server.Some? && !localLink { return false; }
      ok := InstallRoutes(cfg, wanted, n, plan);
      if !ok { return; }
      ok := *;
      ok := ok || host.reliable;
    }

    method InstallRoutes(cfg: Config, ghost wanted: set<Route>, ghost n: nat, ghost plan: iset<Moment>) returns (ok: bool)
      requires Tracked() && owned == NoRoutes && ConfigValid(cfg) && host.Within(n, plan)
      requires localLink == cfg.gateway && (cfg.server.Some? ==> localLink)
      requires host.mine <= wanted && Wanted(cfg) <= wanted
      requires forall m: Moment :: m.journal == host.journal && m.mine <= wanted ==> m in plan
      modifies this`owned, host
      ensures Tracked() && host.Within(n, plan) && host.journal == old(host.journal)
      ensures host.mine <= wanted && owned[DynamicInclude] == {} && owned[DynamicExclude] == {}
      ensures host.reliable ==> (ok <==> Unoccupied(cfg, old(host.routes)))
      ensures ok ==> IsInstalled(owned, cfg)
    {
      var excludes := WithoutPrefixes(cfg.excludes, ServerList(cfg));
      WithoutIsSubtraction(cfg.excludes, MaskedSet(ServerList(cfg)));
      WantedParts(cfg);
      ok := InstallInside(cfg, wanted, n, plan);
      if !ok { return; }
      ghost var outside := MaskedSet(cfg.excludes) - MaskedSet(ServerList(cfg));
      assert MaskedSet(excludes) - {} == outside;
      SameOccupants(outside, Physical, old(host.routes), host.routes);
      ok := SyncGroup(Excludes, excludes, wanted, n, plan);
    }

    /** The route to the server, then the routes into the tunnel. */
    method InstallInside(cfg: Config, ghost wanted: set<Route>, ghost n: nat, ghost plan: iset<Moment>) returns (ok: bool)
      requires Tracked() && owned == NoRoutes && ConfigValid(cfg) && host.Within(n, plan)
      requires localLink == cfg.gateway && (cfg.server.Some? ==> localLink)
      requires host.mine <= wanted && Wanted(cfg) <= wanted
      requires forall m: Moment :: m.journal == host.journal && m.mine <= wanted ==> m in plan
      modifies this`owned, host
      ensures Tracked() && host.Within(n, plan) && host.journal == old(host.journal)
      ensures host.mine <= wanted && owned[Excludes] == {} && owned[DynamicInclude] == {} && owned[DynamicExclude] == {}
      ensures ok ==> owned[Server] == MaskedSet(ServerList(cfg)) && owned[Includes] == MaskedSet(cfg.includes)
      ensures ok ==> forall p :: p !in MaskedSet(ServerList(cfg)) ==> (Route(p, Physical) in host.routes <==> Route(p, Physical) in old(host.routes))
      ensures host.reliable ==>
        (ok <==> Keys(MaskedSet(ServerList(cfg)), Physical) !! old(host.routes) && Keys(MaskedSet(cfg.includes), Tunnel) !! old(host.routes))
    {
      WantedParts(cfg);
      ok := InstallServer(cfg, wanted, n, plan);
      if !ok { return; }
      ghost var inside := MaskedSet(cfg.includes);
      assert inside - {} == inside;
      SameOccupants(inside, Tunnel, old(host.routes), host.routes);
      ok := SyncGroup(Includes, cfg.includes, wanted, n, plan);
    }

    method InstallServer(cfg: Config, ghost wanted: set<Route>, ghost n: nat, ghost plan: iset<Moment>) returns (ok: bool)
      requires Tracked() && owned == NoRoutes && ConfigValid(cfg) && host.Within(n, plan)
      requires (cfg.server.Some? ==> localLink) && host.mine <= wanted && Keys(MaskedSet(ServerList(cfg)), Physical) <= wanted
      requires forall m: Moment :: m.journal == host.journal && m.mine <= wanted ==> m in plan
      modifies this`owned, host
      ensures Tracked() && host.Within(n, plan) && host.journal == old(host.journal)
      ensures host.mine <= wanted && (forall g :: g in owned && g != Server ==> owned[g] == {})
      ensures ok ==> owned[Server] == MaskedSet(ServerList(cfg))
      ensures ok ==> host.routes == old(host.routes) + Keys(MaskedSet(ServerList(cfg)), Physical)
      ensures host.reliable ==> (ok <==> Keys(MaskedSet(ServerList(cfg)), Physical) !! old(host.routes))
    {
      ghost var server := MaskedSet(ServerList(cfg));
      assert server - {} == server;
      ok := SyncGroup(Server, ServerList(cfg), wanted, n, plan);
    }

    /** Bring both dynamic groups to the given host routes; the first failure stops it. */
    method SetDynamicRoutes(inside: seq<Prefix>, outside: seq<Prefix>, ghost wanted: set<Route>, ghost n: nat, ghost plan: iset<Moment>)
      returns (ok: bool)
      requires Tracked() && AllValid(inside) && AllValid(outside) && host.Within(n, plan)
      requires host.mine <= wanted && Keys(MaskedSet(inside), Tunnel) <= wanted && Keys(MaskedSet(outside), Physical) <= wanted
      requires forall m: Moment :: m.journal == host.journal && m.mine <= wanted ==> m in plan
      modifies this`owned, host
      ensures Tracked() && host.Within(n, plan) && host.journal == old(host.journal)
      ensures host.mine <= wanted
      ensures forall g :: g in owned && g != DynamicInclude && g != DynamicExclude ==> owned[g] == old(owned)[g]
      ensures owned[DynamicInclude] <= old(owned)[DynamicInclude] + MaskedSet(inside)
      ensures owned[DynamicExclude] <= old(owned)[DynamicExclude] + MaskedSet(outside)
      ensures host.reliable ==> (ok <==> HostsUnoccupied(old(owned), localLink, inside, outside, old(host.routes)))
      ensures ok ==> owned[DynamicInclude] == MaskedSet(inside)
      ensures ok ==> owned[DynamicExclude] == if localLink then MaskedSet(outside) else {}
    {
      ok := SyncGroup(DynamicInclude, inside, wanted, n, plan);
      if !ok { return; }
      ok := SyncGroup(DynamicExclude, outside, wanted, n, plan);
    }

    method DropGroup(g: Group, ghost n: nat, ghost plan: iset<Moment>) returns (ok: bool)
      requires g in owned && host.Within(n, plan)
      requires forall m: Moment :: m.journal == host.journal && m.mine <= host.mine ==> m in plan
      modifies host
      ensures host.Within(n, plan) && host.journal == old(host.journal)
      ensures old(host.mine) - NarrowRoutes(Keys(owned[g], ViaOf(g))) <= host.mine <= old(host.mine)
      ensures ok ==> host.mine == old(host.mine) - NarrowRoutes(Keys(owned[g], ViaOf(g)))
      ensures host.reliable && (ViaOf(g) == Tunnel || localLink || owned[g] == {}) ==> ok
    {
      ok := true;
      var todo := owned[g];
      while todo != {}
        invariant todo <= owned[g]
        invariant host.Within(n, plan) && host.journal == old(host.journal)
        invariant old(host.mine) - NarrowRoutes(Keys(owned[g], ViaOf(g))) <= host.mine <= old(host.mine)
        invariant ok ==> host.mine == old(host.mine) - NarrowRoutes(Keys(owned[g] - todo, ViaOf(g)))
        invariant host.reliable && (ViaOf(g) == Tunnel || localLink || owned[g] == {}) ==> ok
      {
        var p :| p in todo;
        assert Keys(owned[g] - (todo - {p}), ViaOf(g)) == Keys(owned[g] - todo, ViaOf(g)) + {Route(p, ViaOf(g))};
        todo := todo - {p};
        var done := false;
        if ViaOf(g) == Tunnel || localLink { done := host.Del(Route(p, ViaOf(g)), n, plan); }
        ok := ok && done;
      }
      assert owned[g] - {} == owned[g];
    }

    /** Delete everything owned; what is not IPv4 counts as deleted and stays.  Failures are
        reported, but the groups are emptied all the same: a route that could not be deleted is not
        owned any more. */
    method Close(ghost n: nat, ghost plan: iset<Moment>) returns (ok: bool)
      requires (forall g: Group :: g in owned) && host.Within(n, plan)
      requires forall m: Moment :: m.journal == host.journal && m.mine <= host.mine ==> m in plan
      modifies this`owned, host
      ensures host.Within(n, plan) && host.journal == old(host.journal) && owned == NoRoutes
      ensures old(host.mine) - NarrowRoutes(RoutesOf(old(owned))) <= host.mine <= old(host.mine)
      ensures ok ==> host.mine == old(host.mine) - NarrowRoutes(RoutesOf(old(owned)))
      ensures host.reliable && Separate(old(owned), localLink) ==> ok
    {
      var groups := [Server, Includes, Excludes, DynamicInclude, DynamicExclude];
      ghost var gone: set<Route> := {};
      ok := true;
      for i := 0 to |groups|
        invariant owned == old(owned)
        invariant host.Within(n, plan) && host.journal == old(host.journal)
        invariant forall k :: 0 <= k < i ==> NarrowRoutes(Keys(owned[groups[k]], ViaOf(groups[k]))) <= gone
        invariant gone <= NarrowRoutes(RoutesOf(owned))
        invariant old(host.mine) - gone <= host.mine <= old(host.mine)
        invariant ok ==> host.mine == old(host.mine) - gone
        invariant host.reliable && Separate(owned, localLink) ==> ok
      {
        var done := DropGroup(groups[i], n, plan);
        GroupIsOwned(owned, groups[i]);
        gone := gone + NarrowRoutes(Keys(owned[groups[i]], ViaOf(groups[i])));
        ok := ok && done;
      }
      assert NarrowRoutes(RoutesOf(owned)) <= gone by {
        forall r | r in NarrowRoutes(RoutesOf(owned)) ensures r in gone {
          var g, p :| g in owned && p in owned[g] && r == Route(p, ViaOf(g));
          var k := match g case Server => 0 case Includes => 1 case Excludes => 2 case DynamicInclude => 3 case DynamicExclude => 4;
          assert groups[k] == g && r in NarrowRoutes(Keys(owned[g], ViaOf(g)));
        }
      }
      owned := NoRoutes;
      var rest: bool := *;
      ok := ok && (rest || host.reliable);
    }
  }

  // ---------------------------------------------------------------- the journal around it

  function MaskAll(ps: seq<Prefix>): seq<Prefix> {
    seq(|ps|, i requires 0 <= i < |ps| => Masked(ps[i]))
  }

  function JournalOf(cfg: Config): Journal {
    Journal("planned", ServerList(cfg), MaskAll(cfg.includes), MaskAll(cfg.excludes), [], [])
  }

  lemma MaskAllKeepsSet(ps: seq<Prefix>)
    ensures MaskedSet(MaskAll(ps)) == MaskedSet(ps) && AllMasked(MaskAll(ps))
  {
    forall i | 0 <= i < |ps| ensures Masked(MaskAll(ps)[i]) == Masked(ps[i]) {
      MaskedTwice(ps[i]);
    }
  }

  lemma JournalListsConfig(cfg: Config)
    ensures Listed(JournalOf(cfg)) == Wanted(cfg)
    ensures AllMasked(ServerList(cfg)) ==> Canonical(JournalOf(cfg))
  {
    MaskAllKeepsSet(cfg.includes);
    MaskAllKeepsSet(cfg.excludes);
    assert MaskedSet([]) == {};
  }

  /** Where the routes of a Close can be found after a crash or at its end: nothing new is
      installed; the journal stays, or is marked, or is removed once the manager deleted all the
      IPv4 routes it owned. */
  ghost predicate CloseMoment(m: Moment, start: Moment, journal: Journal, owned: set<Route>) {
    && m.mine <= start.mine
    && (m.journal == start.journal || m.journal == Some(journal.(phase := "cleanup_failed"))
        || (m.journal == None && m.mine == start.mine - NarrowRoutes(owned)))
  }

  lemma PhaseIsIrrelevant(j: Journal, phase: string)
    ensures Listed(j.(phase := phase)) == Listed(j) && (Canonical(j.(phase := phase)) <==> Canonical(j))
  {
  }

  lemma SmallerIsCovered(m: Moment, smaller: Moment)
    requires Covered(m) && smaller.journal == m.journal && smaller.mine <= m.mine
    ensures Covered(smaller)
  {
    assert NarrowRoutes(smaller.mine) <= NarrowRoutes(m.mine);
  }

  /** A Close is safe at every point exactly when the manager still knows all installed IPv4
      routes. */
  lemma CloseIsCoveredIff(start: Moment, journal: Journal, owned: set<Route>, narrow: bool)
    requires start in CoveredMoments(narrow) && NarrowRoutes(start.mine) <= Listed(journal) && Canonical(journal)
    ensures (forall m :: CloseMoment(m, start, journal, owned) ==> m in CoveredMoments(narrow)) <==> NarrowRoutes(start.mine) <= owned
  {
    PhaseIsIrrelevant(journal, "cleanup_failed");
    var removed := Moment(None, start.mine - NarrowRoutes(owned));
    assert CloseMoment(removed, start, journal, owned);
    if NarrowRoutes(start.mine) <= owned {
      forall m | CloseMoment(m, start, journal, owned) ensures m in CoveredMoments(narrow) {
        if m.journal == None {
          if m.journal == start.journal { SmallerIsCovered(start, m); } else { assert NarrowRoutes(m.mine) == {}; }
        } else if m.journal == start.journal {
          SmallerIsCovered(start, m);
        } else {
          assert NarrowRoutes(m.mine) <= NarrowRoutes(start.mine);
        }
      }
    } else {
      var r :| r in NarrowRoutes(start.mine) && r !in owned;
      assert r in NarrowRoutes(removed.mine);
    }
  }

  // ---------------------------------------------------------------- closing more than once

  /** What the calls a Close depends on do: the routes whose deletion fails, whether the rest of
      the clean-up succeeds, and whether the last file call takes effect and reports success.  A
      Set that fails closes too, but does not mark the journal. */
  datatype Luck = Luck(rollBack: bool, stuck: set<Route>, rest: bool, effect: bool, wrote: bool)

  /** The machine, the journal in memory and the routes the manager knows. */
  datatype Possession = Possession(now: Moment, journal: Journal, owned: set<Route>)

  ghost predicate Clean(h: Possession, luck: Luck) {
    h.owned * luck.stuck == {} && luck.rest
  }

  ghost function Closed(h: Possession, luck: Luck): Possession {
    var mine := h.now.mine - NarrowRoutes(h.owned - luck.stuck);
    var marked := h.journal.(phase := "cleanup_failed");
    if Clean(h, luck) then Possession(Moment(if luck.effect || luck.wrote then None else h.now.journal, mine), h.journal, {})
    else if luck.rollBack then Possession(Moment(h.now.journal, mine), h.journal, {})
    else Possession(Moment(if luck.effect || luck.wrote then Some(marked) else h.now.journal, mine), marked, {})
  }

  /** What the caller sees.  A Set that had to roll back reports an error in any case. */
  ghost predicate Reported(h: Possession, luck: Luck) {
    !luck.rollBack && Clean(h, luck) && luck.wrote
  }

  ghost function ClosedAll(h: Possession, lucks: seq<Luck>): Possession
    decreases |lucks|
  {
    if lucks == [] then h else ClosedAll(Closed(h, lucks[0]), lucks[1..])
  }

  ghost function Reports(h: Possession, lucks: seq<Luck>): (r: seq<bool>)
    ensures |r| == |lucks|
    decreases |lucks|
  {
    if lucks == [] then [] else [Reported(h, lucks[0])] + Reports(Closed(h, lucks[0]), lucks[1..])
  }

  ghost predicate CoveredAfter(h: Possession, lucks: seq<Luck>) {
    Covered(ClosedAll(h, lucks).now)
  }

  /** No IPv4 route is installed: closing again does no harm. */
  lemma {:induction false} EmptyStaysCovered(h: Possession, lucks: seq<Luck>)
    requires NarrowRoutes(h.now.mine) == {} && Covered(h.now) && Canonical(h.journal)
    ensures CoveredAfter(h, lucks)
    decreases |lucks|
  {
    if lucks != [] {
      PhaseIsIrrelevant(h.journal, "cleanup_failed");
      var next := Closed(h, lucks[0]);
      assert NarrowRoutes(next.now.mine) <= NarrowRoutes(h.now.mine);
      EmptyStaysCovered(next, lucks[1..]);
    }
  }

  lemma DisjointSubtracts<T>(a: set<T>, b: set<T>)
    requires a * b == {}
    ensures a - b == a
  {
    assert forall x :: x in a && x in b ==> x in a * b;
  }

  lemma OneCloseIsCovered(h: Possession, luck: Luck)
    requires Covered(h.now) && NarrowRoutes(h.now.mine) <= h.owned && NarrowRoutes(h.now.mine) <= Listed(h.journal) && Canonical(h.journal)
    ensures Covered(Closed(h, luck).now) && Canonical(Closed(h, luck).journal)
    ensures Reported(h, luck) ==> Closed(h, luck).now == Moment(None, h.now.mine - NarrowRoutes(h.now.mine))
  {
    PhaseIsIrrelevant(h.journal, "cleanup_failed");
    var next := Closed(h, luck);
    assert NarrowRoutes(next.now.mine) <= NarrowRoutes(h.now.mine);
    if Clean(h, luck) {
      DisjointSubtracts(h.owned, luck.stuck);
      assert NarrowRoutes(next.now.mine) == {};
      assert next.now.mine == h.now.mine - NarrowRoutes(h.now.mine);
    }
  }

  lemma NarrowCloseListsEverything(h: Possession, luck: Luck)
    requires ListsEverything(h.now) && h.now.mine <= h.owned && h.now.mine <= Listed(h.journal) && NarrowOnly(h.now.mine)
    ensures ListsEverything(Closed(h, luck).now)
  {
    PhaseIsIrrelevant(h.journal, "cleanup_failed");
    if Clean(h, luck) {
      DisjointSubtracts(h.owned, luck.stuck);
      assert NarrowRoutes(h.now.mine) == h.now.mine;
      assert Closed(h, luck).now.mine == {};
    }
  }

  /** The journal lists everything after every Close if and only if all installed routes are
      IPv4: a wider one stays in the table when the journal goes. */
  lemma CloseListsEverythingIff(h: Possession)
    requires ListsEverything(h.now) && h.now.mine <= h.owned && h.now.mine <= Listed(h.journal) && Canonical(h.journal)
    ensures (forall luck :: ListsEverything(Closed(h, luck).now)) <==> NarrowOnly(h.now.mine)
  {
    if NarrowOnly(h.now.mine) {
      forall luck ensures ListsEverything(Closed(h, luck).now) {
        NarrowCloseListsEverything(h, luck);
      }
    } else {
      var luck := Luck(false, {}, true, true, true);
      var r :| r in h.now.mine && !Narrow(r.dst);
      assert Clean(h, luck) && r in Closed(h, luck).now.mine;
    }
  }

  /** The smallest such case: one IPv6 prefix inside the tunnel, closed without any failure. */
  lemma WideRouteOutlivesItsJournal()
    ensures var p := Prefix(0, 128, 0);
            var j := Journal("active", [], [p], [], [], []);
            var h := Possession(Moment(Some(j), {Route(p, Tunnel)}), j, {Route(p, Tunnel)});
            var luck := Luck(false, {}, true, true, true);
            Valid(p) && Reported(h, luck) && Closed(h, luck).now == Moment(None, {Route(p, Tunnel)})
  {
    assert Pow2(128) > 0;
    var p := Prefix(0, 128, 0);
    var j := Journal("active", [], [p], [], [], []);
    var h := Possession(Moment(Some(j), {Route(p, Tunnel)}), j, {Route(p, Tunnel)});
    var luck := Luck(false, {}, true, true, true);
    assert h.owned * luck.stuck == {} && NarrowRoutes(h.owned - luck.stuck) == {};
  }

  /** The history in which an IPv4 route is left behind: its deletion fails in the first Close, or
      in the clean-up of a failed Set; after that everything succeeds. */
  lemma SecondCloseStrandsARoute(h: Possession, r: Route, rollBack: bool)
    requires r in h.now.mine && r in h.owned && Narrow(r.dst)
    ensures var lucks := [Luck(rollBack, {r}, true, true, true), Luck(false, {}, true, true, true)];
            Reports(h, lucks) == [false, true] && ClosedAll(h, lucks).now.journal == None
            && r in ClosedAll(h, lucks).now.mine && !CoveredAfter(h, lucks)
  {
    var first, second := Luck(rollBack, {r}, true, true, true), Luck(false, {}, true, true, true);
    var lucks := [first, second];
    assert r in h.owned * first.stuck;
    assert r in Closed(h, first).now.mine && Closed(h, first).owned == {};
    assert lucks[1..] == [second] && lucks[1..][1..] == [];
    assert Closed(h, first).owned * second.stuck == {};
    assert ClosedAll(h, lucks) == ClosedAll(Closed(h, first), [second]) == Closed(Closed(h, first), second);
    assert r in NarrowRoutes(Closed(Closed(h, first), second).now.mine);
  }

  /** What a caller can go by: whatever else happens, every history with these reports stays
      recoverable if and only if there was at most one Close or the first one reported success. */
  lemma ClosingAgainIsCoveredIff(h: Possession, reports: seq<bool>)
    requires Covered(h.now) && NarrowRoutes(h.now.mine) == NarrowRoutes(h.owned) != {}
    requires NarrowRoutes(h.owned) <= Listed(h.journal) && Canonical(h.journal)
    ensures (forall lucks :: Reports(h, lucks) == reports ==> CoveredAfter(h, lucks)) <==> |reports| <= 1 || reports[0]
  {
    if |reports| <= 1 || reports[0] {
      forall lucks | Reports(h, lucks) == reports ensures CoveredAfter(h, lucks) {
        if lucks != [] {
          OneCloseIsCovered(h, lucks[0]);
          if |lucks| == 1 {
            assert lucks[1..] == [];
          } else {
            assert reports[0] == Reported(h, lucks[0]);
            assert NarrowRoutes(Closed(h, lucks[0]).now.mine) == {};
            EmptyStaysCovered(Closed(h, lucks[0]), lucks[1..]);
          }
        }
      }
    } else {
      var r :| r in NarrowRoutes(h.owned);
      assert r in NarrowRoutes(h.now.mine);
      var lucks := StrandingHistory(h, r, reports);
      assert Reports(h, lucks) == reports && !CoveredAfter(h, lucks);
    }
  }

  /** After a failed first Close any report of a later one is compatible with the journal being
      gone, since a removal that reports an error may have taken effect. */
  lemma StrandingHistory(h: Possession, r: Route, reports: seq<bool>) returns (lucks: seq<Luck>)
    requires r in h.now.mine && r in h.owned && Narrow(r.dst) && |reports| >= 2 && !reports[0]
    ensures Reports(h, lucks) == reports && !CoveredAfter(h, lucks)
  {
    var first := Luck(false, {r}, true, true, true);
    assert r in h.owned * first.stuck;
    var rest := LaterCloses(Closed(h, first), r, reports[1..]);
    lucks := [first] + rest;
    assert lucks[1..] == rest;
    assert reports == [false] + reports[1..];
  }

  lemma {:induction false} LaterCloses(h: Possession, r: Route, reports: seq<bool>) returns (lucks: seq<Luck>)
    requires r in h.now.mine && h.owned == {} && Narrow(r.dst) && reports != []
    ensures Reports(h, lucks) == reports && !CoveredAfter(h, lucks)
    decreases |reports|
  {
    var luck := Luck(false, {}, true, true, reports[0]);
    var next := Closed(h, luck);
    assert h.owned * luck.stuck == {} && next.now == Moment(None, h.now.mine);
    assert r in NarrowRoutes(next.now.mine);
    if |reports| == 1 {
      lucks := [luck];
      assert lucks[1..] == [] && reports == [reports[0]];
      assert ClosedAll(h, lucks) == next;
    } else {
      var rest := LaterCloses(next, r, reports[1..]);
      lucks := [luck] + rest;
      assert lucks[1..] == rest && reports == [reports[0]] + reports[1..];
    }
  }

  /** The part of a journal that is about one group. */
  function Part(j: Journal, g: Group): seq<Prefix> {
    match g
    case Server => j.server
    case Includes => j.includes
    case Excludes => j.excludes
    case DynamicInclude => j.dynamicInclude
    case DynamicExclude => j.dynamicExclude
  }

  ghost predicate ListsAll(j: Journal, owned: Ownership) {
    forall g :: g in owned ==> owned[g] <= MaskedSet(Part(j, g))
  }

  lemma ListsAllCovers(j: Journal, owned: Ownership)
    requires ListsAll(j, owned)
    ensures RoutesOf(owned) <= Listed(j)
  {
    forall r | r in RoutesOf(owned) ensures r in Listed(j) {
      var g, p :| g in owned && p in owned[g] && r == Route(p, ViaOf(g));
      assert p in MaskedSet(Part(j, g));
    }
  }

  lemma InstalledIsListed(owned: Ownership, cfg: Config, j: Journal)
    requires forall g: Group :: g in owned
    requires IsInstalled(owned, cfg) && owned[DynamicInclude] == {} && owned[DynamicExclude] == {}
    requires j == JournalOf(cfg).(phase := j.phase)
    ensures ListsAll(j, owned)
  {
    MaskAllKeepsSet(cfg.includes);
    MaskAllKeepsSet(cfg.excludes);
  }

  lemma ListsAllCoversNarrow(j: Journal, owned: Ownership, mine: set<Route>)
    requires ListsAll(j, owned) && NarrowRoutes(mine) <= RoutesOf(owned)
    ensures NarrowRoutes(mine) <= Listed(j)
  {
    ListsAllCovers(j, owned);
  }

  predicate NarrowList(ps: seq<Prefix>) {
    forall i :: 0 <= i < |ps| ==> Narrow(ps[i])
  }

  predicate NarrowConfig(cfg: Config) {
    NarrowList(ServerList(cfg)) && NarrowList(cfg.includes) && NarrowList(cfg.excludes)
  }

  lemma NarrowListIsNarrow(ps: seq<Prefix>, via: Via)
    requires NarrowList(ps) && AllValid(ps)
    ensures NarrowOnly(Keys(MaskedSet(ps), via))
  {
  }

  lemma NarrowConfigIsNarrow(cfg: Config)
    requires NarrowConfig(cfg) && ConfigValid(cfg)
    ensures NarrowOnly(Wanted(cfg))
  {
    NarrowListIsNarrow(ServerList(cfg), Physical);
    NarrowListIsNarrow(cfg.includes, Tunnel);
    NarrowListIsNarrow(cfg.excludes, Physical);
    assert Wanted(cfg) == Keys(MaskedSet(ServerList(cfg)), Physical) + Keys(MaskedSet(cfg.excludes), Physical)
                          + Keys(MaskedSet(cfg.includes), Tunnel);
  }

  /** Host routes inside the tunnel and outside it. */
  ghost predicate HostLists(change: (seq<Prefix>, seq<Prefix>), narrow: bool) {
    && AllValid(change.0) && AllValid(change.1) && AllMasked(change.0) && AllMasked(change.1)
    && (narrow ==> NarrowList(change.0) && NarrowList(change.1))
  }

  /** The manager as the tunnel uses it.  With `narrow` only IPv4 prefixes are configured, and the
      journal then lists everything at every point; without it, every IPv4 route. */
  class JournaledManager {
    const host: Machine
    const inner: PlatformManager
    var journal: Journal

    /** Between operations: the manager knows what is installed, and both the journal on disk
        and the one in memory list it. */
    ghost predicate Ready()
      reads this, inner, host
    {
      inner.host == host && inner.Tracked() && Covered(host.Now()) && ListsAll(journal, inner.owned) && Canonical(journal)
    }

    constructor (host: Machine)
      ensures this.host == host && inner.host == host && fresh(inner) && inner.owned == NoRoutes && !inner.localLink
    {
      this.host := host;
      inner := new PlatformManager(host);
      journal := Journal("planned", [], [], [], [], []);
    }

    ghost function State(): Possession
      reads this, inner, host
    {
      Possession(host.Now(), journal, RoutesOf(inner.owned))
    }

    /** Every state, known or not, in which the objects belong together. */
    ghost predicate Assembled(n: nat)
      reads this, inner, host
    {
      inner.host == host && (forall g: Group :: g in inner.owned) && host.Within(n, AllMoments())
    }

    /** The manager still knows every installed IPv4 route, and both journals list it. */
    ghost predicate Knows()
      reads this, inner, host
    {
      && Covered(host.Now()) && NarrowRoutes(host.mine) <= RoutesOf(inner.owned)
      && NarrowRoutes(host.mine) <= Listed(journal) && Canonical(journal)
    }

    method CloseLocked(ghost n: nat, ghost plan: iset<Moment>) returns (ok: bool)
      requires inner.host == host && (forall g: Group :: g in inner.owned) && host.Within(n, plan)
      requires forall m :: CloseMoment(m, host.Now(), journal, RoutesOf(inner.owned)) ==> m in plan
      modifies this`journal, inner`owned, host
      ensures host.Within(n, plan) && inner.owned == NoRoutes && forall g: Group :: g in inner.owned
      ensures host.reliable && Separate(old(inner.owned), inner.localLink) ==> ok
      ensures exists luck :: State() == Closed(old(State()), luck) && ok == Reported(old(State()), luck)
    {
      ghost var start := State();
      EveryGroupIsEmpty();
      ok := inner.Close(n, plan);
      ghost var stuck := start.owned * NarrowRoutes(host.mine);
      StuckExplains(start.now.mine, start.owned, host.mine);
      assert RoutesOf(NoRoutes) == {};
      if !ok {
        journal := journal.(phase := "cleanup_failed");
        var written := host.WriteJournal(Some(journal), n, plan);
        assert State() == Closed(start, Luck(false, stuck, false, host.journal == Some(journal), false));
        return false;
      }
      assert start.owned * {} == {} && start.owned - {} == start.owned;
      ok := host.WriteJournal(None, n, plan);
      assert State() == Closed(start, Luck(false, {}, true, host.journal == None, ok));
    }

    /** Close in any state.  What it leaves is a matter of luck; while the manager knows what is
        installed, every point of it is recoverable, and success leaves no IPv4 route. */
    method Close(ghost narrow: bool, ghost n: nat) returns (ok: bool)
      requires Assembled(n)
      modifies this`journal, inner`owned, host
      ensures Assembled(n) && inner.owned == NoRoutes
      ensures exists luck :: State() == Closed(old(State()), luck) && ok == Reported(old(State()), luck)
      ensures host.reliable && Separate(old(inner.owned), inner.localLink) ==> ok
      ensures old(Knows()) && old(host.Within(n, CoveredMoments(narrow))) ==> host.Within(n, CoveredMoments(narrow))
      ensures old(Knows()) && ok ==> host.Now() == Moment(None, old(host.mine) - NarrowRoutes(old(host.mine)))
    {
      ghost var plan := AllMoments();
      ghost var start := State();
      if Knows() && host.Within(n, CoveredMoments(narrow)) {
        plan := CoveredMoments(narrow);
        CloseIsCoveredIff(host.Now(), journal, RoutesOf(inner.owned), narrow);
      }
      ok := CloseLocked(n, plan);
      ghost var luck :| State() == Closed(start, luck) && ok == Reported(start, luck);
      if old(Knows()) { OneCloseIsCovered(start, luck); }
    }

    /** Between operations the manager knows what is installed. */
    lemma ReadyKnows()
      requires Ready()
      ensures Knows()
    {
      ListsAllCoversNarrow(journal, inner.owned, host.mine);
    }

    /** A whole tunnel: install a configuration, change the dynamic routes any number of times,
        close.  At every point what is installed can be recovered, and if the closing reports
        success nothing is left but routes that are not IPv4. */
    method ServeTunnel(cfg: Config, changes: seq<(seq<Prefix>, seq<Prefix>)>, ghost narrow: bool, ghost n: nat)
      returns (installed: bool, closed: bool)
      requires inner.host == host && inner.Tracked() && inner.owned == NoRoutes && host.mine == {}
      requires host.Within(n, CoveredMoments(narrow)) && ConfigValid(cfg) && AllMasked(ServerList(cfg))
      requires narrow ==> NarrowConfig(cfg)
      requires forall k :: 0 <= k < |changes| ==> HostLists(changes[k], narrow)
      modifies this, inner, host
      ensures host.Within(n, CoveredMoments(narrow))
      ensures host.reliable ==> (installed <==> (cfg.server.Some? ==> cfg.gateway) && Unoccupied(cfg, old(host.routes))) && (installed ==> closed)
      ensures installed && closed ==> host.journal == None && NarrowRoutes(host.mine) == {} && (narrow ==> host.mine == {})
    {
      closed := false;
      installed := Set(Some(cfg), narrow, n);
      if !installed { return; }
      ChangeHosts(changes, narrow, n);
      ReadyKnows();
      closed := Close(narrow, n);
    }

    /** Any number of changes of the host routes, whether they succeed or not. */
    method ChangeHosts(changes: seq<(seq<Prefix>, seq<Prefix>)>, ghost narrow: bool, ghost n: nat)
      requires Ready() && host.Within(n, CoveredMoments(narrow))
      requires forall k :: 0 <= k < |changes| ==> HostLists(changes[k], narrow)
      modifies this, inner`owned, host
      ensures Ready() && host.Within(n, CoveredMoments(narrow))
    {
      for k := 0 to |changes|
        invariant Ready() && host.Within(n, CoveredMoments(narrow))
      {
        var ok := SetDynamicRoutes(changes[k].0, changes[k].1, narrow, n);
      }
    }

    /** Install a configuration on a clean machine, or close when there is none. */
    method Set(cfg: Option<Config>, ghost narrow: bool, ghost n: nat) returns (ok: bool)
      requires inner.host == host && inner.Tracked() && inner.owned == NoRoutes && host.mine == {}
      requires host.Within(n, CoveredMoments(narrow))
      requires cfg.Some? ==> ConfigValid(cfg.value) && (narrow ==> NarrowConfig(cfg.value))
      requires if cfg.Some? then AllMasked(ServerList(cfg.value)) else Canonical(journal)
      modifies this, inner, host
      ensures host.Within(n, CoveredMoments(narrow))
      ensures host.reliable && cfg.Some? ==>
        (ok <==> (cfg.value.server.Some? ==> cfg.value.gateway) && Unoccupied(cfg.value, old(host.routes)))
      ensures host.reliable && cfg.None? ==> ok
      ensures ok && cfg.Some? ==> Ready() && IsInstalled(inner.owned, cfg.value)
      ensures ok && cfg.None? ==> host.Now() == Moment(None, {})
    {
      assert RoutesOf(NoRoutes) == {};
      if cfg.None? {
        CloseIsCoveredIff(host.Now(), journal, RoutesOf(inner.owned), narrow);
        ghost var start := State();
        ok := CloseLocked(n, CoveredMoments(narrow));
        ghost var luck :| State() == Closed(start, luck) && ok == Reported(start, luck);
        return;
      }
      journal := JournalOf(cfg.value);
      JournalListsConfig(cfg.value);
      ok := host.WriteJournal(Some(journal), n, CoveredMoments(narrow));
      if !ok { return; }
      if narrow { NarrowConfigIsNarrow(cfg.value); }
      JournalCovers(journal, Wanted(cfg.value), narrow);
      ok := inner.Set(cfg.value, Wanted(cfg.value), n, CoveredMoments(narrow));
      if ok { ok := Activate(cfg.value, narrow, n); }
      if !ok { RollBack(narrow, n); }
    }

    method Activate(cfg: Config, ghost narrow: bool, ghost n: nat) returns (ok: bool)
      requires inner.host == host && inner.Tracked() && host.Within(n, CoveredMoments(narrow))
      requires journal == JournalOf(cfg) && Canonical(journal)
      requires IsInstalled(inner.owned, cfg) && inner.owned[DynamicInclude] == {} && inner.owned[DynamicExclude] == {}
      modifies this`journal, host
      ensures inner.Tracked() && host.Within(n, CoveredMoments(narrow)) && (ok ==> Ready())
      ensures host.reliable ==> ok
    {
      journal := journal.(phase := "active");
      InstalledIsListed(inner.owned, cfg, journal);
      ListsAllCoversNarrow(journal, inner.owned, host.mine);
      ok := host.WriteJournal(Some(journal), n, CoveredMoments(narrow));
    }

    method RollBack(ghost narrow: bool, ghost n: nat)
      requires inner.host == host && inner.Tracked() && host.Within(n, CoveredMoments(narrow))
      modifies inner`owned, host
      ensures host.Within(n, CoveredMoments(narrow))
      ensures exists luck: Luck :: luck.rollBack && State() == Closed(old(State()), luck)
    {
      ghost var start := State();
      forall m: Moment | m.journal == host.journal && m.mine <= host.mine ensures m in CoveredMoments(narrow) {
        SmallerIsCovered(host.Now(), m);
      }
      var clean := inner.Close(n, CoveredMoments(narrow));
      assert RoutesOf(NoRoutes) == {};
      ghost var stuck := start.owned * NarrowRoutes(host.mine);
      StuckExplains(start.now.mine, start.owned, host.mine);
      if clean {
        assert NarrowRoutes(host.mine) == {} && start.owned * {} == {} && start.owned - {} == start.owned;
        var removed := host.WriteJournal(None, n, CoveredMoments(narrow));
        assert State() == Closed(start, Luck(true, {}, true, host.journal == None, removed));
      } else {
        assert State() == Closed(start, Luck(true, stuck, false, false, false));
      }
    }

    /** Change the dynamic host routes: first journal the union of old and new, then install,
        then journal exactly the new ones. */
    method SetDynamicRoutes(inside: seq<Prefix>, outside: seq<Prefix>, ghost narrow: bool, ghost n: nat) returns (ok: bool)
      requires Ready() && host.Within(n, CoveredMoments(narrow)) && AllValid(inside) && AllValid(outside)
      requires AllMasked(inside) && AllMasked(outside) && (narrow ==> NarrowList(inside) && NarrowList(outside))
      modifies this, inner`owned, host
      ensures Ready() && host.Within(n, CoveredMoments(narrow))
      ensures forall g :: g in inner.owned && g != DynamicInclude && g != DynamicExclude ==> inner.owned[g] == old(inner.owned)[g]
      ensures host.reliable ==> (ok <==> HostsUnoccupied(old(inner.owned), inner.localLink, inside, outside, old(host.routes)))
      ensures ok ==> inner.owned[DynamicInclude] == MaskedSet(inside)
      ensures ok && inner.localLink ==> inner.owned[DynamicExclude] == MaskedSet(outside)
    {
      var planned := PlanDynamic(inside, outside);
      ListsAllCoversNarrow(planned, inner.owned, host.mine);
      ok := host.WriteJournal(Some(planned), n, CoveredMoments(narrow));
      if !ok { return; }
      ok := InstallDynamic(planned, inside, outside, narrow, n);
      if !ok {
        journal := planned;
        return;
      }
      ok := CommitDynamic(planned, inside, outside, narrow, n);
    }

    /** Install the host routes under a journal that lists the old and the new ones. */
    method InstallDynamic(planned: Journal, inside: seq<Prefix>, outside: seq<Prefix>, ghost narrow: bool, ghost n: nat) returns (ok: bool)
      requires inner.host == host && inner.Tracked() && host.Within(n, CoveredMoments(narrow)) && host.journal == Some(planned)
      requires AllValid(inside) && AllValid(outside) && (narrow ==> NarrowList(inside) && NarrowList(outside))
      requires ListsAll(planned, inner.owned) && Canonical(planned)
      requires MaskedSet(inside) <= MaskedSet(planned.dynamicInclude) && MaskedSet(outside) <= MaskedSet(planned.dynamicExclude)
      modifies inner`owned, host
      ensures inner.Tracked() && host.Within(n, CoveredMoments(narrow)) && host.journal == Some(planned)
      ensures ListsAll(planned, inner.owned) && Covered(host.Now())
      ensures forall g :: g in inner.owned && g != DynamicInclude && g != DynamicExclude ==> inner.owned[g] == old(inner.owned)[g]
      ensures host.reliable ==> (ok <==> HostsUnoccupied(old(inner.owned), inner.localLink, inside, outside, old(host.routes)))
      ensures ok ==> inner.owned[DynamicInclude] == MaskedSet(inside)
      ensures ok ==> inner.owned[DynamicExclude] == if inner.localLink then MaskedSet(outside) else {}
    {
      ghost var wanted := host.mine + Keys(MaskedSet(inside), Tunnel) + Keys(MaskedSet(outside), Physical);
      DynamicIsCovered(planned, host.mine, inside, outside, narrow);
      ok := inner.SetDynamicRoutes(inside, outside, wanted, n, CoveredMoments(narrow));
      assert ListsAll(planned, inner.owned);
    }

    method CommitDynamic(planned: Journal, inside: seq<Prefix>, outside: seq<Prefix>, ghost narrow: bool, ghost n: nat) returns (ok: bool)
      requires inner.host == host && inner.Tracked() && host.Within(n, CoveredMoments(narrow))
      requires ListsAll(planned, inner.owned) && Canonical(planned) && AllMasked(inside) && AllMasked(outside)
      requires inner.owned[DynamicInclude] <= MaskedSet(inside) && inner.owned[DynamicExclude] <= MaskedSet(outside)
      modifies this`journal, host
      ensures Ready() && host.Within(n, CoveredMoments(narrow))
      ensures ok ==> journal.dynamicInclude == inside && journal.dynamicExclude == outside
      ensures host.reliable ==> ok
    {
      var committed := planned.(dynamicInclude := inside, dynamicExclude := outside, phase := "active");
      assert ListsAll(committed, inner.owned);
      ListsAllCoversNarrow(committed, inner.owned, host.mine);
      ok := host.WriteJournal(Some(committed), n, CoveredMoments(narrow));
      journal := if ok then committed else planned;
    }

    method PlanDynamic(inside: seq<Prefix>, outside: seq<Prefix>) returns (planned: Journal)
      requires ListsAll(journal, inner.owned) && Canonical(journal) && AllMasked(inside) && AllMasked(outside)
      ensures Canonical(planned) && planned == journal.(dynamicInclude := planned.dynamicInclude, dynamicExclude := planned.dynamicExclude, phase := "planned")
      ensures MaskedSet(planned.dynamicInclude) == MaskedSet(journal.dynamicInclude) + MaskedSet(inside)
      ensures MaskedSet(planned.dynamicExclude) == MaskedSet(journal.dynamicExclude) + MaskedSet(outside)
      ensures ListsAll(planned, inner.owned)
      ensures Keys(MaskedSet(inside), Tunnel) <= Listed(planned) && Keys(MaskedSet(outside), Physical) <= Listed(planned)
    {
      var unionInside := UnionPrefixes(journal.dynamicInclude, inside);
      var unionOutside := UnionPrefixes(journal.dynamicExclude, outside);
      MaskedElements(journal.dynamicInclude, inside, unionInside);
      MaskedElements(journal.dynamicExclude, outside, unionOutside);
      UnionIsMasked(journal.dynamicInclude, inside, unionInside);
      UnionIsMasked(journal.dynamicExclude, outside, unionOutside);
      planned := journal.(dynamicInclude := unionInside, dynamicExclude := unionOutside, phase := "planned");
    }
  }

  /** What a Close left of the known routes: the ones that were stuck, and what is not IPv4. */
  lemma StuckExplains(before: set<Route>, owned: set<Route>, after: set<Route>)
    requires before - NarrowRoutes(owned) <= after <= before
    ensures after == before - NarrowRoutes(owned - owned * NarrowRoutes(after))
  {
  }

  lemma DynamicIsCovered(planned: Journal, mine: set<Route>, inside: seq<Prefix>, outside: seq<Prefix>, narrow: bool)
    requires Canonical(planned) && NarrowRoutes(mine) <= Listed(planned) && (narrow ==> NarrowOnly(mine))
    requires Keys(MaskedSet(inside), Tunnel) <= Listed(planned) && Keys(MaskedSet(outside), Physical) <= Listed(planned)
    requires AllValid(inside) && AllValid(outside) && (narrow ==> NarrowList(inside) && NarrowList(outside))
    ensures forall m: Moment ::
      m.journal == Some(planned) && m.mine <= mine + Keys(MaskedSet(inside), Tunnel) + Keys(MaskedSet(outside), Physical)
      ==> m in CoveredMoments(narrow)
  {
    if narrow {
      NarrowListIsNarrow(inside, Tunnel);
      NarrowListIsNarrow(outside, Physical);
    }
    JournalCovers(planned, mine + Keys(MaskedSet(inside), Tunnel) + Keys(MaskedSet(outside), Physical), narrow);
  }

  // ---------------------------------------------------------------- recovery at start-up

  /** No call can fail for the listed routes but by bad luck: they are prefixes, and there is a
      link to look for them on, or it took them with it. */
  ghost predicate Deletable(listed: seq<Prefix>, via: Via, link: bool) {
    AllValid(listed) && (link || via == Tunnel || listed == [])
  }

  /** Delete every listed route of one kind.  A missing physical link is an error; a missing
      tunnel device took its routes with it. */
  method DeleteListed(host: Machine, listed: seq<Prefix>, via: Via, link: bool, ghost narrow: bool, ghost n: nat) returns (ok: bool)
    requires host.Within(n, CoveredMoments(narrow)) && host.journal.Some? && AllMasked(listed)
    requires !link && via == Tunnel ==> host.mine !! Keys(MaskedSet(listed), via)
    modifies host
    ensures host.Within(n, CoveredMoments(narrow)) && host.journal == old(host.journal)
    ensures old(host.mine) - NarrowRoutes(Keys(MaskedSet(listed), via)) <= host.mine <= old(host.mine)
    ensures old(host.routes) - NarrowRoutes(Keys(MaskedSet(listed), via)) <= host.routes <= old(host.routes)
    ensures ok ==> host.mine == old(host.mine) - NarrowRoutes(Keys(MaskedSet(listed), via))
    ensures !Deletable(listed, via, link) ==> !ok
    ensures host.reliable ==> (ok <==> Deletable(listed, via, link))
  {
    ok := true;
    for i := 0 to |listed|
      invariant host.Within(n, CoveredMoments(narrow)) && host.journal == old(host.journal)
      invariant old(host.mine) - NarrowRoutes(Keys(MaskedSet(listed[..i]), via)) <= host.mine <= old(host.mine)
      invariant old(host.routes) - NarrowRoutes(Keys(MaskedSet(listed[..i]), via)) <= host.routes <= old(host.routes)
      invariant ok ==> host.mine == old(host.mine) - NarrowRoutes(Keys(MaskedSet(listed[..i]), via))
      invariant !(AllValid(listed[..i]) && (link || via == Tunnel || i == 0)) ==> !ok
      invariant host.reliable ==> (ok <==> AllValid(listed[..i]) && (link || via == Tunnel || i == 0))
    {
      MaskedSnoc(listed, i, via);
      ValidSnoc(listed, i);
      SmallerAreCovered(host.Now(), narrow);
      var done := false;
      if Valid(listed[i]) {
        if link {
          done := host.Del(Route(listed[i], via), n, CoveredMoments(narrow));
        } else {
          done := via == Tunnel;
        }
      }
      ok := ok && done;
    }
    assert listed[..|listed|] == listed;
  }

  lemma ValidSnoc(ps: seq<Prefix>, i: nat)
    requires i < |ps|
    ensures AllValid(ps[..i + 1]) <==> AllValid(ps[..i]) && Valid(ps[i])
  {
    if AllValid(ps[..i + 1]) {
      assert ps[..i + 1][i] == ps[i];
      assert forall k :: 0 <= k < i ==> ps[..i][k] == ps[..i + 1][k];
    }
  }

  lemma SmallerAreCovered(m: Moment, narrow: bool)
    requires m in CoveredMoments(narrow)
    ensures forall x: Moment :: x.journal == m.journal && x.mine <= m.mine ==> x in CoveredMoments(narrow)
  {
    forall x: Moment | x.journal == m.journal && x.mine <= m.mine ensures x in CoveredMoments(narrow) {
      SmallerIsCovered(m, x);
    }
  }

  lemma MaskedSnoc(ps: seq<Prefix>, i: nat, via: Via)
    requires i < |ps|
    ensures Keys(MaskedSet(ps[..i + 1]), via) == Keys(MaskedSet(ps[..i]), via) + {Route(Masked(ps[i]), via)}
    ensures Route(Masked(ps[i]), via) in Keys(MaskedSet(ps), via)
  {
    assert MaskedSet(ps[..i + 1]) == MaskedSet(ps[..i]) + {Masked(ps[i])} by {
      assert forall k :: 0 <= k < i ==> ps[..i + 1][k] == ps[..i][k];
      assert ps[..i + 1][i] == ps[i];
    }
  }

  /** What a journal lists through the physical link and inside the tunnel. */
  function ListedOutside(j: Journal): seq<Prefix> {
    j.server + j.excludes + j.dynamicExclude
  }

  function ListedInside(j: Journal): seq<Prefix> {
    j.includes + j.dynamicInclude
  }

  /** Whether a recovery can succeed at all: every entry is a prefix, and the physical link is there
      unless nothing is listed through it. */
  ghost predicate Recoverable(j: Journal, physical: bool, tunnel: bool) {
    Deletable(ListedOutside(j), Physical, physical) && Deletable(ListedInside(j), Tunnel, tunnel)
  }

  /** From any moment a crash can leave behind, a recovery stays recoverable at every step, and one
      that succeeds leaves no journal and of our routes exactly those that are not IPv4: nothing
      if and only if we had none.  When no call fails it succeeds exactly if the journal is
      recoverable; if it is not, it never does.  Routes nobody listed stay. */
  method RecoverNetworkJournal(host: Machine, physical: bool, tunnel: bool, ghost narrow: bool, ghost n: nat) returns (ok: bool)
    requires host.Within(n, CoveredMoments(narrow))
    requires !tunnel ==> forall r :: r in host.mine ==> r.via == Physical
    modifies host
    ensures host.Within(n, CoveredMoments(narrow)) && host.mine <= old(host.mine)
    ensures ok ==> host.Now() == Moment(None, old(host.mine) - NarrowRoutes(old(host.mine)))
    ensures ok ==> (host.mine == {} <==> NarrowOnly(old(host.mine)))
    ensures old(host.journal).Some? && !Recoverable(old(host.journal).value, physical, tunnel) ==> !ok
    ensures host.reliable ==> (ok <==> old(host.journal).None? || Recoverable(old(host.journal).value, physical, tunnel))
    ensures host.routes <= old(host.routes)
    ensures match old(host.journal) case None => host.routes == old(host.routes) case Some(j) => old(host.routes) - Listed(j) <= host.routes
  {
    if host.journal.None? { return true; }
    var j := host.journal.value;
    ok := *;
    ok := ok || host.reliable;
    if !ok { return; }
    ListedAsConcatenated(j);
    ghost var start := host.mine;
    var outsideGone := DeleteListed(host, ListedOutside(j), Physical, physical, narrow, n);
    var insideGone := DeleteListed(host, ListedInside(j), Tunnel, tunnel, narrow, n);
    var resolver: bool := *;
    ok := outsideGone && insideGone && (resolver || host.reliable);
    if ok {
      assert host.mine == start - NarrowRoutes(Listed(j));
      assert NarrowRoutes(host.mine) == {} && host.mine == start - NarrowRoutes(start);
      ok := host.WriteJournal(None, n, CoveredMoments(narrow));
    }
  }

  /** A journal that can never be recovered: excluded routes of a configuration that named no
      physical link.  It was installed without them, or the daemon died before it noticed. */
  lemma ExcludesWithoutLinkAreStuck(cfg: Config, tunnel: bool)
    requires cfg.excludes != []
    ensures !Recoverable(JournalOf(cfg), false, tunnel)
  {
    assert ListedOutside(JournalOf(cfg))[|ServerList(cfg)|] == MaskAll(cfg.excludes)[0];
  }

  lemma ListedAsConcatenated(j: Journal)
    requires Canonical(j)
    ensures Listed(j) == Keys(MaskedSet(ListedOutside(j)), Physical) + Keys(MaskedSet(ListedInside(j)), Tunnel)
    ensures AllMasked(ListedOutside(j)) && AllMasked(ListedInside(j))
  {
    MaskedConcat(j.server, j.excludes);
    MaskedConcat(j.server + j.excludes, j.dynamicExclude);
    MaskedConcat(j.includes, j.dynamicInclude);
  }

  lemma MaskedConcat(ps: seq<Prefix>, qs: seq<Prefix>)
    ensures MaskedSet(ps + qs) == MaskedSet(ps) + MaskedSet(qs)
  {
    assert Elements(ps + qs) == Elements(ps) + Elements(qs);
    MaskedElements(ps, qs, ps + qs);
  }
}
