/** IP prefixes as the route code sees them. */
module Prefixes {

  /** An address of `width` 32 or 128 bits and a prefix length; or the invalid zero prefix. */
  datatype Prefix = Prefix(value: nat, width: nat, bits: nat) | Invalid

  function Pow2(n: nat): (r: nat)
    ensures r > 0
  {
    if n == 0 then 1 else 2 * Pow2(n - 1)
  }

  predicate Valid(p: Prefix) {
    p.Prefix? && (p.width == 32 || p.width == 128) && p.bits <= p.width && p.value < Pow2(p.width)
  }

  /** The largest multiple of `m` up to `v`. */
  function RoundDown(v: nat, m: nat): (r: nat)
    requires m > 0
    ensures r <= v
  {
    v / m * m
  }

  /** Clear the host bits; an invalid prefix masks to the zero prefix. */
  function Masked(p: Prefix): Prefix {
    if Valid(p) then p.(value := RoundDown(p.value, Pow2(p.width - p.bits))) else Invalid
  }

  function Host(value: nat, width: nat): Prefix {
    Prefix(value, width, width)
  }

  lemma Pow2Plus8(n: nat)
    ensures Pow2(n + 8) == 256 * Pow2(n)
  {
    assert Pow2(n + 2) == 4 * Pow2(n);
    assert Pow2(n + 4) == 4 * Pow2(n + 2);
    assert Pow2(n + 6) == 4 * Pow2(n + 4);
  }

  lemma {:induction false} MultipleDivides(k: nat, m: nat)
    requires m > 0
    ensures (k * m) / m == k
  {
    if k > 0 {
      MultipleDivides(k - 1, m);
      assert k * m == (k - 1) * m + m;
      assert ((k - 1) * m + m) / m == (k - 1) * m / m + 1;
    }
  }

  lemma RoundDownTwice(v: nat, m: nat)
    requires m > 0
    ensures RoundDown(RoundDown(v, m), m) == RoundDown(v, m)
  {
    MultipleDivides(v / m, m);
  }

  lemma MaskedTwice(p: Prefix)
    ensures Masked(Masked(p)) == Masked(p)
    ensures Valid(p) ==> Valid(Masked(p))
  {
    if Valid(p) {
      var m := Pow2(p.width - p.bits);
      RoundDownTwice(p.value, m);
    }
  }

  // ---------------------------------------------------------------- which prefix that is

  lemma RoundDownIff(v: nat, m: nat, r: nat)
    requires m > 0
    ensures r == RoundDown(v, m) <==> r % m == 0 && r <= v < r + m
  {
    var q := v / m;
    assert v == q * m + v % m;
    assert q * m % m == 0 by { MultipleDivides(q, m); assert q * m == ((q * m) / m) * m + (q * m) % m; }
    if r % m == 0 && r <= v < r + m {
      var k := r / m;
      assert r == k * m;
      if k < q { ProductGrows(k, q, m); } else if k > q { ProductGrows(q, k, m); }
    }
  }

  lemma ProductGrows(a: nat, b: nat, m: nat)
    requires a < b
    ensures a * m + m <= b * m
  {
    assert b * m == (a + 1) * m + (b - a - 1) * m;
  }

  /** The network an address with a prefix length lies in: the multiple of the network's size at or
      below the address. */
  predicate IsNetworkOf(q: Prefix, p: Prefix)
    requires Valid(p)
  {
    && q.Prefix? && q.width == p.width && q.bits == p.bits
    && q.value % Pow2(p.width - p.bits) == 0
    && q.value <= p.value < q.value + Pow2(p.width - p.bits)
  }

  /** Masking yields the network, and nothing else is one. */
  lemma MaskedIsNetworkIff(p: Prefix, q: Prefix)
    requires Valid(p)
    ensures q == Masked(p) <==> IsNetworkOf(q, p)
  {
    if q.Prefix? { RoundDownIff(p.value, Pow2(p.width - p.bits), q.value); }
  }

  /** Bit `i` of an address, the lowest being bit 0. */
  function Bit(a: nat, i: nat): nat {
    a / Pow2(i) % 2
  }

  /** An address lies in a prefix when the two agree in the leading bits the prefix counts. */
  ghost predicate Contains(p: Prefix, a: nat)
    requires Valid(p)
  {
    a < Pow2(p.width) && forall i :: p.width - p.bits <= i < p.width ==> Bit(a, i) == Bit(p.value, i)
  }

  lemma HalfOfQuotient(a: nat, m: nat)
    requires m > 0
    ensures a / (2 * m) == a / m / 2
    ensures a / m == 2 * (a / (2 * m)) + a / m % 2
  {
    var q := a / m;
    var h, b := q / 2, q % 2;
    DoubleOf(h, b, m);
    QuotientIs(a, 2 * m, h, (if b == 1 then m else 0) + a % m);
  }

  lemma DoubleOf(h: nat, b: nat, m: nat)
    requires b < 2
    ensures (2 * h + b) * m == h * (2 * m) + if b == 1 then m else 0
  {
    if b == 0 { assert (2 * h) * m == h * (2 * m); } else { assert (2 * h + 1) * m == h * (2 * m) + m; }
  }

  lemma QuotientIs(a: nat, m: nat, q: nat, r: nat)
    requires m > 0 && a == q * m + r && r < m
    ensures a / m == q
  {
    var k := a / m;
    assert a == k * m + a % m;
    if k < q { ProductGrows(k, q, m); } else if k > q { ProductGrows(q, k, m); }
  }

  lemma SmallQuotient(a: nat, m: nat)
    requires a < m
    ensures a / m == 0
  {
  }

  /** Two addresses agree in their leading bits exactly when they lie between the same multiples. */
  lemma {:induction false} LeadingBits(a: nat, b: nat, n: nat, width: nat)
    requires n <= width && a < Pow2(width) && b < Pow2(width)
    ensures (forall i :: n <= i < width ==> Bit(a, i) == Bit(b, i)) <==> a / Pow2(n) == b / Pow2(n)
    decreases width - n
  {
    if n == width {
      SmallQuotient(a, Pow2(n));
      SmallQuotient(b, Pow2(n));
    } else {
      LeadingBits(a, b, n + 1, width);
      assert Pow2(n + 1) == 2 * Pow2(n);
      HalfOfQuotient(a, Pow2(n));
      HalfOfQuotient(b, Pow2(n));
      assert (forall i :: n <= i < width ==> Bit(a, i) == Bit(b, i))
             <==> Bit(a, n) == Bit(b, n) && forall i :: n + 1 <= i < width ==> Bit(a, i) == Bit(b, i);
    }
  }

  lemma SameMultiple(a: nat, b: nat, m: nat)
    requires m > 0
    ensures RoundDown(a, m) == RoundDown(b, m) <==> a / m == b / m
  {
    MultipleDivides(a / m, m);
    MultipleDivides(b / m, m);
  }

  /** Two prefixes of one length mask alike if and only if they contain the same addresses. */
  lemma MaskAlikeIff(p: Prefix, q: Prefix)
    requires Valid(p) && Valid(q) && p.width == q.width && p.bits == q.bits
    ensures Masked(p) == Masked(q) <==> forall a :: Contains(p, a) <==> Contains(q, a)
  {
    var n := p.width - p.bits;
    SameMultiple(p.value, q.value, Pow2(n));
    LeadingBits(p.value, q.value, n, p.width);
    if Masked(p) == Masked(q) {
      assert forall i :: n <= i < p.width ==> Bit(p.value, i) == Bit(q.value, i);
    } else {
      assert Contains(p, p.value) && !Contains(q, p.value);
    }
  }

  /** And a masked prefix contains what the prefix contained. */
  lemma MaskedContainsTheSame(p: Prefix, a: nat)
    requires Valid(p)
    ensures Valid(Masked(p)) && (Contains(Masked(p), a) <==> Contains(p, a))
  {
    MaskedTwice(p);
    MaskAlikeIff(p, Masked(p));
  }

  lemma HostIsMasked(value: nat, width: nat)
    requires Valid(Host(value, width))
    ensures Masked(Host(value, width)) == Host(value, width)
  {
    assert Pow2(0) == 1;
  }

  /** A host prefix contains its own address only. */
  lemma HostContainsItself(value: nat, width: nat, a: nat)
    requires Valid(Host(value, width))
    ensures Contains(Host(value, width), a) <==> a == value
  {
    assert Pow2(0) == 1;
    if a < Pow2(width) { LeadingBits(a, value, 0, width); }
  }
}

/** The kernel routing table, and the reconciliation of one group of routes the tunnel owns. */
module RouteTable {
  import opened Common
  import opened Prefixes

  /** The link, gateway and priority a group installs its routes with. */
  datatype Via = Tunnel | Physical

  datatype Route = Route(dst: Prefix, via: Via)

  datatype Journal = Journal(phase: string, server: seq<Prefix>, includes: seq<Prefix>, excludes: seq<Prefix>,
                             dynamicInclude: seq<Prefix>, dynamicExclude: seq<Prefix>)

  /** What a crash leaves behind: the journal file and the routes this program has in the table. */
  datatype Moment = Moment(journal: Option<Journal>, mine: set<Route>)

  ghost function Keys(ps: set<Prefix>, via: Via): set<Route> {
    set p | p in ps :: Route(p, via)
  }

  ghost function MaskedSet(ps: seq<Prefix>): set<Prefix> {
    set i | 0 <= i < |ps| :: Masked(ps[i])
  }

  /** Only IPv4 routes are looked up for deletion. */
  predicate Narrow(p: Prefix) {
    p.Prefix? && p.width == 32
  }

  ghost function Wide(ps: set<Prefix>): set<Prefix> {
    set p | p in ps && !Narrow(p)
  }

  ghost function NarrowRoutes(rs: set<Route>): set<Route> {
    set r | r in rs && Narrow(r.dst)
  }

  /** The machine: its routing table and the journal file.  A route call that fails changes
      nothing; a file call that fails may have taken effect.  A reliable machine does not fail. */
  class Machine {
    const reliable: bool
    var routes: set<Route>
    ghost var mine: set<Route>
    var journal: Option<Journal>
    ghost var trail: seq<Moment>

    ghost function Now(): Moment
      reads this
    {
      Moment(journal, mine)
    }

    /** Our routes are in the table, and every moment since the trail had `n` entries, and the
        present one, is in `plan`. */
    ghost predicate Within(n: nat, plan: iset<Moment>)
      reads this
    {
      mine <= routes && n <= |trail| && Now() in plan && forall k :: n <= k < |trail| ==> trail[k] in plan
    }

    constructor (routes: set<Route>, reliable: bool)
      ensures this.routes == routes && mine == {} && journal == None && trail == [] && this.reliable == reliable
    {
      this.reliable := reliable;
      this.routes, mine, journal, trail := routes, {}, None, [];
    }

    method Add(r: Route, ghost n: nat, ghost plan: iset<Moment>) returns (ok: bool)
      requires Within(n, plan) && Moment(journal, mine + {r}) in plan
      modifies this
      ensures Within(n, plan) && journal == old(journal)
      ensures ok ==> r !in old(routes) && routes == old(routes) + {r} && mine == old(mine) + {r}
      ensures !ok ==> routes == old(routes) && mine == old(mine)
      ensures reliable ==> (ok <==> r !in old(routes))
      ensures trail == old(trail) + [Now()]
    {
      ok := *;
      ok := (ok || reliable) && r !in routes;
      if ok { routes, mine := routes + {r}, mine + {r}; }
      trail := trail + [Now()];
    }

    /** Deleting a route that is not there succeeds, and so does deleting one that is not looked
        for: it stays. */
    method Del(r: Route, ghost n: nat, ghost plan: iset<Moment>) returns (ok: bool)
      requires Within(n, plan) && Moment(journal, mine - {r}) in plan
      modifies this
      ensures Within(n, plan) && journal == old(journal)
      ensures ok && Narrow(r.dst) ==> routes == old(routes) - {r} && mine == old(mine) - {r}
      ensures !ok || !Narrow(r.dst) ==> routes == old(routes) && mine == old(mine)
      ensures reliable ==> ok
      ensures trail == old(trail) + [Now()]
    {
      ok := *;
      ok := ok || reliable;
      if ok && Narrow(r.dst) { routes, mine := routes - {r}, mine - {r}; }
      trail := trail + [Now()];
    }

    /** The file is replaced atomically. */
    method WriteJournal(j: Option<Journal>, ghost n: nat, ghost plan: iset<Moment>) returns (ok: bool)
      requires Within(n, plan) && Moment(j, mine) in plan
      modifies this
      ensures Within(n, plan) && routes == old(routes) && mine == old(mine)
      ensures journal == j || (!ok && journal == old(journal))
      ensures reliable ==> ok
      ensures trail == old(trail) + [Now()]
    {
      var effect: bool := *;
      ok := *;
      ok := ok || reliable;
      if ok || effect { journal := j; }
      trail := trail + [Now()];
    }
  }

  // ---------------------------------------------------------------- the difference of two sets

  ghost predicate Distinct(ps: seq<Prefix>) {
    forall i, j :: 0 <= i < j < |ps| ==> ps[i] != ps[j]
  }

  ghost function Elements(ps: seq<Prefix>): set<Prefix> {
    set p | p in ps
  }

  ghost predicate AllValid(ps: seq<Prefix>) {
    forall i :: 0 <= i < |ps| ==> Valid(ps[i])
  }

  /** Exactly the networks the listed prefixes lie in. */
  ghost predicate AreNetworksOf(qs: set<Prefix>, ps: seq<Prefix>)
    requires AllValid(ps)
  {
    && (forall q :: q in qs ==> exists i :: 0 <= i < |ps| && IsNetworkOf(q, ps[i]))
    && (forall q, i :: 0 <= i < |ps| && IsNetworkOf(q, ps[i]) ==> q in qs)
  }

  lemma MaskedSetIsNetworks(ps: seq<Prefix>)
    requires AllValid(ps)
    ensures AreNetworksOf(MaskedSet(ps), ps)
  {
    forall q, i | 0 <= i < |ps| ensures q == Masked(ps[i]) <==> IsNetworkOf(q, ps[i]) {
      MaskedIsNetworkIff(ps[i], q);
    }
  }

  /** What to add and to delete to get from `owned` to the masked, de-duplicated `next`. */
  method DiffPrefixes(owned: set<Prefix>, next: seq<Prefix>)
    returns (add: seq<Prefix>, del: seq<Prefix>, state: set<Prefix>)
    ensures state == MaskedSet(next) && (AllValid(next) ==> AreNetworksOf(state, next))
    ensures Distinct(add) && Elements(add) == state - owned
    ensures Distinct(del) && Elements(del) == owned - state
  {
    add, del, state := [], [], {};
    for i := 0 to |next|
      invariant state == MaskedSet(next[..i])
      invariant Distinct(add) && Elements(add) == state - owned
    {
      var p := Masked(next[i]);
      assert MaskedSet(next[..i + 1]) == MaskedSet(next[..i]) + {p} by {
        assert forall k :: 0 <= k < i ==> next[..i + 1][k] == next[..i][k];
        assert next[..i + 1][i] == next[i];
      }
      if p !in state {
        state := state + {p};
        if p !in owned {
          assert p !in Elements(add);
          assert Elements(add + [p]) == Elements(add) + {p};
          add := add + [p];
        }
      }
    }
    assert next[..|next|] == next;
    if AllValid(next) { MaskedSetIsNetworks(next); }
    var todo := owned;
    while todo != {}
      invariant todo <= owned
      invariant Distinct(del) && Elements(del) == (owned - todo) - state
    {
      var p :| p in todo;
      todo := todo - {p};
      if p !in state {
        assert p !in Elements(del);
        assert Elements(del + [p]) == Elements(del) + {p};
        del := del + [p];
      }
    }
  }

  // ---------------------------------------------------------------- reconciling one group

  datatype SyncResult = Synced | AddFailed | DelFailed | BadPrefix(leaked: set<Prefix>)

  /** The group of routes owned through `via` is exactly what it claims: its routes are ours and
      in the table. */
  ghost predicate OwnsExactly(m: Machine, before: set<Route>, owned: set<Prefix>, owned': set<Prefix>, via: Via)
    reads m
  {
    m.routes == (before - Keys(owned, via)) + Keys(owned', via)
  }

  /** The moments a reconciliation may pass through: the journal stays, and of our routes at most
      the target is added. */
  ghost predicate SyncMoment(m: Moment, start: Moment, next: seq<Prefix>, via: Via) {
    m.journal == start.journal && m.mine <= start.mine + Keys(MaskedSet(next), via)
  }

  /** The adding half: `own` is owned afterwards; a failure stops it. */
  method AddAll(host: Machine, owned: set<Prefix>, add: seq<Prefix>, via: Via, ghost n: nat, ghost plan: iset<Moment>)
    returns (own: set<Prefix>, bad: bool, ok: bool)
    requires host.Within(n, plan)
    requires forall m: Moment :: m.journal == host.journal && m.mine <= host.mine + Keys(Elements(add), via) ==> m in plan
    requires Elements(add) !! owned && Keys(owned, via) <= host.mine
    modifies host
    ensures host.Within(n, plan) && host.journal == old(host.journal)
    ensures owned <= own <= owned + Elements(add) && (ok ==> own == owned + Elements(add))
    ensures Keys(own - owned, via) !! old(host.routes)
    ensures host.routes == old(host.routes) + Keys(own, via) && host.mine == old(host.mine) + Keys(own, via)
    ensures bad ==> !ok && exists p :: p in add && !Valid(p)
    ensures host.reliable && Distinct(add) && AllValid(add) && Keys(Elements(add), via) !! old(host.routes) ==> ok
  {
    own, bad := owned, false;
    for i := 0 to |add|
      invariant own == owned + Elements(add[..i])
      invariant host.Within(n, plan) && host.journal == old(host.journal)
      invariant Keys(own - owned, via) !! old(host.routes)
      invariant host.routes == old(host.routes) + Keys(own, via) && host.mine == old(host.mine) + Keys(own, via)
    {
      assert add[i] in Elements(add);
      if !Valid(add[i]) { return own, true, false; }
      assert Route(add[i], via) in Keys(Elements(add), via);
      assert Distinct(add) ==> add[i] !in Elements(add[..i]);
      ok := host.Add(Route(add[i], via), n, plan);
      if !ok { return; }
      assert Elements(add[..i + 1]) == Elements(add[..i]) + {add[i]};
      assert Keys(own + {add[i]}, via) == Keys(own, via) + {Route(add[i], via)};
      own := own + {add[i]};
    }
    assert add[..|add|] == add;
    ok := true;
  }

  /** What is really in the table when `own` is left of `owned`: a deleted prefix that is not
      looked for is still there. */
  ghost function Remains(owned: set<Prefix>, own: set<Prefix>): set<Prefix> {
    own + Wide(owned - own)
  }

  lemma RemainsAfterOne(owned: set<Prefix>, own: set<Prefix>, p: Prefix)
    requires own <= owned && p in own
    ensures Remains(owned, own - {p}) == if Narrow(p) then Remains(owned, own) - {p} else Remains(owned, own)
  {
  }

  lemma KeysWithoutOne(ps: set<Prefix>, p: Prefix, via: Via)
    ensures Keys(ps - {p}, via) == Keys(ps, via) - {Route(p, via)}
  {
  }

  /** The deleting half. */
  method DelAll(host: Machine, owned: set<Prefix>, del: seq<Prefix>, via: Via, ghost n: nat, ghost plan: iset<Moment>)
    returns (own: set<Prefix>, ok: bool)
    requires host.Within(n, plan)
    requires forall m: Moment :: m.journal == host.journal && m.mine <= host.mine ==> m in plan
    requires Distinct(del) && Elements(del) <= owned && Keys(owned, via) <= host.mine
    modifies host
    ensures host.Within(n, plan) && host.journal == old(host.journal)
    ensures owned - Elements(del) <= own <= owned && (ok ==> own == owned - Elements(del))
    ensures host.reliable ==> ok
    ensures host.routes == (old(host.routes) - Keys(owned, via)) + Keys(Remains(owned, own), via)
    ensures host.mine == (old(host.mine) - Keys(owned, via)) + Keys(Remains(owned, own), via)
  {
    own := owned;
    assert Remains(owned, owned) == owned;
    for i := 0 to |del|
      invariant own == owned - Elements(del[..i])
      invariant host.Within(n, plan) && host.journal == old(host.journal)
      invariant host.routes == (old(host.routes) - Keys(owned, via)) + Keys(Remains(owned, own), via)
      invariant host.mine == (old(host.mine) - Keys(owned, via)) + Keys(Remains(owned, own), via)
    {
      KeysMonotone(Remains(owned, own), owned, via);
      assert del[i] in Elements(del) && del[i] !in Elements(del[..i]);
      RemainsAfterOne(owned, own, del[i]);
      KeysWithoutOne(Remains(owned, own), del[i], via);
      assert Route(del[i], via) in Keys(owned, via);
      ok := host.Del(Route(del[i], via), n, plan);
      assert Elements(del[..i]) <= Elements(del);
      if !ok { return; }
      assert Elements(del[..i + 1]) == Elements(del[..i]) + {del[i]};
      own := own - {del[i]};
    }
    assert del[..|del|] == del;
    ok := true;
  }

  lemma Exchanged(before: set<Route>, owned: set<Prefix>, own: set<Prefix>, rest: set<Prefix>, via: Via)
    requires owned <= own && Keys(own - owned, via) !! before
    ensures ((before + Keys(own, via)) - Keys(own, via)) + Keys(rest, via) == (before - Keys(owned, via)) + Keys(rest, via)
    ensures before + Keys(own, via) == (before - Keys(owned, via)) + Keys(own, via)
  {
    forall r | r in before && r in Keys(own, via) ensures r in Keys(owned, via) {
      assert r.dst in owned || r in Keys(own - owned, via);
    }
  }

  lemma KeysMonotone(a: set<Prefix>, b: set<Prefix>, via: Via)
    requires a <= b
    ensures Keys(a, via) <= Keys(b, via)
  {
  }

  lemma ValidTargets(next: seq<Prefix>)
    requires AllValid(next)
    ensures forall p :: p in MaskedSet(next) ==> Valid(p)
  {
    forall i | 0 <= i < |next| ensures Valid(Masked(next[i])) {
      MaskedTwice(next[i]);
    }
  }

  lemma LeakIsNotOwned(before: set<Route>, owned: set<Prefix>, own: set<Prefix>, via: Via)
    requires owned <= own && Keys(own - owned, via) !! before && Keys(owned, via) <= before
    ensures own == owned <==> before + Keys(own, via) == (before - Keys(owned, via)) + Keys(owned, via)
    ensures before + Keys(own, via) == before + Keys(own - owned, via)
  {
    if own - owned == {} {
      assert own == owned;
    } else {
      var p :| p in own - owned;
      assert Route(p, via) in Keys(own - owned, via) && Route(p, via) in Keys(own, via);
    }
    assert own == owned + (own - owned);
  }

  lemma SurplusRemains(owned: set<Prefix>, own: set<Prefix>, rest: set<Prefix>, target: set<Prefix>)
    requires owned <= own <= owned + target && rest <= own && own - rest <= owned - target
    ensures Remains(own, rest) == Remains(owned, rest)
  {
  }

  lemma WideIsNotOwned(before: set<Route>, owned: set<Prefix>, rest: set<Prefix>, via: Via)
    requires Keys(owned, via) <= before
    ensures (before - Keys(owned, via)) + Keys(Remains(owned, rest), via) == (before - Keys(owned, via)) + Keys(rest, via)
            <==> Wide(owned - rest) == {}
  {
    if Wide(owned - rest) != {} {
      var p :| p in Wide(owned - rest);
      assert Route(p, via) in Keys(Remains(owned, rest), via) && Route(p, via) in Keys(owned, via) && Route(p, via) !in Keys(rest, via);
    } else {
      assert Remains(owned, rest) == rest;
    }
  }

  /** Add what is missing, then delete what is surplus, and report what is owned now.  At every
      exit the owned set is exactly what the group has in the table and no other route was
      touched, with two exceptions: a target that contains an invalid prefix, whose failure
      forgets what was added before it; and a surplus prefix that is not IPv4, which counts as
      deleted and stays. */
  method SyncRoutes(host: Machine, owned: set<Prefix>, next: seq<Prefix>, via: Via, link: bool,
                    ghost n: nat, ghost plan: iset<Moment>)
    returns (owned': set<Prefix>, r: SyncResult)
    requires Keys(owned, via) <= host.mine && host.Within(n, plan)
    requires forall m :: SyncMoment(m, host.Now(), next, via) ==> m in plan
    modifies host
    ensures host.Within(n, plan) && host.journal == old(host.journal)
    ensures Keys(owned', via) <= host.mine
    ensures !link ==> r.Synced? && owned' == owned && host.routes == old(host.routes) && host.mine == old(host.mine)
    ensures r.Synced? && link ==> owned' == MaskedSet(next)
    ensures r.Synced? && link && AllValid(next) ==> AreNetworksOf(owned', next)
    ensures OwnsExactly(host, old(host.routes), owned, owned', via)
            <==> !(r.BadPrefix? && r.leaked != {}) && Wide(owned - owned') == {}
    ensures !r.BadPrefix? ==> host.mine == (old(host.mine) - Keys(owned, via)) + Keys(Remains(owned, owned'), via)
    ensures Keys(owned' - owned, via) !! old(host.routes) && owned' <= owned + MaskedSet(next)
    ensures AllValid(next) ==> !r.BadPrefix?
    ensures forall x: Route :: x.via != via ==> (x in host.routes <==> x in old(host.routes))
    ensures host.reliable && link && AllValid(next) ==> (r.Synced? <==> Keys(MaskedSet(next) - owned, via) !! old(host.routes))
    ensures r.BadPrefix? ==> owned' == owned && r.leaked !! owned && host.mine == old(host.mine) + Keys(r.leaked, via)
  {
    WideIsNotOwned(host.routes, owned, owned, via);
    if !link { return owned, Synced; }
    var add, del, state := DiffPrefixes(owned, next);
    ghost var before, ours := host.routes, host.mine;
    KeysMonotone(Elements(add), MaskedSet(next), via);
    var own, bad, ok := AddAll(host, owned, add, via, n, plan);
    Exchanged(before, owned, own, own, via);
    Exchanged(ours, owned, own, own, via);
    assert forall p :: p in add ==> p in Elements(add);
    if AllValid(next) {
      ValidTargets(next);
      MaskedSetIsNetworks(next);
    }
    if bad {
      LeakIsNotOwned(before, owned, own, via);
      LeakIsNotOwned(ours, owned, own, via);
      r := BadPrefix(own - owned);
      return owned, r;
    }
    WideIsNotOwned(before, owned, own, via);
    assert Remains(owned, own) == own;
    if !ok { return own, AddFailed; }
    var rest;
    rest, ok := DelAll(host, own, del, via, n, plan);
    SurplusRemains(owned, own, rest, MaskedSet(next));
    Exchanged(before, owned, own, Remains(owned, rest), via);
    Exchanged(ours, owned, own, Remains(owned, rest), via);
    WideIsNotOwned(before, owned, rest, via);
    KeysMonotone(rest - owned, own - owned, via);
    if !ok { return rest, DelFailed; }
    owned', r := rest, Synced;
  }
}
