/** Which addresses a DNS response gives a name, and for how long. */
module DnsAnswers {
  import opened Common

  const SECOND: nat := 1_000_000_000
  const MINIMUM_TTL: nat := 30 * SECOND
  const MAXIMUM_TTL: nat := 3600 * SECOND

  /** An IPv4 address. */
  type Addr = a: nat | a < 0x1_0000_0000 witness 0

  /** Names are normalised; `None` is a name the normalisation refuses. */
  datatype Record = CName(target: Option<string>) | Address(addr: Option<Addr>) | OtherRecord
  datatype Answer = Answer(name: Option<string>, internet: bool, record: Record, ttl: nat)
  datatype Question = Question(name: Option<string>, address: bool, internet: bool)
  datatype Packet = NotDns | Dns(response: bool, questions: seq<Question>, answers: seq<Answer>)

  datatype Resolution = Resolution(query: string, addresses: seq<Addr>, ttl: nat)

  // ---------------------------------------------------------------- domain lists

  predicate EndsWith(s: string, suffix: string) {
    |suffix| <= |s| && s[|s| - |suffix|..] == suffix
  }

  predicate Under(domain: string, name: string) {
    domain != "" && (name == domain || EndsWith(name, "." + domain))
  }

  /** A name lies under a domain when it is the domain, or ends in a dot and the domain. */
  lemma UnderIff(domain: string, name: string)
    ensures Under(domain, name) <==> domain != "" && (name == domain || exists host :: name == host + ['.'] + domain)
  {
    if Under(domain, name) && name != domain {
      var host := name[..|name| - |domain| - 1];
      assert name == host + name[|host|..] && name[|host|..] == "." + domain;
      assert name == host + ['.'] + domain;
    }
    forall host | domain != "" && name == host + ['.'] + domain ensures Under(domain, name) {
      assert name[|name| - |domain| - 1..] == "." + domain;
    }
  }

  predicate InDomains(domains: seq<string>, name: string) {
    exists i :: 0 <= i < |domains| && Under(domains[i], name)
  }

  method InArrayGeneric(domains: seq<string>, name: string) returns (found: bool)
    ensures found == InDomains(domains, name)
  {
    for i := 0 to |domains|
      invariant forall k :: 0 <= k < i ==> !Under(domains[k], name)
    {
      if Under(domains[i], name) { return true; }
    }
    found := false;
  }

  // ---------------------------------------------------------------- aliases

  predicate Aliases(a: Answer, names: set<string>) {
    a.internet && a.name.Some? && a.name.value in names && a.record.CName? && a.record.target.Some?
  }

  /** The names one pass over the answers allows, starting from the query. */
  function Allowed(query: string, answers: seq<Answer>): set<string> {
    if answers == [] then {query}
    else
      var last := answers[|answers| - 1];
      var names := Allowed(query, answers[..|answers| - 1]);
      if Aliases(last, names) then names + {last.record.target.value} else names
  }

  method CollectNames(query: string, answers: seq<Answer>) returns (names: set<string>)
    ensures names == Allowed(query, answers)
  {
    names := {query};
    for i := 0 to |answers|
      invariant names == Allowed(query, answers[..i])
    {
      assert answers[..i + 1][..i] == answers[..i];
      if Aliases(answers[i], names) { names := names + {answers[i].record.target.value}; }
    }
    assert answers[..|answers|] == answers;
  }

  /** The answers at `hops`, in the order they appear, lead from the query to `name`. */
  ghost predicate Leads(query: string, answers: seq<Answer>, hops: seq<nat>, name: string)
    decreases |hops|
  {
    if hops == [] then name == query
    else
      var k := hops[|hops| - 1];
      && k < |answers|
      && answers[k].internet && answers[k].name.Some? && answers[k].record == CName(Some(name))
      && Leads(query, answers[..k], hops[..|hops| - 1], answers[k].name.value)
  }

  lemma {:induction false} AllowedGrows(query: string, answers: seq<Answer>, k: nat)
    requires k <= |answers|
    ensures Allowed(query, answers[..k]) <= Allowed(query, answers)
    decreases |answers|
  {
    if k < |answers| {
      var shorter := answers[..|answers| - 1];
      assert shorter[..k] == answers[..k];
      AllowedGrows(query, shorter, k);
    } else {
      assert answers[..k] == answers;
    }
  }

  /** One pass finds exactly the names that an in-order chain of aliases leads to. */
  lemma {:induction false} AllowedIsChained(query: string, answers: seq<Answer>, name: string)
    ensures name in Allowed(query, answers) <==> exists hops :: Leads(query, answers, hops, name)
    decreases |answers|
  {
    if name in Allowed(query, answers) { ChainOf(query, answers, name); }
    forall hops | Leads(query, answers, hops, name) ensures name in Allowed(query, answers) {
      ChainIsFound(query, answers, hops, name);
    }
  }

  lemma {:induction false} ChainOf(query: string, answers: seq<Answer>, name: string)
    requires name in Allowed(query, answers)
    ensures exists hops :: Leads(query, answers, hops, name)
    decreases |answers|
  {
    if answers == [] {
      assert Leads(query, answers, [], name);
    } else {
      var n := |answers| - 1;
      var names := Allowed(query, answers[..n]);
      if name in names {
        ChainOf(query, answers[..n], name);
        var hops :| Leads(query, answers[..n], hops, name);
        if hops != [] { assert answers[..n][..hops[|hops| - 1]] == answers[..hops[|hops| - 1]]; }
        assert Leads(query, answers, hops, name);
      } else {
        ChainOf(query, answers[..n], answers[n].name.value);
        var hops :| Leads(query, answers[..n], hops, answers[n].name.value);
        var longer := hops + [n];
        assert longer[..|longer| - 1] == hops;
        assert Leads(query, answers, longer, name);
      }
    }
  }

  lemma {:induction false} ChainIsFound(query: string, answers: seq<Answer>, hops: seq<nat>, name: string)
    requires Leads(query, answers, hops, name)
    ensures name in Allowed(query, answers)
    decreases |hops|
  {
    AllowedGrows(query, answers, 0);
    if hops != [] {
      var k := hops[|hops| - 1];
      ChainIsFound(query, answers[..k], hops[..|hops| - 1], answers[k].name.value);
      assert answers[..k + 1][..k] == answers[..k];
      AllowedGrows(query, answers, k + 1);
    }
  }

  // ---------------------------------------------------------------- addresses and lifetime

  predicate Accepted(a: Answer, names: set<string>) {
    a.internet && a.record.Address? && a.record.addr.Some? && a.name.Some? && a.name.value in names
  }

  function Collected(names: set<string>, answers: seq<Answer>): seq<Addr> {
    if answers == [] then []
    else
      var last := answers[|answers| - 1];
      Collected(names, answers[..|answers| - 1]) + if Accepted(last, names) then [last.record.addr.value] else []
  }

  /** The shortest accepted lifetime, but an hour at most. */
  function Shortest(names: set<string>, answers: seq<Answer>): nat {
    if answers == [] then MAXIMUM_TTL
    else
      var last := answers[|answers| - 1];
      var ttl := Shortest(names, answers[..|answers| - 1]);
      if Accepted(last, names) && last.ttl * SECOND < ttl then last.ttl * SECOND else ttl
  }

  function Clamped(ttl: nat): nat {
    if ttl < MINIMUM_TTL then MINIMUM_TTL else if ttl > MAXIMUM_TTL then MAXIMUM_TTL else ttl
  }

  lemma {:induction false} CollectedAreAccepted(names: set<string>, answers: seq<Answer>, a: Addr)
    ensures a in Collected(names, answers)
            <==> exists i :: 0 <= i < |answers| && Accepted(answers[i], names) && answers[i].record.addr == Some(a)
  {
    if answers != [] {
      var n := |answers| - 1;
      CollectedAreAccepted(names, answers[..n], a);
      assert forall i :: 0 <= i < n ==> answers[..n][i] == answers[i];
      if Accepted(answers[n], names) && answers[n].record.addr == Some(a) {
        assert Collected(names, answers)[|Collected(names, answers[..n])|] == a;
      }
    }
  }

  /** The lifetime is the shortest one of an accepted answer, kept between thirty seconds and an
      hour. */
  lemma {:induction false} LifetimeIsShortest(names: set<string>, answers: seq<Answer>)
    ensures MINIMUM_TTL <= Clamped(Shortest(names, answers)) <= MAXIMUM_TTL
    ensures Shortest(names, answers) <= MAXIMUM_TTL
    ensures forall i :: 0 <= i < |answers| && Accepted(answers[i], names) ==> Shortest(names, answers) <= answers[i].ttl * SECOND
    ensures Shortest(names, answers) == MAXIMUM_TTL
            || exists i :: 0 <= i < |answers| && Accepted(answers[i], names) && Shortest(names, answers) == answers[i].ttl * SECOND
  {
    if answers != [] {
      var n := |answers| - 1;
      LifetimeIsShortest(names, answers[..n]);
      assert forall i :: 0 <= i < n ==> answers[..n][i] == answers[i];
    }
  }

  lemma ClampedIsNearest(ttl: nat)
    ensures Clamped(ttl) == ttl || (ttl < 30_000_000_000 && Clamped(ttl) == 30_000_000_000)
            || (ttl > 3600_000_000_000 && Clamped(ttl) == 3600_000_000_000)
    ensures 30_000_000_000 <= ttl <= 3600_000_000_000 ==> Clamped(ttl) == ttl
    ensures 30_000_000_000 <= Clamped(ttl) <= 3600_000_000_000
  {
  }

  method CollectAddresses(names: set<string>, answers: seq<Answer>) returns (addresses: seq<Addr>, ttl: nat)
    ensures addresses == Collected(names, answers) && ttl == Shortest(names, answers)
  {
    addresses, ttl := [], MAXIMUM_TTL;
    for i := 0 to |answers|
      invariant addresses == Collected(names, answers[..i]) && ttl == Shortest(names, answers[..i])
    {
      assert answers[..i + 1][..i] == answers[..i];
      if Accepted(answers[i], names) {
        addresses := addresses + [answers[i].record.addr.value];
        if answers[i].ttl * SECOND < ttl { ttl := answers[i].ttl * SECOND; }
      }
    }
    assert answers[..|answers|] == answers;
  }

  /** A response to one internet address question that gives the queried name an address. */
  function Resolve(packet: Packet): (r: Option<Resolution>)
    ensures r.Some? ==> r.value.addresses != [] && MINIMUM_TTL <= r.value.ttl <= MAXIMUM_TTL
  {
    if packet.NotDns? || !packet.response || |packet.questions| != 1 then None
    else
      var q := packet.questions[0];
      if !q.address || !q.internet || q.name.None? then None
      else
        var names := Allowed(q.name.value, packet.answers);
        var addresses := Collected(names, packet.answers);
        if addresses == [] then None
        else Some(Resolution(q.name.value, addresses, Clamped(Shortest(names, packet.answers))))
  }

  /** The answer at `i` gives the queried name the address `a`: it carries it, and an in-order chain
      of aliases leads from the query to its name. */
  ghost predicate Gives(query: string, answers: seq<Answer>, i: int, a: Addr) {
    && 0 <= i < |answers| && answers[i].internet && answers[i].record.Address? && answers[i].record.addr == Some(a) && answers[i].name.Some?
    && exists hops :: Leads(query, answers, hops, answers[i].name.value)
  }

  lemma GivesIff(query: string, answers: seq<Answer>, i: int, a: Addr)
    requires 0 <= i < |answers|
    ensures Gives(query, answers, i, a) <==> Accepted(answers[i], Allowed(query, answers)) && answers[i].record.addr == Some(a)
  {
    if answers[i].name.Some? {
      var name := answers[i].name.value;
      if name in Allowed(query, answers) { ChainOf(query, answers, name); }
      if hops :| Leads(query, answers, hops, name) { ChainIsFound(query, answers, hops, name); }
    }
  }

  /** An address is taken exactly when an in-order chain of aliases leads from the query to the
      name of an address answer that carries it. */
  lemma ResolvedExactly(packet: Packet, a: Addr)
    requires Resolve(packet).Some?
    ensures a in Resolve(packet).value.addresses <==> exists i :: Gives(Resolve(packet).value.query, packet.answers, i, a)
  {
    var query := Resolve(packet).value.query;
    CollectedAreAccepted(Allowed(query, packet.answers), packet.answers, a);
    forall i | 0 <= i < |packet.answers|
      ensures Gives(query, packet.answers, i, a) <==>
                Accepted(packet.answers[i], Allowed(query, packet.answers)) && packet.answers[i].record.addr == Some(a)
    {
      GivesIff(query, packet.answers, i, a);
    }
  }

  /** A packet is used exactly when it is a response to one internet address question whose name
      is accepted, and some answer gives that name an address. */
  lemma ResolvesIff(packet: Packet)
    ensures Resolve(packet).Some? <==>
            && packet.Dns? && packet.response && |packet.questions| == 1
            && packet.questions[0].address && packet.questions[0].internet && packet.questions[0].name.Some?
            && exists i, a :: Gives(packet.questions[0].name.value, packet.answers, i, a)
    ensures Resolve(packet).Some? ==> Some(Resolve(packet).value.query) == packet.questions[0].name
  {
    if packet.Dns? && packet.response && |packet.questions| == 1 && packet.questions[0].name.Some? {
      CollectsIff(packet.questions[0].name.value, packet.answers);
    }
  }

  lemma CollectsIff(query: string, answers: seq<Answer>)
    ensures Collected(Allowed(query, answers), answers) != [] <==> exists i, a :: Gives(query, answers, i, a)
  {
    var names := Allowed(query, answers);
    var addresses := Collected(names, answers);
    if addresses != [] {
      var a := addresses[0];
      assert a in addresses;
      CollectedAreAccepted(names, answers, a);
      var i :| 0 <= i < |answers| && Accepted(answers[i], names) && answers[i].record.addr == Some(a);
      GivesIff(query, answers, i, a);
    }
    if i, a :| Gives(query, answers, i, a) {
      GivesIff(query, answers, i, a);
      CollectedAreAccepted(names, answers, a);
    }
  }

  /** Its lifetime is that of the answer that lives shortest among those used, in nanoseconds, but
      thirty seconds at least and an hour at most. */
  lemma ResolvedLifetime(packet: Packet)
    requires Resolve(packet).Some?
    ensures var r := Resolve(packet).value;
            && 30_000_000_000 <= r.ttl <= 3600_000_000_000
            && (forall i, a :: Gives(r.query, packet.answers, i, a) ==>
                  r.ttl == 30_000_000_000 || r.ttl <= packet.answers[i].ttl * 1_000_000_000)
            && (r.ttl == 3600_000_000_000
                || exists i, a :: Gives(r.query, packet.answers, i, a)
                     && (if r.ttl == 30_000_000_000 then packet.answers[i].ttl <= 30 else r.ttl == packet.answers[i].ttl * 1_000_000_000))
  {
    var r := Resolve(packet).value;
    var names := Allowed(r.query, packet.answers);
    LifetimeIsShortest(names, packet.answers);
    forall i, a | Gives(r.query, packet.answers, i, a)
      ensures r.ttl == 30_000_000_000 || r.ttl <= packet.answers[i].ttl * 1_000_000_000
    {
      GivesIff(r.query, packet.answers, i, a);
    }
    if r.ttl != 3600_000_000_000 {
      var i :| 0 <= i < |packet.answers| && Accepted(packet.answers[i], names)
               && Shortest(names, packet.answers) == packet.answers[i].ttl * SECOND;
      GivesIff(r.query, packet.answers, i, packet.answers[i].record.addr.value);
    }
  }
}

/** The lease tables and the worker that keeps the dynamic host routes equal to them. */
module DynamicRoutes {
  import opened Common
  import opened Prefixes
  import opened RouteTable
  import opened NetworkJournal
  import opened DnsAnswers

  const MAXIMUM_ROUTES: nat := 4096

  datatype Lease = Lease(addresses: seq<Addr>, expires: nat)

  type Table = map<string, Lease>

  /** The domain lists of a session; they are set before the worker starts. */
  datatype Domains = Domains(includes: seq<string>, excludes: seq<string>)

  /** Both tables, and when each name was last granted a lease. */
  datatype Book = Book(includes: Table, excludes: Table, granted: map<string, nat>)

  datatype Event = Heard(packet: Packet, now: nat) | Ticked(now: nat)

  ghost function Held(t: Table): set<Addr> {
    set q, a | q in t && a in t[q].addresses :: a
  }

  ghost function AddrSet(addresses: seq<Addr>): set<Addr> {
    set a | a in addresses
  }

  /** The addresses there would be if `query` were answered with `addresses`. */
  ghost function Prospective(b: Book, query: string, addresses: seq<Addr>): set<Addr> {
    Held(b.includes - {query}) + Held(b.excludes - {query}) + AddrSet(addresses)
  }

  datatype Side = Inside | Outside

  /** The table a name belongs to; the included domains come first. */
  predicate Selects(domains: Domains, side: Side, query: string) {
    match side
    case Inside => InDomains(domains.includes, query)
    case Outside => !InDomains(domains.includes, query) && InDomains(domains.excludes, query)
  }

  function SideTable(b: Book, side: Side): Table {
    match side case Inside => b.includes case Outside => b.excludes
  }

  ghost function Store(b: Book, side: Side, r: Resolution, now: nat): Book {
    var lease := Lease(r.addresses, now + r.ttl);
    match side
    case Inside => Book(b.includes[r.query := lease], b.excludes, b.granted[r.query := now])
    case Outside => Book(b.includes, b.excludes[r.query := lease], b.granted[r.query := now])
  }

  ghost function Grant(domains: Domains, b: Book, r: Option<Resolution>, now: nat): Book {
    if r.None? || |Prospective(b, r.value.query, r.value.addresses)| > MAXIMUM_ROUTES then b
    else if Selects(domains, Inside, r.value.query) then Store(b, Inside, r.value, now)
    else if Selects(domains, Outside, r.value.query) then Store(b, Outside, r.value, now)
    else b
  }

  function Live(t: Table, now: nat): Table {
    map q | q in t && t[q].expires > now :: t[q]
  }

  ghost function Apply(domains: Domains, b: Book, e: Event): Book {
    match e
    case Heard(packet, now) => Grant(domains, b, Resolve(packet), now)
    case Ticked(now) => Expired(b, now)
  }

  function Expired(b: Book, now: nat): Book {
    b.(includes := Live(b.includes, now), excludes := Live(b.excludes, now))
  }

  ghost function Run(domains: Domains, b: Book, events: seq<Event>): Book
    decreases |events|
  {
    if events == [] then b else Run(domains, Apply(domains, b, events[0]), events[1..])
  }

  // ---------------------------------------------------------------- invariants of the tables

  /** Each name lives in the one table its domain lists select. */
  ghost predicate OneTable(domains: Domains, b: Book) {
    forall side, q :: q in SideTable(b, side) ==> Selects(domains, side, q)
  }

  ghost predicate Timely(t: Table, granted: map<string, nat>) {
    forall q :: q in t ==> q in granted && granted[q] + MINIMUM_TTL <= t[q].expires <= granted[q] + MAXIMUM_TTL
  }

  ghost predicate Inv(domains: Domains, b: Book) {
    && OneTable(domains, b)
    && WithinLimit(b)
    && AllTimely(b)
  }

  ghost predicate WithinLimit(b: Book) {
    |Held(b.includes) + Held(b.excludes)| <= MAXIMUM_ROUTES
  }

  ghost predicate AllTimely(b: Book) {
    Timely(b.includes, b.granted) && Timely(b.excludes, b.granted)
  }

  lemma HeldAfterStore(t: Table, query: string, lease: Lease)
    ensures Held(t[query := lease]) == Held(t - {query}) + AddrSet(lease.addresses)
  {
    var next := t[query := lease];
    forall a | a in Held(t - {query}) + AddrSet(lease.addresses) ensures a in Held(next) {
      if a in lease.addresses {
        assert query in next && a in next[query].addresses;
      } else {
        var q :| q in t - {query} && a in (t - {query})[q].addresses;
        assert q in next && a in next[q].addresses;
      }
    }
    forall a | a in Held(next) ensures a in Held(t - {query}) + AddrSet(lease.addresses) {
      var q :| q in next && a in next[q].addresses;
      if q != query { assert q in t - {query} && (t - {query})[q] == t[q]; }
    }
  }

  lemma HeldWithoutStranger(t: Table, query: string)
    requires query !in t
    ensures t - {query} == t
  {
  }

  lemma SubsetIsSmaller<T>(a: set<T>, b: set<T>)
    requires a <= b
    ensures |a| <= |b|
  {
    if a != {} {
      var x :| x in a;
      SubsetIsSmaller(a - {x}, b - {x});
    }
  }

  lemma LiveHoldsLess(b: Book, now: nat)
    ensures |Held(Live(b.includes, now)) + Held(Live(b.excludes, now))| <= |Held(b.includes) + Held(b.excludes)|
  {
    SubsetIsSmaller(Held(Live(b.includes, now)) + Held(Live(b.excludes, now)), Held(b.includes) + Held(b.excludes));
  }

  lemma UnionSwaps<T>(x: set<T>, y: set<T>, z: set<T>)
    ensures (x + z) + y == x + y + z && x + (y + z) == x + y + z
  {
  }

  lemma SideIsUnique(domains: Domains, b: Book, side: Side, query: string)
    requires OneTable(domains, b) && Selects(domains, side, query)
    ensures forall other :: query in SideTable(b, other) ==> other == side
  {
    forall other | query in SideTable(b, other) ensures other == side {
      assert Selects(domains, other, query);
    }
  }

  /** What the route count promises is what the tables hold afterwards; this is where a name must
      not live in the other table too. */
  lemma StoreHoldsProspective(b: Book, side: Side, r: Resolution, now: nat)
    requires forall other :: r.query in SideTable(b, other) ==> other == side
    ensures var after := Store(b, side, r, now);
            Held(after.includes) + Held(after.excludes) == Prospective(b, r.query, r.addresses)
  {
    var lease := Lease(r.addresses, now + r.ttl);
    match side
    case Inside =>
      assert r.query !in SideTable(b, Outside);
      HeldAfterStore(b.includes, r.query, lease);
      HeldWithoutStranger(b.excludes, r.query);
      UnionSwaps(Held(b.includes - {r.query}), Held(b.excludes), AddrSet(r.addresses));
    case Outside =>
      assert r.query !in SideTable(b, Inside);
      HeldAfterStore(b.excludes, r.query, lease);
      HeldWithoutStranger(b.includes, r.query);
      UnionSwaps(Held(b.includes), Held(b.excludes - {r.query}), AddrSet(r.addresses));
  }

  lemma StoreIsTimely(t: Table, granted: map<string, nat>, query: string, addresses: seq<Addr>, ttl: nat, now: nat)
    requires Timely(t, granted) && MINIMUM_TTL <= ttl <= MAXIMUM_TTL
    ensures Timely(t[query := Lease(addresses, now + ttl)], granted[query := now])
    ensures query !in t ==> Timely(t, granted[query := now])
  {
  }

  lemma StoreKeepsTimely(b: Book, side: Side, r: Resolution, now: nat)
    requires AllTimely(b) && MINIMUM_TTL <= r.ttl <= MAXIMUM_TTL
    requires forall other :: r.query in SideTable(b, other) ==> other == side
    ensures AllTimely(Store(b, side, r, now))
  {
    assert r.query in b.excludes ==> r.query in SideTable(b, Outside);
    assert r.query in b.includes ==> r.query in SideTable(b, Inside);
    StoreIsTimely(b.includes, b.granted, r.query, r.addresses, r.ttl, now);
    StoreIsTimely(b.excludes, b.granted, r.query, r.addresses, r.ttl, now);
  }

  lemma StoreKeepsInv(domains: Domains, b: Book, side: Side, r: Resolution, now: nat)
    requires Inv(domains, b) && Selects(domains, side, r.query)
    requires |Prospective(b, r.query, r.addresses)| <= MAXIMUM_ROUTES && MINIMUM_TTL <= r.ttl <= MAXIMUM_TTL
    ensures Inv(domains, Store(b, side, r, now))
  {
    SideIsUnique(domains, b, side, r.query);
    var after := Store(b, side, r, now);
    assert WithinLimit(after) by { StoreHoldsProspective(b, side, r, now); }
    assert AllTimely(after) by { StoreKeepsTimely(b, side, r, now); }
    StoreKeepsOneTable(domains, b, side, r, now);
  }

  lemma GrantKeepsInv(domains: Domains, b: Book, r: Option<Resolution>, now: nat)
    requires Inv(domains, b) && (r.Some? ==> MINIMUM_TTL <= r.value.ttl <= MAXIMUM_TTL)
    ensures Inv(domains, Grant(domains, b, r, now))
  {
    if r.Some? && |Prospective(b, r.value.query, r.value.addresses)| <= MAXIMUM_ROUTES {
      if Selects(domains, Inside, r.value.query) {
        StoreKeepsInv(domains, b, Inside, r.value, now);
      } else if Selects(domains, Outside, r.value.query) {
        StoreKeepsInv(domains, b, Outside, r.value, now);
      }
    }
  }

  lemma StoreKeepsOneTable(domains: Domains, b: Book, side: Side, r: Resolution, now: nat)
    requires OneTable(domains, b) && Selects(domains, side, r.query)
    ensures OneTable(domains, Store(b, side, r, now))
  {
    var after := Store(b, side, r, now);
    forall other, q | q in SideTable(after, other) ensures Selects(domains, other, q) {
      assert q in SideTable(b, other) || (q == r.query && other == side);
    }
  }

  lemma ExpiredKeepsInv(domains: Domains, b: Book, now: nat)
    requires Inv(domains, b)
    ensures Inv(domains, Expired(b, now))
  {
    var after := Expired(b, now);
    assert WithinLimit(after) by { LiveHoldsLess(b, now); }
    assert AllTimely(after) by {
      LiveIsTimely(b.includes, b.granted, now);
      LiveIsTimely(b.excludes, b.granted, now);
    }
    forall side, q | q in SideTable(after, side) ensures Selects(domains, side, q) {
      assert q in SideTable(b, side);
    }
  }

  lemma LiveIsTimely(t: Table, granted: map<string, nat>, now: nat)
    requires Timely(t, granted)
    ensures Timely(Live(t, now), granted)
  {
  }

  lemma ApplyKeepsInv(domains: Domains, b: Book, e: Event)
    requires Inv(domains, b)
    ensures Inv(domains, Apply(domains, b, e))
  {
    match e
    case Heard(packet, now) => GrantKeepsInv(domains, b, Resolve(packet), now);
    case Ticked(now) => ExpiredKeepsInv(domains, b, now);
  }

  const EmptyBook: Book := Book(map[], map[], map[])

  /** In every reachable state both tables together hold at most 4096 addresses, each name is in
      the one table its domains select, and each lease lasts thirty seconds to an hour from its
      grant. */
  lemma {:induction false} RunKeepsInv(domains: Domains, b: Book, events: seq<Event>)
    requires Inv(domains, b)
    ensures Inv(domains, Run(domains, b, events))
    decreases |events|
  {
    if events != [] {
      ApplyKeepsInv(domains, b, events[0]);
      RunKeepsInv(domains, Apply(domains, b, events[0]), events[1..]);
    }
  }

  lemma EmptyBookIsFine(domains: Domains)
    ensures Inv(domains, EmptyBook)
  {
    assert Held(map[]) == {};
  }

  /** After a pass at `now`, an address is held exactly as long as some lease that expires later
      holds it: a shared address stays until its last lease goes. */
  lemma SharedAddressStays(t: Table, now: nat, a: Addr)
    ensures a in Held(Live(t, now)) <==> exists q :: q in t && a in t[q].addresses && t[q].expires > now
  {
    if q :| q in t && a in t[q].addresses && t[q].expires > now {
      assert q in Live(t, now) && a in Live(t, now)[q].addresses;
    }
  }

  /** Without one table for each name the limit would not hold: a name already in the other table
      is left out of the count although its addresses stay. */
  lemma CountMissesTheOtherTable(query: string, given: Addr, stale: Addr, expires: nat)
    requires given != stale
    ensures var b := Book(map[], map[query := Lease([stale], expires)], map[]);
            var after := b.(includes := b.includes[query := Lease([given], expires)]);
            |Prospective(b, query, [given])| == 1 && |Held(after.includes) + Held(after.excludes)| == 2
  {
    var b := Book(map[], map[query := Lease([stale], expires)], map[]);
    var after := b.(includes := b.includes[query := Lease([given], expires)]);
    assert b.excludes - {query} == map[] && b.includes - {query} == map[];
    assert Held(map[]) == {};
    assert Prospective(b, query, [given]) == {given};
    HeldAfterStore(b.includes, query, Lease([given], expires));
    HeldAfterStore(map[], query, Lease([stale], expires));
    HeldWithoutStranger(map[], query);
    assert Held(after.includes) + Held(after.excludes) == {given, stale};
  }

  // ---------------------------------------------------------------- the clock

  /** No packet was handled later than this.  Ticks carry the time they were queued, which may be
      earlier than that of a packet handled before them, so event times need not be in order. */
  ghost predicate HeardBy(events: seq<Event>, latest: nat) {
    forall e :: e in events && e.Heard? ==> e.now <= latest
  }

  ghost predicate GrantedBy(b: Book, latest: nat) {
    forall q :: q in b.granted ==> b.granted[q] <= latest
  }

  lemma ApplyGrantsBy(domains: Domains, b: Book, e: Event, latest: nat)
    requires GrantedBy(b, latest) && (e.Heard? ==> e.now <= latest)
    ensures GrantedBy(Apply(domains, b, e), latest)
  {
    if e.Heard? {
      var r := Resolve(e.packet);
      if r.Some? {
        StoredBy(b, Inside, r.value, e.now, latest);
        StoredBy(b, Outside, r.value, e.now, latest);
      }
    }
  }

  lemma StoredBy(b: Book, side: Side, r: Resolution, now: nat, latest: nat)
    requires GrantedBy(b, latest) && now <= latest
    ensures GrantedBy(Store(b, side, r, now), latest)
  {
  }

  lemma {:induction false} RunGrantsBy(domains: Domains, b: Book, events: seq<Event>, latest: nat)
    requires GrantedBy(b, latest) && HeardBy(events, latest)
    ensures GrantedBy(Run(domains, b, events), latest)
    decreases |events|
  {
    if events != [] {
      assert events[0] in events;
      ApplyGrantsBy(domains, b, events[0], latest);
      RunGrantsBy(domains, Apply(domains, b, events[0]), events[1..], latest);
    }
  }

  /** After an expiry pass every remaining lease expires later than the pass, whatever the times of
      the events before. */
  lemma ExpiryLowerBound(domains: Domains, b: Book, now: nat, side: Side, q: string)
    requires q in SideTable(Apply(domains, b, Ticked(now)), side)
    ensures SideTable(Apply(domains, b, Ticked(now)), side)[q].expires > now
  {
  }

  /** And no lease in any reachable state expires more than an hour after the latest packet. */
  lemma ExpiryUpperBound(domains: Domains, events: seq<Event>, latest: nat, side: Side, q: string)
    requires HeardBy(events, latest) && q in SideTable(Run(domains, EmptyBook, events), side)
    ensures SideTable(Run(domains, EmptyBook, events), side)[q].expires <= latest + MAXIMUM_TTL
  {
    EmptyBookIsFine(domains);
    RunKeepsInv(domains, EmptyBook, events);
    RunGrantsBy(domains, EmptyBook, events, latest);
  }

  // ---------------------------------------------------------------- host routes

  ghost function HostSet(addresses: set<Addr>): set<Prefix> {
    set a | a in addresses :: Host(a, 32)
  }

  function Hosts(addresses: seq<Addr>): seq<Prefix> {
    seq(|addresses|, i requires 0 <= i < |addresses| => Host(addresses[i], 32))
  }

  lemma HostIsValid(a: Addr)
    ensures Valid(Host(a, 32)) && Masked(Host(a, 32)) == Host(a, 32)
  {
    Pow2Plus8(0); Pow2Plus8(8); Pow2Plus8(16); Pow2Plus8(24);
    HostIsMasked(a, 32);
  }

  lemma HostsAreMasked(addresses: seq<Addr>)
    ensures AllValid(Hosts(addresses)) && AllMasked(Hosts(addresses)) && NarrowList(Hosts(addresses))
    ensures MaskedSet(Hosts(addresses)) == HostSet(AddrSet(addresses))
  {
    forall i | 0 <= i < |addresses| ensures Valid(Hosts(addresses)[i]) && Masked(Hosts(addresses)[i]) == Host(addresses[i], 32) {
      HostIsValid(addresses[i]);
    }
    forall a | a in addresses ensures Host(a, 32) in MaskedSet(Hosts(addresses)) {
      var i :| 0 <= i < |addresses| && addresses[i] == a;
      assert Masked(Hosts(addresses)[i]) == Host(a, 32);
    }
  }

  lemma HeldIsCollected(t: Table, done: set<string>, q: string)
    requires q in t && q !in done && done <= t.Keys
    ensures Held(t - (t.Keys - done - {q})) == Held(t - (t.Keys - done)) + AddrSet(t[q].addresses)
  {
    var before, after := t - (t.Keys - done), t - (t.Keys - done - {q});
    forall a | a in Held(before) + AddrSet(t[q].addresses) ensures a in Held(after) {
      if a in t[q].addresses {
        assert q in after && a in after[q].addresses;
      } else {
        var k :| k in before && a in before[k].addresses;
        assert k in after && a in after[k].addresses;
      }
    }
    forall a | a in Held(after) ensures a in Held(before) + AddrSet(t[q].addresses) {
      var k :| k in after && a in after[k].addresses;
      if k != q { assert k in before && a in before[k].addresses; }
    }
  }

  /** All addresses of a table, one lease after the other. */
  method CollectDynamicRoutes(t: Table) returns (addresses: seq<Addr>)
    ensures AddrSet(addresses) == Held(t)
  {
    addresses := [];
    var todo := t.Keys;
    ghost var done: set<string> := {};
    assert t - (t.Keys - done) == map[];
    while todo != {}
      invariant todo <= t.Keys && done == t.Keys - todo
      invariant AddrSet(addresses) == Held(t - (t.Keys - done))
    {
      var q :| q in todo;
      HeldIsCollected(t, done, q);
      assert t.Keys - (done + {q}) == t.Keys - done - {q};
      assert AddrSet(addresses + t[q].addresses) == AddrSet(addresses) + AddrSet(t[q].addresses);
      addresses := addresses + t[q].addresses;
      todo, done := todo - {q}, done + {q};
    }
    assert t - (t.Keys - done) == t;
  }

  /** How many different addresses there would be with this answer. */
  method ProspectiveDynamicRouteCount(includes: Table, excludes: Table, query: string, addresses: seq<Addr>) returns (count: nat)
    ensures forall granted :: count == |Prospective(Book(includes, excludes, granted), query, addresses)|
  {
    var inside := CollectDynamicRoutes(includes - {query});
    var outside := CollectDynamicRoutes(excludes - {query});
    var unique: set<Addr> := {};
    var all := inside + outside + addresses;
    for i := 0 to |all|
      invariant unique == AddrSet(all[..i])
    {
      assert AddrSet(all[..i + 1]) == AddrSet(all[..i]) + {all[i]};
      unique := unique + {all[i]};
    }
    assert all[..|all|] == all;
    assert AddrSet(all) == AddrSet(inside) + AddrSet(outside) + AddrSet(addresses);
    count := |unique|;
  }

  /** Delete every lease that does not expire after `now`. */
  method ExpireTable(t: Table, now: nat) returns (live: Table, changed: bool)
    ensures live == Live(t, now) && (changed <==> live != t)
    ensures forall q :: q in live <==> q in t && t[q].expires > now
    ensures forall q :: q in live ==> live[q] == t[q]
  {
    live, changed := t, false;
    var todo := t.Keys;
    while todo != {}
      invariant todo <= t.Keys
      invariant forall q :: q in live <==> q in t && (q in todo || t[q].expires > now)
      invariant forall q :: q in live ==> live[q] == t[q]
      invariant changed <==> exists q :: q in t && q !in live
    {
      var q :| q in todo;
      todo := todo - {q};
      if t[q].expires <= now {
        live, changed := live - {q}, true;
        assert q in t && q !in live;
      }
    }
    assert live == Live(t, now);
    if changed {
      var q :| q in t && q !in live;
    } else {
      assert live.Keys == t.Keys;
    }
  }

  /** No host route that the leases call for and we do not own is in the table already. */
  ghost predicate HostsFree(b: Book, owned: Ownership, localLink: bool, routes: set<Route>)
    requires forall g: Group :: g in owned
  {
    && Keys(HostSet(Held(b.includes)) - owned[DynamicInclude], Tunnel) !! routes
    && (localLink ==> Keys(HostSet(Held(b.excludes)) - owned[DynamicExclude], Physical) !! routes)
  }

  /** One lease is set; all others stay. */
  ghost predicate LeasesOnly(before: Table, after: Table, query: string, lease: Lease) {
    query in after && after[query] == lease && after - {query} == before - {query}
  }

  lemma StoreSetsOnly(b: Book, side: Side, r: Resolution, now: nat)
    ensures var after := Store(b, side, r, now); var lease := Lease(r.addresses, now + r.ttl);
            match side
            case Inside => LeasesOnly(b.includes, after.includes, r.query, lease) && after.excludes == b.excludes
            case Outside => LeasesOnly(b.excludes, after.excludes, r.query, lease) && after.includes == b.includes
  {
    var lease := Lease(r.addresses, now + r.ttl);
    assert b.includes[r.query := lease] - {r.query} == b.includes - {r.query};
    assert b.excludes[r.query := lease] - {r.query} == b.excludes - {r.query};
  }

  /** What a packet does to the tables: if it resolves, fits the limit and its name is in one of the
      domain lists, that name's lease in that table, the included domains first, now holds exactly
      the resolved addresses and expires after their lifetime; all else stays. */
  lemma HeardGrantsOnly(domains: Domains, b: Book, packet: Packet, now: nat)
    ensures var after := Apply(domains, b, Heard(packet, now));
            match Resolve(packet)
            case None => after == b
            case Some(r) =>
              var lease := Lease(r.addresses, now + r.ttl);
              if |Prospective(b, r.query, r.addresses)| > 4096 then after == b
              else if InDomains(domains.includes, r.query) then
                LeasesOnly(b.includes, after.includes, r.query, lease) && after.excludes == b.excludes
              else if InDomains(domains.excludes, r.query) then
                LeasesOnly(b.excludes, after.excludes, r.query, lease) && after.includes == b.includes
              else after == b
  {
    match Resolve(packet)
    case None =>
    case Some(r) =>
      StoreSetsOnly(b, Inside, r, now);
      StoreSetsOnly(b, Outside, r, now);
  }

  /** And what a pass does: exactly the leases that expire later stay, as they were. */
  lemma TickedKeepsExactly(domains: Domains, b: Book, now: nat, side: Side, q: string)
    ensures var after := SideTable(Apply(domains, b, Ticked(now)), side);
            && (q in after <==> q in SideTable(b, side) && SideTable(b, side)[q].expires > now)
            && (q in after ==> after[q] == SideTable(b, side)[q])
  {
  }

  class RouteWorker {
    const domains: Domains
    const manager: JournaledManager
    const inner: PlatformManager
    const host: Machine
    var includes: Table
    var excludes: Table
    ghost var granted: map<string, nat>
    /** The health that was reported last. */
    var healthy: bool

    ghost function View(): Book
      reads this
    {
      Book(includes, excludes, granted)
    }

    ghost predicate Agrees()
      reads this, inner
    {
      && (forall g: Group :: g in inner.owned)
      && inner.owned[DynamicInclude] == HostSet(Held(includes))
      && (inner.localLink ==> inner.owned[DynamicExclude] == HostSet(Held(excludes)))
    }

    /** The tables keep their invariant, the journal lists what is installed, and while the
        reported health is good the dynamic host routes in the table are exactly the addresses
        some lease holds. */
    ghost predicate Valid()
      reads this, manager, inner, host
    {
      && manager.host == host && manager.inner == inner && manager.Ready()
      && Inv(domains, View())
      && (healthy ==> Agrees())
    }

    /** What that means for the routing table itself: while the health is good, a held address
        has its route, and a host route of ours is a held address unless the configuration has
        the same prefix. */
    lemma InstalledAreHeld(a: Addr)
      requires Valid() && healthy
      ensures Route(Host(a, 32), Tunnel) in host.mine <==> a in Held(includes) || Host(a, 32) in inner.owned[Includes]
      ensures inner.localLink ==>
        (Route(Host(a, 32), Physical) in host.mine <==>
          a in Held(excludes) || Host(a, 32) in inner.owned[Excludes] || Host(a, 32) in inner.owned[Server])
    {
      var p := Host(a, 32);
      assert p in HostSet(Held(includes)) <==> a in Held(includes);
      assert p in HostSet(Held(excludes)) <==> a in Held(excludes);
      forall via ensures Route(p, via) in host.mine <==> exists g :: g in inner.owned && p in inner.owned[g] && ViaOf(g) == via {
        assert Route(p, via) in host.mine <==> Route(p, via) in RoutesOf(inner.owned) by {
          assert Route(p, via) in host.mine ==> Route(p, via) in NarrowRoutes(host.mine);
        }
      }
      assert DynamicInclude in inner.owned && Includes in inner.owned && Server in inner.owned;
      assert DynamicExclude in inner.owned && Excludes in inner.owned;
    }

    constructor (domains: Domains, manager: JournaledManager)
      requires manager.Ready() && manager.inner.owned[DynamicInclude] == {} && manager.inner.owned[DynamicExclude] == {}
      ensures Valid() && View() == EmptyBook && this.domains == domains && this.manager == manager
    {
      this.domains, this.manager, inner, host := domains, manager, manager.inner, manager.host;
      includes, excludes, granted, healthy := map[], map[], map[], true;
      new;
      EmptyBookIsFine(domains);
    }

    method Reconcile(ghost narrow: bool, ghost n: nat)
      requires manager.host == host && manager.inner == inner && manager.Ready() && host.Within(n, CoveredMoments(narrow))
      modifies `healthy, manager, inner`owned, host
      ensures manager.Ready() && host.Within(n, CoveredMoments(narrow))
      ensures healthy ==> Agrees()
      ensures host.reliable ==> (healthy <==> HostsFree(View(), old(inner.owned), inner.localLink, old(host.routes)))
    {
      var inside := CollectDynamicRoutes(includes);
      var outside := CollectDynamicRoutes(excludes);
      HostsAreMasked(inside);
      HostsAreMasked(outside);
      healthy := manager.SetDynamicRoutes(Hosts(inside), Hosts(outside), narrow, n);
    }

    /** A packet from the tunnel was queued for the worker. */
    method Heard(packet: Packet, now: nat, ghost narrow: bool, ghost n: nat)
      requires Valid() && host.Within(n, CoveredMoments(narrow))
      modifies this, manager, inner`owned, host
      ensures Valid() && host.Within(n, CoveredMoments(narrow))
      ensures View() == Apply(domains, old(View()), Event.Heard(packet, now))
      ensures host.reliable && View() != old(View()) ==> (healthy <==> HostsFree(View(), old(inner.owned), inner.localLink, old(host.routes)))
    {
      ApplyKeepsInv(domains, View(), Event.Heard(packet, now));
      var changed := DynamicSplitRoutes(packet, now);
      if changed { Reconcile(narrow, n); }
    }

    /** The one-second timer fired. */
    method Ticked(now: nat, ghost narrow: bool, ghost n: nat)
      requires Valid() && host.Within(n, CoveredMoments(narrow))
      modifies this, manager, inner`owned, host
      ensures Valid() && host.Within(n, CoveredMoments(narrow))
      ensures View() == Apply(domains, old(View()), Event.Ticked(now))
      ensures host.reliable && View() != old(View()) ==> (healthy <==> HostsFree(View(), old(inner.owned), inner.localLink, old(host.routes)))
    {
      ApplyKeepsInv(domains, View(), Event.Ticked(now));
      var changed := ExpireDynamicRoutes(now);
      if changed { Reconcile(narrow, n); }
    }

    method ExpireDynamicRoutes(now: nat) returns (changed: bool)
      modifies `includes, `excludes
      ensures View() == Expired(old(View()), now)
      ensures !changed ==> View() == old(View())
    {
      var insideChanged, outsideChanged;
      includes, insideChanged := ExpireTable(includes, now);
      excludes, outsideChanged := ExpireTable(excludes, now);
      changed := insideChanged || outsideChanged;
    }

    /** Grant the lease a response calls for, unless that would exceed the limit. */
    method DynamicSplitRoutes(packet: Packet, now: nat) returns (changed: bool)
      modifies `includes, `excludes, `granted, `healthy
      ensures View() == Apply(domains, old(View()), Event.Heard(packet, now))
      ensures !changed ==> View() == old(View()) && (healthy ==> old(healthy))
    {
      changed := false;
      if packet.NotDns? || !packet.response || |packet.questions| != 1 { return; }
      var question := packet.questions[0];
      if !question.address || !question.internet || question.name.None? { return; }
      var query := question.name.value;
      var inside := InArrayGeneric(domains.includes, query);
      var outside := false;
      if !inside { outside := InArrayGeneric(domains.excludes, query); }
      if !inside && !outside { return; }
      var addresses, ttl := AnswerOf(query, packet.answers);
      if addresses == [] { return; }
      assert Resolve(packet) == Some(Resolution(query, addresses, ttl));
      changed := GrantLease(if outside then Outside else Inside, Resolution(query, addresses, ttl), now);
    }

    method AnswerOf(query: string, answers: seq<Answer>) returns (addresses: seq<Addr>, ttl: nat)
      ensures addresses == Collected(Allowed(query, answers), answers)
      ensures ttl == Clamped(Shortest(Allowed(query, answers), answers))
    {
      var names := CollectNames(query, answers);
      addresses, ttl := CollectAddresses(names, answers);
      if ttl < MINIMUM_TTL { ttl := MINIMUM_TTL; }
      if ttl > MAXIMUM_TTL { ttl := MAXIMUM_TTL; }
    }

    method GrantLease(side: Side, r: Resolution, now: nat) returns (changed: bool)
      modifies `includes, `excludes, `granted, `healthy
      ensures changed <==> |Prospective(old(View()), r.query, r.addresses)| <= MAXIMUM_ROUTES
      ensures changed ==> View() == Store(old(View()), side, r, now)
      ensures changed && side.Inside? ==> LeasesOnly(old(includes), includes, r.query, Lease(r.addresses, now + r.ttl)) && excludes == old(excludes)
      ensures changed && side.Outside? ==> LeasesOnly(old(excludes), excludes, r.query, Lease(r.addresses, now + r.ttl)) && includes == old(includes)
      ensures !changed ==> View() == old(View()) && !healthy
    {
      var count := ProspectiveDynamicRouteCount(includes, excludes, r.query, r.addresses);
      assert count == |Prospective(View(), r.query, r.addresses)|;
      if count > MAXIMUM_ROUTES {
        healthy := false;
        return false;
      }
      StoreSetsOnly(View(), side, r, now);
      StoreLease(side, r, now);
      changed := true;
    }

    method StoreLease(side: Side, r: Resolution, now: nat)
      modifies `includes, `excludes, `granted
      ensures View() == Store(old(View()), side, r, now)
    {
      if side.Outside? {
        excludes := excludes[r.query := Lease(r.addresses, now + r.ttl)];
      } else {
        includes := includes[r.query := Lease(r.addresses, now + r.ttl)];
      }
      granted := granted[r.query := now];
    }
  }
}
