/** How the server's and the local route lists become one list of routes. */
module RouteMerge {
  import opened Common
  import opened Prefixes

  /** A route destination as it is written: an address and a prefix length, an address and a dotted
      mask, a bare address, or a text that is none of these. */
  datatype Destination =
    | Blank
    | Cidr(prefix: Prefix)
    | Dotted(value: nat, width: nat, ones: nat)
    | Bare(value: nat, width: nat)
    | Text(raw: string)

  /** A dotted mask is as wide as an IPv4 address, whatever the width of the address. */
  predicate DottedIsValid(d: Destination)
    requires d.Dotted?
  {
    d.ones <= 32 && Valid(Prefix(d.value, d.width, d.ones))
  }

  /** What parses is rewritten as a prefix; the dotted form keeps its host bits. */
  function Normalize(d: Destination): Destination {
    match d
    case Blank => Blank
    case Cidr(p) => if Valid(p) then Cidr(Masked(p)) else d
    case Dotted(value, width, ones) => if DottedIsValid(d) then Cidr(Prefix(value, width, ones)) else d
    case Bare(value, width) => if Valid(Host(value, width)) then Cidr(Host(value, width)) else d
    case Text(_) => d
  }

  predicate HasHostBits(d: Destination) {
    d.Dotted? && DottedIsValid(d) && Masked(Prefix(d.value, d.width, d.ones)) != Prefix(d.value, d.width, d.ones)
  }

  /** Normalising twice is normalising once, except for a dotted mask with host bits. */
  lemma NormalizeTwiceIff(d: Destination)
    ensures Normalize(Normalize(d)) == Normalize(d) <==> !HasHostBits(d)
  {
    match d
    case Cidr(p) => MaskedTwice(p);
    case Bare(value, width) => if Valid(Host(value, width)) { HostIsMasked(value, width); }
    case _ =>
  }

  /** What parses as an address with a prefix length, a dotted mask or nothing behind it. */
  predicate Parses(d: Destination) {
    match d
    case Blank => false
    case Cidr(p) => Valid(p)
    case Dotted(_, _, _) => DottedIsValid(d)
    case Bare(value, width) => Valid(Host(value, width))
    case Text(_) => false
  }

  /** The addresses a destination stands for: those that agree with it in as many leading bits as
      its prefix length or mask has, or the bare address alone. */
  ghost predicate Covers(d: Destination, a: nat)
    requires Parses(d)
  {
    match d
    case Cidr(p) => Contains(p, a)
    case Dotted(value, width, ones) => Contains(Prefix(value, width, ones), a)
    case Bare(value, _) => a == value
  }

  /** Normalising yields a prefix that stands for the same addresses: of a prefix its network, of a
      dotted mask the address as it is with that many bits, of a bare address its host prefix.  What
      does not parse stays as it is. */
  lemma NormalizeKeepsAddresses(d: Destination, a: nat)
    ensures Normalize(d).Cidr? && Parses(Normalize(d)) <==> Parses(d)
    ensures !Parses(d) ==> Normalize(d) == d
    ensures Parses(d) ==> (Covers(Normalize(d), a) <==> Covers(d, a))
    ensures Parses(d) && d.Cidr? ==> IsNetworkOf(Normalize(d).prefix, d.prefix)
    ensures Parses(d) && d.Dotted? ==> Normalize(d).prefix == Prefix(d.value, d.width, d.ones)
    ensures Parses(d) && d.Bare? ==> Normalize(d).prefix == Prefix(d.value, d.width, d.width)
  {
    if Parses(d) {
      match d
      case Cidr(p) =>
        MaskedContainsTheSame(p, a);
        MaskedIsNetworkIff(p, Masked(p));
      case Bare(value, width) => HostContainsItself(value, width, a);
      case _ =>
    }
  }

  // ---------------------------------------------------------------- entries

  datatype Action = Include | Exclude
  datatype Source = Server | Local
  datatype Entry = Entry(destination: Destination, action: Action, metric: nat, source: Source)

  /** The entries a list contributes: blank destinations are skipped. */
  function Tag(values: seq<Destination>, action: Action, metric: nat, source: Source): seq<Entry> {
    if values == [] then []
    else
      var n := |values| - 1;
      var d := Normalize(values[n]);
      Tag(values[..n], action, metric, source) + if d == Blank then [] else [Entry(d, action, metric, source)]
  }

  datatype Lists = Lists(serverInclude: seq<Destination>, serverExclude: seq<Destination>,
                         localInclude: seq<Destination>, localExclude: seq<Destination>)

  /** All entries, lowest precedence first. */
  function Tagged(ls: Lists): seq<Entry> {
    (Tag(ls.serverInclude, Include, 6, Server) + Tag(ls.serverExclude, Exclude, 5, Server))
    + (Tag(ls.localInclude, Include, 4, Local) + Tag(ls.localExclude, Exclude, 3, Local))
  }

  // ---------------------------------------------------------------- what a merge is

  /** Where a destination occurs first; the length if it does not. */
  function First(t: seq<Entry>, d: Destination): (k: nat)
    ensures k <= |t| && (k < |t| ==> t[k].destination == d)
    ensures forall j :: 0 <= j < k ==> t[j].destination != d
  {
    if t == [] then 0
    else
      var n := |t| - 1;
      var k := First(t[..n], d);
      assert forall j :: 0 <= j < n ==> t[..n][j] == t[j];
      if k < n || t[n].destination == d then k else n + 1
  }

  /** Where a destination occurs last; -1 if it does not. */
  function Last(t: seq<Entry>, d: Destination): (k: int)
    ensures -1 <= k < |t| && (k >= 0 ==> t[k].destination == d)
    ensures forall j :: k < j < |t| ==> t[j].destination != d
  {
    if t == [] then -1
    else
      var n := |t| - 1;
      assert forall j :: 0 <= j < n ==> t[..n][j] == t[j];
      if t[n].destination == d then n else Last(t[..n], d)
  }

  predicate Occurs(t: seq<Entry>, d: Destination) {
    exists j :: 0 <= j < |t| && t[j].destination == d
  }

  ghost predicate DistinctDestinations(t: seq<Entry>) {
    forall i, j :: 0 <= i < j < |t| ==> t[i].destination != t[j].destination
  }

  /** One entry for each destination, in the order destinations occur first, each being the last
      entry with that destination. */
  ghost predicate IsMerge(t: seq<Entry>, out: seq<Entry>) {
    && (forall i :: 0 <= i < |out| ==> Occurs(t, out[i].destination))
    && (forall i :: 0 <= i < |out| ==> out[i] == t[Last(t, out[i].destination)])
    && (forall i, j :: 0 <= i < j < |out| ==> First(t, out[i].destination) < First(t, out[j].destination))
    && (forall d :: Occurs(t, d) ==> Occurs(out, d))
  }

  lemma OccursAt(t: seq<Entry>, d: Destination)
    ensures Occurs(t, d) <==> First(t, d) < |t|
    ensures Occurs(t, d) <==> Last(t, d) >= 0
  {
  }

  ghost predicate Increasing(xs: seq<nat>) {
    forall i, j :: 0 <= i < j < |xs| ==> xs[i] < xs[j]
  }

  lemma SameEmptiness(xs: seq<nat>, ys: seq<nat>)
    requires forall x :: x in xs <==> x in ys
    ensures xs == [] <==> ys == []
  {
    if xs != [] { assert xs[0] in xs; }
    if ys != [] { assert ys[0] in ys; }
  }

  lemma {:induction false} IncreasingIsUnique(xs: seq<nat>, ys: seq<nat>)
    requires Increasing(xs) && Increasing(ys) && forall x :: x in xs <==> x in ys
    ensures xs == ys
  {
    SameEmptiness(xs, ys);
    if xs != [] {
      assert xs[|xs| - 1] in xs && ys[|ys| - 1] in ys;
      var i :| 0 <= i < |xs| && xs[i] == ys[|ys| - 1];
      var j :| 0 <= j < |ys| && ys[j] == xs[|xs| - 1];
      assert xs[|xs| - 1] == ys[|ys| - 1];
      var xs', ys' := xs[..|xs| - 1], ys[..|ys| - 1];
      assert forall k :: 0 <= k < |xs'| ==> xs'[k] == xs[k];
      assert forall k :: 0 <= k < |ys'| ==> ys'[k] == ys[k];
      forall x ensures x in xs' <==> x in ys' {
        assert x in xs <==> x in ys;
        assert x in xs <==> x in xs' || x == xs[|xs| - 1];
        assert x in ys <==> x in ys' || x == ys[|ys| - 1];
      }
      IncreasingIsUnique(xs', ys');
      assert xs == xs' + [xs[|xs| - 1]] && ys == ys' + [ys[|ys| - 1]];
    }
  }

  function Firsts(t: seq<Entry>, out: seq<Entry>): seq<nat> {
    seq(|out|, i requires 0 <= i < |out| => First(t, out[i].destination))
  }

  lemma FirstsAgree(t: seq<Entry>, a: seq<Entry>, b: seq<Entry>, x: nat)
    requires IsMerge(t, a) && IsMerge(t, b) && x in Firsts(t, a)
    ensures x in Firsts(t, b)
  {
    var i :| 0 <= i < |a| && Firsts(t, a)[i] == x;
    assert Occurs(b, a[i].destination);
    var j :| 0 <= j < |b| && b[j].destination == a[i].destination;
    assert Firsts(t, b)[j] == x;
  }

  /** The description determines the merge. */
  lemma MergeIsUnique(t: seq<Entry>, a: seq<Entry>, b: seq<Entry>)
    requires IsMerge(t, a) && IsMerge(t, b)
    ensures a == b
  {
    forall x ensures x in Firsts(t, a) <==> x in Firsts(t, b) {
      if x in Firsts(t, a) { FirstsAgree(t, a, b, x); }
      if x in Firsts(t, b) { FirstsAgree(t, b, a, x); }
    }
    IncreasingIsUnique(Firsts(t, a), Firsts(t, b));
    assert |a| == |Firsts(t, a)| && |b| == |Firsts(t, b)|;
    forall i | 0 <= i < |a| ensures a[i] == b[i] {
      assert Firsts(t, a)[i] == Firsts(t, b)[i];
      OccursAt(t, a[i].destination);
      OccursAt(t, b[i].destination);
      assert t[First(t, a[i].destination)].destination == a[i].destination;
      assert t[First(t, b[i].destination)].destination == b[i].destination;
    }
  }

  // ---------------------------------------------------------------- the indexed merge

  function Put(out: seq<Entry>, e: Entry): seq<Entry> {
    var k := First(out, e.destination);
    if k < |out| then out[k := e] else out + [e]
  }

  function Merge(t: seq<Entry>): seq<Entry> {
    if t == [] then [] else Put(Merge(t[..|t| - 1]), t[|t| - 1])
  }

  lemma MergeSnoc(t: seq<Entry>, e: Entry)
    ensures Merge(t + [e]) == Put(Merge(t), e)
  {
    assert (t + [e])[..|t|] == t;
  }

  lemma OccurrencesSnoc(t: seq<Entry>, e: Entry, d: Destination)
    ensures First(t + [e], d) == if First(t, d) < |t| || e.destination == d then First(t, d) else |t| + 1
    ensures Last(t + [e], d) == if e.destination == d then |t| else Last(t, d)
    ensures Occurs(t + [e], d) <==> Occurs(t, d) || e.destination == d
  {
    assert (t + [e])[..|t|] == t;
    assert (t + [e])[|t|] == e;
    OccursAt(t + [e], d);
    OccursAt(t, d);
  }

  /** Replacing or appending, the destinations stay in first-occurrence order. */
  lemma PutDestinations(out: seq<Entry>, e: Entry, i: nat)
    requires i < |Put(out, e)|
    ensures i < |out| ==> Put(out, e)[i].destination == out[i].destination
    ensures i == First(out, e.destination) ==> Put(out, e)[i] == e
    ensures i != First(out, e.destination) ==> i < |out| && Put(out, e)[i] == out[i]
  {
  }

  lemma PutHoldsLast(t: seq<Entry>, out: seq<Entry>, e: Entry, i: nat)
    requires IsMerge(t, out) && i < |Put(out, e)|
    ensures var d := Put(out, e)[i].destination;
            Occurs(t + [e], d) && Put(out, e)[i] == (t + [e])[Last(t + [e], d)]
  {
    var d := Put(out, e)[i].destination;
    PutDestinations(out, e, i);
    OccurrencesSnoc(t, e, d);
    if i != First(out, e.destination) {
      OccursAt(t, d);
      if d == e.destination { PositionIsFirst(t, out, i); }
    }
  }

  lemma PositionIsFirst(t: seq<Entry>, out: seq<Entry>, i: nat)
    requires IsMerge(t, out) && i < |out|
    ensures First(out, out[i].destination) == i
  {
    var k := First(out, out[i].destination);
    forall j | 0 <= j < i ensures out[j].destination != out[i].destination {
      assert First(t, out[j].destination) < First(t, out[i].destination);
    }
  }

  lemma PutKeepsOrder(t: seq<Entry>, out: seq<Entry>, e: Entry, i: nat, j: nat)
    requires IsMerge(t, out) && i < j < |Put(out, e)|
    ensures First(t + [e], Put(out, e)[i].destination) < First(t + [e], Put(out, e)[j].destination)
  {
    var d, d' := Put(out, e)[i].destination, Put(out, e)[j].destination;
    PutDestinations(out, e, i);
    PutDestinations(out, e, j);
    OccurrencesSnoc(t, e, d);
    OccurrencesSnoc(t, e, d');
    OccursAt(t, d);
    OccursAt(t, d');
    if j == |out| { OccursAt(out, d'); }
  }

  lemma PutKeepsOccurrences(t: seq<Entry>, out: seq<Entry>, e: Entry, d: Destination)
    requires IsMerge(t, out) && Occurs(t + [e], d)
    ensures Occurs(Put(out, e), d)
  {
    OccurrencesSnoc(t, e, d);
    if d == e.destination {
      assert Put(out, e)[First(out, d)].destination == d;
    } else {
      assert Occurs(out, d);
      var j :| 0 <= j < |out| && out[j].destination == d;
      PutDestinations(out, e, j);
    }
  }

  lemma PutIsMerge(t: seq<Entry>, out: seq<Entry>, e: Entry)
    requires IsMerge(t, out)
    ensures IsMerge(t + [e], Put(out, e))
  {
    var t', next := t + [e], Put(out, e);
    forall i | 0 <= i < |next| ensures Occurs(t', next[i].destination) && next[i] == t'[Last(t', next[i].destination)] {
      PutHoldsLast(t, out, e, i);
    }
    forall i, j | 0 <= i < j < |next| ensures First(t', next[i].destination) < First(t', next[j].destination) {
      PutKeepsOrder(t, out, e, i, j);
    }
    forall d | Occurs(t', d) ensures Occurs(next, d) {
      PutKeepsOccurrences(t, out, e, d);
    }
  }

  /** The indexed merge is the last writer in first-occurrence order. */
  lemma {:induction false} MergeIsMerge(t: seq<Entry>)
    ensures IsMerge(t, Merge(t))
  {
    if t != [] {
      var n := |t| - 1;
      MergeIsMerge(t[..n]);
      PutIsMerge(t[..n], Merge(t[..n]), t[n]);
      assert t[..n] + [t[n]] == t;
    }
  }

  /** The index kept beside the list. */
  ghost predicate Indexes(byDestination: map<Destination, nat>, routes: seq<Entry>) {
    && (forall d :: d in byDestination ==> byDestination[d] < |routes| && routes[byDestination[d]].destination == d)
    && (forall i :: 0 <= i < |routes| ==> routes[i].destination in byDestination && byDestination[routes[i].destination] == i)
  }

  lemma TagNext(values: seq<Destination>, action: Action, metric: nat, source: Source, i: nat)
    requires i < |values|
    ensures var d := Normalize(values[i]);
            Tag(values[..i + 1], action, metric, source)
            == if d == Blank then Tag(values[..i], action, metric, source)
               else Tag(values[..i], action, metric, source) + [Entry(d, action, metric, source)]
  {
    assert values[..i + 1][..i] == values[..i];
  }

  method AppendRoutes(values: seq<Destination>, action: Action, source: Source, metric: nat, ghost before: seq<Entry>,
                      routes: seq<Entry>, byDestination: map<Destination, nat>)
    returns (routes': seq<Entry>, byDestination': map<Destination, nat>)
    requires routes == Merge(before) && Indexes(byDestination, routes)
    ensures routes' == Merge(before + Tag(values, action, metric, source)) && Indexes(byDestination', routes')
  {
    routes', byDestination' := routes, byDestination;
    assert before + [] == before;
    for i := 0 to |values|
      invariant routes' == Merge(before + Tag(values[..i], action, metric, source))
      invariant Indexes(byDestination', routes')
    {
      var destination := Normalize(values[i]);
      TagNext(values, action, metric, source, i);
      if destination != Blank {
        var entry := Entry(destination, action, metric, source);
        MergeSnoc(before + Tag(values[..i], action, metric, source), entry);
        Regroup(before, Tag(values[..i], action, metric, source), [entry]);
        IndexAfterPut(byDestination', routes', entry);
        if destination in byDestination' {
          routes' := routes'[byDestination'[destination] := entry];
        } else {
          byDestination' := byDestination'[destination := |routes'|];
          routes' := routes' + [entry];
        }
      }
    }
    assert values[..|values|] == values;
  }

  lemma Regroup<T>(a: seq<T>, b: seq<T>, c: seq<T>)
    ensures (a + b) + c == a + (b + c)
  {
  }

  lemma IndexAfterPut(byDestination: map<Destination, nat>, routes: seq<Entry>, e: Entry)
    requires Indexes(byDestination, routes)
    ensures var d := e.destination;
            if d in byDestination then Put(routes, e) == routes[byDestination[d] := e] && Indexes(byDestination, Put(routes, e))
            else Put(routes, e) == routes + [e] && Indexes(byDestination[d := |routes|], Put(routes, e))
  {
    IndexFindsFirst(byDestination, routes, e.destination);
  }

  lemma IndexFindsFirst(byDestination: map<Destination, nat>, routes: seq<Entry>, d: Destination)
    requires Indexes(byDestination, routes)
    ensures First(routes, d) == if d in byDestination then byDestination[d] else |routes|
  {
    var k := First(routes, d);
    if k < |routes| { assert routes[k].destination in byDestination; }
  }

  method MergeRoutes(ls: Lists) returns (routes: seq<Entry>)
    ensures IsMerge(Tagged(ls), routes) && routes == Merge(Tagged(ls))
  {
    var byDestination: map<Destination, nat> := map[];
    routes := [];
    ghost var a, b := Tag(ls.serverInclude, Include, 6, Server), Tag(ls.serverExclude, Exclude, 5, Server);
    ghost var c, d := Tag(ls.localInclude, Include, 4, Local), Tag(ls.localExclude, Exclude, 3, Local);
    routes, byDestination := AppendRoutes(ls.serverInclude, Include, Server, 6, [], routes, byDestination);
    assert [] + a == a;
    routes, byDestination := AppendRoutes(ls.serverExclude, Exclude, Server, 5, a, routes, byDestination);
    routes, byDestination := AppendRoutes(ls.localInclude, Include, Local, 4, a + b, routes, byDestination);
    routes, byDestination := AppendRoutes(ls.localExclude, Exclude, Local, 3, a + b + c, routes, byDestination);
    Regroup(a + b, c, d);
    MergeIsMerge(Tagged(ls));
  }

  // ---------------------------------------------------------------- precedence

  /** A list names a destination when some entry of it normalises to it. */
  ghost predicate Names(values: seq<Destination>, d: Destination) {
    d != Blank && exists i :: 0 <= i < |values| && Normalize(values[i]) == d
  }

  /** The rule a reader of the configuration expects: local before server, exclude before include. */
  ghost function Wins(ls: Lists, d: Destination): Option<Entry> {
    if Names(ls.localExclude, d) then Some(Entry(d, Exclude, 3, Local))
    else if Names(ls.localInclude, d) then Some(Entry(d, Include, 4, Local))
    else if Names(ls.serverExclude, d) then Some(Entry(d, Exclude, 5, Server))
    else if Names(ls.serverInclude, d) then Some(Entry(d, Include, 6, Server))
    else None
  }

  lemma {:induction false} TagEntries(values: seq<Destination>, action: Action, metric: nat, source: Source, k: nat)
    requires k < |Tag(values, action, metric, source)|
    ensures var e := Tag(values, action, metric, source)[k];
            e == Entry(e.destination, action, metric, source) && Names(values, e.destination)
  {
    var n := |values| - 1;
    if k < |Tag(values[..n], action, metric, source)| {
      TagEntries(values[..n], action, metric, source, k);
      var d := Tag(values[..n], action, metric, source)[k].destination;
      var i :| 0 <= i < n && Normalize(values[..n][i]) == d;
      assert Normalize(values[i]) == d;
    }
  }

  lemma {:induction false} TagNames(values: seq<Destination>, action: Action, metric: nat, source: Source, i: nat)
    requires i < |values| && Normalize(values[i]) != Blank
    ensures Occurs(Tag(values, action, metric, source), Normalize(values[i]))
  {
    var n := |values| - 1;
    var shorter := Tag(values[..n], action, metric, source);
    if i < n {
      TagNames(values[..n], action, metric, source, i);
      var j :| 0 <= j < |shorter| && shorter[j].destination == Normalize(values[i]);
      assert Tag(values, action, metric, source)[j] == shorter[j];
    } else {
      assert Tag(values, action, metric, source)[|shorter|].destination == Normalize(values[i]);
    }
  }

  lemma LastOfTag(values: seq<Destination>, action: Action, metric: nat, source: Source, d: Destination)
    ensures var t := Tag(values, action, metric, source);
            if Names(values, d) then Last(t, d) >= 0 && t[Last(t, d)] == Entry(d, action, metric, source) else Last(t, d) == -1
  {
    var t := Tag(values, action, metric, source);
    if Names(values, d) {
      var i :| 0 <= i < |values| && Normalize(values[i]) == d;
      TagNames(values, action, metric, source, i);
      OccursAt(t, d);
    }
    if Last(t, d) >= 0 { TagEntries(values, action, metric, source, Last(t, d)); }
  }

  lemma LastIs(t: seq<Entry>, d: Destination, k: int)
    requires -1 <= k < |t| && (k >= 0 ==> t[k].destination == d)
    requires forall j :: k < j < |t| ==> t[j].destination != d
    ensures Last(t, d) == k
  {
    if k >= 0 { assert !(Last(t, d) < k); }
  }

  lemma FirstIs(t: seq<Entry>, d: Destination, k: nat)
    requires k < |t| && t[k].destination == d
    requires forall j :: 0 <= j < k ==> t[j].destination != d
    ensures First(t, d) == k
  {
  }

  lemma LastConcat(s: seq<Entry>, t: seq<Entry>, d: Destination)
    ensures Last(s + t, d) == if Last(t, d) >= 0 then |s| + Last(t, d) else Last(s, d)
  {
    LastIs(s + t, d, if Last(t, d) >= 0 then |s| + Last(t, d) else Last(s, d));
  }

  lemma LastInConcat(s: seq<Entry>, t: seq<Entry>, d: Destination)
    ensures Last(t, d) >= 0 ==> Last(s + t, d) >= 0 && (s + t)[Last(s + t, d)] == t[Last(t, d)]
    ensures Last(t, d) < 0 && Last(s, d) >= 0 ==> Last(s + t, d) >= 0 && (s + t)[Last(s + t, d)] == s[Last(s, d)]
    ensures Last(t, d) < 0 && Last(s, d) < 0 ==> Last(s + t, d) < 0
  {
    LastConcat(s, t, d);
  }

  lemma LastTagged(ls: Lists, d: Destination)
    ensures var t := Tagged(ls);
            match Wins(ls, d) case None => Last(t, d) == -1 case Some(e) => Last(t, d) >= 0 && t[Last(t, d)] == e
  {
    var a, b := Tag(ls.serverInclude, Include, 6, Server), Tag(ls.serverExclude, Exclude, 5, Server);
    var c, e := Tag(ls.localInclude, Include, 4, Local), Tag(ls.localExclude, Exclude, 3, Local);
    LastOfTag(ls.serverInclude, Include, 6, Server, d);
    LastOfTag(ls.serverExclude, Exclude, 5, Server, d);
    LastOfTag(ls.localInclude, Include, 4, Local, d);
    LastOfTag(ls.localExclude, Exclude, 3, Local, d);
    LastInConcat(a, b, d);
    LastInConcat(c, e, d);
    LastInConcat(a + b, c + e, d);
  }

  /** The merged list holds exactly the winner of each destination. */
  lemma Precedence(ls: Lists, e: Entry)
    ensures e in Merge(Tagged(ls)) <==> Wins(ls, e.destination) == Some(e)
  {
    var t, out := Tagged(ls), Merge(Tagged(ls));
    MergeIsMerge(t);
    LastTagged(ls, e.destination);
    OccursAt(t, e.destination);
    if Wins(ls, e.destination) == Some(e) {
      assert Occurs(out, e.destination);
      var i :| 0 <= i < |out| && out[i].destination == e.destination;
      assert out[i] == e;
    }
  }

  // ---------------------------------------------------------------- the two lists

  datatype RouteLists = RouteLists(includes: seq<Destination>, excludes: seq<Destination>)

  function Chosen(out: seq<Entry>, action: Action): seq<Destination> {
    if out == [] then []
    else
      var n := |out| - 1;
      Chosen(out[..n], action) + if out[n].action == action then [out[n].destination] else []
  }

  function Split(out: seq<Entry>): RouteLists {
    RouteLists(Chosen(out, Include), Chosen(out, Exclude))
  }

  lemma ChosenNext(out: seq<Entry>, i: nat)
    requires i < |out|
    ensures forall action :: Chosen(out[..i + 1], action)
              == Chosen(out[..i], action) + if out[i].action == action then [out[i].destination] else []
  {
    assert out[..i + 1][..i] == out[..i];
  }

  method MergeRouteLists(ls: Lists) returns (merged: RouteLists)
    ensures merged == Split(Merge(Tagged(ls)))
  {
    var routes := MergeRoutes(ls);
    merged := RouteLists([], []);
    for i := 0 to |routes|
      invariant merged == Split(routes[..i])
    {
      ChosenNext(routes, i);
      if routes[i].action.Include? {
        merged := RouteLists(merged.includes + [routes[i].destination], merged.excludes);
      } else {
        merged := RouteLists(merged.includes, merged.excludes + [routes[i].destination]);
      }
    }
    assert routes[..|routes|] == routes;
  }

  lemma {:induction false} ChosenExactly(out: seq<Entry>, action: Action, d: Destination)
    ensures d in Chosen(out, action) <==> exists i :: 0 <= i < |out| && out[i].destination == d && out[i].action == action
  {
    if out != [] {
      var n := |out| - 1;
      ChosenExactly(out[..n], action, d);
      if out[n].destination == d && out[n].action == action {
        assert Chosen(out, action)[|Chosen(out[..n], action)|] == d;
      }
      if i :| 0 <= i < |out| && out[i].destination == d && out[i].action == action {
        if i < n { assert out[..n][i] == out[i]; }
      }
    }
  }

  ghost predicate Distinct(ds: seq<Destination>) {
    forall i, j :: 0 <= i < j < |ds| ==> ds[i] != ds[j]
  }

  lemma {:induction false} ChosenIsDistinct(out: seq<Entry>, action: Action)
    requires DistinctDestinations(out)
    ensures Distinct(Chosen(out, action))
  {
    if out != [] {
      var n := |out| - 1;
      ChosenIsDistinct(out[..n], action);
      ChosenExactly(out[..n], action, out[n].destination);
      assert forall i :: 0 <= i < n ==> out[..n][i].destination != out[n].destination;
    }
  }

  lemma MergedIsDistinct(t: seq<Entry>, out: seq<Entry>)
    requires IsMerge(t, out)
    ensures DistinctDestinations(out)
  {
    forall i, j | 0 <= i < j < |out| ensures out[i].destination != out[j].destination {
      assert First(t, out[i].destination) < First(t, out[j].destination);
    }
  }

  /** The two lists have no duplicates, nothing in common, and hold exactly the destinations whose
      winner has their action. */
  lemma ListsPartition(ls: Lists, d: Destination)
    ensures var s := Split(Merge(Tagged(ls)));
            && (d in s.includes <==> Wins(ls, d).Some? && Wins(ls, d).value.action == Include)
            && (d in s.excludes <==> Wins(ls, d).Some? && Wins(ls, d).value.action == Exclude)
            && Distinct(s.includes) && Distinct(s.excludes)
  {
    var out := Merge(Tagged(ls));
    MergeIsMerge(Tagged(ls));
    MergedIsDistinct(Tagged(ls), out);
    forall action ensures d in Chosen(out, action) <==> Wins(ls, d).Some? && Wins(ls, d).value.action == action {
      ChosenExactly(out, action, d);
      if Wins(ls, d).Some? { Precedence(ls, Wins(ls, d).value); }
      forall i | 0 <= i < |out| && out[i].destination == d ensures Wins(ls, d) == Some(out[i]) {
        Precedence(ls, out[i]);
      }
    }
    ChosenIsDistinct(out, Include);
    ChosenIsDistinct(out, Exclude);
  }

  // ---------------------------------------------------------------- reported and applied

  ghost predicate Clean(values: seq<Destination>) {
    forall i :: 0 <= i < |values| ==> !HasHostBits(values[i])
  }

  /** The lists a session is left with when the profile accepts the server's routes. */
  function Applied(ls: Lists): RouteLists {
    Split(Merge(Tagged(ls)))
  }

  /** What the daemon merges again when it reports the routes of such a session. */
  function Again(session: RouteLists, ls: Lists): Lists {
    ls.(serverInclude := session.includes, serverExclude := session.excludes)
  }

  function Reported(session: RouteLists, ls: Lists): RouteLists {
    Split(Merge(Tagged(Again(session, ls))))
  }

  lemma NormalizedIsClean(d: Destination)
    ensures !HasHostBits(Normalize(d))
    ensures Normalize(Normalize(Normalize(d))) == Normalize(Normalize(d))
  {
    NormalizeTwiceIff(Normalize(d));
  }

  lemma WinnersAreNamed(ls: Lists, d: Destination)
    ensures Wins(ls, d).Some? ==> d != Blank && exists raw :: Normalize(raw) == d
    ensures Wins(ls, d).Some? <==> Names(ls.localExclude, d) || Names(ls.localInclude, d) || Names(ls.serverExclude, d) || Names(ls.serverInclude, d)
    ensures Wins(ls, d).Some? ==> Wins(ls, d).value.destination == d
  {
  }

  /** A clean list names only destinations that normalise to themselves. */
  lemma CleanNamesFixed(values: seq<Destination>, d: Destination)
    requires Clean(values) && Names(values, d)
    ensures Normalize(d) == d
  {
    var i :| 0 <= i < |values| && Normalize(values[i]) == d;
    NormalizeTwiceIff(values[i]);
  }

  ghost predicate AllClean(ls: Lists) {
    Clean(ls.serverInclude) && Clean(ls.serverExclude) && Clean(ls.localInclude) && Clean(ls.localExclude)
  }

  ghost predicate Settled(ds: seq<Destination>) {
    forall i :: 0 <= i < |ds| ==> Normalize(ds[i]) == ds[i] && ds[i] != Blank
  }

  lemma AppliedIsSettled(ls: Lists)
    requires AllClean(ls)
    ensures Settled(Applied(ls).includes) && Settled(Applied(ls).excludes)
  {
    forall d | d in Applied(ls).includes || d in Applied(ls).excludes ensures Normalize(d) == d && d != Blank {
      ListsPartition(ls, d);
      WinnerIsFixed(ls, d);
    }
  }

  lemma WinnerIsFixed(ls: Lists, d: Destination)
    requires AllClean(ls) && Wins(ls, d).Some?
    ensures Normalize(d) == d && d != Blank
  {
    if Names(ls.localExclude, d) { CleanNamesFixed(ls.localExclude, d); }
    else if Names(ls.localInclude, d) { CleanNamesFixed(ls.localInclude, d); }
    else if Names(ls.serverExclude, d) { CleanNamesFixed(ls.serverExclude, d); }
    else { CleanNamesFixed(ls.serverInclude, d); }
  }

  lemma SettledNames(ds: seq<Destination>, d: Destination)
    requires Settled(ds)
    ensures Names(ds, d) <==> d in ds
  {
    if d in ds {
      var i :| 0 <= i < |ds| && ds[i] == d;
      assert Normalize(ds[i]) == d;
    }
  }

  /** Merging the applied lists again changes no winner's action, and adds no destination. */
  lemma AgainSameAction(ls: Lists, d: Destination)
    requires Settled(Applied(ls).includes) && Settled(Applied(ls).excludes)
    ensures var again := Again(Applied(ls), ls);
            && (Wins(ls, d).Some? <==> Wins(again, d).Some?)
            && (Wins(ls, d).Some? ==> Wins(again, d).value.action == Wins(ls, d).value.action)
  {
    ListsPartition(ls, d);
    SettledNames(Applied(ls).includes, d);
    SettledNames(Applied(ls).excludes, d);
  }

  lemma {:induction false} TagSettled(ds: seq<Destination>, action: Action, metric: nat, source: Source)
    requires Settled(ds)
    ensures |Tag(ds, action, metric, source)| == |ds|
    ensures forall i :: 0 <= i < |ds| ==> Tag(ds, action, metric, source)[i].destination == ds[i]
  {
    if ds != [] { TagSettled(ds[..|ds| - 1], action, metric, source); }
  }

  /** The winners for the applied lists, includes first. */
  ghost function Winners(ls: Lists, ds: seq<Destination>): seq<Entry>
    requires forall i :: 0 <= i < |ds| ==> Wins(ls, ds[i]).Some?
  {
    seq(|ds|, i requires 0 <= i < |ds| => Wins(ls, ds[i]).value)
  }

  lemma AppliedHaveWinners(ls: Lists)
    requires Settled(Applied(ls).includes) && Settled(Applied(ls).excludes)
    ensures var again := Again(Applied(ls), ls);
            && (forall i :: 0 <= i < |Applied(ls).includes| ==>
                  Wins(again, Applied(ls).includes[i]).Some? && Wins(again, Applied(ls).includes[i]).value.action == Include)
            && (forall i :: 0 <= i < |Applied(ls).excludes| ==>
                  Wins(again, Applied(ls).excludes[i]).Some? && Wins(again, Applied(ls).excludes[i]).value.action == Exclude)
  {
    forall d | d in Applied(ls).includes || d in Applied(ls).excludes
      ensures Wins(Again(Applied(ls), ls), d).Some?
      ensures Wins(Again(Applied(ls), ls), d).value.action == if d in Applied(ls).includes then Include else Exclude
    {
      ListsPartition(ls, d);
      AgainSameAction(ls, d);
    }
    forall i | 0 <= i < |Applied(ls).excludes| ensures Applied(ls).excludes[i] !in Applied(ls).includes {
      ListsPartition(ls, Applied(ls).excludes[i]);
    }
  }

  lemma JoinedIsDistinct(ls: Lists)
    ensures Distinct(Applied(ls).includes + Applied(ls).excludes)
  {
    var inc, exc := Applied(ls).includes, Applied(ls).excludes;
    ListsPartition(ls, Blank);
    forall i, j | 0 <= i < |inc| && 0 <= j < |exc| ensures inc[i] != exc[j] {
      ListsPartition(ls, inc[i]);
    }
  }

  lemma FrontOfAgain(again: Lists, i: nat)
    requires Settled(again.serverInclude) && Settled(again.serverExclude)
    requires i < |again.serverInclude + again.serverExclude|
    ensures i < |Tagged(again)| && Tagged(again)[i].destination == (again.serverInclude + again.serverExclude)[i]
  {
    var a, b := Tag(again.serverInclude, Include, 6, Server), Tag(again.serverExclude, Exclude, 5, Server);
    TagSettled(again.serverInclude, Include, 6, Server);
    TagSettled(again.serverExclude, Exclude, 5, Server);
    assert Tagged(again)[i] == (a + b)[i];
    if i < |a| { assert (a + b)[i] == a[i]; } else { assert (a + b)[i] == b[i - |a|]; }
  }

  lemma FirstInAgain(ls: Lists, i: nat)
    requires Settled(Applied(ls).includes) && Settled(Applied(ls).excludes)
    requires i < |Applied(ls).includes + Applied(ls).excludes|
    ensures First(Tagged(Again(Applied(ls), ls)), (Applied(ls).includes + Applied(ls).excludes)[i]) == i
  {
    var again := Again(Applied(ls), ls);
    var ds := Applied(ls).includes + Applied(ls).excludes;
    JoinedIsDistinct(ls);
    forall k | 0 <= k <= i ensures k < |Tagged(again)| && Tagged(again)[k].destination == ds[k] {
      FrontOfAgain(again, k);
    }
    FirstIs(Tagged(again), ds[i], i);
  }

  lemma AgainIsMerge(ls: Lists, ds: seq<Destination>)
    requires Settled(Applied(ls).includes) && Settled(Applied(ls).excludes)
    requires ds == Applied(ls).includes + Applied(ls).excludes
    requires forall i :: 0 <= i < |ds| ==> Wins(Again(Applied(ls), ls), ds[i]).Some?
    ensures IsMerge(Tagged(Again(Applied(ls), ls)), Winners(Again(Applied(ls), ls), ds))
  {
    var again := Again(Applied(ls), ls);
    var t, out := Tagged(again), Winners(again, ds);
    forall i | 0 <= i < |out|
      ensures out[i].destination == ds[i] && First(t, ds[i]) == i && Occurs(t, ds[i]) && out[i] == t[Last(t, ds[i])]
    {
      WinnersAreNamed(again, ds[i]);
      LastTagged(again, ds[i]);
      OccursAt(t, ds[i]);
      FirstInAgain(ls, i);
    }
    forall d | Occurs(t, d) ensures Occurs(out, d) {
      OccursAt(t, d);
      LastTagged(again, d);
      AgainSameAction(ls, d);
      ListsPartition(ls, d);
      assert d in ds;
      var i :| 0 <= i < |ds| && ds[i] == d;
      assert out[i].destination == d;
    }
  }

  lemma {:induction false} ChosenOfUniform(out: seq<Entry>, chosen: Action, action: Action)
    requires forall i :: 0 <= i < |out| ==> out[i].action == action
    ensures Chosen(out, chosen) == if chosen == action then seq(|out|, i requires 0 <= i < |out| => out[i].destination) else []
  {
    if out != [] { ChosenOfUniform(out[..|out| - 1], chosen, action); }
  }

  lemma {:induction false} ChosenConcat(a: seq<Entry>, b: seq<Entry>, action: Action)
    ensures Chosen(a + b, action) == Chosen(a, action) + Chosen(b, action)
  {
    if b == [] {
      assert a + b == a;
    } else {
      var n := |b| - 1;
      ChosenConcat(a, b[..n], action);
      assert (a + b)[..|a + b| - 1] == a + b[..n];
    }
  }

  lemma SplitOfWinners(ls: Lists, inc: seq<Destination>, exc: seq<Destination>)
    requires forall i :: 0 <= i < |inc| ==> Wins(ls, inc[i]).Some? && Wins(ls, inc[i]).value.action == Include
    requires forall i :: 0 <= i < |exc| ==> Wins(ls, exc[i]).Some? && Wins(ls, exc[i]).value.action == Exclude
    ensures forall i :: 0 <= i < |inc + exc| ==> Wins(ls, (inc + exc)[i]).Some?
    ensures Split(Winners(ls, inc + exc)) == RouteLists(inc, exc)
  {
    var a, b := Winners(ls, inc), Winners(ls, exc);
    assert Winners(ls, inc + exc) == a + b;
    forall chosen: Action ensures Chosen(a + b, chosen) == if chosen == Include then inc else exc {
      ChosenConcat(a, b, chosen);
      ChosenOfWinners(ls, inc, chosen, Include);
      ChosenOfWinners(ls, exc, chosen, Exclude);
    }
  }

  lemma ChosenOfWinners(ls: Lists, ds: seq<Destination>, chosen: Action, action: Action)
    requires forall i :: 0 <= i < |ds| ==> Wins(ls, ds[i]).Some? && Wins(ls, ds[i]).value.action == action
    ensures Chosen(Winners(ls, ds), chosen) == if chosen == action then ds else []
  {
    var out := Winners(ls, ds);
    ChosenOfUniform(out, chosen, action);
    forall i | 0 <= i < |ds| ensures out[i].destination == ds[i] { WinnersAreNamed(ls, ds[i]); }
  }

  lemma ReportedIfSettled(ls: Lists)
    requires Settled(Applied(ls).includes) && Settled(Applied(ls).excludes)
    ensures Reported(Applied(ls), ls) == Applied(ls)
  {
    var again := Again(Applied(ls), ls);
    var inc, exc := Applied(ls).includes, Applied(ls).excludes;
    AppliedHaveWinners(ls);
    AgainIsMerge(ls, inc + exc);
    MergeIsMerge(Tagged(again));
    MergeIsUnique(Tagged(again), Merge(Tagged(again)), Winners(again, inc + exc));
    SplitOfWinners(again, inc, exc);
  }

  /** With local lists that are free of host bits behind a dotted mask, the daemon reports exactly
      the lists that were applied if and only if the server's lists are free of them too. */
  lemma ReportedEqualsAppliedIff(ls: Lists)
    requires Clean(ls.localInclude) && Clean(ls.localExclude)
    ensures Reported(Applied(ls), ls) == Applied(ls) <==> Clean(ls.serverInclude) && Clean(ls.serverExclude)
  {
    if Clean(ls.serverInclude) && Clean(ls.serverExclude) {
      AppliedIsSettled(ls);
      ReportedIfSettled(ls);
    } else {
      var raw :| (raw in ls.serverInclude || raw in ls.serverExclude) && HasHostBits(raw);
      UnsettledIsNotReported(ls, raw);
    }
  }

  lemma UnsettledIsNotReported(ls: Lists, raw: Destination)
    requires Clean(ls.localInclude) && Clean(ls.localExclude)
    requires (raw in ls.serverInclude || raw in ls.serverExclude) && HasHostBits(raw)
    ensures Reported(Applied(ls), ls) != Applied(ls)
  {
    var d := Normalize(raw);
    var again := Again(Applied(ls), ls);
    NormalizeTwiceIff(raw);
    assert d != Blank && Normalize(d) != d;
    assert Names(ls.serverInclude, d) || Names(ls.serverExclude, d);
    ListsPartition(ls, d);
    if Names(ls.localInclude, d) { CleanNamesFixed(ls.localInclude, d); }
    if Names(ls.localExclude, d) { CleanNamesFixed(ls.localExclude, d); }
    AppliedNamesFixed(ls, d);
    assert Wins(again, d).None?;
    ListsPartition(again, d);
  }

  /** Whatever the applied lists name when they are normalised again is fixed. */
  lemma AppliedNamesFixed(ls: Lists, d: Destination)
    ensures Names(Applied(ls).includes, d) || Names(Applied(ls).excludes, d) ==> Normalize(d) == d
  {
    forall x | (x in Applied(ls).includes || x in Applied(ls).excludes) && Normalize(x) == d ensures Normalize(d) == d {
      ListsPartition(ls, x);
      WinnersAreNamed(ls, x);
      var raw :| Normalize(raw) == x;
      NormalizedIsClean(raw);
    }
  }

  /** A server route 10.1.0.0 with mask 255.0.0.0 is applied as written but reported as
      10.0.0.0/8. */
  lemma DottedServerRouteIsMisreported()
    ensures var raw := Dotted(0x0A01_0000, 32, 8);
            var ls := Lists([raw], [], [], []);
            && Applied(ls) == RouteLists([Cidr(Prefix(0x0A01_0000, 32, 8))], [])
            && Reported(Applied(ls), ls) == RouteLists([Cidr(Prefix(0x0A00_0000, 32, 8))], [])
  {
    var raw := Dotted(0x0A01_0000, 32, 8);
    assert Pow2(24) == 0x100_0000 && Pow2(32) == 0x1_0000_0000 by {
      Pow2Plus8(0); Pow2Plus8(8); Pow2Plus8(16); Pow2Plus8(24);
    }
    assert RoundDown(0x0A01_0000, 0x100_0000) == 0x0A00_0000;
    var u, m := Cidr(Prefix(0x0A01_0000, 32, 8)), Cidr(Prefix(0x0A00_0000, 32, 8));
    assert Normalize(raw) == u && Normalize(u) == m;
    SingleServerRoute(raw);
    SingleServerRoute(u);
  }

  lemma SingleServerRoute(raw: Destination)
    requires Normalize(raw) != Blank
    ensures Split(Merge(Tagged(Lists([raw], [], [], [])))) == RouteLists([Normalize(raw)], [])
  {
    var e := Entry(Normalize(raw), Include, 6, Server);
    TagNext([raw], Include, 6, Server, 0);
    assert [raw][..1] == [raw] && [raw][..0] == [];
    assert Tagged(Lists([raw], [], [], [])) == [e];
    SingleEntry(e);
  }

  lemma SingleEntry(e: Entry)
    ensures Merge([e]) == [e]
    ensures forall action :: Chosen([e], action) == if e.action == action then [e.destination] else []
  {
    MergeSnoc([], e);
    assert [] + [e] == [e];
    ChosenNext([e], 0);
    assert [e][..1] == [e] && [e][..0] == [];
  }

  // ---------------------------------------------------------------- the session and the report

  datatype Profile = Profile(acceptServerRoutes: bool, applyDNS: bool, customInclude: seq<Destination>,
                             customExclude: seq<Destination>, dnsOverrides: seq<string>)

  /** A local route a profile may have: an IPv4 address with a prefix length. */
  predicate ValidRoute(d: Destination) {
    d.Cidr? && Valid(d.prefix) && d.prefix.width == 32
  }

  predicate ValidRoutes(profile: Profile) {
    && |profile.customInclude| + |profile.customExclude| <= 512
    && (forall i :: 0 <= i < |profile.customInclude| ==> ValidRoute(profile.customInclude[i]))
    && (forall i :: 0 <= i < |profile.customExclude| ==> ValidRoute(profile.customExclude[i]))
  }

  /** The part of profile validation that looks at routes; it runs when a profile is loaded,
      created, updated and connected. */
  method ValidateRoutes(profile: Profile) returns (ok: bool)
    ensures ok <==> ValidRoutes(profile)
    ensures ok ==> Clean(profile.customInclude) && Clean(profile.customExclude)
  {
    var routes := profile.customInclude + profile.customExclude;
    assert forall i :: 0 <= i < |profile.customExclude| ==> routes[|profile.customInclude| + i] == profile.customExclude[i];
    if |routes| > 512 { return false; }
    for i := 0 to |routes|
      invariant forall k :: 0 <= k < i ==> ValidRoute(routes[k])
    {
      if !ValidRoute(routes[i]) { return false; }
    }
    assert forall i :: 0 <= i < |profile.customInclude| ==> routes[i] == profile.customInclude[i];
    ok := true;
  }

  datatype RouteSpec = RouteSpec(destination: Destination, action: Action, metric: nat, source: Source, enabled: bool)

  /** The four lists that are merged: a profile may refuse the server's routes. */
  function Effective(serverInclude: seq<Destination>, serverExclude: seq<Destination>, profile: Profile): Lists {
    if profile.acceptServerRoutes then Lists(serverInclude, serverExclude, profile.customInclude, profile.customExclude)
    else Lists([], [], profile.customInclude, profile.customExclude)
  }

  function SpecOf(e: Entry): RouteSpec {
    RouteSpec(e.destination, e.action, e.metric, e.source, true)
  }

  /** The routes the daemon reports: the winner of each destination, all enabled. */
  method Plan(serverInclude: seq<Destination>, serverExclude: seq<Destination>, profile: Profile) returns (routes: seq<RouteSpec>)
    ensures var merged := Merge(Tagged(Effective(serverInclude, serverExclude, profile)));
            |routes| == |merged| && forall i :: 0 <= i < |routes| ==> routes[i] == SpecOf(merged[i])
    ensures forall r :: r in routes <==> r.enabled && Wins(Effective(serverInclude, serverExclude, profile), r.destination)
                                                      == Some(Entry(r.destination, r.action, r.metric, r.source))
  {
    var includes, excludes := serverInclude, serverExclude;
    if !profile.acceptServerRoutes { includes, excludes := [], []; }
    var ls := Lists(includes, excludes, profile.customInclude, profile.customExclude);
    var merged := MergeRoutes(ls);
    routes := [];
    for i := 0 to |merged|
      invariant |routes| == i && forall k :: 0 <= k < i ==> routes[k] == SpecOf(merged[k])
    {
      routes := routes + [SpecOf(merged[i])];
    }
    SpecsAreWinners(ls, routes);
  }

  lemma SpecsAreWinners(ls: Lists, routes: seq<RouteSpec>)
    requires |routes| == |Merge(Tagged(ls))|
    requires forall i :: 0 <= i < |routes| ==> routes[i] == SpecOf(Merge(Tagged(ls))[i])
    ensures forall r :: r in routes <==> r.enabled && Wins(ls, r.destination) == Some(Entry(r.destination, r.action, r.metric, r.source))
  {
    var merged := Merge(Tagged(ls));
    forall r ensures r in routes <==> r.enabled && Wins(ls, r.destination) == Some(Entry(r.destination, r.action, r.metric, r.source)) {
      var e := Entry(r.destination, r.action, r.metric, r.source);
      Precedence(ls, e);
      if r in routes {
        var i :| 0 <= i < |routes| && routes[i] == r;
        assert merged[i] == e;
      }
      if r.enabled && e in merged {
        var i :| 0 <= i < |merged| && merged[i] == e;
        assert routes[i] == r;
      }
    }
  }

  class Session {
    var splitInclude: seq<Destination>
    var splitExclude: seq<Destination>
    var dynamicSplitTunneling: bool
    var dynamicIncludeDomains: seq<string>
    var dynamicExcludeDomains: seq<string>
    var useDefaultRouteWhenEmpty: bool
    var dns: seq<string>

    /** A session without a profile keeps what the server sent.  A profile that refuses the
        server's routes refuses its dynamic domains too, and only an accepted server can turn an
        empty include list into a default route. */
    method ApplyProfileOverrides(profile: Option<Profile>)
      modifies this
      ensures profile.None? ==> unchanged(this)
      ensures profile.Some? ==> RouteLists(splitInclude, splitExclude) == Applied(Effective(old(splitInclude), old(splitExclude), profile.value))
      ensures profile.Some? && profile.value.acceptServerRoutes ==>
        unchanged(`dynamicSplitTunneling) && unchanged(`dynamicIncludeDomains) && unchanged(`dynamicExcludeDomains)
      ensures profile.Some? && !profile.value.acceptServerRoutes ==>
        !dynamicSplitTunneling && dynamicIncludeDomains == [] && dynamicExcludeDomains == []
      ensures profile.Some? ==> dns == if !profile.value.applyDNS then [] else if profile.value.dnsOverrides != [] then profile.value.dnsOverrides else old(dns)
      ensures profile.Some? ==>
        (useDefaultRouteWhenEmpty <==> profile.value.acceptServerRoutes
                                       && if profile.value.applyDNS then splitInclude == [] else old(useDefaultRouteWhenEmpty))
    {
      if profile.None? { return; }
      var p := profile.value;
      var serverInclude, serverExclude := splitInclude, splitExclude;
      if !p.acceptServerRoutes {
        serverInclude, serverExclude := [], [];
        dynamicSplitTunneling, dynamicIncludeDomains, dynamicExcludeDomains := false, [], [];
        useDefaultRouteWhenEmpty := false;
      }
      var merged := MergeRouteLists(Lists(serverInclude, serverExclude, p.customInclude, p.customExclude));
      splitInclude, splitExclude := merged.includes, merged.excludes;
      if !p.applyDNS {
        dns := [];
        return;
      }
      if |p.dnsOverrides| > 0 { dns := p.dnsOverrides; }
      useDefaultRouteWhenEmpty := if |splitInclude| == 0 then p.acceptServerRoutes else false;
    }
  }

  /** Planning over the lists a session was left with reports them unchanged, for every profile
      that passed validation.  A profile that refuses the server's routes always does; one that
      accepts them does exactly when the server's lists have no host bits behind a dotted mask. */
  lemma PlanReportsAppliedIff(serverInclude: seq<Destination>, serverExclude: seq<Destination>, profile: Profile)
    requires ValidRoutes(profile)
    ensures var session := Applied(Effective(serverInclude, serverExclude, profile));
            Split(Merge(Tagged(Effective(session.includes, session.excludes, profile)))) == session
            <==> !profile.acceptServerRoutes || (Clean(serverInclude) && Clean(serverExclude))
  {
    var ls := Effective(serverInclude, serverExclude, profile);
    var session := Applied(ls);
    if profile.acceptServerRoutes {
      assert Effective(session.includes, session.excludes, profile) == Again(session, ls);
      ReportedEqualsAppliedIff(ls);
    } else {
      assert Effective(session.includes, session.excludes, profile) == ls;
    }
  }
}
