/** The flows that user-space connections opened, so that packets coming back can be told from
    packets for the operating system. */
module UserFlows {
  import opened Common

  /** Five minutes in nanoseconds. */
  const TTL: nat := 300_000_000_000

  datatype Key = Key(proto: byte, src: seq<byte>, dst: seq<byte>, srcPort: nat, dstPort: nat)

  function Reverse(k: Key): Key {
    Key(k.proto, k.dst, k.src, k.dstPort, k.srcPort)
  }

  lemma ReverseTwice(k: Key, l: Key)
    ensures Reverse(Reverse(k)) == k
    ensures Reverse(k) == Reverse(l) ==> k == l
  {
    assert k == Key(k.proto, k.src, k.dst, k.srcPort, k.dstPort);
    assert l == Key(l.proto, l.src, l.dst, l.srcPort, l.dstPort);
  }

  function Word(hi: byte, lo: byte): nat {
    (hi as int) * 256 + lo as int
  }

  function HeaderLength(first: byte): nat {
    first % 16 * 4
  }

  /** TCP and UDP packets of version 4, with their ports present, have a key. */
  function PacketFlowKey(packet: seq<byte>): Option<Key> {
    if |packet| < 24 || packet[0] / 16 != 4 then None
    else
      var ihl := HeaderLength(packet[0]);
      if ihl < 20 || |packet| < ihl + 4 || (packet[9] != 6 && packet[9] != 17) then None
      else Some(Key(packet[9], packet[12..16], packet[16..20],
                    Word(packet[ihl], packet[ihl + 1]), Word(packet[ihl + 2], packet[ihl + 3])))
  }

  /** The packet that answers another: addresses and ports exchanged. */
  ghost predicate Answers(reply: seq<byte>, packet: seq<byte>) {
    && PacketFlowKey(packet).Some?
    && PacketFlowKey(reply) == Some(Reverse(PacketFlowKey(packet).value))
  }

  lemma AnswersIsSymmetric(reply: seq<byte>, packet: seq<byte>)
    ensures Answers(reply, packet) <==> Answers(packet, reply)
  {
    if PacketFlowKey(packet).Some? && PacketFlowKey(reply).Some? {
      ReverseTwice(PacketFlowKey(packet).value, PacketFlowKey(packet).value);
      ReverseTwice(PacketFlowKey(reply).value, PacketFlowKey(reply).value);
    }
  }

  // ---------------------------------------------------------------- the same, over the bytes

  /** A TCP or UDP packet of version 4 that is long enough for its header and both ports. */
  predicate Ported(packet: seq<byte>) {
    && |packet| >= 24 && 0x45 <= packet[0] <= 0x4F
    && |packet| >= Ports(packet) + 4
    && (packet[9] == 6 || packet[9] == 17)
  }

  /** Where the two ports begin: behind the header, whose length is given in words. */
  function Ports(packet: seq<byte>): nat
    requires |packet| > 0 && packet[0] >= 0x40
  {
    (packet[0] as int - 0x40) * 4
  }

  /** The same protocol, with the addresses and the ports exchanged. */
  ghost predicate Exchanges(reply: seq<byte>, packet: seq<byte>) {
    && Ported(reply) && Ported(packet)
    && reply[9] == packet[9]
    && reply[12..16] == packet[16..20] && reply[16..20] == packet[12..16]
    && var r, p := Ports(reply), Ports(packet);
       reply[r..r + 2] == packet[p + 2..p + 4] && reply[r + 2..r + 4] == packet[p..p + 2]
  }

  lemma KeyIffPorted(packet: seq<byte>)
    ensures PacketFlowKey(packet).Some? <==> Ported(packet)
    ensures Ported(packet) ==> HeaderLength(packet[0]) == Ports(packet)
  {
  }

  lemma WordIsInjective(a: byte, b: byte, c: byte, d: byte)
    ensures Word(a, b) == Word(c, d) <==> a == c && b == d
  {
  }

  lemma SamePort(s: seq<byte>, i: nat, t: seq<byte>, j: nat)
    requires i + 2 <= |s| && j + 2 <= |t|
    ensures Word(s[i], s[i + 1]) == Word(t[j], t[j + 1]) <==> s[i..i + 2] == t[j..j + 2]
  {
    WordIsInjective(s[i], s[i + 1], t[j], t[j + 1]);
    assert s[i..i + 2] == [s[i], s[i + 1]] && t[j..j + 2] == [t[j], t[j + 1]];
  }

  /** Which packets answer which, byte for byte. */
  lemma AnswersIffExchanges(reply: seq<byte>, packet: seq<byte>)
    ensures Answers(reply, packet) <==> Exchanges(reply, packet)
  {
    KeyIffPorted(reply);
    KeyIffPorted(packet);
    if Ported(reply) && Ported(packet) {
      SamePort(reply, Ports(reply), packet, Ports(packet) + 2);
      SamePort(reply, Ports(reply) + 2, packet, Ports(packet));
    }
  }

  // ---------------------------------------------------------------- the table and its history

  /** The clock is read once to prune and once more to record. */
  datatype Event = Outbound(packet: seq<byte>, pruned: nat, recorded: nat) | Inbound(packet: seq<byte>, pruned: nat)

  type Flows = map<Key, nat>

  function Pruned(flows: Flows, now: nat): Flows {
    map k | k in flows && now <= flows[k] :: flows[k]
  }

  function Apply(flows: Flows, e: Event): Flows {
    match PacketFlowKey(e.packet)
    case None => flows
    case Some(k) =>
      var live := Pruned(flows, e.pruned);
      if e.Outbound? then live[Reverse(k) := e.recorded + TTL] else live
  }

  function Run(events: seq<Event>): Flows {
    if events == [] then map[] else Apply(Run(events[..|events| - 1]), events[|events| - 1])
  }

  function EndOf(e: Event): nat {
    if e.Outbound? then e.recorded else e.pruned
  }

  /** When the clock was last read. */
  function LastTime(events: seq<Event>): nat {
    if events == [] then 0 else EndOf(events[|events| - 1])
  }

  /** The clock does not go back. */
  predicate Monotone(events: seq<Event>) {
    events == []
    || (var n := |events| - 1;
        Monotone(events[..n]) && LastTime(events[..n]) <= events[n].pruned <= EndOf(events[n]))
  }

  /** An outbound packet the key answers was recorded, and has not expired. */
  predicate Opened(e: Event, k: Key, now: nat) {
    && e.Outbound? && PacketFlowKey(e.packet).Some? && Reverse(PacketFlowKey(e.packet).value) == k
    && now <= e.recorded + TTL
  }

  /** The packet answers one that was sent at most five minutes ago, in nanoseconds. */
  ghost predicate AnswersRecent(events: seq<Event>, packet: seq<byte>, now: nat) {
    exists i :: (0 <= i < |events| && events[i].Outbound?
                 && Exchanges(packet, events[i].packet) && now <= events[i].recorded + 300_000_000_000)
  }

  lemma {:induction false} RecordedInThePast(events: seq<Event>, i: nat)
    requires Monotone(events) && i < |events|
    ensures EndOf(events[i]) <= LastTime(events)
  {
    var n := |events| - 1;
    if i < n { RecordedInThePast(events[..n], i); }
  }

  lemma OpenedSnoc(events: seq<Event>, k: Key, now: nat)
    requires events != []
    ensures var n := |events| - 1;
            (exists i :: 0 <= i < |events| && Opened(events[i], k, now))
            <==> Opened(events[n], k, now) || exists i :: 0 <= i < n && Opened(events[..n][i], k, now)
  {
    var n := |events| - 1;
    if i :| 0 <= i < |events| && Opened(events[i], k, now) {
      if i < n { assert events[..n][i] == events[i]; }
    }
    if i :| 0 <= i < n && Opened(events[..n][i], k, now) {
      assert events[..n][i] == events[i];
    }
  }

  /** Whatever was pruned and overwritten, a key is live now exactly when some outbound packet it
      answers was recorded at most five minutes ago. */
  lemma {:induction false} LiveIffOpened(events: seq<Event>, k: Key, now: nat)
    requires Monotone(events) && LastTime(events) <= now
    ensures k in Pruned(Run(events), now) <==> exists i :: 0 <= i < |events| && Opened(events[i], k, now)
    decreases |events|
  {
    if events != [] {
      var n := |events| - 1;
      LiveIffOpened(events[..n], k, now);
      OpenedSnoc(events, k, now);
      if !Opened(events[n], k, now) && events[n].Outbound? && PacketFlowKey(events[n].packet).Some? && Reverse(PacketFlowKey(events[n].packet).value) == k {
        forall i | 0 <= i < n ensures !Opened(events[..n][i], k, now) {
          if events[..n][i].Outbound? { RecordedInThePast(events[..n], i); }
        }
      }
    }
  }

  lemma OpenedIsAnswered(events: seq<Event>, packet: seq<byte>, now: nat)
    requires PacketFlowKey(packet).Some?
    ensures (exists i :: 0 <= i < |events| && Opened(events[i], PacketFlowKey(packet).value, now)) <==> AnswersRecent(events, packet, now)
  {
    forall i | 0 <= i < |events|
      ensures Opened(events[i], PacketFlowKey(packet).value, now) <==>
                events[i].Outbound? && Exchanges(packet, events[i].packet) && now <= events[i].recorded + 300_000_000_000
    {
      AnswersIffExchanges(packet, events[i].packet);
    }
  }

  class UserFlowRouter {
    var flows: Flows
    ghost var events: seq<Event>

    ghost predicate Valid()
      reads this
    {
      flows == Run(events) && Monotone(events)
    }

    constructor ()
      ensures Valid() && events == []
    {
      flows, events := map[], [];
    }

    method PruneLocked(now: nat)
      modifies `flows
      ensures flows == Pruned(old(flows), now)
    {
      var todo := flows.Keys;
      while todo != {}
        invariant todo <= flows.Keys <= old(flows).Keys
        invariant forall k :: k in flows ==> flows[k] == old(flows)[k]
        invariant forall k :: k in old(flows) ==> (k in flows <==> k in todo || now <= old(flows)[k])
      {
        var k :| k in todo;
        todo := todo - {k};
        if now > flows[k] { flows := flows - {k}; }
      }
    }

    method RecordOutbound(packet: seq<byte>, pruned: nat, recorded: nat) returns (ok: bool)
      requires Valid() && LastTime(events) <= pruned <= recorded
      modifies this
      ensures Valid() && events == old(events) + [Outbound(packet, pruned, recorded)]
      ensures ok <==> Ported(packet)
    {
      KeyIffPorted(packet);
      ghost var e := Outbound(packet, pruned, recorded);
      assert (events + [e])[..|events|] == events;
      events := events + [e];
      var key := PacketFlowKey(packet);
      if key.None? { return false; }
      PruneLocked(pruned);
      flows := flows[Reverse(key.value) := recorded + TTL];
      ok := true;
    }

    /** A packet is for a user-space connection exactly when it answers a packet that was sent at
        most five minutes ago. */
    method MatchesInbound(packet: seq<byte>, now: nat) returns (hit: bool)
      requires Valid() && LastTime(events) <= now
      modifies this
      ensures Valid() && events == old(events) + [Inbound(packet, now)]
      ensures hit <==> AnswersRecent(old(events), packet, now)
    {
      ghost var e := Inbound(packet, now);
      assert (events + [e])[..|events|] == events;
      var key := PacketFlowKey(packet);
      if key.Some? { LiveIffOpened(events, key.value, now); }
      ghost var before := events;
      events := events + [e];
      KeyIffPorted(packet);
      if key.None? { return false; }
      PruneLocked(now);
      hit := key.value in flows;
      OpenedIsAnswered(before, packet, now);
    }
  }
}
