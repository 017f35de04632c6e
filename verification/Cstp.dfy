/** CSTP frames, section 2.2 of draft-mavrogiannopoulos-openconnect-03, and the buffers they are
    built in. */
module Cstp {
  import opened Common

  const HEADER: seq<byte> := [0x53, 0x54, 0x46, 0x01, 0x00, 0x00, 0x00, 0x00]

  datatype Frame = Frame(kind: byte, payload: seq<byte>)

  // ---------------------------------------------------------------- the wire format

  /** The length field holds the low sixteen bits of the length, high byte first. */
  function HighByte(n: nat): byte {
    n / 256 % 256
  }

  function LowByte(n: nat): byte {
    n % 256
  }

  function LengthOf(hi: byte, lo: byte): nat {
    (hi as int) * 256 + lo as int
  }

  function HeaderOf(kind: byte, length: nat): (h: seq<byte>)
    ensures |h| == 8
  {
    HEADER[..4] + [HighByte(length), LowByte(length), kind, 0]
  }

  function Wire(f: Frame): seq<byte> {
    HeaderOf(f.kind, |f.payload|) + f.payload
  }

  function WireAll(fs: seq<Frame>): seq<byte> {
    if fs == [] then [] else Wire(fs[0]) + WireAll(fs[1..])
  }

  datatype ReadError = EndOfStream | UnexpectedEnd | BadHeader

  /** One frame off the front of a stream, or why there is none. */
  datatype Decoded = Ok(frame: Frame, rest: seq<byte>) | Bad(error: ReadError)

  predicate HeaderIsGood(h: seq<byte>)
    requires |h| == 8
  {
    h[..4] == HEADER[..4] && h[7] == HEADER[7]
  }

  function Decode(s: seq<byte>): Decoded {
    if s == [] then Bad(EndOfStream)
    else if |s| < 8 then Bad(UnexpectedEnd)
    else if !HeaderIsGood(s[..8]) then Bad(BadHeader)
    else
      var n := LengthOf(s[4], s[5]);
      var body := s[8..];
      if n > 0 && body == [] then Bad(EndOfStream)
      else if |body| < n then Bad(UnexpectedEnd)
      else Ok(Frame(s[6], body[..n]), body[n..])
  }

  lemma LengthBytes(n: nat)
    ensures n < 65536 ==> LengthOf(HighByte(n), LowByte(n)) == n
    ensures LengthOf(HighByte(n), LowByte(n)) < 65536
  {
  }

  lemma BytesOfLength(hi: byte, lo: byte)
    ensures HighByte(LengthOf(hi, lo)) == hi && LowByte(LengthOf(hi, lo)) == lo
  {
  }

  /** A frame is read back, with exactly its bytes consumed, if and only if its payload fits the
      length field. */
  lemma RoundTripIff(f: Frame, rest: seq<byte>)
    ensures Decode(Wire(f) + rest) == Ok(f, rest) <==> |f.payload| < 65536
  {
    if |f.payload| < 65536 { FittingRoundTrips(f, rest); } else { LongIsCut(f, rest); }
  }

  lemma DecodeWithLength(kind: byte, n: nat, body: seq<byte>)
    requires n < 65536
    ensures Decode(HeaderOf(kind, n) + body)
            == if n > 0 && body == [] then Bad(EndOfStream)
               else if |body| < n then Bad(UnexpectedEnd)
               else Ok(Frame(kind, body[..n]), body[n..])
  {
    LengthBytes(n);
    DecodeAfterHeader(kind, n, body);
  }

  lemma FittingRoundTrips(f: Frame, rest: seq<byte>)
    requires |f.payload| < 65536
    ensures Decode(Wire(f) + rest) == Ok(f, rest)
  {
    var n, body := |f.payload|, f.payload + rest;
    Regroup(HeaderOf(f.kind, n), f.payload, rest);
    DecodeWithLength(f.kind, n, body);
    assert body[..n] == f.payload && body[n..] == rest;
  }

  lemma LongIsCut(f: Frame, rest: seq<byte>)
    requires |f.payload| >= 65536
    ensures Decode(Wire(f) + rest) != Ok(f, rest)
  {
    var n := |f.payload|;
    Regroup(HeaderOf(f.kind, n), f.payload, rest);
    DecodeAfterHeader(f.kind, n, f.payload + rest);
    LengthBytes(n);
  }

  lemma Regroup(a: seq<byte>, b: seq<byte>, c: seq<byte>)
    ensures (a + b) + c == a + (b + c)
  {
  }

  lemma DecodeAfterHeader(kind: byte, length: nat, body: seq<byte>)
    ensures var n := LengthOf(HighByte(length), LowByte(length));
            Decode(HeaderOf(kind, length) + body)
            == if n > 0 && body == [] then Bad(EndOfStream)
               else if |body| < n then Bad(UnexpectedEnd)
               else Ok(Frame(kind, body[..n]), body[n..])
  {
    var h := HeaderOf(kind, length);
    var s := h + body;
    assert s[..8] == h && s[8..] == body;
    assert forall i :: 0 <= i < 8 ==> s[i] == h[i];
    assert h[..4] == HEADER[..4];
  }

  /** Whatever decodes is the wire form of what it decodes to. */
  lemma DecodedIsWire(s: seq<byte>)
    requires Decode(s).Ok?
    ensures s == Wire(Decode(s).frame) + Decode(s).rest && |Decode(s).frame.payload| < 65536
  {
    BytesOfLength(s[4], s[5]);
    var n := LengthOf(s[4], s[5]);
    assert s == s[..8] + (s[8..][..n] + s[8..][n..]);
    assert s[..4] == s[..8][..4];
    assert s[..8] == s[..4] + [s[4], s[5], s[6], s[7]];
    assert s[7] == s[..8][7];
    assert s[..8] == HeaderOf(s[6], n);
  }

  /** The bytes of a frame: "STF", version 1, the length of the payload with the high byte first, the
      kind and a zero, then the payload. */
  lemma WireLayout(f: Frame)
    requires |f.payload| < 65536
    ensures var w := Wire(f);
            && |w| == 8 + |f.payload|
            && w[0] == 'S' as int && w[1] == 'T' as int && w[2] == 'F' as int && w[3] == 1
            && w[4] as int * 256 + w[5] as int == |f.payload|
            && w[6] == f.kind && w[7] == 0
            && w[8..] == f.payload
  {
    var h := HeaderOf(f.kind, |f.payload|);
    assert forall i :: 0 <= i < 8 ==> Wire(f)[i] == h[i];
    LengthBytes(|f.payload|);
  }

  /** Frames as long as the stream yields them, and the bytes left when it does not. */
  function DecodeAll(s: seq<byte>): (seq<Frame>, seq<byte>)
    decreases |s|
  {
    match Decode(s)
    case Bad(_) => ([], s)
    case Ok(f, rest) =>
      DecodedIsWire(s);
      var (fs, left) := DecodeAll(rest);
      ([f] + fs, left)
  }

  lemma WireAllCons(f: Frame, fs: seq<Frame>, left: seq<byte>)
    ensures WireAll([f] + fs) + left == Wire(f) + (WireAll(fs) + left)
  {
    assert ([f] + fs)[1..] == fs;
    assert (Wire(f) + WireAll(fs)) + left == Wire(f) + (WireAll(fs) + left);
  }

  /** The frames that come out of a stream, put on the wire again, are the stream. */
  lemma {:induction false} DecodeAllIsWire(s: seq<byte>)
    ensures WireAll(DecodeAll(s).0) + DecodeAll(s).1 == s && Decode(DecodeAll(s).1).Bad?
    decreases |s|
  {
    if Decode(s).Ok? {
      DecodedIsWire(s);
      var f, rest := Decode(s).frame, Decode(s).rest;
      DecodeAllIsWire(rest);
      var (fs, left) := DecodeAll(rest);
      WireAllCons(f, fs, left);
    }
  }

  ghost predicate Sendable(fs: seq<Frame>) {
    forall i :: 0 <= i < |fs| ==> |fs[i].payload| < 65536
  }

  /** Any number of frames sent one after the other are received as they were sent, whatever
      incomplete frame follows them. */
  lemma {:induction false} StreamRoundTrip(fs: seq<Frame>, left: seq<byte>)
    requires Sendable(fs) && Decode(left).Bad?
    ensures DecodeAll(WireAll(fs) + left) == (fs, left)
    decreases |fs|
  {
    if fs == [] {
      assert WireAll(fs) + left == left;
    } else {
      var more := WireAll(fs[1..]) + left;
      StreamRoundTrip(fs[1..], left);
      assert WireAll(fs) + left == Wire(fs[0]) + more;
      DecodeAllCons(fs[0], more);
      assert [fs[0]] + fs[1..] == fs;
    }
  }

  lemma DecodeAllCons(f: Frame, more: seq<byte>)
    requires |f.payload| < 65536
    ensures DecodeAll(Wire(f) + more) == ([f] + DecodeAll(more).0, DecodeAll(more).1)
  {
    RoundTripIff(f, more);
  }

  /** No two lists of frames look the same on the wire. */
  lemma WireIsInjective(fs: seq<Frame>, gs: seq<Frame>)
    requires Sendable(fs) && Sendable(gs) && WireAll(fs) == WireAll(gs)
    ensures fs == gs
  {
    StreamRoundTrip(fs, []);
    StreamRoundTrip(gs, []);
    assert WireAll(fs) + [] == WireAll(gs) + [];
  }

  lemma SplitAt8(whole: seq<byte>, header: seq<byte>, body: seq<byte>)
    requires |header| == 8 && |whole| == 8 + |body| && whole[..8] == header && whole[8..] == body
    ensures whole == header + body
  {
    assert whole == whole[..8] + whole[8..];
  }

  // ---------------------------------------------------------------- payload buffers

  const MINIMUM_MTU: int := 576
  const MAXIMUM_MTU: int := 9000
  const DEFAULT_MTU: int := 1399
  const HEADROOM: int := 256

  function PayloadBufferSize(mtu: int): (size: nat)
    ensures MINIMUM_MTU + HEADROOM <= size <= MAXIMUM_MTU + HEADROOM
  {
    var m := if mtu < MINIMUM_MTU then 1399 else mtu;
    (if m > MAXIMUM_MTU then MAXIMUM_MTU else m) + HEADROOM
  }

  /** The smaller of the server's and the profile's packet size; `None` when one is refused. */
  function EffectiveMTU(serverMTU: int, profileMTU: int): (mtu: Option<int>)
    ensures mtu.Some? ==> MINIMUM_MTU <= mtu.value <= MAXIMUM_MTU && PayloadBufferSize(mtu.value) == mtu.value + HEADROOM
    ensures mtu.Some? <==> (serverMTU <= 0 || 576 <= serverMTU <= 9000) && (profileMTU <= 0 || 576 <= profileMTU <= 9000)
    ensures mtu.Some? ==> mtu.value == serverMTU || mtu.value == if profileMTU > 0 then profileMTU else 1399
    ensures mtu.Some? && profileMTU <= 0 ==> mtu.value <= 1399
    ensures mtu.Some? && serverMTU > 0 ==> mtu.value <= serverMTU
    ensures mtu.Some? && profileMTU > 0 ==> mtu.value <= profileMTU
  {
    var profile := if profileMTU <= 0 then DEFAULT_MTU else profileMTU;
    if profile < MINIMUM_MTU || profile > MAXIMUM_MTU then None
    else if serverMTU <= 0 then Some(profile)
    else if serverMTU < MINIMUM_MTU || serverMTU > MAXIMUM_MTU then None
    else if serverMTU < profile then Some(serverMTU)
    else Some(profile)
  }

  /** A payload: a kind and a slice of a buffer, from `off` on and `len` bytes long. */
  class Payload {
    var kind: byte
    var buf: array<byte>
    var off: nat
    var len: nat

    ghost predicate Valid()
      reads this
    {
      off + len <= buf.Length
    }

    function Cap(): int
      reads this
    {
      buf.Length - off
    }

    ghost function Bytes(): seq<byte>
      reads this, buf
      requires Valid()
    {
      buf[off..off + len]
    }

    constructor (size: nat)
      ensures Valid() && fresh(buf) && off == 0 && len == size == buf.Length && kind == 0
    {
      kind, buf, off, len := 0, new byte[size](_ => 0), 0, size;
    }

    /** Keep `n` bytes from `start` on; the capacity shrinks by `start`. */
    method Slice(start: nat, n: nat)
      requires Valid() && start + n <= Cap()
      modifies `off, `len
      ensures Valid() && Cap() == old(Cap()) - start && len == n
      ensures start + n <= old(len) ==> Bytes() == old(Bytes())[start..start + n]
    {
      off, len := off + start, n;
    }

    /** Move the data eight bytes up, from the last byte to the first. */
    method ShiftUp(l: nat)
      requires Valid() && len == l + 8
      modifies buf
      ensures buf[off + 8..off + 8 + l] == old(buf[off..off + l])
    {
      ghost var was := buf[..];
      var i := l;
      while i > 0
        invariant 0 <= i <= l
        invariant forall j :: off <= j < off + i ==> buf[j] == was[j]
        invariant forall j :: off + 8 + i <= j < off + 8 + l ==> buf[j] == was[j - 8]
      {
        i := i - 1;
        buf[off + 8 + i] := buf[off + i];
      }
      assert was[off..off + l] == old(buf[off..off + l]);
    }

    method CopyHeader()
      requires Valid() && len >= 8
      modifies buf
      ensures buf[off..off + 8] == HEADER
      ensures buf[off + 8..off + len] == old(buf[off + 8..off + len])
    {
      ghost var was := buf[..];
      for i := 0 to 8
        invariant forall j :: off <= j < off + i ==> buf[j] == HEADER[j - off]
        invariant forall j :: off + 8 <= j < off + len ==> buf[j] == was[j]
      {
        buf[off + i] := HEADER[i];
      }
      assert buf[off + 8..off + len] == was[off + 8..off + len];
    }

    /** Turn a data payload into its frame in place. */
    method FrameData()
      requires Valid() && len + 8 <= Cap()
      modifies `len, buf
      ensures Valid() && Cap() == old(Cap()) && Bytes() == Wire(Frame(0, old(Bytes())))
    {
      var l := len;
      len := l + 8;
      ShiftUp(l);
      AddHeader(l);
    }

    method AddHeader(l: nat)
      requires Valid() && len >= 8
      modifies buf
      ensures buf[off..off + len] == HeaderOf(0, l) + old(buf[off + 8..off + len])
    {
      CopyHeader();
      PutLength(l);
      SplitAt8(buf[off..off + len], buf[off..off + 8], buf[off + 8..off + len]);
    }

    method PutLength(l: nat)
      requires Valid() && len >= 8 && buf[off..off + 8] == HEADER
      modifies buf
      ensures buf[off..off + 8] == HeaderOf(0, l)
      ensures buf[off + 8..off + len] == old(buf[off + 8..off + len])
    {
      ghost var was := buf[..];
      assert was[off..off + 8] == HEADER;
      assert forall k :: 0 <= k < 8 ==> was[off + k] == HEADER[k];
      buf[off + 4] := HighByte(l);
      buf[off + 5] := LowByte(l);
      assert buf[off + 8..off + len] == was[off + 8..off + len];
      assert forall k :: 0 <= k < 8 ==> buf[off..off + 8][k] == HeaderOf(0, l)[k];
    }

    /** A control frame is the header alone; a buffer that is too small is replaced. */
    method FrameControl()
      requires Valid()
      modifies `buf, `off, `len, buf
      ensures Valid() && kind == old(kind) && Bytes() == Wire(Frame(kind, []))
      ensures old(Cap()) >= 8 ==> buf == old(buf) && Cap() == old(Cap())
      ensures buf == old(buf) || fresh(buf)
    {
      if Cap() < 8 {
        buf := new byte[8](_ => 0);
        off := 0;
      }
      len := 8;
      CopyHeader();
      buf[off + 6] := kind;
      assert buf[off..off + 8] == HeaderOf(kind, 0);
      assert Wire(Frame(kind, [])) == HeaderOf(kind, 0);
    }

    /** What the sender writes for a payload. */
    method FrameForTLS()
      requires Valid() && (kind == 0 ==> len + 8 <= Cap())
      modifies `buf, `off, `len, buf
      ensures Valid() && kind == old(kind)
      ensures Bytes() == Wire(Frame(kind, if kind == 0 then old(Bytes()) else []))
    {
      if kind == 0 {
        FrameData();
      } else {
        FrameControl();
      }
    }
  }

  // ---------------------------------------------------------------- reading a frame

  class Reader {
    var rest: seq<byte>

    constructor (bytes: seq<byte>)
      ensures rest == bytes
    {
      rest := bytes;
    }

    /** Exactly `n` bytes, or an error that has used up what there was. */
    method ReadFull(n: nat) returns (got: seq<byte>, error: Option<ReadError>)
      modifies this
      ensures n <= |old(rest)| ==> error == None && got == old(rest)[..n] && rest == old(rest)[n..]
      ensures n > |old(rest)| ==> rest == [] && error == Some(if old(rest) == [] then EndOfStream else UnexpectedEnd)
    {
      if n <= |rest| {
        got, error, rest := rest[..n], None, rest[n..];
      } else {
        got, error, rest := rest, Some(if rest == [] then EndOfStream else UnexpectedEnd), [];
      }
    }
  }

  datatype ReadResult = Got(kind: byte, wireBytes: nat) | Failed(error: ReadError)

  /** One frame into a payload, whose buffer is replaced when it is too small. */
  method ReadCSTPFrame(reader: Reader, pl: Payload) returns (r: ReadResult)
    requires pl.Valid()
    modifies reader, pl`buf, pl`off, pl`len, pl.buf
    ensures pl.Valid() && (pl.buf == old(pl.buf) || fresh(pl.buf))
    ensures match Decode(old(reader.rest))
            case Bad(e) => r == Failed(e)
            case Ok(f, rest) =>
              && r == Got(f.kind, |Wire(f)|) && pl.Bytes() == f.payload && reader.rest == rest
              && pl.Cap() == if |f.payload| <= old(pl.Cap()) then old(pl.Cap()) else |f.payload|
  {
    ghost var stream := reader.rest;
    var header, error := reader.ReadFull(8);
    if error.Some? { return Failed(error.value); }
    assert forall i :: 0 <= i < 8 ==> header[i] == stream[i];
    if header[..4] != HEADER[..4] || header[7] != HEADER[7] { return Failed(BadHeader); }
    var n := LengthOf(header[4], header[5]);
    if n > pl.Cap() {
      pl.buf := new byte[n](_ => 0);
      pl.off := 0;
    }
    pl.len := n;
    var got;
    got, error := reader.ReadFull(n);
    if error.Some? { return Failed(error.value); }
    forall i | 0 <= i < n { pl.buf[pl.off + i] := got[i]; }
    assert pl.Bytes() == got;
    r := Got(header[6], 8 + n);
  }

  // ---------------------------------------------------------------- serving a session

  const DATA: byte := 0
  const DPD_REQUEST: byte := 3
  const DPD_RESPONSE: byte := 4
  const DISCONNECT: byte := 5
  const KEEPALIVE: byte := 7
  const TERMINATE: byte := 9

  datatype Reason = ReadFailed(error: ReadError) | ServerDisconnect | ServerTerminate | Unsupported(kind: byte)

  /** What a stream of the server makes the client do: deliver packets, reply, and stop. */
  datatype Served = Served(delivered: seq<seq<byte>>, replies: seq<Frame>, reason: Reason)

  /** A frame that ends the session, and why. */
  function Ends(kind: byte): Option<Reason> {
    if kind == DISCONNECT then Some(ServerDisconnect)
    else if kind == TERMINATE then Some(ServerTerminate)
    else if kind in {DATA, DPD_REQUEST, DPD_RESPONSE, KEEPALIVE} then None
    else Some(Unsupported(kind))
  }

  function PacketsOf(fs: seq<Frame>): seq<seq<byte>> {
    if fs == [] then []
    else (if fs[0].kind == DATA then [fs[0].payload] else []) + PacketsOf(fs[1..])
  }

  /** Each liveness request is answered once, without the contents of the request. */
  function RepliesTo(fs: seq<Frame>): seq<Frame> {
    if fs == [] then []
    else (if fs[0].kind == DPD_REQUEST then [Frame(DPD_RESPONSE, [])] else []) + RepliesTo(fs[1..])
  }

  ghost predicate KeepsGoing(fs: seq<Frame>) {
    forall i :: 0 <= i < |fs| ==> Ends(fs[i].kind).None?
  }

  lemma {:induction false} PacketsSnoc(fs: seq<Frame>, f: Frame)
    ensures PacketsOf(fs + [f]) == PacketsOf(fs) + if f.kind == DATA then [f.payload] else []
  {
    if fs == [] {
      assert (fs + [f])[1..] == [];
    } else {
      assert (fs + [f])[1..] == fs[1..] + [f];
      PacketsSnoc(fs[1..], f);
    }
  }

  lemma {:induction false} RepliesSnoc(fs: seq<Frame>, f: Frame)
    ensures RepliesTo(fs + [f]) == RepliesTo(fs) + if f.kind == DPD_REQUEST then [Frame(DPD_RESPONSE, [])] else []
  {
    if fs == [] {
      assert (fs + [f])[1..] == [];
    } else {
      assert (fs + [f])[1..] == fs[1..] + [f];
      RepliesSnoc(fs[1..], f);
    }
  }

  lemma {:induction false} WireSnoc(fs: seq<Frame>, f: Frame)
    ensures WireAll(fs + [f]) == WireAll(fs) + Wire(f)
  {
    if fs == [] {
      assert (fs + [f])[1..] == [];
    } else {
      assert (fs + [f])[1..] == fs[1..] + [f];
      WireSnoc(fs[1..], f);
      Regroup(Wire(fs[0]), WireAll(fs[1..]), Wire(f));
    }
  }

  /** The frames a session got through, and what came after them. */
  ghost predicate Explains(stream: seq<byte>, fs: seq<Frame>, left: seq<byte>, s: Served) {
    && stream == WireAll(fs) + left
    && Sendable(fs) && KeepsGoing(fs)
    && s.delivered == PacketsOf(fs) && s.replies == RepliesTo(fs)
    && match Decode(left)
       case Bad(e) => s.reason == ReadFailed(e)
       case Ok(f, _) => Ends(f.kind) == Some(s.reason)
  }

  ghost predicate Progress(stream: seq<byte>, fs: seq<Frame>, left: seq<byte>, delivered: seq<seq<byte>>, replies: seq<Frame>) {
    && stream == WireAll(fs) + left
    && Sendable(fs) && KeepsGoing(fs)
    && delivered == PacketsOf(fs) && replies == RepliesTo(fs)
  }

  lemma OneFrameFurther(stream: seq<byte>, fs: seq<Frame>, f: Frame, rest: seq<byte>, delivered: seq<seq<byte>>, replies: seq<Frame>)
    requires Progress(stream, fs, Wire(f) + rest, delivered, replies)
    requires |f.payload| < 65536 && Ends(f.kind).None?
    ensures Progress(stream, fs + [f], rest,
                     if f.kind == DATA then delivered + [f.payload] else delivered,
                     if f.kind == DPD_REQUEST then replies + [Frame(DPD_RESPONSE, [])] else replies)
  {
    PacketsSnoc(fs, f);
    RepliesSnoc(fs, f);
    WireSnoc(fs, f);
    Regroup(WireAll(fs), Wire(f), rest);
  }

  /** The receiving loop of the TLS channel. */
  method ServeTLS(reader: Reader, mtu: int) returns (s: Served)
    modifies reader
    ensures exists fs, left :: Explains(old(reader.rest), fs, left, s)
  {
    ghost var stream := reader.rest;
    ghost var fs: seq<Frame> := [];
    var delivered, replies: seq<Frame> := [], [];
    assert stream == WireAll(fs) + reader.rest;
    while true
      invariant Progress(stream, fs, reader.rest, delivered, replies)
      decreases |reader.rest|
    {
      ghost var left := reader.rest;
      var r, data := ReceiveFrame(reader, mtu);
      if r.Failed? {
        s := Served(delivered, replies, ReadFailed(r.error));
        assert Explains(stream, fs, left, s);
        return;
      }
      DecodedIsWire(left);
      ghost var f := Decode(left).frame;
      var end := Ends(r.kind);
      if end.Some? {
        s := Served(delivered, replies, end.value);
        assert Explains(stream, fs, left, s);
        return;
      }
      OneFrameFurther(stream, fs, f, reader.rest, delivered, replies);
      fs := fs + [f];
      if r.kind == DATA {
        delivered := delivered + [data];
      } else if r.kind == DPD_REQUEST {
        replies := replies + [Frame(DPD_RESPONSE, [])];
      }
    }
  }

  method ReceiveFrame(reader: Reader, mtu: int) returns (r: ReadResult, data: seq<byte>)
    modifies reader
    ensures match Decode(old(reader.rest))
            case Bad(e) => r == Failed(e)
            case Ok(f, rest) => r == Got(f.kind, |Wire(f)|) && data == f.payload && reader.rest == rest
  {
    var pl := new Payload(PayloadBufferSize(mtu));
    r := ReadCSTPFrame(reader, pl);
    data := pl.buf[pl.off..pl.off + pl.len];
  }

  /** The explanation is unique, so that it says what the session does with a stream of frames:
      everything before the first frame that ends it, and nothing after. */
  lemma {:induction false} ExplanationIsUnique(stream: seq<byte>, fs: seq<Frame>, left: seq<byte>, s: Served,
                                               gs: seq<Frame>, left': seq<byte>, s': Served)
    requires Explains(stream, fs, left, s) && Explains(stream, gs, left', s')
    ensures fs == gs && left == left' && s == s'
    decreases |fs|
  {
    if fs == [] || gs == [] {
      FirstDecides(stream, fs, left);
      FirstDecides(stream, gs, left');
    } else {
      FirstDecides(stream, fs, left);
      FirstDecides(stream, gs, left');
      assert fs == [fs[0]] + fs[1..] && gs == [gs[0]] + gs[1..];
      var rest := WireAll(fs[1..]) + left;
      var t := Served(PacketsOf(fs[1..]), RepliesTo(fs[1..]), s.reason);
      var t' := Served(PacketsOf(gs[1..]), RepliesTo(gs[1..]), s'.reason);
      ExplanationIsUnique(rest, fs[1..], left, t, gs[1..], left', t');
    }
  }

  /** The first frame of a stream is either the first one got through or what comes after. */
  lemma FirstDecides(stream: seq<byte>, fs: seq<Frame>, left: seq<byte>)
    requires stream == WireAll(fs) + left && Sendable(fs)
    ensures if fs == [] then stream == left else Decode(stream) == Ok(fs[0], WireAll(fs[1..]) + left)
  {
    if fs == [] {
      assert WireAll(fs) + left == left;
    } else {
      Regroup(Wire(fs[0]), WireAll(fs[1..]), left);
      RoundTripIff(fs[0], WireAll(fs[1..]) + left);
    }
  }

  /** Where the `i`-th frame of `fs` comes among those of its kind. */
  ghost function Rank(fs: seq<Frame>, i: nat): nat
    requires i < |fs|
  {
    |set j | 0 <= j < i && fs[j].kind == fs[i].kind|
  }

  ghost function HowMany(fs: seq<Frame>, kind: byte): nat {
    |set j | 0 <= j < |fs| && fs[j].kind == kind|
  }

  lemma HowManySnoc(fs: seq<Frame>, f: Frame, kind: byte)
    ensures HowMany(fs + [f], kind) == HowMany(fs, kind) + if f.kind == kind then 1 else 0
  {
    var before := set j | 0 <= j < |fs| && fs[j].kind == kind;
    var after := set j | 0 <= j < |fs + [f]| && (fs + [f])[j].kind == kind;
    assert after == before + if f.kind == kind then {|fs|} else {};
  }

  lemma RankSnoc(fs: seq<Frame>, f: Frame, i: nat)
    requires i < |fs|
    ensures Rank(fs + [f], i) == Rank(fs, i)
  {
    assert (set j | 0 <= j < i && (fs + [f])[j].kind == (fs + [f])[i].kind) == (set j | 0 <= j < i && fs[j].kind == fs[i].kind);
  }

  lemma RankOfLast(fs: seq<Frame>, f: Frame)
    ensures Rank(fs + [f], |fs|) == HowMany(fs, f.kind)
  {
    assert (set j | 0 <= j < |fs| && (fs + [f])[j].kind == (fs + [f])[|fs|].kind) == (set j | 0 <= j < |fs| && fs[j].kind == f.kind);
  }

  /** The packets delivered are those of the data frames, one each and in their order; there is one
      empty response for each liveness request. */
  lemma {:induction false} EachFrameOnce(fs: seq<Frame>)
    ensures |PacketsOf(fs)| == HowMany(fs, 0) && |RepliesTo(fs)| == HowMany(fs, 3)
    ensures forall i :: 0 <= i < |fs| && fs[i].kind == 0 ==> Rank(fs, i) < |PacketsOf(fs)| && PacketsOf(fs)[Rank(fs, i)] == fs[i].payload
    ensures forall k :: 0 <= k < |RepliesTo(fs)| ==> RepliesTo(fs)[k] == Frame(4, [])
    decreases |fs|
  {
    if fs == [] {
      assert HowMany([], 0) == 0 && HowMany([], 3) == 0;
    } else {
      var n := |fs| - 1;
      var front, f := fs[..n], fs[n];
      assert fs == front + [f];
      EachFrameOnce(front);
      PacketsSnoc(front, f);
      RepliesSnoc(front, f);
      HowManySnoc(front, f, 0);
      HowManySnoc(front, f, 3);
      forall i | 0 <= i < |fs| && fs[i].kind == 0
        ensures Rank(fs, i) < |PacketsOf(fs)| && PacketsOf(fs)[Rank(fs, i)] == fs[i].payload
      {
        if i < n { RankSnoc(front, f, i); } else { RankOfLast(front, f); }
      }
    }
  }

  /** What ends a session: it gets through data, liveness and keep-alive frames only, and stops at a
      disconnect, a termination, any other kind, or where no whole frame is left, for that reason. */
  lemma WhatEndsASession(stream: seq<byte>, fs: seq<Frame>, left: seq<byte>, s: Served)
    requires Explains(stream, fs, left, s)
    ensures forall i :: 0 <= i < |fs| ==> fs[i].kind == 0 || fs[i].kind == 3 || fs[i].kind == 4 || fs[i].kind == 7
    ensures s.reason.ReadFailed? <==> Decode(left).Bad?
    ensures Decode(left).Ok? ==>
              var kind := Decode(left).frame.kind;
              && (s.reason == ServerDisconnect <==> kind == 5)
              && (s.reason == ServerTerminate <==> kind == 9)
              && (s.reason == Unsupported(kind) <==> kind != 5 && kind != 9)
              && kind != 0 && kind != 3 && kind != 4 && kind != 7
  {
    assert forall i :: 0 <= i < |fs| ==> Ends(fs[i].kind).None?;
  }

  // ---------------------------------------------------------------- buffer pools

  /** One pool for each capacity.  Every buffer in the pool of `s` has capacity exactly `s` and is
      handed out as a data payload. */
  class PayloadPools {
    var pools: map<int, set<Payload>>

    ghost function Pooled(): set<Payload>
      reads this
    {
      set s, p | s in pools && p in pools[s] :: p
    }

    ghost function Buffers(): set<object>
      reads this, Pooled()
    {
      set p | p in Pooled() :: p.buf
    }

    ghost predicate Valid()
      reads this, Pooled()
    {
      forall s, p :: s in pools && p in pools[s] ==>
        p.Cap() == s == p.len && p.kind == 0 && MINIMUM_MTU + HEADROOM <= s <= MAXIMUM_MTU + HEADROOM
    }

    constructor ()
      ensures Valid() && Pooled() == {}
    {
      pools := map[];
    }

    method GetPayloadBuffer(mtu: int) returns (pl: Payload)
      requires Valid()
      modifies this
      ensures Valid() && pl !in Pooled() && Pooled() <= old(Pooled())
      ensures pl in old(Pooled()) || (fresh(pl) && fresh(pl.buf))
      ensures pl.Valid() && pl.kind == 0 && pl.Cap() == pl.len == PayloadBufferSize(mtu)
    {
      var size := PayloadBufferSize(mtu);
      var hit: bool := *;
      if hit && size in pools && pools[size] != {} {
        pl :| pl in pools[size];
        assert pl in Pooled();
        forall s | s in pools && pl in pools[s] ensures s == size { assert pl.Cap() == s; }
        pools := pools[size := pools[size] - {pl}];
        forall s, p | s in pools && p in pools[s] ensures s in old(pools) && p in old(pools)[s] && p in old(Pooled()) {
        }
      } else {
        pl := new Payload(size);
        forall s, p | s in pools && p in pools[s] ensures p in old(Pooled()) {
        }
      }
    }

    method PutPayloadBuffer(pl: Payload)
      requires Valid() && pl.Valid() && pl !in Pooled()
      modifies this, pl`kind, pl`len
      ensures Valid()
      ensures Pooled() == old(Pooled()) + if MINIMUM_MTU + HEADROOM <= pl.Cap() <= MAXIMUM_MTU + HEADROOM then {pl} else {}
    {
      if pl.Cap() < MINIMUM_MTU + HEADROOM || pl.Cap() > MAXIMUM_MTU + HEADROOM { return; }
      var size := pl.Cap();
      var pool := if size in pools then pools[size] else {};
      ghost var before := Pooled();
      forall s, p | s in pools && p in pools[s] ensures p in before && p != pl { assert p in before; }
      pl.kind, pl.len := 0, size;
      pools := pools[size := pool + {pl}];
      forall p | p in before + {pl} ensures p in Pooled() {
        if p == pl {
          assert size in pools && p in pools[size];
        } else {
          var s :| s in old(pools) && p in old(pools)[s];
          assert s in pools && p in pools[s];
        }
      }
    }
  }

  datatype Sent = OnWire(bytes: seq<byte>) | RefusedSize | SliceOutOfRange

  /** A packet from the device to the wire.  The device reserves `offset` bytes; what it reads past
      the buffer is refused, and what leaves no room for the header cannot be framed in place.
      So each packet up to the accepted size is sent as it is. */
  method SendPacket(pools: PayloadPools, mtu: int, offset: nat, packet: seq<byte>) returns (r: Sent)
    requires pools.Valid() && MINIMUM_MTU <= mtu <= MAXIMUM_MTU && offset <= 4
    modifies pools, pools.Pooled(), pools.Buffers()
    ensures r != SliceOutOfRange ==> pools.Valid()
    ensures 0 < |packet| <= mtu ==> r == OnWire(Wire(Frame(0, packet)))
    ensures r == SliceOutOfRange <==> mtu + 248 - offset < |packet| <= mtu + 256 - offset
    ensures r.OnWire? <==> 0 < |packet| <= mtu + 248 - offset
    ensures r.OnWire? ==> r.bytes == Wire(Frame(0, packet))
  {
    var pl := pools.GetPayloadBuffer(mtu);
    var n := |packet|;
    if n == 0 || n > pl.len - offset {
      pools.PutPayloadBuffer(pl);
      return RefusedSize;
    }
    forall i | 0 <= i < n { pl.buf[pl.off + offset + i] := packet[i]; }
    pl.Slice(offset, n);
    assert pl.Bytes() == packet;
    if pl.len + 8 > pl.Cap() { return SliceOutOfRange; }
    pl.FrameForTLS();
    r := OnWire(pl.buf[pl.off..pl.off + pl.len]);
    pools.PutPayloadBuffer(pl);
  }
}
