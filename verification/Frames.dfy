// The three length-prefixed framings of the bridge and one bounded streaming
// parser for them. FromDaemon is what the bridge reads on the DATA socket,
// ToDaemon what the daemon reads from it, Xr the firmware TCP protocol. The two
// parsers of the source differ only in their header, so one model serves both.
module Frames {
  import opened Bytes

  datatype Codec = FromDaemon | ToDaemon | Xr

  // `sn` is the XR sequence number; the daemon framing has none (0).
  datatype Frame = Frame(ty: byte, sn: nat, payload: seq<byte>)

  const RX_PACKET: byte := 1
  const TX_PACKET: byte := 2
  const DAEMON_ERROR: byte := 3
  const TX_RESULT: byte := 4

  const MAX_RF: nat := 255
  const RX_META: nat := 4

  function HeaderLen(k: Codec): nat {
    if k.Xr? then 8 else 3
  }

  function MaxPayload(k: Codec): nat {
    match k
    case FromDaemon => RX_META + MAX_RF
    case ToDaemon => MAX_RF
    case Xr => 300
  }

  function MaxFrame(k: Codec): nat {
    HeaderLen(k) + MaxPayload(k)
  }

  // --- headers ---------------------------------------------------------------

  function PayloadLen(k: Codec, h: seq<byte>): nat
    requires |h| >= HeaderLen(k)
  {
    if k.Xr? then Join16(h[5], h[4]) else Join16(h[1], h[2])
  }

  predicate HeaderOk(k: Codec, h: seq<byte>)
    requires |h| >= HeaderLen(k)
  {
    && PayloadLen(k, h) <= MaxPayload(k)
    && match k
       case FromDaemon => h[0] == RX_PACKET || h[0] == TX_RESULT || h[0] == DAEMON_ERROR
       case ToDaemon => h[0] == TX_PACKET
       case Xr => h[0] == 0x58 && h[1] == 0x52 && h[2] == 1 && 1 <= h[3] <= 13
  }

  function FrameOf(k: Codec, h: seq<byte>, payload: seq<byte>): Frame
    requires |h| >= HeaderLen(k)
  {
    if k.Xr? then Frame(h[3], Join16(h[7], h[6]), payload) else Frame(h[0], 0, payload)
  }

  function Header(k: Codec, f: Frame): (h: seq<byte>)
    ensures |h| == HeaderLen(k)
  {
    if k.Xr? then [0x58, 0x52, 1, f.ty] + PutBe16(|f.payload|) + PutBe16(f.sn)
    else [f.ty] + PutLe16(|f.payload|)
  }

  function Encode(k: Codec, f: Frame): seq<byte> {
    Header(k, f) + f.payload
  }

  // The frames a peer using this codec accepts.
  predicate Legal(k: Codec, f: Frame) {
    && |f.payload| <= MaxPayload(k)
    && match k
       case FromDaemon => f.sn == 0 && (f.ty == RX_PACKET || f.ty == TX_RESULT || f.ty == DAEMON_ERROR)
       case ToDaemon => f.sn == 0 && f.ty == TX_PACKET
       case Xr => f.sn < 65536 && 1 <= f.ty <= 13
  }

  // --- one frame -------------------------------------------------------------

  datatype Pop = NeedMore | Got(frame: Frame, rest: seq<byte>) | Bad

  // The first frame of an unbounded byte stream.
  function PopFrame(k: Codec, s: seq<byte>): Pop {
    if |s| < HeaderLen(k) then NeedMore
    else if !HeaderOk(k, s) then Bad
    else
      var total := HeaderLen(k) + PayloadLen(k, s);
      if |s| < total then NeedMore else Got(FrameOf(k, s, s[HeaderLen(k)..total]), s[total..])
  }

  lemma PopStable(k: Codec, a: seq<byte>, b: seq<byte>)
    ensures PopFrame(k, a).Got? ==> PopFrame(k, a + b) == Got(PopFrame(k, a).frame, PopFrame(k, a).rest + b)
    ensures PopFrame(k, a).Bad? ==> PopFrame(k, a + b).Bad?
  {
    var n := HeaderLen(k);
    if |a| >= n {
      assert PayloadLen(k, a + b) == PayloadLen(k, a);
      var total := n + PayloadLen(k, a);
      if |a| >= total {
        assert (a + b)[n..total] == a[n..total];
        assert (a + b)[total..] == a[total..] + b;
      }
    }
  }

  // A header read back gives the length and the fields it was made from.
  lemma HeaderParses(k: Codec, f: Frame, s: seq<byte>)
    requires Legal(k, f) && |s| >= HeaderLen(k) && s[..HeaderLen(k)] == Header(k, f)
    ensures HeaderOk(k, s) && PayloadLen(k, s) == |f.payload| && FrameOf(k, s, f.payload) == f
  {
    var h := Header(k, f);
    assert forall i :: 0 <= i < HeaderLen(k) ==> s[i] == h[i];
    Split16(|f.payload|);
    if k.Xr? {
      Split16(f.sn);
      assert h[4] == High(|f.payload|) && h[5] == Low(|f.payload|) && h[6] == High(f.sn) && h[7] == Low(f.sn);
    } else {
      assert h[1] == Low(|f.payload|) && h[2] == High(|f.payload|);
    }
  }

  // Decoding undoes encoding, whatever follows on the stream.
  lemma PopEncode(k: Codec, f: Frame, rest: seq<byte>)
    requires Legal(k, f)
    ensures PopFrame(k, Encode(k, f) + rest) == Got(f, rest)
  {
    var s := Encode(k, f) + rest;
    var n := HeaderLen(k);
    assert s == Header(k, f) + (f.payload + rest);
    assert s[..n] == Header(k, f);
    HeaderParses(k, f, s);
    assert s[n..n + |f.payload|] == f.payload;
    assert s[n + |f.payload|..] == rest;
  }

  // ... and encoding undoes decoding: what was popped is the stream's own prefix.
  lemma HeaderSound(k: Codec, s: seq<byte>, payload: seq<byte>)
    requires |s| >= HeaderLen(k) && HeaderOk(k, s) && |payload| == PayloadLen(k, s)
    ensures Header(k, FrameOf(k, s, payload)) == s[..HeaderLen(k)]
    ensures Legal(k, FrameOf(k, s, payload))
  {
    if k.Xr? {
      Joined16(s[5], s[4]);
      Joined16(s[7], s[6]);
    } else {
      Joined16(s[1], s[2]);
    }
  }

  lemma PopSound(k: Codec, s: seq<byte>)
    requires PopFrame(k, s).Got?
    ensures Legal(k, PopFrame(k, s).frame)
    ensures s == Encode(k, PopFrame(k, s).frame) + PopFrame(k, s).rest
  {
    hide Header, HeaderOk;
    var n := HeaderLen(k);
    var total := n + PayloadLen(k, s);
    var f := FrameOf(k, s, s[n..total]);
    HeaderSound(k, s, s[n..total]);
    assert PopFrame(k, s) == Got(f, s[total..]);
    assert f.payload == s[n..total];
    assert Encode(k, f) == s[..n] + s[n..total];
    assert s == (s[..n] + s[n..total]) + s[total..];
  }

  // --- whole streams ---------------------------------------------------------

  datatype Parsed = Parsed(frames: seq<Frame>, rest: seq<byte>, bad: bool)

  // Every frame of a stream up to the first illegal header; `rest` is the
  // incomplete tail, or the bytes from the illegal header on.
  function Parse(k: Codec, s: seq<byte>): Parsed
    decreases |s|
  {
    match PopFrame(k, s)
    case NeedMore => Parsed([], s, false)
    case Bad => Parsed([], s, true)
    case Got(f, rest) =>
      var p := Parse(k, rest);
      Parsed([f] + p.frames, p.rest, p.bad)
  }

  function EncodeAll(k: Codec, fs: seq<Frame>): seq<byte> {
    if fs == [] then [] else Encode(k, fs[0]) + EncodeAll(k, fs[1..])
  }

  lemma {:induction false} EncodeAllAppend(k: Codec, a: seq<Frame>, b: seq<Frame>)
    ensures EncodeAll(k, a + b) == EncodeAll(k, a) + EncodeAll(k, b)
  {
    if a == [] {
      assert a + b == b;
    } else {
      assert (a + b)[0] == a[0] && (a + b)[1..] == a[1..] + b;
      EncodeAllAppend(k, a[1..], b);
    }
  }

  // Parsing is compositional: bytes already held and bytes still to come can be
  // parsed together or in turn.
  lemma {:induction false} ParseAppend(k: Codec, a: seq<byte>, b: seq<byte>)
    ensures var p, q := Parse(k, a), Parse(k, Parse(k, a).rest + b);
            Parse(k, a + b) == (if p.bad then Parsed(p.frames, p.rest + b, true)
                                else Parsed(p.frames + q.frames, q.rest, q.bad))
    decreases |a|
  {
    PopStable(k, a, b);
    match PopFrame(k, a)
    case NeedMore => assert [] + Parse(k, a + b).frames == Parse(k, a + b).frames;
    case Bad =>
    case Got(f, rest) =>
      ParseAppend(k, rest, b);
      var p := Parse(k, rest);
      var q := Parse(k, p.rest + b);
      assert [f] + (p.frames + q.frames) == ([f] + p.frames) + q.frames;
  }

  predicate AllLegal(k: Codec, fs: seq<Frame>) {
    forall i :: 0 <= i < |fs| ==> Legal(k, fs[i])
  }

  lemma EncodeAllCons(k: Codec, f: Frame, fs: seq<Frame>, tail: seq<byte>)
    ensures EncodeAll(k, [f] + fs) + tail == Encode(k, f) + (EncodeAll(k, fs) + tail)
  {
    assert ([f] + fs)[1..] == fs;
  }

  // The parse result is exactly a decomposition of the stream into legal frames
  // followed by something that is not one.
  lemma {:induction false} ParseSound(k: Codec, s: seq<byte>)
    ensures s == EncodeAll(k, Parse(k, s).frames) + Parse(k, s).rest
    ensures AllLegal(k, Parse(k, s).frames)
    ensures PopFrame(k, Parse(k, s).rest) == (if Parse(k, s).bad then Bad else NeedMore)
    decreases |s|
  {
    var r := PopFrame(k, s);
    if r.Got? {
      PopSound(k, s);
      ParseSound(k, r.rest);
      EncodeAllCons(k, r.frame, Parse(k, r.rest).frames, Parse(k, r.rest).rest);
    }
  }

  // ... and the only one.
  lemma {:induction false} ParseComplete(k: Codec, fs: seq<Frame>, tail: seq<byte>)
    requires AllLegal(k, fs)
    requires !PopFrame(k, tail).Got?
    ensures Parse(k, EncodeAll(k, fs) + tail) == Parsed(fs, tail, PopFrame(k, tail).Bad?)
  {
    if fs == [] {
      assert EncodeAll(k, fs) + tail == tail;
    } else {
      ParseComplete(k, fs[1..], tail);
      var s := EncodeAll(k, fs[1..]) + tail;
      assert [fs[0]] + fs[1..] == fs;
      EncodeAllCons(k, fs[0], fs[1..], tail);
      PopEncode(k, fs[0], s);
    }
  }

  // A strict prefix of an encoded frame is an incomplete stream.
  lemma ParsePrefix(k: Codec, f: Frame, n: nat)
    requires Legal(k, f) && n < |Encode(k, f)|
    ensures Parse(k, Encode(k, f)[..n]) == Parsed([], Encode(k, f)[..n], false)
  {
    var e := Encode(k, f);
    var a, b := e[..n], e[n..];
    assert a + b == e == e + [];
    PopEncode(k, f, []);
    PopStable(k, a, b);
    assert |b| > 0;
  }

  // --- chunks ----------------------------------------------------------------

  function Flatten(chunks: seq<seq<byte>>): seq<byte> {
    if chunks == [] then [] else chunks[0] + Flatten(chunks[1..])
  }

  // Parsing chunk by chunk, keeping the incomplete tail between chunks and
  // stopping at the first illegal header.
  function ParseChunks(k: Codec, held: seq<byte>, chunks: seq<seq<byte>>): Parsed
    decreases |chunks|
  {
    if chunks == [] then Parsed([], held, false)
    else
      var p := Parse(k, held + chunks[0]);
      if p.bad then p
      else
        var q := ParseChunks(k, p.rest, chunks[1..]);
        Parsed(p.frames + q.frames, q.rest, q.bad)
  }

  // Chunking is invisible: the frames and the point of failure are those of the
  // concatenated stream.
  lemma {:induction false} ChunkingInvisible(k: Codec, held: seq<byte>, chunks: seq<seq<byte>>)
    requires PopFrame(k, held).NeedMore?
    ensures var p, whole := ParseChunks(k, held, chunks), Parse(k, held + Flatten(chunks));
            && p.frames == whole.frames
            && p.bad == whole.bad
            && (!p.bad ==> p.rest == whole.rest)
    decreases |chunks|
  {
    if chunks == [] {
      assert held + Flatten(chunks) == held;
    } else {
      var a, b := held + chunks[0], Flatten(chunks[1..]);
      assert held + Flatten(chunks) == a + b;
      ParseAppend(k, a, b);
      ParseSound(k, a);
      if !Parse(k, a).bad {
        ChunkingInvisible(k, Parse(k, a).rest, chunks[1..]);
      }
    }
  }

  // --- the bounded parser ----------------------------------------------------

  // loraham::Parser and extradio::Parser: one maximum frame of storage, filled
  // by Push and shifted down in place by Pop.
  class FrameParser {
    const codec: Codec
    const buf: array<byte>
    var have: nat

    ghost predicate Valid()
      reads this
    {
      buf.Length == MaxFrame(codec) && have <= buf.Length
    }

    ghost function Held(): seq<byte>
      reads this, buf
      requires Valid()
    {
      buf[..have]
    }

    constructor (k: Codec)
      ensures Valid() && codec == k && Held() == [] && fresh(buf)
    {
      codec := k;
      buf := new byte[MaxFrame(k)];
      have := 0;
    }

    method Reset()
      requires Valid()
      modifies this
      ensures Valid() && Held() == []
    {
      have := 0;
    }

    // Takes as many leading bytes as fit.
    method Push(data: seq<byte>) returns (took: nat)
      requires Valid()
      modifies this, buf
      ensures Valid()
      ensures took == Min(|data|, MaxFrame(codec) - |old(Held())|)
      ensures Held() == old(Held()) + data[..took]
    {
      var space := buf.Length - have;
      took := if |data| < space then |data| else space;
      forall i | 0 <= i < took {
        buf[have + i] := data[i];
      }
      have := have + took;
    }

    // Push more of the bytes of one read. After NeedMore there is always room, so
    // the step makes progress.
    method Refill(bytes: seq<byte>, start: nat) returns (off: nat)
      requires Valid() && have < MaxFrame(codec) && start < |bytes|
      modifies this, buf
      ensures Valid() && start < off <= |bytes|
      ensures Held() + bytes[off..] == old(Held()) + bytes[start..]
    {
      ghost var held, more := Held(), bytes[start..];
      var took := Push(bytes[start..]);
      if took == 0 {
        assert false;
      }
      assert (held + more[..took]) + more[took..] == held + more;
      off := start + took;
    }

    // Extracts one frame. NeedMore always leaves room for at least one byte.
    method PopOne() returns (r: Pop)
      requires Valid()
      modifies this, buf
      ensures Valid()
      ensures r == PopFrame(codec, old(Held()))
      ensures Held() == if r.Got? then r.rest else old(Held())
      ensures r.NeedMore? ==> have < MaxFrame(codec)
    {
      var n := HeaderLen(codec);
      if have < n {
        return NeedMore;
      }
      var s := buf[..have];
      if !HeaderOk(codec, s) {
        return Bad;
      }
      var total := n + PayloadLen(codec, s);
      if have < total {
        return NeedMore;
      }
      ShiftDown(total);
      return Got(FrameOf(codec, s, s[n..total]), buf[..have]);
    }

    // Drop the first bytes by moving the others to the front.
    method ShiftDown(total: nat)
      requires Valid() && total <= have
      modifies this, buf
      ensures Valid() && Held() == old(Held())[total..]
    {
      ghost var s := Held();
      var left := have - total;
      forall i | 0 <= i < left {
        buf[i] := buf[total + i];
      }
      have := left;
      assert forall i :: 0 <= i < left ==> buf[i] == s[total + i];
    }
  }
}
