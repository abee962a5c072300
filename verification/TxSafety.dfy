// Transmit safety over every run: what the daemon was given, who owns it, and
// what the firmware is told about it.
module TxSafety {
  import opened Bytes
  import opened Frames
  import opened Messages
  import opened World
  import opened Monitors
  import opened Model
  import opened Joint
  import opened Ownership
  import opened Invariance
  import opened Past

  lemma BooksAt(tr: seq<Event>, k: nat)
    requires k < |tr|
    ensures Books(tr[..k + 1]) == LedgerStep(Books(tr[..k]), tr[k])
  {
    hide LedgerStep;
    assert tr[..k + 1][..k] == tr[..k];
  }

  // What a step that raises no alarm says about the ledger before it.
  lemma QuietStep(m: Ledger, e: Event)
    requires !LedgerStep(m, e).bad
    ensures !m.bad
    ensures m.owned.Some? ==> !e.DataTx? && !e.LinkUp? && !e.CfgBegin?
    ensures (e.DataTx? ==> m.link.Fit?) && (e.LinkUp? ==> m.link.Down?) && (e.CfgBegin? ==> m.link.Raw?)
  {
    hide Parse;
  }

  lemma {:induction false} BooksSticky(tr: seq<Event>, k: nat)
    requires k <= |tr| && !Books(tr).bad
    ensures !Books(tr[..k]).bad
    decreases |tr| - k
  {
    if k < |tr| {
      hide Books, LedgerStep;
      BooksSticky(tr, k + 1);
      BooksAt(tr, k);
      QuietStep(Books(tr[..k]), tr[k]);
    } else {
      assert tr[..k] == tr;
    }
  }

  lemma RunOwns(setup: Setup, turns: seq<Turn>)
    ensures Inv(Run(setup, turns).y) && Owns(Run(setup, turns).y)
  {
    RunGood(setup, turns);
    hide Run, Inv, Owns;
  }

  // --- ownership -------------------------------------------------------------

  // While the fate of a complete packet is not known, no byte is written to the
  // daemon, no link is opened and no configure begins, at any point of any run.
  lemma OwnershipSafe(setup: Setup, turns: seq<Turn>, k: nat)
    requires k < |TraceOf(setup, turns)|
    ensures var tr := TraceOf(setup, turns);
            Books(tr[..k]).owned.Some? ==> !tr[k].DataTx? && !tr[k].LinkUp? && !tr[k].CfgBegin?
  {
    var tr := TraceOf(setup, turns);
    hide Run, Books, LedgerStep, Inv, Serves;
    RunOwns(setup, turns);
    BooksSticky(tr, k + 1);
    BooksAt(tr, k);
    QuietStep(Books(tr[..k]), tr[k]);
  }

  // The backend's state says exactly what the daemon owes.
  lemma OwnershipKnown(setup: Setup, turns: seq<Turn>)
    ensures var b, m := Run(setup, turns).y.b, Books(TraceOf(setup, turns));
            && (m.owned.Some? <==> Owing(b) || b.state.Faulted?)
            && (Owing(b) ==> m.owned == Some(Payload(b)))
            && (m.lost <==> b.state.Faulted?)
  {
    RunOwns(setup, turns);
    hide Run, Books, Inv, Serves;
  }

  // --- accounting ------------------------------------------------------------

  lemma {:induction false} Partition(rs: seq<Resolution>)
    ensures |rs| == |Select(rs, Sent)| + |Select(rs, Refused)| + |Select(rs, Unknown)|
    decreases |rs|
  {
    if rs != [] {
      Partition(rs[..|rs| - 1]);
    }
  }

  function Fates(rs: seq<Resolution>): multiset<seq<byte>> {
    multiset(Select(rs, Sent)) + multiset(Select(rs, Refused)) + multiset(Select(rs, Unknown))
  }

  lemma FatesStep(rs: seq<Resolution>, last: Resolution)
    ensures Fates(rs + [last]) == Fates(rs) + multiset{last.payload}
  {
    var s, r, u := Select(rs, Sent), Select(rs, Refused), Select(rs, Unknown);
    assert (rs + [last])[..|rs|] == rs;
    hide Select;
    assert multiset([last.payload]) == multiset{last.payload};
  }

  lemma {:induction false} SamePackets(rs: seq<Resolution>)
    ensures multiset(Payloads(rs)) == Fates(rs)
    decreases |rs|
  {
    if rs != [] {
      var k := |rs| - 1;
      assert rs == rs[..k] + [rs[k]];
      assert Payloads(rs) == Payloads(rs[..k]) + [rs[k].payload];
      hide Fates, Payloads;
      SamePackets(rs[..k]);
      FatesStep(rs[..k], rs[k]);
    }
  }

  // Every packet handed over is accounted for exactly once: confirmed and logged
  // "ok", refused by the daemon, logged "unconfirmed", or still outstanding. The
  // log lines carry the packets' own payloads, in order.
  lemma Conservation(setup: Setup, turns: seq<Turn>)
    ensures var b, m := Run(setup, turns).y.b, Books(TraceOf(setup, turns));
            var refused := Select(m.resolved, Refused);
            var open := if Owing(b) then [Payload(b)] else [];
            && m.handed == Payloads(m.resolved) + open
            && m.okLog == Select(m.resolved, Sent) && m.lostLog == Select(m.resolved, Unknown)
            && |m.handed| == |m.okLog| + |refused| + |m.lostLog| + |open|
            && multiset(m.handed) == multiset(m.okLog) + multiset(refused) + multiset(m.lostLog) + multiset(open)
  {
    RunOwns(setup, turns);
    hide Run, Books, Inv, Serves, Payload, Select;
    Partition(Books(TraceOf(setup, turns)).resolved);
    SamePackets(Books(TraceOf(setup, turns)).resolved);
  }

  // --- the wire --------------------------------------------------------------

  // The bytes received on the current link, and the packets of the links before.
  datatype Cable = Cable(past: seq<Frame>, wire: seq<byte>)

  function CableOf(tr: seq<Event>): Cable {
    if tr == [] then Cable([], [])
    else
      var c, e := CableOf(tr[..|tr| - 1]), tr[|tr| - 1];
      match e
      case LinkUp(_) => Cable(c.past + Parse(ToDaemon, c.wire).frames, [])
      case DataTx(bytes) => c.(wire := c.wire + bytes)
      case _ => c
  }

  // Every packet the daemon has received complete.
  function Received(tr: seq<Event>): seq<Frame> {
    CableOf(tr).past + Parse(ToDaemon, CableOf(tr).wire).frames
  }

  function TxFrames(payloads: seq<seq<byte>>): seq<Frame> {
    seq(|payloads|, i requires 0 <= i < |payloads| => TxPacketFrame(payloads[i]))
  }

  // The ledger's incremental view is the parse of the raw bytes.
  predicate WireAgrees(tr: seq<Event>) {
    var p, m := Parse(ToDaemon, CableOf(tr).wire), Books(tr);
    && !p.bad && (!m.link.Down? ==> p.rest == m.part)
    && Received(tr) == TxFrames(m.handed)
  }

  lemma WireStep(past: seq<Frame>, wire: seq<byte>, m: Ledger, bytes: seq<byte>)
    requires var p := Parse(ToDaemon, wire);
             !p.bad && m.link.Fit? && p.rest == m.part && past + p.frames == TxFrames(m.handed)
    requires !HandOver(m, bytes).bad
    ensures var p, m1 := Parse(ToDaemon, wire + bytes), HandOver(m, bytes);
            !p.bad && m1.link.Fit? && p.rest == m1.part && past + p.frames == TxFrames(m1.handed)
  {
    ParseAppend(ToDaemon, wire, bytes);
    var p := Parse(ToDaemon, wire);
    var q := Parse(ToDaemon, m.part + bytes);
    hide Parse;
    var m1 := HandOver(m, bytes);
    if q.frames == [] {
      assert p.frames + q.frames == p.frames;
    } else {
      assert q.frames == [TxPacketFrame(q.frames[0].payload)];
      assert TxFrames(m1.handed) == TxFrames(m.handed) + q.frames;
      assert past + (p.frames + q.frames) == (past + p.frames) + q.frames;
    }
  }

  lemma {:induction false} WireHistory(tr: seq<Event>)
    requires !Books(tr).bad
    ensures WireAgrees(tr)
    decreases |tr|
  {
    if tr == [] {
      EmptyWire([]);
    } else {
      var k := |tr| - 1;
      BooksSticky(tr, k);
      WireHistory(tr[..k]);
      WireMove(tr[..k], tr[k], CableOf(tr[..k]), Books(tr[..k]));
    }
  }

  lemma WireMove(past: seq<Event>, e: Event, c: Cable, m: Ledger)
    requires c == CableOf(past) && m == Books(past) && WireAgrees(past) && !LedgerStep(m, e).bad
    requires !e.DataTx? || m.link.Fit?
    ensures WireAgrees(past + [e])
  {
    if e.DataTx? {
      WireWritten(past, e, c, m);
    } else {
      assert (past + [e])[..|past|] == past;
      hide Parse, TxFrames, Answered, Orphan, HandOver;
      match e
      case LinkUp(_) => EmptyWire(c.past + Parse(ToDaemon, c.wire).frames);
      case _ =>
    }
  }

  lemma WireWritten(past: seq<Event>, e: Event, c: Cable, m: Ledger)
    requires c == CableOf(past) && m == Books(past) && WireAgrees(past) && !LedgerStep(m, e).bad
    requires e.DataTx? && m.link.Fit?
    ensures WireAgrees(past + [e])
  {
    assert (past + [e])[..|past|] == past;
    hide Parse, TxFrames, HandOver;
    WireStep(c.past, c.wire, m, e.bytes);
  }

  lemma EmptyWire(past: seq<Frame>)
    ensures Parse(ToDaemon, []) == Parsed([], [], false)
    ensures past + Parse(ToDaemon, []).frames == past
  {
    assert PopFrame(ToDaemon, []).NeedMore?;
  }

  // On every link the daemon receives complete TX packets, then the written part
  // of the packet in progress, which is there exactly while the backend is
  // writing; the packets of all links are the packets of the ledger.
  lemma WireIntegrity(setup: Setup, turns: seq<Turn>)
    ensures var b, tr := Run(setup, turns).y.b, TraceOf(setup, turns);
            var wire, m := CableOf(tr).wire, Books(tr);
            var p := Parse(ToDaemon, wire);
            && !p.bad && wire == EncodeAll(ToDaemon, p.frames) + p.rest
            && Received(tr) == TxFrames(m.handed)
            && (b.state.TxWriting? ==> b.txOff < |b.txOut| && p.rest == b.txOut[..b.txOff])
            && ((Applying(b) || Live(b)) && !b.state.TxWriting? ==> p.rest == [])
  {
    var tr := TraceOf(setup, turns);
    RunOwns(setup, turns);
    WireHistory(tr);
    ParseSound(ToDaemon, CableOf(tr).wire);
    hide Run, Books, Serves, Parse, TxFrames, Payloads, Select, IsTxFrame, EncodeAll, CableOf;
  }

  // Bytes reach the daemon only on an open link, and every link is opened with
  // the one before it closed.
  lemma WireClosed(setup: Setup, turns: seq<Turn>, k: nat)
    requires k < |TraceOf(setup, turns)|
    ensures var tr := TraceOf(setup, turns);
            && (tr[k].DataTx? ==> Books(tr[..k]).link.Fit?)
            && (tr[k].LinkUp? ==> Books(tr[..k]).link.Down?)
  {
    var tr := TraceOf(setup, turns);
    hide Run, Books, LedgerStep, Inv, Serves;
    RunOwns(setup, turns);
    BooksSticky(tr, k + 1);
    BooksAt(tr, k);
    QuietStep(Books(tr[..k]), tr[k]);
  }

  // --- requests and results --------------------------------------------------

  predicate IsRequest(e: Event) {
    e.XrIn? && e.frame.ty == TX_REQUEST
  }

  predicate IsResult(e: Event) {
    e.XrOut? && e.frame.ty == XR_TX_RESULT && !IsConfigOk(e.frame)
  }

  predicate EndsSession(e: Event) {
    e.XrClosed? || e.ConnOpen? || e.ConnDrop?
  }

  predicate IsAnswer(e: Event) {
    e.Heard? && Answer(e.frame).Some?
  }

  // The last byte of the packet with this payload is accepted at j.
  predicate Completes(tr: seq<Event>, j: nat, payload: seq<byte>) {
    && j < |tr| && tr[j].DataTx?
    && Books(tr[..j + 1]).handed == Books(tr[..j]).handed + [payload]
  }

  // A request read at i, with no result and, while live, no end of session since.
  predicate Requested(tr: seq<Event>, i: nat, r: Req) {
    && i < |tr| && IsRequest(tr[i]) && tr[i].frame.sn == r.sn && tr[i].frame.payload == r.payload
    && (forall x :: i < x < |tr| ==> !IsResult(tr[x]))
    && (r.live ==> forall x :: i < x < |tr| ==> !EndsSession(tr[x]))
  }

  predicate NoAnswer(tr: seq<Event>, from: int, to: int) {
    forall x :: 0 <= x && from < x < to && x < |tr| ==> !IsAnswer(tr[x])
  }

  // The packet of the request read at i was completed at j; `o` answered it at l.
  predicate Told(tr: seq<Event>, i: nat, j: nat, l: nat, payload: seq<byte>, o: TxOutcome) {
    && i < j < l < |tr| && Completes(tr, j, payload) && NoAnswer(tr, j, l)
    && IsAnswer(tr[l]) && Answer(tr[l].frame) == Some(o)
  }

  // The packet of the request read at i was completed at j and not answered yet.
  predicate Waiting(tr: seq<Event>, i: nat, j: nat, payload: seq<byte>) {
    i < j && Completes(tr, j, payload) && NoAnswer(tr, j, |tr|)
  }

  // The request read at i is where the ledger says it is: not yet written, written
  // and unanswered, or answered.
  ghost predicate Backed(tr: seq<Event>, i: nat, r: Req, owned: bool) {
    && Requested(tr, i, r)
    && (r.answer.None? && !r.written ==> !owned)
    && (r.answer.None? && r.written && owned ==> exists j: nat :: Waiting(tr, i, j, r.payload))
    && (r.answer.Some? ==>
          r.written && !owned && exists j: nat, l: nat :: Told(tr, i, j, l, r.payload, r.answer.value))
  }

  // A packet is owned whose fate can still be learned.
  predicate IsOpen(m: Ledger) {
    m.owned.Some? && !m.lost
  }

  // What the ledger remembers of the latest request really happened.
  ghost predicate Remembers(tr: seq<Event>) {
    var m := Books(tr);
    m.req.Some? ==> exists i: nat :: Backed(tr, i, m.req.value, IsOpen(m))
  }

  lemma CompletesLater(past: seq<Event>, e: Event, j: nat, payload: seq<byte>)
    requires Completes(past, j, payload)
    ensures Completes(past + [e], j, payload)
  {
    hide Books;
    assert (past + [e])[..j] == past[..j] && (past + [e])[..j + 1] == past[..j + 1];
  }

  lemma ToldLater(past: seq<Event>, e: Event, i: nat, j: nat, l: nat, payload: seq<byte>, o: TxOutcome)
    requires Told(past, i, j, l, payload, o)
    ensures Told(past + [e], i, j, l, payload, o)
  {
    hide Completes;
    CompletesLater(past, e, j, payload);
  }

  lemma RequestedLater(past: seq<Event>, e: Event, i: nat, r: Req, q: Req)
    requires Requested(past, i, r) && !IsResult(e) && q.sn == r.sn && q.payload == r.payload
    requires q.live ==> r.live && !EndsSession(e)
    ensures Requested(past + [e], i, q)
  {
    hide IsResult, EndsSession;
  }

  // An event that neither completes nor answers the packet changes nothing here.
  lemma BackedLater(past: seq<Event>, e: Event, i: nat, r: Req, live: bool, owned: bool, still: bool)
    requires Backed(past, i, r, owned) && !IsResult(e) && (IsAnswer(e) ==> !still)
    requires (live ==> r.live && !EndsSession(e)) && (still ==> owned)
    ensures Backed(past + [e], i, r.(live := live), still)
  {
    var tr, q := past + [e], r.(live := live);
    hide IsResult, EndsSession, IsAnswer, Completes;
    RequestedLater(past, e, i, r, q);
    hide Requested;
    if r.answer.Some? {
      var j: nat, l: nat :| Told(past, i, j, l, r.payload, r.answer.value);
      ToldLater(past, e, i, j, l, r.payload, r.answer.value);
    } else if r.written && still {
      var j: nat :| Waiting(past, i, j, r.payload);
      CompletesLater(past, e, j, r.payload);
      assert NoAnswer(tr, j, |tr|);
      assert Waiting(tr, i, j, r.payload);
    }
  }

  // The last byte of the request's packet is accepted.
  lemma BackedWritten(past: seq<Event>, e: Event, i: nat, r: Req)
    requires Backed(past, i, r, false) && e.DataTx? && !r.written && r.answer.None?
    requires Completes(past + [e], |past|, r.payload)
    ensures Backed(past + [e], i, r.(written := true), true)
  {
    var tr := past + [e];
    hide Completes;
    RequestedLater(past, e, i, r, r.(written := true));
    assert NoAnswer(tr, |past|, |tr|);
    assert Waiting(tr, i, |past|, r.payload);
  }

  // The first answer after that.
  lemma BackedAnswered(past: seq<Event>, e: Event, i: nat, r: Req)
    requires Backed(past, i, r, true) && IsAnswer(e)
    ensures Backed(past + [e], i, r.(answer := Answer(e.frame)), false)
  {
    var tr := past + [e];
    hide Books, Answer;
    RequestedLater(past, e, i, r, r.(answer := Answer(e.frame)));
    var j: nat :| Waiting(past, i, j, r.payload);
    CompletesLater(past, e, j, r.payload);
    assert NoAnswer(tr, j, |past|);
    assert Told(tr, i, j, |past|, r.payload, Answer(e.frame).value);
  }

  lemma Forgettable(tr: seq<Event>, i: nat, r: Req, owned: bool)
    requires Backed(tr, i, r, owned)
    ensures Backed(tr, i, r, false)
    ensures !r.written ==> r.answer.None?
  {
    hide Requested, Told, Waiting;
  }

  lemma RememberWrite(past: seq<Event>, bytes: seq<byte>, m: Ledger, k: Ledger)
    requires m == Books(past) && k == HandOver(m, bytes) && k == Books(past + [DataTx(bytes)]) && !k.bad
    requires Remembers(past)
    ensures Remembers(past + [DataTx(bytes)])
  {
    var e := DataTx(bytes);
    var tr := past + [e];
    hide Books, Backed, Parse;
    if m.req.Some? {
      var i: nat :| Backed(past, i, m.req.value, IsOpen(m));
      Forgettable(past, i, m.req.value, IsOpen(m));
      if k.handed == m.handed {
        BackedLater(past, e, i, m.req.value, m.req.value.live, false, false);
        assert Backed(tr, i, k.req.value, IsOpen(k));
      } else {
        LastByte(past, e, m.req.value.payload);
        BackedWritten(past, e, i, m.req.value);
        Forgettable(tr, i, k.req.value, true);
        assert Backed(tr, i, k.req.value, IsOpen(k));
      }
    }
  }

  lemma LastByte(past: seq<Event>, e: Event, payload: seq<byte>)
    requires e.DataTx? && Books(past + [e]).handed == Books(past).handed + [payload]
    ensures Completes(past + [e], |past|, payload)
  {
    hide Books;
    var tr := past + [e];
    assert tr[..|past|] == past && tr[..|past| + 1] == tr;
  }

  lemma RememberNew(past: seq<Event>, f: Frame, k: Ledger)
    requires f.ty == TX_REQUEST && k == Books(past + [XrIn(f)])
    requires k.req == Some(Req(f.sn, f.payload, true, false, None)) && k.owned.None?
    ensures Remembers(past + [XrIn(f)])
  {
    hide Books;
    assert Backed(past + [XrIn(f)], |past|, k.req.value, IsOpen(k));
  }

  lemma RememberAnswer(past: seq<Event>, f: Frame, m: Ledger, k: Ledger)
    requires m == Books(past) && Answer(f).Some? && IsOpen(m)
    requires k == Answered(m, Answer(f).value) && k == Books(past + [Heard(f)])
    requires Remembers(past)
    ensures Remembers(past + [Heard(f)])
  {
    hide Books, Backed, Answer, Resolve;
    if m.req.Some? {
      var i: nat :| Backed(past, i, m.req.value, IsOpen(m));
      BackedAnswered(past, Heard(f), i, m.req.value);
      assert Backed(past + [Heard(f)], i, k.req.value, IsOpen(k));
    }
  }

  // Any other event leaves the request, or ends its session, or answers nothing.
  lemma RememberOther(past: seq<Event>, e: Event, m: Ledger, k: Ledger)
    requires m == Books(past) && k == Books(past + [e]) && Remembers(past) && !IsResult(e)
    requires m.req.Some? ==> k.req.Some? && k.req.value == m.req.value.(live := k.req.value.live)
    requires m.req.Some? && k.req.value.live ==> m.req.value.live && !EndsSession(e)
    requires k.req.Some? ==> m.req.Some?
    requires IsOpen(k) ==> IsOpen(m) && !IsAnswer(e)
    ensures Remembers(past + [e])
  {
    hide Books, Backed, IsResult, IsAnswer, EndsSession;
    if m.req.Some? {
      var i: nat :| Backed(past, i, m.req.value, IsOpen(m));
      BackedLater(past, e, i, m.req.value, k.req.value.live, IsOpen(m), IsOpen(k));
    }
  }

  lemma RememberStep(past: seq<Event>, e: Event)
    requires Remembers(past) && !LedgerStep(Books(past), e).bad
    requires Books(past + [e]) == LedgerStep(Books(past), e)
    ensures Remembers(past + [e])
  {
    var m := Books(past);
    var k := LedgerStep(m, e);
    hide Books, HandOver, Answer, Resolve, Remembers;
    if e.DataTx? {
      RememberWrite(past, e.bytes, m, k);
    } else if IsRequest(e) && k.req != m.req {
      RememberNew(past, e.frame, k);
    } else if IsAnswer(e) && IsOpen(m) {
      RememberAnswer(past, e.frame, m, k);
    } else if IsResult(e) {
      hide Backed;
      NothingRemembered(past + [e]);
    } else {
      RememberOther(past, e, m, k);
    }
  }

  lemma NothingRemembered(tr: seq<Event>)
    requires Books(tr).req.None?
    ensures Remembers(tr)
  {
  }

  lemma StartRemembers()
    ensures Remembers([])
  {
    NothingRemembered([]);
  }

  lemma {:induction false} History(tr: seq<Event>)
    requires !Books(tr).bad
    ensures Remembers(tr)
    decreases |tr|
  {
    hide Books, LedgerStep, Remembers;
    if tr == [] {
      StartRemembers();
    } else {
      var k := |tr| - 1;
      BooksSticky(tr, k);
      BooksAt(tr, k);
      History(tr[..k]);
      assert tr[..k] + [tr[k]] == tr && tr[..k + 1] == tr;
      RememberStep(tr[..k], tr[k]);
    }
  }

  // The TX_RESULT queued at k answers the request read at i: same session, same
  // sequence number, no TX_RESULT in between, and the outcome is what the daemon
  // first said, at l, after the last byte of the request's payload was accepted, at j.
  predicate Explains(tr: seq<Event>, k: nat, i: nat, j: nat, l: nat, o: TxOutcome) {
    && i < k < |tr| && IsRequest(tr[i]) && tr[k] == XrOut(TxResultFrame(tr[i].frame.sn, o))
    && Told(tr[..k], i, j, l, tr[i].frame.payload, o)
    && forall x :: i < x < k ==> !IsResult(tr[x]) && !EndsSession(tr[x])
  }

  // Every TX_RESULT of every run is explained.
  lemma ResultExplained(setup: Setup, turns: seq<Turn>, k: nat)
    requires k < |TraceOf(setup, turns)| && IsResult(TraceOf(setup, turns)[k])
    ensures exists i: nat, j: nat, l: nat, o :: Explains(TraceOf(setup, turns), k, i, j, l, o)
  {
    hide Run, Books, Inv, Serves, LedgerStep;
    RunOwns(setup, turns);
    ResultBacked(TraceOf(setup, turns), k);
  }

  // At most one TX_RESULT for each request: two results answer different requests, in
  // order.
  lemma ResultsDistinct(
    tr: seq<Event>, k1: nat, i1: nat, j1: nat, l1: nat, o1: TxOutcome, k2: nat, i2: nat, j2: nat, l2: nat, o2: TxOutcome)
    requires Explains(tr, k1, i1, j1, l1, o1) && Explains(tr, k2, i2, j2, l2, o2) && k1 < k2
    ensures i1 < k1 < i2 < k2
  {
    hide Told;
    assert IsResult(tr[k1]);
    assert IsRequest(tr[i2]);
  }

  lemma ResultBacked(tr: seq<Event>, k: nat)
    requires k < |tr| && IsResult(tr[k]) && !Books(tr).bad
    ensures exists i: nat, j: nat, l: nat, o :: Explains(tr, k, i, j, l, o)
  {
    hide Books, Remembers, Requested, Told;
    var m := Books(tr[..k]);
    BooksSticky(tr, k + 1);
    BooksAt(tr, k);
    BooksSticky(tr, k);
    History(tr[..k]);
    assert m.req.Some? && m.req.value.live && m.req.value.answer.Some?;
    RequestOf(tr[..k], m);
    var r := m.req.value;
    var i: nat, j: nat, l: nat :|
      Requested(tr[..k], i, r) && Told(tr[..k], i, j, l, r.payload, r.answer.value);
    LiveSince(tr, k, i, r);
    assert Explains(tr, k, i, j, l, r.answer.value);
  }

  lemma RequestOf(tr: seq<Event>, m: Ledger)
    requires m == Books(tr) && Remembers(tr) && m.req.Some? && m.req.value.answer.Some?
    ensures var r := m.req.value;
            exists i: nat, j: nat, l: nat :: Requested(tr, i, r) && Told(tr, i, j, l, r.payload, r.answer.value)
  {
    hide Books, Requested, Told;
  }

  lemma LiveSince(tr: seq<Event>, k: nat, i: nat, r: Req)
    requires k < |tr| && Requested(tr[..k], i, r) && r.live
    ensures i < k && IsRequest(tr[i]) && tr[i].frame.sn == r.sn && tr[i].frame.payload == r.payload
    ensures forall x :: i < x < k ==> !IsResult(tr[x]) && !EndsSession(tr[x])
  {
    hide IsResult, EndsSession;
    forall x | i < x < k ensures !IsResult(tr[x]) && !EndsSession(tr[x]) {
      assert tr[..k][x] == tr[x];
    }
  }

  // --- never twice -----------------------------------------------------------

  // Positions of distinct requests, in order, whose payloads are these.
  predicate Picks(tr: seq<Event>, picks: seq<nat>, payloads: seq<seq<byte>>) {
    && |picks| == |payloads|
    && (forall i, j :: 0 <= i < j < |picks| ==> picks[i] < picks[j])
    && forall i :: 0 <= i < |picks| ==> AsksFor(tr, picks[i], payloads[i])
  }

  predicate AsksFor(tr: seq<Event>, i: nat, payload: seq<byte>) {
    i < |tr| && IsRequest(tr[i]) && tr[i].frame.payload == payload
  }

  // Every packet handed over is picked, and a request still to be written comes after
  // all of them.
  ghost predicate Picked(tr: seq<Event>, m: Ledger, picks: seq<nat>) {
    && Picks(tr, picks, m.handed)
    && (m.req.Some? && !m.req.value.written ==>
          exists i: nat :: AsksFor(tr, i, m.req.value.payload) && (picks == [] || picks[|picks| - 1] < i))
  }

  lemma PicksLater(past: seq<Event>, e: Event, picks: seq<nat>, payloads: seq<seq<byte>>)
    requires Picks(past, picks, payloads)
    ensures Picks(past + [e], picks, payloads)
  {
    hide IsRequest;
    forall i | 0 <= i < |picks| ensures AsksFor(past + [e], picks[i], payloads[i]) {
      assert AsksFor(past, picks[i], payloads[i]);
    }
  }

  // A packet is completed: its request becomes the last pick.
  lemma PickMore(tr: seq<Event>, picks: seq<nat>, payloads: seq<seq<byte>>, i: nat, payload: seq<byte>)
    requires Picks(tr, picks, payloads) && AsksFor(tr, i, payload) && (picks == [] || picks[|picks| - 1] < i)
    ensures Picks(tr, picks + [i], payloads + [payload])
  {
    hide AsksFor;
    var more := picks + [i];
    forall a, b | 0 <= a < b < |more| ensures more[a] < more[b] {
      if b == |picks| && a < |picks| - 1 {
        assert picks[a] < picks[|picks| - 1];
      }
    }
  }

  lemma WriteKinds(m: Ledger, bytes: seq<byte>)
    requires !HandOver(m, bytes).bad
    ensures var k := HandOver(m, bytes);
            || (k.handed == m.handed && k.req == m.req)
            || (m.req.Some? && !m.req.value.written && k.req.Some? && k.req.value.written &&
                k.handed == m.handed + [m.req.value.payload])
  {
    hide Parse;
  }

  lemma OtherKinds(m: Ledger, e: Event)
    requires !e.DataTx?
    ensures var k := LedgerStep(m, e);
            && k.handed == m.handed
            && (k.req.Some? && !k.req.value.written ==>
                  || (m.req.Some? && !m.req.value.written && m.req.value.payload == k.req.value.payload)
                  || (IsRequest(e) && e.frame.payload == k.req.value.payload))
  {
    hide Answer, Resolve;
  }

  lemma PickStep(past: seq<Event>, e: Event, m: Ledger, picks: seq<nat>) returns (more: seq<nat>)
    requires Picked(past, m, picks) && !LedgerStep(m, e).bad
    ensures Picked(past + [e], LedgerStep(m, e), more)
  {
    var tr, k := past + [e], LedgerStep(m, e);
    hide Picks, LedgerStep;
    PicksLater(past, e, picks, m.handed);
    more := picks;
    if e.DataTx? {
      StepWrites(m, e);
      WriteKinds(m, e.bytes);
      if m.req.Some? && !m.req.value.written {
        var i: nat :| AsksFor(past, i, m.req.value.payload) && (picks == [] || picks[|picks| - 1] < i);
        assert AsksFor(tr, i, m.req.value.payload);
        if k.req.value.written {
          PickMore(tr, picks, m.handed, i, m.req.value.payload);
          more := picks + [i];
        }
      }
    } else {
      OtherKinds(m, e);
      if k.req.Some? && !k.req.value.written {
        if m.req.Some? && !m.req.value.written && m.req.value.payload == k.req.value.payload {
          var i: nat :| AsksFor(past, i, m.req.value.payload) && (picks == [] || picks[|picks| - 1] < i);
          assert AsksFor(tr, i, k.req.value.payload);
        } else {
          LastPick(past, picks, m.handed);
          assert AsksFor(tr, |past|, k.req.value.payload);
        }
      }
    }
  }

  lemma StepWrites(m: Ledger, e: Event)
    requires e.DataTx?
    ensures LedgerStep(m, e) == HandOver(m, e.bytes)
  {
    hide HandOver;
  }

  lemma LastPick(tr: seq<Event>, picks: seq<nat>, payloads: seq<seq<byte>>)
    requires Picks(tr, picks, payloads)
    ensures picks == [] || picks[|picks| - 1] < |tr|
  {
    hide IsRequest;
    if picks != [] {
      assert AsksFor(tr, picks[|picks| - 1], payloads[|picks| - 1]);
    }
  }

  lemma {:induction false} PickAll(tr: seq<Event>) returns (picks: seq<nat>)
    requires !Books(tr).bad
    ensures Picked(tr, Books(tr), picks)
    decreases |tr|
  {
    if tr == [] {
      picks := [];
    } else {
      hide Books, LedgerStep, Picked;
      var k := |tr| - 1;
      BooksSticky(tr, k);
      BooksAt(tr, k);
      assert tr[..k] + [tr[k]] == tr && tr[..k + 1] == tr;
      picks := PickAll(tr[..k]);
      picks := PickStep(tr[..k], tr[k], Books(tr[..k]), picks);
    }
  }

  // No packet reaches the daemon twice, and none that was not asked for: the packets
  // received are an order-preserving selection of distinct requests, payload for
  // payload.
  lemma NeverTwice(setup: Setup, turns: seq<Turn>)
    ensures var tr := TraceOf(setup, turns);
            exists picks: seq<nat>, payloads ::
              Picks(tr, picks, payloads) && Received(tr) == TxFrames(payloads)
  {
    hide Run, Books, Inv, Serves, Payloads, Select, Received, TxFrames, Picks;
    var tr := TraceOf(setup, turns);
    RunOwns(setup, turns);
    WireHistory(tr);
    var picks := PickAll(tr);
    assert Picks(tr, picks, Books(tr).handed);
  }

  // A packet is completed at j.
  predicate IsCompletion(tr: seq<Event>, j: nat) {
    j < |tr| && |Books(tr[..j + 1]).handed| > |Books(tr[..j]).handed|
  }

  // The packet completed at j is the one asked for at i, and no other packet was
  // completed in between.
  predicate SentFor(tr: seq<Event>, i: nat, j: nat) {
    && i < j < |tr| && IsRequest(tr[i]) && Completes(tr, j, tr[i].frame.payload)
    && forall x :: i < x < j ==> !IsCompletion(tr, x)
  }

  lemma {:induction false} HandedGrows(tr: seq<Event>, a: nat, b: nat)
    requires a <= b <= |tr|
    ensures |Books(tr[..a]).handed| <= |Books(tr[..b]).handed|
    decreases b
  {
    hide Books, LedgerStep;
    if a < b {
      HandedGrows(tr, a, b - 1);
      BooksAt(tr, b - 1);
      HandedStep(Books(tr[..b - 1]), tr[b - 1]);
    }
  }

  lemma HandedStep(m: Ledger, e: Event)
    ensures |m.handed| <= |LedgerStep(m, e).handed|
  {
    hide Parse, Answer, Resolve;
  }

  // Asked for at i, and no packet completed since.
  predicate Unserved(tr: seq<Event>, i: nat, payload: seq<byte>) {
    AsksFor(tr, i, payload) && Books(tr[..i + 1]).handed == Books(tr).handed
  }

  lemma UnservedLater(past: seq<Event>, e: Event, i: nat, payload: seq<byte>)
    requires Unserved(past, i, payload) && Books(past + [e]).handed == Books(past).handed
    ensures Unserved(past + [e], i, payload)
  {
    hide Books;
    assert (past + [e])[..i + 1] == past[..i + 1];
  }

  lemma UnservedStep(past: seq<Event>, e: Event, m: Ledger, k: Ledger)
    requires m == Books(past) && k == LedgerStep(m, e) && k == Books(past + [e]) && !k.bad
    requires m.req.Some? && !m.req.value.written ==> exists i: nat :: Unserved(past, i, m.req.value.payload)
    requires k.req.Some? && !k.req.value.written
    ensures exists i: nat :: Unserved(past + [e], i, k.req.value.payload)
  {
    hide Books, LedgerStep;
    if e.DataTx? {
      StepWrites(m, e);
      WriteKinds(m, e.bytes);
    } else {
      OtherKinds(m, e);
    }
    if m.req.Some? && !m.req.value.written && m.req.value.payload == k.req.value.payload {
      var i: nat :| Unserved(past, i, m.req.value.payload);
      UnservedLater(past, e, i, m.req.value.payload);
    } else {
      assert (past + [e])[..|past| + 1] == past + [e];
      assert Unserved(past + [e], |past|, k.req.value.payload);
    }
  }

  lemma {:induction false} UnservedSince(tr: seq<Event>)
    requires !Books(tr).bad && Books(tr).req.Some? && !Books(tr).req.value.written
    ensures exists i: nat :: Unserved(tr, i, Books(tr).req.value.payload)
    decreases |tr|
  {
    hide LedgerStep, Unserved;
    if tr != [] {
      var k := |tr| - 1;
      var m := Books(tr[..k]);
      BooksSticky(tr, k);
      assert tr[..k] + [tr[k]] == tr;
      if m.req.Some? && !m.req.value.written {
        UnservedSince(tr[..k]);
      }
      UnservedStep(tr[..k], tr[k], m, Books(tr));
    }
  }

  // Every packet completed in any run was asked for, and no other was completed in
  // between: no request is sent twice.
  lemma EachForItsRequest(setup: Setup, turns: seq<Turn>, j: nat)
    requires IsCompletion(TraceOf(setup, turns), j)
    ensures exists i: nat :: SentFor(TraceOf(setup, turns), i, j)
  {
    hide Run, Books, Inv, Serves, Payloads, Select, IsCompletion;
    RunOwns(setup, turns);
    CompletionExplained(TraceOf(setup, turns), j);
  }

  lemma CompletionExplained(tr: seq<Event>, j: nat)
    requires !Books(tr).bad && IsCompletion(tr, j)
    ensures exists i: nat :: SentFor(tr, i, j)
  {
    hide Books, LedgerStep;
    var m, k := Books(tr[..j]), Books(tr[..j + 1]);
    BooksSticky(tr, j + 1);
    BooksSticky(tr, j);
    BooksAt(tr, j);
    if !tr[j].DataTx? { OtherKinds(m, tr[j]); }
    StepWrites(m, tr[j]);
    WriteKinds(m, tr[j].bytes);
    UnservedSince(tr[..j]);
    var i: nat :| Unserved(tr[..j], i, m.req.value.payload);
    NoneBetween(tr, i, j);
    assert SentFor(tr, i, j);
  }

  lemma NoneBetween(tr: seq<Event>, i: nat, j: nat)
    requires i < j <= |tr| && Books(tr[..j][..i + 1]).handed == Books(tr[..j]).handed
    ensures forall x :: i < x < j ==> !IsCompletion(tr, x)
  {
    hide Books;
    assert tr[..j][..i + 1] == tr[..i + 1];
    forall x | i < x < j ensures !IsCompletion(tr, x) {
      HandedGrows(tr, i + 1, x);
      HandedGrows(tr, x + 1, j);
    }
  }

  // Different packets answer different requests, in order.
  lemma RequestsDistinct(tr: seq<Event>, i: nat, j: nat, k: nat, l: nat)
    requires SentFor(tr, i, j) && SentFor(tr, k, l) && j < l
    ensures i < j < k < l
  {
    hide Books;
    assert IsCompletion(tr, j);
  }

  // --- a fault is permanent --------------------------------------------------

  lemma TurnFaulted(n: Node, t: Turn)
    requires Good(n) && n.y.b.state.Faulted?
    ensures PollOnce(n, t).y.b.state.Faulted?
  {
    hide Good, AcceptAll, Service, Finish;
    ScriptGood(n, t.script);
    var n0 := n.(y := n.y.(w := n.y.w.(script := t.script)));
    if t.pollOk {
      AcceptGood(n0, t.arrivals, t.tRead);
      AcceptAloof(n0, t.arrivals, t.tRead);
      var n1 := AcceptAll(n0, t.arrivals, t.tRead);
      ServiceAloof(n1, t);
      ServiceGood(n1, t);
      var n2 := if n0.y.sink.Some? then Service(n1, t) else n1;
      var n3 := PollNode(n2, t.tPoll);
      assert n3.y == n2.y;
      if n3.y.sink.Some? {
        GoodInv(n2);
        FinishAloof(n3, t);
      }
    }
  }

  // Once the fate of a packet is lost, the backend stays Faulted for ever.
  lemma {:induction false} FaultPermanent(setup: Setup, turns: seq<Turn>, k: nat)
    requires k <= |turns| && Run(setup, turns[..k]).y.b.state.Faulted?
    ensures Run(setup, turns).y.b.state.Faulted?
    decreases |turns|
  {
    hide PollOnce, Good;
    var last := |turns| - 1;
    if k == |turns| {
      assert turns[..k] == turns;
    } else {
      assert turns[..last][..k] == turns[..k];
      FaultPermanent(setup, turns[..last], k);
      RunGood(setup, turns[..last]);
      TurnFaulted(Run(setup, turns[..last]), turns[last]);
    }
  }

  // --- the joint invariant and the order of teardown -------------------------

  // Between any two turns: no session, or one not yet configuring, means an idle
  // backend; a settling session waits for the backend's own operation; an
  // operational session has a frame in flight exactly when the backend transmits,
  // and then the epoch fence lets its result through.
  lemma JointInvariant(setup: Setup, turns: seq<Turn>)
    ensures var b, sink := Run(setup, turns).y.b, Run(setup, turns).y.sink;
            if sink.None? then Idle(b) && !b.started
            else
              var s := sink.value;
              && b.started
              && (s.phase.WaitHello? || s.phase.WaitAuth? || s.phase.WaitConfigure? ==> Idle(b))
              && (s.phase.Settling? ==> Applying(b) && b.configToken == s.opToken && b.pendingCfg == s.requested)
              && (s.phase.Operational? ==>
                    && (b.state.Ready? || Transmitting(b)) && (s.txInFlight <==> Transmitting(b))
                    && (Transmitting(b) ==> b.pendingEpoch == b.txEpoch))
              && (!s.phase.Operational? ==> !s.txInFlight)
  {
    hide Run, Owns, IsTxFrame;
    RunOwns(setup, turns);
  }

  // stop() on its own forgets a packet exactly when one is pending: the link is
  // closed and the backend would take the next configure, with the fate unknown.
  lemma StopForgetsIff(y: Sys)
    requires Inv(y) && Owns(y)
    ensures Accounts(Books(Stop(y).w.trace), Stop(y).b) <==> !y.b.state.TxPending?
    ensures y.b.state.TxPending? ==> Books(Stop(y).w.trace).owned.Some? && MayConfigure(Stop(y).b)
  {
    hide Books, IsTxFrame, Serves, Payloads, Select;
    if y.b.state.TxPending? {
      BooksLog();
    } else {
      StopAccounts(y);
    }
  }

  // --- nothing is withheld ---------------------------------------------------

  // Between turns, the request an operational session is waiting on is exactly the
  // one that no answer has come for: an answer is passed on in the step that hears it.
  lemma AnswersPassedOn(setup: Setup, turns: seq<Turn>)
    ensures var y, m := Run(setup, turns).y, Books(TraceOf(setup, turns));
            IsOperational(y) ==>
              && (y.sink.value.txInFlight <==> m.req.Some? && m.req.value.live)
              && (y.sink.value.txInFlight ==> m.req.value.sn == y.sink.value.txSeq && m.req.value.answer.None?)
  {
    hide Run, Books, Inv, Accounts;
    RunOwns(setup, turns);
  }
}
