// The waits of an operational session, for a transmit result and for a PONG: over every
// run each of them ends by its deadline.
module Expiry {
  import opened Bytes
  import opened Frames
  import opened Messages
  import opened ConfText
  import opened World
  import opened Model
  import opened Joint
  import opened Growth
  import opened Ownership
  import opened Invariance
  import opened Past

  datatype Wait = ForResult(sn: nat) | ForPong

  // The session waits, until d.
  predicate Pends(w: Wait, d: nat, y: Sys) {
    IsOperational(y) &&
    var s := y.sink.value;
    match w
    case ForResult(sn) => s.txInFlight && s.txSeq == sn && s.txDeadlineAt == d
    case ForPong => s.awaitingPong && s.pongDeadlineAt == d
  }

  // What it waits for, or the end of the session.
  predicate Settles(w: Wait, e: Event) {
    || e.XrClosed? || e.ConnDrop?
    || match w
       case ForResult(sn) => e.XrOut? && e.frame.ty == XR_TX_RESULT && e.frame.sn == sn
       case ForPong => e.XrIn? && e.frame.ty == PONG && WellFormed(e.frame)
  }

  ghost predicate SettledIn(w: Wait, tr: seq<Event>, start: nat) {
    exists i :: start <= i < |tr| && Settles(w, tr[i])
  }

  lemma SettledLater(w: Wait, tr: seq<Event>, more: seq<Event>, start: nat, begin: nat)
    requires SettledIn(w, tr, start) && tr <= more && begin <= start
    ensures SettledIn(w, more, begin)
  {
    var i :| start <= i < |tr| && Settles(w, tr[i]);
    assert more[i] == tr[i];
  }

  // A step: the wait goes on unchanged, or its end is recorded.
  ghost predicate Lasts(w: Wait, d: nat, y: Sys, z: Sys) {
    Pends(w, d, z) || SettledIn(w, z.w.trace, |y.w.trace|)
  }

  lemma LastsThen(w: Wait, d: nat, x: Sys, y: Sys, z: Sys)
    requires Continues(x, y) && Continues(y, z) && Lasts(w, d, x, y)
    requires Pends(w, d, y) ==> Lasts(w, d, y, z)
    ensures Lasts(w, d, x, z)
  {
    hide Pends, Settles;
    if SettledIn(w, y.w.trace, |x.w.trace|) {
      SettledLater(w, y.w.trace, z.w.trace, |x.w.trace|, |x.w.trace|);
    } else if SettledIn(w, z.w.trace, |y.w.trace|) {
      SettledLater(w, z.w.trace, z.w.trace, |y.w.trace|, |x.w.trace|);
    }
  }

  // --- output and the backend's events ---------------------------------------

  lemma CloseLasts(w: Wait, d: nat, y: Sys, r: CloseReason)
    requires Pends(w, d, y)
    ensures SettledIn(w, CloseSession(y, r).w.trace, |y.w.trace|)
  {
    assert Settles(w, CloseSession(y, r).w.trace[|y.w.trace|]);
  }

  lemma EmitLasts(w: Wait, d: nat, y: Sys, f: Frame)
    requires Pends(w, d, y)
    ensures Lasts(w, d, y, Emit(y, f).0)
  {
    hide Encode, CloseSession, SettledIn;
    CloseLasts(w, d, y, InternalError);
    CloseLasts(w, d, y, OutputOverflow);
  }

  // The result of the request in flight ends the wait for it.
  lemma ResultLasts(w: Wait, d: nat, y: Sys, o: TxOutcome)
    requires Pends(w, d, y)
    ensures Lasts(w, d, y, OnTxComplete(y, o))
  {
    var s := y.sink.value;
    var y1, f := y.(sink := Some(s.(txInFlight := false))), TxResultFrame(s.txSeq, o);
    if s.txInFlight && w.ForPong? {
      EmitLasts(w, d, y1, f);
    } else if s.txInFlight {
      EmitSettles(w, y1, f);
    }
  }

  lemma EmitSettles(w: Wait, y: Sys, f: Frame)
    requires IsOperational(y) && Settles(w, XrOut(f))
    ensures SettledIn(w, Emit(y, f).0.w.trace, |y.w.trace|)
  {
    hide Encode;
    var tr := Emit(y, f).0.w.trace;
    assert tr[|y.w.trace|].XrClosed? || tr[|y.w.trace|] == XrOut(f);
  }

  lemma RxLasts(w: Wait, d: nat, y: Sys, rx: Rx)
    requires Pends(w, d, y)
    ensures Lasts(w, d, y, DispatchRx(y, rx))
  {
    hide Emit, SettledIn, XrRxFrame, Continues;
    var y1 := Note(y, LogRx(rx));
    EmitLasts(w, d, y1, XrRxFrame(rx));
    NoteContinues(y, LogRx(rx));
    EmitContinues(y1, XrRxFrame(rx));
    SameContinues(y1, y1);
    LastsThen(w, d, y, y1, DispatchRx(y, rx));
  }

  lemma AnswerLasts(w: Wait, d: nat, y: Sys, o: TxOutcome)
    requires Pends(w, d, y)
    ensures Lasts(w, d, y, DispatchAnswer(y, o))
  {
    hide OnTxComplete, SettledIn;
    if y.b.state.TxPending? {
      ResultLasts(w, d, y.(b := y.b.(state := Ready, txOut := [], txOff := 0)), o);
    }
  }

  lemma LoggedLasts(w: Wait, d: nat, y: Sys, o: TxOutcome)
    requires Pends(w, d, y)
    ensures Lasts(w, d, y, DispatchAnswer(LogTxOutcome(y, true), o))
  {
    hide DispatchAnswer, SettledIn, Continues, Grows;
    var y1 := LogTxOutcome(y, true);
    LogOutcomeGrew(y, true);
    GrewContinues(Minor, y, y1);
    AnswerLasts(w, d, y1, o);
    AnswerContinues(y1, o);
    LastsThen(w, d, y, y1, DispatchAnswer(y1, o));
  }

  lemma DispatchLasts(w: Wait, d: nat, y: Sys, f: Frame)
    requires Pends(w, d, y)
    ensures Lasts(w, d, y, Dispatch(y, f))
  {
    hide DispatchRx, DispatchAnswer, LogTxOutcome, DecodeRx, DecodeTxResult, MapTxStatus, SettledIn, Continues;
    var y1, z := Note(y, Heard(f)), Dispatch(y, f);
    NoteContinues(y, Heard(f));
    SameContinues(y1, y1);
    if DecodeRx(f).Some? {
      RxLasts(w, d, y1, DecodeRx(f).value);
      RxContinues(y1, DecodeRx(f).value);
    }
    if DecodeTxResult(f).Some? {
      var o := MapTxStatus(DecodeTxResult(f).value.status);
      AnswerLasts(w, d, y1, o);
      LoggedLasts(w, d, y1, o);
      AnswerContinues(y1, o);
    }
    AnswerLasts(w, d, y1, RadioError);
    AnswerContinues(y1, RadioError);
    LastsThen(w, d, y, y1, z);
  }

  lemma DisconnectLasts(w: Wait, d: nat, y: Sys)
    requires Pends(w, d, y)
    ensures Lasts(w, d, y, HandleDisconnect(y))
  {
    hide CloseSession, SettledIn;
    FailureLasts(w, d, y, EnterFault(y));
    FailureLasts(w, d, y, ResetLink(y));
  }

  lemma FailureLasts(w: Wait, d: nat, y: Sys, z: Sys)
    requires Pends(w, d, y) && z.sink == y.sink && |y.w.trace| <= |z.w.trace|
    ensures Lasts(w, d, y, TellFailure(z))
  {
    hide CloseSession;
    CloseLasts(w, d, z, BackendFailure);
    SettledLater(w, TellFailure(z).w.trace, TellFailure(z).w.trace, |z.w.trace|, |y.w.trace|);
  }

  // --- the backend's poll ----------------------------------------------------

  lemma {:induction false} DigestLasts(w: Wait, d: nat, y: Sys, stream: seq<byte>, draining: bool)
    requires Pends(w, d, y)
    ensures Lasts(w, d, y, Digest(y, stream, draining).0)
    decreases |stream|
  {
    hide Dispatch, HandleDisconnect, SettledIn, Continues, Pends;
    DisconnectLasts(w, d, y);
    var r := PopFrame(FromDaemon, stream);
    if r.Got? {
      var y1 := Dispatch(y, r.frame);
      DispatchLasts(w, d, y, r.frame);
      if !LeftLoop(y1.b, draining) {
        var z := Digest(y1, r.rest, draining).0;
        DispatchContinues(y, r.frame);
        DigestContinues(y1, r.rest, draining);
        if Pends(w, d, y1) { DigestLasts(w, d, y1, r.rest, draining); }
        LastsThen(w, d, y, y1, z);
      }
    }
  }

  lemma {:induction false} ReadDataLasts(w: Wait, d: nat, y: Sys, held: seq<byte>, draining: bool)
    requires Pends(w, d, y)
    ensures Lasts(w, d, y, ReadData(y, held, draining).0)
    decreases |y.w.script.dataIn|
  {
    hide Digest, HandleDisconnect, SettledIn, Continues;
    var input := y.w.script.dataIn;
    if input != [] {
      var y1 := y.(w := y.w.(script := y.w.script.(dataIn := input[1..])));
      DisconnectLasts(w, d, y1);
      if input[0].Chunk? {
        var chunk := input[0].bytes;
        var y2 := Note(y1, DataRx(chunk));
        var (y3, h) := Digest(y2, held + chunk, draining);
        NoteContinues(y1, DataRx(chunk));
        MovedContinues(y, y, y1);
        DigestLasts(w, d, y2, held + chunk, draining);
        DigestContinues(y2, held + chunk, draining);
        ChunkContinues(y, y2, y3, chunk);
        LastsThen(w, d, y, y2, y3);
        if !LeftLoop(y3.b, draining) && |chunk| >= READ_CHUNK {
          DataContinues(y3, h, draining);
          if Pends(w, d, y3) { ReadDataLasts(w, d, y3, h, draining); }
          LastsThen(w, d, y, y3, ReadData(y3, h, draining).0);
        }
      }
    }
  }

  lemma ChunkContinues(y: Sys, z: Sys, r: Sys, chunk: DataChunk)
    requires z.w.trace == y.w.trace + [DataRx(chunk)] && Continues(z, r)
    ensures Continues(y, z) && Continues(y, r)
  {
    ContinuesThen(y, z, r);
  }

  lemma ResumeLasts(w: Wait, d: nat, y: Sys)
    requires Pends(w, d, y)
    ensures Lasts(w, d, y, ResumeTx(y))
  {
    hide PumpTx, CloseSession, SettledIn, Grows;
    PumpTxGrew(y);
    var y1 := PumpTx(y).0;
    GrewContinues(Minor, y, y1);
    LongerTrace(y, y1);
    FailureLasts(w, d, y, ResetLink(y1));
  }

  // Between turns an operational session has a live backend.
  lemma PollLasts(w: Wait, d: nat, y: Sys, held: seq<byte>, now: nat)
    requires Inv(y) && Pends(w, d, y)
    ensures Lasts(w, d, y, Poll(y, held, now).0)
  {
    hide PumpConf, HandleDisconnect, ResumeTx, ReadData, SettledIn, Continues, Grows, BackendOk;
    var y1 := PumpConf(y, false).0;
    PumpConfGrows(y, false);
    GrewContinues(Conf, y, y1);
    DisconnectLasts(w, d, y1);
    DisconnectContinues(y1);
    LastsThen(w, d, y, y1, HandleDisconnect(y1));
    var y2 := ResumeTx(y1);
    ResumeLasts(w, d, y1);
    ResumeGrew(y1);
    GrewContinues(Minor, y1, y2);
    ContinuesThen(y, y1, y2);
    LastsThen(w, d, y, y1, y2);
    if Pends(w, d, y2) { ReadDataLasts(w, d, y2, held, false); }
    DataContinues(y2, held, false);
    LastsThen(w, d, y, y2, ReadData(y2, held, false).0);
  }

  // --- the firmware's input --------------------------------------------------

  lemma SubmitLasts(w: Wait, d: nat, y: Sys, f: Frame, now: nat)
    requires Pends(w, d, y)
    ensures Lasts(w, d, y, HandleTxRequest(y, f, now))
  {
    hide SubmitTx, CloseSession, SettledIn, Grows;
    CloseLasts(w, d, y, BadState);
    if !y.sink.value.txInFlight {
      var y1 := y.(sink := Some(y.sink.value.(txSeq := f.sn)));
      var y2 := SubmitTx(y1, f.payload).0;
      SubmitGrew(y1, f.payload);
      GrewContinues(Minor, y1, y2);
      LongerTrace(y1, y2);
      CloseLasts(w, d, y2, BackendFailure);
      var z := CloseSession(y2, BackendFailure).w.trace;
      SettledLater(w, z, z, |y2.w.trace|, |y.w.trace|);
    }
  }

  lemma PongLasts(w: Wait, d: nat, y: Sys, f: Frame, now: nat)
    requires Pends(w, d, y) && f.ty == PONG && WellFormed(f)
    ensures Lasts(w, d, y, HandlePong(Note(y, XrIn(f)), now))
  {
    var y1 := Note(y, XrIn(f));
    var z := HandlePong(y1, now);
    if w.ForPong? {
      assert z.w.trace == y1.w.trace && Settles(w, z.w.trace[|y.w.trace|]);
    } else if !y1.sink.value.awaitingPong {
      CloseLasts(w, d, y1, BadState);
      SettledLater(w, z.w.trace, z.w.trace, |y1.w.trace|, |y.w.trace|);
    }
  }

  lemma FrameLasts(w: Wait, d: nat, y: Sys, f: Frame, now: nat)
    requires Pends(w, d, y)
    ensures Lasts(w, d, y, HandleFrame(y, f, now))
  {
    hide HandleTxRequest, HandlePong, CloseSession, WellFormed, SettledIn, Continues;
    var y1, z := Note(y, XrIn(f)), HandleFrame(y, f, now);
    CloseLasts(w, d, y1, MalformedFrame);
    CloseLasts(w, d, y1, BadState);
    CloseLasts(w, d, y1, RemoteError);
    if WellFormed(f) && f.ty == PONG {
      PongLasts(w, d, y, f, now);
    } else {
      SubmitLasts(w, d, y1, f, now);
      NoteContinues(y, XrIn(f));
      InPhaseContinues(y, f, now);
      LastsThen(w, d, y, y1, z);
    }
  }

  lemma InPhaseContinues(y: Sys, f: Frame, now: nat)
    requires IsOperational(y)
    ensures Continues(Note(y, XrIn(f)), HandleFrame(y, f, now))
  {
    hide HandleFrame, Grows, WellFormed, Continues;
    FrameGrew(y, f, now);
    GrewContinues(Minor, Note(y, XrIn(f)), HandleFrame(y, f, now));
  }

  lemma {:induction false} ConsumeLasts(w: Wait, d: nat, y: Sys, stream: seq<byte>, now: nat)
    requires Pends(w, d, y)
    ensures Lasts(w, d, y, Consume(y, stream, now).0)
    decreases |stream|
  {
    hide HandleFrame, CloseSession, SettledIn, Continues;
    CloseLasts(w, d, y, ParserError);
    var r := PopFrame(Xr, stream);
    if r.Got? {
      var y1 := HandleFrame(y, r.frame, now);
      FrameLasts(w, d, y, r.frame, now);
      if !IsClosed(y1) {
        FrameContinues(y, r.frame, now);
        ConsumeContinues(y1, r.rest, now);
        if Pends(w, d, y1) { ConsumeLasts(w, d, y1, r.rest, now); }
        LastsThen(w, d, y, y1, Consume(y1, r.rest, now).0);
      }
    }
  }

  lemma {:induction false} ReadLasts(w: Wait, d: nat, n: Node, now: nat)
    requires Pends(w, d, n.y)
    ensures Lasts(w, d, n.y, ReadClient(n, now).y)
    decreases |n.y.w.script.clientIn|
  {
    hide Consume, SettledIn, Continues;
    var input := n.y.w.script.clientIn;
    if input != [] {
      var y1 := n.y.(w := n.y.w.(script := n.y.w.script.(clientIn := input[1..])));
      match input[0]
      case FromClient(bytes) =>
        var (y2, xrHeld) := Feed(y1, n.xrHeld, bytes, now);
        ConsumeLasts(w, d, y1, n.xrHeld + bytes, now);
        if !IsClosed(y2) && |bytes| >= 1024 {
          var n2 := Settle(n.(y := y2, xrHeld := xrHeld));
          ConsumeContinues(y1, n.xrHeld + bytes, now);
          ReadContinues(n2, now);
          if Pends(w, d, y2) { ReadLasts(w, d, n2, now); }
          LastsThen(w, d, y1, y2, ReadClient(n2, now).y);
        }
      case RecvInterrupted => ReadLasts(w, d, n.(y := y1), now);
      case _ =>
    }
  }

  // --- a turn ----------------------------------------------------------------

  lemma FlushLasts(w: Wait, d: nat, n: Node)
    requires Pends(w, d, n.y)
    ensures Pends(w, d, FlushOut(n).y)
  {
    hide FlushOut;
  }

  lemma ServiceLasts(w: Wait, d: nat, n: Node, t: Turn)
    requires Pends(w, d, n.y)
    ensures Lasts(w, d, n.y, Service(n, t).y)
  {
    hide ReadClient, FlushOut, SettledIn, Continues, Pends;
    assert n.y.sink.Some? by { SinkOf(w, d, n.y); }
    var n1 := ReadClient(n, t.tRead);
    ReadLasts(w, d, n, t.tRead);
    ReadContinues(n, t.tRead);
    FlushedLasts(w, d, n.y, n1);
    var n2 := if t.readable then FlushOut(n1) else n;
    FlushContinues(n1);
    SameContinues(n.y, n.y);
    ContinuesThen(n.y, n1.y, FlushOut(n1).y);
    FlushedLasts(w, d, n.y, n2);
  }

  lemma SinkOf(w: Wait, d: nat, y: Sys)
    requires Pends(w, d, y)
    ensures y.sink.Some?
  {
  }

  lemma FlushedLasts(w: Wait, d: nat, y: Sys, n: Node)
    requires n.y.sink.Some? && Continues(y, n.y) && Lasts(w, d, y, n.y)
    ensures Lasts(w, d, y, FlushOut(n).y)
  {
    hide FlushOut, SettledIn, Continues, Pends;
    FlushContinues(n);
    if Pends(w, d, n.y) { FlushLasts(w, d, n); }
    LastsThen(w, d, y, n.y, FlushOut(n).y);
  }

  // The tick at or after the deadline ends the wait.
  lemma TickLasts(w: Wait, d: nat, y: Sys, now: nat)
    requires Pends(w, d, y)
    ensures Lasts(w, d, y, Tick(y, now))
    ensures now >= d ==> SettledIn(w, Tick(y, now).w.trace, |y.w.trace|)
  {
    hide CloseSession, Emit, SettledIn;
    EmitLasts(w, d, y, Frame(PING, 0, []));
    CloseLasts(w, d, y, y.sink.value.deadlineReason);
    CloseLasts(w, d, y, PongTimeout);
    AbandonLasts(w, d, y, now);
  }

  lemma AbandonLasts(w: Wait, d: nat, y: Sys, now: nat)
    requires Pends(w, d, y)
    ensures SettledIn(w, CloseSession(AbandonTx(y, now), TxTimeoutUncertain).w.trace, |y.w.trace|)
  {
    hide CloseSession;
    var y1 := AbandonTx(y, now);
    CloseLasts(w, d, y1, TxTimeoutUncertain);
    var tr := CloseSession(y1, TxTimeoutUncertain).w.trace;
    SettledLater(w, tr, tr, |y1.w.trace|, |y.w.trace|);
  }

  lemma DropLasts(w: Wait, n: Node, now: nat)
    ensures SettledIn(w, Teardown(n, now).y.w.trace, |n.y.w.trace|)
  {
    var tr := Teardown(n, now).y.w.trace;
    assert |tr| > |n.y.w.trace| && Settles(w, tr[|tr| - 1]);
  }

  lemma FinishLasts(w: Wait, d: nat, n: Node, t: Turn)
    requires Pends(w, d, n.y)
    ensures Lasts(w, d, n.y, Finish(n, t).y)
    ensures t.tTick >= d ==> SettledIn(w, Finish(n, t).y.w.trace, |n.y.w.trace|)
  {
    hide Tick, FlushOut, Teardown, SettledIn, Continues;
    var n1 := TickNode(n, t.tTick);
    var n2 := FlushOut(n1);
    TickLasts(w, d, n.y, t.tTick);
    TickContinues(n.y, t.tTick);
    FlushContinues(n1);
    FlushedLasts(w, d, n.y, n1);
    ContinuesThen(n.y, n1.y, n2.y);
    SettledStays(w, n.y, n1.y, n2.y);
    DropLasts(w, n2, t.tDrop);
    TeardownContinues(n2, t.tDrop);
    SettledSince(w, n.y, n2.y, Teardown(n2, t.tDrop).y);
  }

  lemma SettledStays(w: Wait, x: Sys, y: Sys, z: Sys)
    requires Continues(y, z)
    ensures SettledIn(w, y.w.trace, |x.w.trace|) ==> SettledIn(w, z.w.trace, |x.w.trace|)
  {
    if SettledIn(w, y.w.trace, |x.w.trace|) {
      SettledLater(w, y.w.trace, z.w.trace, |x.w.trace|, |x.w.trace|);
    }
  }

  lemma SettledSince(w: Wait, x: Sys, y: Sys, z: Sys)
    requires Continues(x, y)
    ensures SettledIn(w, z.w.trace, |y.w.trace|) ==> SettledIn(w, z.w.trace, |x.w.trace|)
  {
    if SettledIn(w, z.w.trace, |y.w.trace|) {
      SettledLater(w, z.w.trace, z.w.trace, |y.w.trace|, |x.w.trace|);
    }
  }

  // Client and backend, up to the tick.
  lemma BeforeTick(w: Wait, d: nat, n: Node, t: Turn)
    requires Good(n) && Pends(w, d, n.y)
    ensures var m := PollNode(Service(n, t), t.tPoll);
            Continues(n.y, m.y) && Lasts(w, d, n.y, m.y)
  {
    hide Good, Service, Poll, SettledIn, Continues, Pends;
    var n2 := Service(n, t);
    ServiceLasts(w, d, n, t);
    ServiceContinues(n, t);
    ServiceGood(n, t);
    GoodInv(n2);
    if Pends(w, d, n2.y) { PollLasts(w, d, n2.y, n2.held, t.tPoll); }
    PollContinues(n2.y, n2.held, t.tPoll);
    var m := PollNode(n2, t.tPoll);
    ContinuesThen(n.y, n2.y, m.y);
    LastsThen(w, d, n.y, n2.y, m.y);
  }

  lemma TurnLasts(w: Wait, d: nat, n: Node, t: Turn)
    requires Good(n) && Pends(w, d, n.y)
    ensures var z := PollOnce(n, t).y;
            && Lasts(w, d, n.y, z)
            && (t.pollOk && t.tTick >= d ==> SettledIn(w, z.w.trace, |n.y.w.trace|))
  {
    hide Good, AcceptAll, Service, PollNode, Finish, SettledIn, Continues;
    var n0 := n.(y := n.y.(w := n.y.w.(script := t.script)));
    if t.pollOk {
      ScriptGood(n, t.script);
      AcceptExtends(n0, t.arrivals, t.tRead);
      BeforeTick(w, d, n0, t);
      var n3 := PollNode(Service(n0, t), t.tPoll);
      EndLasts(w, d, n0.y, n3, t);
    }
  }

  lemma EndLasts(w: Wait, d: nat, y: Sys, n: Node, t: Turn)
    requires Continues(y, n.y) && Lasts(w, d, y, n.y)
    ensures var z := if n.y.sink.None? then n.y else Finish(n, t).y;
            && Lasts(w, d, y, z)
            && (t.tTick >= d ==> SettledIn(w, z.w.trace, |y.w.trace|))
  {
    hide Finish, SettledIn, Continues, Pends;
    if Pends(w, d, n.y) {
      SinkOf(w, d, n.y);
      FinishLasts(w, d, n, t);
      FinishContinues(n, t);
      LastsThen(w, d, y, n.y, Finish(n, t).y);
      SettledSince(w, y, n.y, Finish(n, t).y);
    } else if n.y.sink.Some? {
      FinishContinues(n, t);
      SettledStays(w, y, n.y, Finish(n, t).y);
    }
  }

  // --- every run -------------------------------------------------------------

  // Every wait ends in time, in every run: if a session waits until d before turn k, and
  // turn j ticks at or after d, then between the two what it waits for is recorded, the
  // result under its own sequence number, or the session ended.
  lemma {:induction false} WaitEnds(setup: Setup, turns: seq<Turn>, k: nat, j: nat, w: Wait, d: nat)
    requires k <= j < |turns| && Pends(w, d, Run(setup, turns[..k]).y)
    requires turns[j].pollOk && turns[j].tTick >= d
    ensures SettledIn(w, TraceOf(setup, turns[..j + 1]), |TraceOf(setup, turns[..k])|)
    decreases j - k
  {
    hide PollOnce, Good, SettledIn, Pends;
    var n, t := Run(setup, turns[..k]), turns[k];
    var n1, tr := Run(setup, turns[..k + 1]), TraceOf(setup, turns[..j + 1]);
    assert turns[..k + 1][..k] == turns[..k];
    RunGood(setup, turns[..k]);
    TurnLasts(w, d, n, t);
    TurnExtends(n, t);
    assert turns[..j + 1][..k + 1] == turns[..k + 1];
    RunExtends(setup, turns[..j + 1], k + 1);
    if SettledIn(w, n1.y.w.trace, |n.y.w.trace|) {
      SettledLater(w, n1.y.w.trace, tr, |n.y.w.trace|, |n.y.w.trace|);
    } else {
      WaitEnds(setup, turns, k + 1, j, w, d);
      SettledLater(w, tr, tr, |n1.y.w.trace|, |n.y.w.trace|);
    }
  }
}
