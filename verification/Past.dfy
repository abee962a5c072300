// The past of a run: its trace only grows, and what the steps of a turn leave alone.
module Past {
  import opened Bytes
  import opened Frames
  import opened Messages
  import opened ConfText
  import opened Radio
  import opened World
  import opened Monitors
  import opened Model
  import opened Joint
  import opened Growth
  import opened Invariance

  function TraceOf(setup: Setup, turns: seq<Turn>): seq<Event> {
    Run(setup, turns).y.w.trace
  }

  // --- the trace only grows --------------------------------------------------

  // A step within a connection: events are added, and none of them opens one.
  ghost predicate Continues(y: Sys, z: Sys) {
    var a, b := y.w.trace, z.w.trace;
    && |a| <= |b| && b[..|a|] == a
    && forall i :: |a| <= i < |b| ==> !b[i].ConnOpen?
  }

  lemma ContinuesThen(x: Sys, y: Sys, z: Sys)
    requires Continues(x, y) && Continues(y, z)
    ensures Continues(x, z)
  {
    var a, b, c := x.w.trace, y.w.trace, z.w.trace;
    assert c[..|a|] == c[..|b|][..|a|];
    assert forall i :: |a| <= i < |b| ==> c[i] == b[i];
  }

  lemma NoteContinues(y: Sys, e: Event)
    requires !e.ConnOpen?
    ensures Continues(y, Note(y, e))
  {
  }

  lemma SameContinues(y: Sys, z: Sys)
    requires z.w.trace == y.w.trace
    ensures Continues(y, z)
  {
  }

  lemma GrewContinues(k: Kind, y: Sys, z: Sys)
    requires Grows(k, y, z)
    ensures Continues(y, z)
  {
    var a, b := y.w.trace, z.w.trace;
    forall i | |a| <= i < |b| ensures !b[i].ConnOpen? {
      assert Is(k, b[i]);
    }
  }

  lemma EmitContinues(y: Sys, f: Frame)
    requires y.sink.Some?
    ensures Continues(y, Emit(y, f).0)
  {
    hide Encode;
  }

  lemma CloseContinues(y: Sys, r: CloseReason)
    requires y.sink.Some?
    ensures Continues(y, CloseSession(y, r))
  {
  }

  lemma RejectContinues(y: Sys, f: Frame, r: CloseReason)
    requires y.sink.Some?
    ensures Continues(y, Reject(y, f, r))
  {
    hide Continues, Emit, CloseSession;
    EmitContinues(y, f);
    CloseContinues(Emit(y, f).0, r);
    ContinuesThen(y, Emit(y, f).0, Reject(y, f, r));
  }

  lemma BeginContinues(y: Sys, c: RadioConfig, now: nat)
    ensures Continues(y, BeginConfigure(y, c, now).0) && BeginConfigure(y, c, now).0.sink == y.sink
  {
    hide Commands, SetCommand;
  }

  lemma ConfigureContinues(y: Sys, f: Frame, now: nat)
    requires y.sink.Some?
    ensures Continues(y, HandleConfigure(y, f, now))
  {
    hide Continues, DecodeConfig, BeginConfigure, Reject;
    var c := DecodeConfig(f);
    if c.None? {
      RejectContinues(y, Byte1(CONFIG_RESULT, CFG_INVALID), ConfigFailed);
    } else {
      BeginContinues(y, c.value, now);
      var y1 := BeginConfigure(y, c.value, now).0;
      RejectContinues(y1, Byte1(CONFIG_RESULT, CFG_UNSUPPORTED), ConfigFailed);
      SameContinues(y1, HandleConfigure(y, f, now).(w := y1.w));
      ContinuesThen(y, y1, Reject(y1, Byte1(CONFIG_RESULT, CFG_UNSUPPORTED), ConfigFailed));
      MovedContinues(y, y1, HandleConfigure(y, f, now));
    }
  }

  lemma MovedContinues(x: Sys, y: Sys, z: Sys)
    requires Continues(x, y)
    ensures z.w.trace == y.w.trace ==> Continues(x, z)
  {
  }

  lemma FrameContinues(y: Sys, f: Frame, now: nat)
    requires y.sink.Some?
    ensures Continues(y, HandleFrame(y, f, now))
  {
    hide Continues, Grows, WellFormed, InPhase;
    var y1 := Note(y, XrIn(f));
    NoteContinues(y, XrIn(f));
    if Configures(y, f) {
      ConfigureContinues(y1, f, now);
      ConfiguresFrame(y, f, now);
      ContinuesThen(y, y1, HandleFrame(y, f, now));
    } else {
      FrameGrew(y, f, now);
      GrewContinues(Minor, y1, HandleFrame(y, f, now));
      ContinuesThen(y, y1, HandleFrame(y, f, now));
    }
  }

  lemma ConfiguresFrame(y: Sys, f: Frame, now: nat)
    requires y.sink.Some? && Configures(y, f)
    ensures HandleFrame(y, f, now) == HandleConfigure(Note(y, XrIn(f)), f, now)
  {
    hide WellFormed, HandleConfigure;
  }

  lemma {:induction false} ConsumeContinues(y: Sys, stream: seq<byte>, now: nat)
    requires y.sink.Some?
    ensures Continues(y, Consume(y, stream, now).0)
    decreases |stream|
  {
    hide Continues, HandleFrame, CloseSession;
    SameContinues(y, y);
    CloseContinues(y, ParserError);
    var r := PopFrame(Xr, stream);
    if r.Got? {
      var y1 := HandleFrame(y, r.frame, now);
      FrameContinues(y, r.frame, now);
      if !IsClosed(y1) {
        ConsumeContinues(y1, r.rest, now);
        ContinuesThen(y, y1, Consume(y1, r.rest, now).0);
      }
    }
  }

  lemma {:induction false} ReadContinues(n: Node, now: nat)
    requires n.y.sink.Some?
    ensures Continues(n.y, ReadClient(n, now).y)
    decreases |n.y.w.script.clientIn|
  {
    hide Continues, Consume;
    SameContinues(n.y, n.y);
    var input := n.y.w.script.clientIn;
    if input != [] {
      var y1 := n.y.(w := n.y.w.(script := n.y.w.script.(clientIn := input[1..])));
      SameContinues(n.y, y1);
      match input[0]
      case FromClient(bytes) =>
        ConsumeContinues(y1, n.xrHeld + bytes, now);
        var (y2, xrHeld) := Feed(y1, n.xrHeld, bytes, now);
        SameContinues(y1, y1);
        ContinuesThen(n.y, y1, y2);
        if !IsClosed(y2) && |bytes| >= 1024 {
          var n2 := Settle(n.(y := y2, xrHeld := xrHeld));
          ReadContinues(n2, now);
          ContinuesThen(n.y, y2, ReadClient(n2, now).y);
        }
      case RecvInterrupted =>
        ReadContinues(n.(y := y1), now);
        ContinuesThen(n.y, y1, ReadClient(n.(y := y1), now).y);
      case _ =>
    }
  }

  lemma FlushContinues(n: Node)
    requires n.y.sink.Some?
    ensures Continues(n.y, FlushOut(n).y)
  {
    hide FlushOut, Grows, Continues;
    FlushGrew(n);
    GrewContinues(Minor, n.y, FlushOut(n).y);
  }

  // --- the daemon link -------------------------------------------------------

  lemma RxContinues(y: Sys, rx: Rx)
    ensures Continues(y, DispatchRx(y, rx))
  {
    hide Continues, Emit, XrRxFrame;
    var y1 := Note(y, LogRx(rx));
    NoteContinues(y, LogRx(rx));
    if y.sink.Some? {
      EmitContinues(y1, XrRxFrame(rx));
      ContinuesThen(y, y1, Emit(y1, XrRxFrame(rx)).0);
    }
  }

  lemma AnswerContinues(y: Sys, o: TxOutcome)
    ensures Continues(y, DispatchAnswer(y, o))
    ensures var y1 := LogTxOutcome(y, true); Continues(y, DispatchAnswer(y1, o))
  {
    hide Continues, Grows, DispatchAnswer, LogTxOutcome;
    var y1 := LogTxOutcome(y, true);
    LogOutcomeGrew(y, true);
    GrewContinues(Minor, y, y1);
    AnswerGrew(y, o);
    GrewContinues(Minor, y, DispatchAnswer(y, o));
    AnswerGrew(y1, o);
    GrewContinues(Minor, y1, DispatchAnswer(y1, o));
    ContinuesThen(y, y1, DispatchAnswer(y1, o));
  }

  lemma DispatchContinues(y: Sys, f: Frame)
    ensures Continues(y, Dispatch(y, f))
  {
    hide Continues, DispatchRx, DispatchAnswer, LogTxOutcome, DecodeRx, DecodeTxResult, MapTxStatus;
    var y1, z := Note(y, Heard(f)), Dispatch(y, f);
    NoteContinues(y, Heard(f));
    if DecodeRx(f).Some? { RxContinues(y1, DecodeRx(f).value); }
    if DecodeTxResult(f).Some? { AnswerContinues(y1, MapTxStatus(DecodeTxResult(f).value.status)); }
    AnswerContinues(y1, RadioError);
    SameContinues(y1, y1);
    ContinuesThen(y, y1, z);
  }

  lemma DisconnectContinues(y: Sys)
    ensures Continues(y, HandleDisconnect(y))
  {
    hide HandleDisconnect, Grows, Continues;
    DisconnectGrew(y);
    GrewContinues(Minor, y, HandleDisconnect(y));
  }

  lemma {:induction false} DigestContinues(y: Sys, stream: seq<byte>, draining: bool)
    ensures Continues(y, Digest(y, stream, draining).0)
    decreases |stream|
  {
    hide Continues, Dispatch, HandleDisconnect;
    SameContinues(y, y);
    DisconnectContinues(y);
    var r := PopFrame(FromDaemon, stream);
    if r.Got? {
      var y1 := Dispatch(y, r.frame);
      DispatchContinues(y, r.frame);
      if !LeftLoop(y1.b, draining) {
        DigestContinues(y1, r.rest, draining);
        ContinuesThen(y, y1, Digest(y1, r.rest, draining).0);
      }
    }
  }

  lemma {:induction false} DataContinues(y: Sys, held: seq<byte>, draining: bool)
    ensures Continues(y, ReadData(y, held, draining).0)
    decreases |y.w.script.dataIn|
  {
    hide Continues, Digest, HandleDisconnect;
    SameContinues(y, y);
    var input := y.w.script.dataIn;
    if input != [] {
      var y1 := y.(w := y.w.(script := y.w.script.(dataIn := input[1..])));
      SameContinues(y, y1);
      if input[0].Gone? {
        DisconnectContinues(y1);
        ContinuesThen(y, y1, HandleDisconnect(y1));
      } else {
        var chunk := input[0].bytes;
        var y2 := Note(y1, DataRx(chunk));
        NoteContinues(y1, DataRx(chunk));
        ContinuesThen(y, y1, y2);
        DigestContinues(y2, held + chunk, draining);
        var (y3, h) := Digest(y2, held + chunk, draining);
        ContinuesThen(y, y2, y3);
        if !LeftLoop(y3.b, draining) && |chunk| >= READ_CHUNK {
          DataContinues(y3, h, draining);
          ContinuesThen(y, y3, ReadData(y3, h, draining).0);
        }
      }
    }
  }

  lemma CompleteContinues(y: Sys, token: nat, effective: Option<RadioConfig>, now: nat)
    requires y.sink.Some?
    ensures Continues(y, OnConfigureComplete(y, token, effective, now))
  {
    hide Continues, Emit, Reject;
    var y1 := Note(y, CfgDone(token, effective.Some?));
    NoteContinues(y, CfgDone(token, effective.Some?));
    RejectContinues(y1, Byte1(CONFIG_RESULT, CFG_UNSUPPORTED), ConfigFailed);
    ContinuesThen(y, y1, Reject(y1, Byte1(CONFIG_RESULT, CFG_UNSUPPORTED), ConfigFailed));
    if effective.Some? {
      var y2 := Emit(y1, ConfigOkFrame(effective.value)).0;
      EmitContinues(y1, ConfigOkFrame(effective.value));
      ContinuesThen(y, y1, y2);
      MovedContinues(y, y2, EnterOperational(y2, now));
    }
  }

  lemma EndContinues(y: Sys, now: nat)
    ensures Continues(y, ConfigFail(y, now)) && Continues(y, ConfigSucceed(y, now))
  {
    hide Continues, OnConfigureComplete;
    var y1 := ResetLink(y);
    NoteContinues(y1.(w := y.w), LinkDown);
    MovedContinues(y, Note(y1.(w := y.w), LinkDown), y1);
    var y2 := y.(b := y.b.(state := Ready, txEpoch := NextU32(y.b.txEpoch), confOut := "", confOff := 0, awaiting := false));
    SameContinues(y, y2);
    if y.sink.Some? {
      CompleteContinues(y1, y1.b.configToken, None, now);
      ContinuesThen(y, y1, ConfigFail(y, now));
      CompleteContinues(y2, y2.b.configToken, Some(y2.b.pendingCfg), now);
      ContinuesThen(y, y2, ConfigSucceed(y, now));
    }
  }

  lemma StatusContinues(y: Sys, now: nat)
    ensures Continues(y, ReadStatus(y, now))
  {
    hide Continues, Grows, PumpConf, ConfigFail, ConfigSucceed;
    var y1 := PumpConf(y, true).0;
    PumpConfGrows(y, true);
    GrewContinues(Conf, y, y1);
    EndContinues(y1, now);
    ContinuesThen(y, y1, ConfigFail(y1, now));
    ContinuesThen(y, y1, ConfigSucceed(y1, now));
  }

  lemma AdvanceContinues(y: Sys, now: nat)
    ensures Continues(y, AdvanceConfigure(y, now))
  {
    hide Continues, Grows, PumpConfOut, ReadStatus, ConfigFail;
    var y1 := PumpConfOut(y).0;
    PumpConfOutGrows(y);
    GrewContinues(Conf, y, y1);
    EndContinues(y1, now);
    ContinuesThen(y, y1, ConfigFail(y1, now));
    StatusContinues(y1, now);
    ContinuesThen(y, y1, ReadStatus(y1, now));
    var y2 := y1.(b := y1.b.(awaiting := true));
    MovedContinues(y, y1, y2);
    StatusContinues(y2, now);
    ContinuesThen(y, y2, ReadStatus(y2, now));
  }

  lemma ConnectContinues(y: Sys, now: nat)
    ensures Continues(y, AdvanceConnect(y, now))
  {
    hide Continues, AdvanceConfigure, ConfigFail;
    var y1 := y.(w := y.w.(script := y.w.script.(connects := Tail(y.w.script.connects))));
    SameContinues(y, y1);
    EndContinues(y1, now);
    ContinuesThen(y, y1, ConfigFail(y1, now));
    var y2 := y1.(b := y1.b.(state := Configuring));
    SameContinues(y, y2);
    AdvanceContinues(y2, now);
    ContinuesThen(y, y2, AdvanceConfigure(y2, now));
  }

  lemma OperationalContinues(y: Sys, held: seq<byte>)
    ensures Continues(y, AdvanceOperational(y, held).0)
  {
    hide Continues, Grows, PumpConf, HandleDisconnect, ResumeTx, ReadData;
    var y1 := PumpConf(y, false).0;
    PumpConfGrows(y, false);
    GrewContinues(Conf, y, y1);
    DisconnectContinues(y1);
    ContinuesThen(y, y1, HandleDisconnect(y1));
    var y2 := ResumeTx(y1);
    ResumeGrew(y1);
    GrewContinues(Minor, y1, y2);
    ContinuesThen(y, y1, y2);
    DataContinues(y2, held, false);
    ContinuesThen(y, y2, ReadData(y2, held, false).0);
  }

  lemma DrainContinues(y: Sys, held: seq<byte>, now: nat)
    ensures Continues(y, AdvanceDrain(y, held, now).0)
  {
    hide Continues, Grows, EnterFault, DrainConf, ReadData;
    FaultGrew(y);
    GrewContinues(Minor, y, EnterFault(y));
    var y1 := DrainConf(y);
    DrainConfGrows(y);
    GrewContinues(Conf, y, y1);
    DataContinues(y1, held, true);
    ContinuesThen(y, y1, ReadData(y1, held, true).0);
  }

  lemma PollContinues(y: Sys, held: seq<byte>, now: nat)
    ensures Continues(y, Poll(y, held, now).0)
  {
    hide Continues, ConfigFail, AdvanceConnect, AdvanceConfigure, AdvanceDrain, AdvanceOperational;
    SameContinues(y, y);
    EndContinues(y, now);
    ConnectContinues(y, now);
    AdvanceContinues(y, now);
    DrainContinues(y, held, now);
    OperationalContinues(y, held);
  }

  // --- a turn ----------------------------------------------------------------

  lemma TickContinues(y: Sys, now: nat)
    requires y.sink.Some?
    ensures Continues(y, Tick(y, now))
  {
    hide Continues, Grows, Tick;
    TickGrew(y, now);
    GrewContinues(Minor, y, Tick(y, now));
  }

  lemma TeardownContinues(n: Node, now: nat)
    ensures Continues(n.y, Teardown(n, now).y)
  {
  }

  lemma ServiceContinues(n: Node, t: Turn)
    ensures Continues(n.y, Service(n, t).y)
  {
    hide Continues, ReadClient, FlushOut;
    SameContinues(n.y, n.y);
    if n.y.sink.Some? {
      var n1 := ReadClient(n, t.tRead);
      ReadContinues(n, t.tRead);
      FlushContinues(n1);
      ContinuesThen(n.y, n1.y, FlushOut(n1).y);
      var n2 := if t.readable then FlushOut(n1) else n;
      FlushContinues(n2);
      ContinuesThen(n.y, n2.y, FlushOut(n2).y);
    }
  }

  lemma FinishContinues(n: Node, t: Turn)
    requires n.y.sink.Some?
    ensures Continues(n.y, Finish(n, t).y)
  {
    hide Continues, Tick, FlushOut, Teardown;
    var n1 := TickNode(n, t.tTick);
    TickContinues(n.y, t.tTick);
    var n2 := FlushOut(n1);
    FlushContinues(n1);
    ContinuesThen(n.y, n1.y, n2.y);
    TeardownContinues(n2, t.tDrop);
    ContinuesThen(n.y, n2.y, Teardown(n2, t.tDrop).y);
  }

  // The rest of a turn, once the arrivals are dealt with.
  function AfterAccept(n: Node, known: bool, t: Turn): Node {
    var n2 := if known then Service(n, t) else n;
    var n3 := PollNode(n2, t.tPoll);
    if n3.y.sink.None? then n3 else Finish(n3, t)
  }

  lemma RestContinues(n: Node, known: bool, t: Turn)
    ensures Continues(n.y, AfterAccept(n, known, t).y)
  {
    hide Continues, Service, Poll, Finish;
    SameContinues(n.y, n.y);
    ServiceContinues(n, t);
    var n2 := if known then Service(n, t) else n;
    PollContinues(n2.y, n2.held, t.tPoll);
    var n3 := PollNode(n2, t.tPoll);
    ContinuesThen(n.y, n2.y, n3.y);
    if n3.y.sink.Some? {
      FinishContinues(n3, t);
      ContinuesThen(n.y, n3.y, Finish(n3, t).y);
    }
  }

  // When the dialogue says that the current connection was opened.
  function OpenedAt(y: Sys): nat {
    Dialogue(y.w.setup, y.w.trace).openedAt
  }

  // Arrivals add at most the opening of one connection.
  lemma {:induction false} AcceptExtends(n: Node, arrivals: seq<bool>, now: nat)
    ensures var r := AcceptAll(n, arrivals, now);
            && n.y.w.trace <= r.y.w.trace && r.y.w.setup == n.y.w.setup
            && (n.y.sink.Some? ==> r == n)
            && (n.y.sink.None? && r.y.sink.Some? ==> OpenedAt(r.y) == now)
    decreases |arrivals|
  {
    DialogueLog(n.y.w.setup);
    hide Dialogue, NewSession;
    if arrivals != [] {
      var n1 := if n.y.sink.None? && arrivals[0] then OpenConnection(n, now) else n;
      AcceptExtends(n1, arrivals[1..], now);
    }
  }

  lemma TurnExtends(n: Node, t: Turn)
    ensures n.y.w.trace <= PollOnce(n, t).y.w.trace
  {
    hide AcceptAll, AfterAccept;
    var n0 := n.(y := n.y.(w := n.y.w.(script := t.script)));
    AcceptExtends(n0, t.arrivals, t.tRead);
    var n1 := AcceptAll(n0, t.arrivals, t.tRead);
    RestContinues(n1, n0.y.sink.Some?, t);
    if t.pollOk {
      TurnParts(n, t);
    }
  }

  lemma TurnParts(n: Node, t: Turn)
    requires t.pollOk
    ensures var n0 := n.(y := n.y.(w := n.y.w.(script := t.script)));
            PollOnce(n, t) == AfterAccept(AcceptAll(n0, t.arrivals, t.tRead), n0.y.sink.Some?, t)
  {
    hide AcceptAll, Service, PollNode, Finish;
  }

  // A longer run continues the trace of a shorter one.
  lemma {:induction false} RunExtends(setup: Setup, turns: seq<Turn>, k: nat)
    requires k <= |turns|
    ensures TraceOf(setup, turns[..k]) <= TraceOf(setup, turns)
    decreases |turns|
  {
    hide PollOnce;
    var last := |turns| - 1;
    if k == |turns| {
      assert turns[..k] == turns;
    } else {
      assert turns[..last][..k] == turns[..k];
      RunExtends(setup, turns[..last], k);
      TurnExtends(Run(setup, turns[..last]), turns[last]);
    }
  }

  lemma {:induction false} ContinuesOpened(y: Sys, z: Sys)
    requires Continues(y, z)
    ensures Dialogue(y.w.setup, z.w.trace).openedAt == Dialogue(y.w.setup, y.w.trace).openedAt
    decreases |z.w.trace|
  {
    hide Say, Reply;
    var a, b := y.w.trace, z.w.trace;
    if |b| > |a| {
      ContinuesOpened(y, z.(w := z.w.(trace := b[..|b| - 1])));
    } else {
      assert b == a;
    }
  }

  // --- steps that leave the backend alone ------------------------------------

  // A backend that takes neither a configure nor a packet.
  predicate IsAloof(b: Backend) {
    Applying(b) || b.state.Draining? || b.state.Faulted?
  }

  lemma FrameAloof(y: Sys, f: Frame, now: nat)
    requires Inv(y) && y.sink.Some? && IsAloof(y.b)
    ensures HandleFrame(y, f, now).b == y.b
  {
    hide Encode, WellFormed, Verified, DecodeConfig, IsTxFrame;
  }

  lemma {:induction false} ConsumeAloof(y: Sys, stream: seq<byte>, now: nat)
    requires Inv(y) && y.sink.Some? && IsAloof(y.b)
    ensures Consume(y, stream, now).0.b == y.b
    decreases |stream|
  {
    hide Inv, HandleFrame;
    var r := PopFrame(Xr, stream);
    if r.Got? {
      FrameKeeps(y, r.frame, now);
      FrameAloof(y, r.frame, now);
      if !IsClosed(HandleFrame(y, r.frame, now)) {
        ConsumeAloof(HandleFrame(y, r.frame, now), r.rest, now);
      }
    }
  }

  lemma {:induction false} ReadAloof(n: Node, now: nat)
    requires Good(n) && n.y.sink.Some? && IsAloof(n.y.b)
    ensures ReadClient(n, now).y.b == n.y.b
    decreases |n.y.w.script.clientIn|
  {
    hide Good, Consume;
    var input := n.y.w.script.clientIn;
    if input != [] {
      var y1 := n.y.(w := n.y.w.(script := n.y.w.script.(clientIn := input[1..])));
      ScriptGood(n, n.y.w.script.(clientIn := input[1..]));
      match input[0]
      case FromClient(bytes) =>
        FeedGood(n.(y := y1), bytes, now);
        GoodInv(n.(y := y1));
        ConsumeAloof(y1, n.xrHeld + bytes, now);
        var (y2, xrHeld) := Feed(y1, n.xrHeld, bytes, now);
        if !IsClosed(y2) && |bytes| >= 1024 {
          ReadAloof(Settle(n.(y := y2, xrHeld := xrHeld)), now);
        }
      case RecvInterrupted => ReadAloof(n.(y := y1), now);
      case _ =>
    }
  }

  lemma {:induction false} AcceptAloof(n: Node, arrivals: seq<bool>, now: nat)
    ensures var r := AcceptAll(n, arrivals, now); r.y.b == n.y.b.(started := r.y.b.started)
    decreases |arrivals|
  {
    if arrivals != [] {
      var n1 := if n.y.sink.None? && arrivals[0] then OpenConnection(n, now) else n;
      AcceptAloof(n1, arrivals[1..], now);
    }
  }

  lemma ServiceAloof(n: Node, t: Turn)
    requires Good(n) && IsAloof(n.y.b)
    ensures Service(n, t).y.b == n.y.b
  {
    hide Good, ReadClient, FlushOut;
    if n.y.sink.Some? {
      ReadAloof(n, t.tRead);
    }
  }

  lemma TickAloof(y: Sys, now: nat)
    requires Inv(y) && y.sink.Some? && IsAloof(y.b)
    ensures Tick(y, now).b == y.b
  {
    hide Encode, IsTxFrame;
  }

  // The end of a turn: nothing, or the end of the connection.
  lemma FinishAloof(n: Node, t: Turn)
    requires Inv(n.y) && n.y.sink.Some? && IsAloof(n.y.b)
    ensures var r := Finish(n, t);
            if r.y.sink.Some? then r.y.b == n.y.b
            else
              && (!Applying(n.y.b) ==> r.y.b == n.y.b.(started := false))
              && |r.y.w.trace| > 0 && r.y.w.trace[|r.y.w.trace| - 1] == ConnDrop
              && |r.y.w.trace| > |n.y.w.trace|
  {
    hide FlushOut, Tick, Continues;
    TickAloof(n.y, t.tTick);
    var n1 := TickNode(n, t.tTick);
    var n2 := FlushOut(n1);
    TickContinues(n.y, t.tTick);
    FlushContinues(n1);
    ContinuesThen(n.y, n1.y, n2.y);
    LongerTrace(n.y, n2.y);
  }

  lemma LongerTrace(y: Sys, z: Sys)
    requires Continues(y, z)
    ensures |y.w.trace| <= |z.w.trace|
  {
  }
}
