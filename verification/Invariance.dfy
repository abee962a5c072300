// All invariants together, kept by every step of the server.
module Invariance {
  import opened Bytes
  import opened Frames
  import opened Messages
  import opened ConfText
  import opened Radio
  import opened World
  import opened Monitors
  import opened Model
  import opened Joint
  import opened Growth
  import opened Ownership
  import opened Reception
  import opened Conversation
  import opened Settlement

  ghost predicate All(y: Sys) {
    Inv(y) && Owns(y) && Talks(y) && Asks(y) && Hears(y)
  }

  // A step that keeps the link, if there still is one, keeps its stream.
  ghost predicate SameStream(y: Sys, z: Sys) {
    Live(z.b) ==> Live(y.b) && EarOf(z).raw == EarOf(y).raw && EarOf(z).heard == EarOf(y).heard
  }

  // How a step that only grows the trace may change the machine.
  predicate Tame(y: Sys, z: Sys) {
    && (IsOperational(z) ==> IsOperational(y))
    && (Applying(z.b) ==> Applying(y.b) && SameJob(y.b, z.b))
    && (Live(z.b) ==> Live(y.b))
  }

  lemma GrewAll(y: Sys, z: Sys)
    requires Asks(y) && Hears(y) && Grew(y, z) && Tame(y, z)
    ensures Asks(z) && Hears(z) && SameStream(y, z)
  {
    hide Asks, Hears, Grew, Listen, SameJob;
    KeepAsks(y, z);
    KeepHears(y, z);
  }

  lemma InStepAll(y: Sys)
    requires Talks(y)
    ensures InStep(y)
  {
    hide Dialogue, Queued;
  }

  // --- firmware frames -------------------------------------------------------

  predicate Configures(y: Sys, f: Frame) {
    y.sink.Some? && y.sink.value.phase.WaitConfigure? && f.ty == CONFIGURE && WellFormed(f)
  }

  lemma FrameGrew(y: Sys, f: Frame, now: nat)
    requires y.sink.Some? && !Configures(y, f)
    ensures Grew(Note(y, XrIn(f)), HandleFrame(y, f, now))
  {
    var y1 := Note(y, XrIn(f));
    hide WellFormed, Grows, CloseSession, HandleHello, HandleAuth, HandleConfigure, HandlePong, HandleTxRequest;
    CloseGrew(y1, MalformedFrame);
    CloseGrew(y1, BadState);
    CloseGrew(y1, RemoteError);
    HelloGrew(y1, now);
    AuthGrew(y1, f, now);
    TxRequestGrew(y1, f, now);
    PongGrew(y1, now);
    SelfGrew(y1, y1);
  }

  lemma SelfGrew(y: Sys, z: Sys)
    requires z.w.setup == y.w.setup && z.w.trace == y.w.trace
    ensures Grew(y, z)
  {
  }

  lemma PongGrew(y: Sys, now: nat)
    requires y.sink.Some?
    ensures Grew(y, HandlePong(y, now))
  {
    if y.sink.value.awaitingPong {
      SelfGrew(y, HandlePong(y, now));
    } else {
      CloseGrew(y, BadState);
    }
  }

  lemma HandlersTame(y: Sys, f: Frame, now: nat)
    requires y.sink.Some?
    ensures !y.sink.value.phase.Operational? ==> Tame(y, HandleHello(y, now)) && Tame(y, HandleAuth(y, f, now))
  {
    hide Encode, Verified;
  }

  lemma TxRequestTame(y: Sys, f: Frame, now: nat)
    requires y.sink.Some?
    ensures IsOperational(y) ==> Tame(y, HandleTxRequest(y, f, now)) && Tame(y, HandlePong(y, now))
  {
    hide Encode, PumpTx, TxPacketFrame;
  }

  lemma FrameTame(y: Sys, f: Frame, now: nat)
    requires y.sink.Some? && !Configures(y, f)
    ensures Tame(Note(y, XrIn(f)), HandleFrame(y, f, now))
  {
    var y1 := Note(y, XrIn(f));
    hide WellFormed, HandleHello, HandleAuth, HandleConfigure, HandleTxRequest, HandlePong;
    HandlersTame(y1, f, now);
    TxRequestTame(y1, f, now);
  }

  lemma FrameRest(y: Sys, f: Frame, now: nat)
    requires Inv(y) && Asks(y) && Hears(y) && y.sink.Some?
    ensures var z := HandleFrame(y, f, now);
            Asks(z) && Hears(z) && SameStream(y, z) && z.w.setup == y.w.setup
  {
    var y1 := Note(y, XrIn(f));
    hide Asks, Hears, WellFormed, HandleHello, HandleAuth, HandleTxRequest, HandlePong, Listen;
    HeardAsks(y, XrIn(f));
    NoteHears(y, XrIn(f));
    if Configures(y, f) {
      RequestAsks(y, f, now);
      RequestHears(y1, f, now);
    } else {
      FrameGrew(y, f, now);
      FrameTame(y, f, now);
      GrewAll(y1, HandleFrame(y, f, now));
    }
  }

  lemma RequestHears(y: Sys, f: Frame, now: nat)
    requires Inv(y) && Hears(y) && y.sink.Some? && y.sink.value.phase.WaitConfigure?
    ensures var z := HandleConfigure(y, f, now);
            Hears(z) && SameStream(y, z) && z.w.setup == y.w.setup
  {
    var c := DecodeConfig(f);
    hide Hears, Listen, Reject, BeginConfigure, DecodeConfig, BackendOk;
    if c.None? {
      RejectHears(y, Byte1(CONFIG_RESULT, CFG_INVALID), ConfigFailed);
    } else {
      var (y1, token) := BeginConfigure(y, c.value, now);
      BeginHears(y, c.value, now);
      BeginShape(y, c.value, now);
      if token == 0 {
        RejectHears(y1, Byte1(CONFIG_RESULT, CFG_UNSUPPORTED), ConfigFailed);
      } else {
        ArmHears(y1, HandleConfigure(y, f, now));
      }
    }
  }

  lemma RejectHears(y: Sys, f: Frame, r: CloseReason)
    requires Hears(y) && y.sink.Some? && Is(Minor, XrOut(f))
    ensures var z := Reject(y, f, r);
            Hears(z) && EarOf(z) == EarOf(y) && z.b == y.b && z.w.setup == y.w.setup
  {
    hide Hears, Listen, Emit, CloseSession, Grows;
    RejectGrew(y, f, r);
    KeepHears(y, Reject(y, f, r));
  }

  lemma BeginShape(y: Sys, c: RadioConfig, now: nat)
    ensures var z := BeginConfigure(y, c, now).0;
            && z.sink == y.sink && z.w.setup == y.w.setup
            && (z.b == y.b || z.b.state.Connecting?)
  {
    hide Commands, SetCommand;
  }

  lemma ArmHears(y: Sys, z: Sys)
    requires Hears(y) && z.b == y.b && z.w == y.w && !IsOperational(z)
    ensures Hears(z) && EarOf(z) == EarOf(y)
  {
    hide Listen;
  }

  lemma FrameAll(y: Sys, f: Frame, now: nat)
    requires All(y) && y.sink.Some? && !IsClosed(y) && Legal(Xr, f)
    ensures var z := HandleFrame(y, f, now);
            All(z) && SameStream(y, z) && z.w.setup == y.w.setup
  {
    hide Inv, Owns, Talks, Asks, Hears, SameStream, HandleFrame;
    FrameKeeps(y, f, now);
    FrameOwns(y, f, now);
    FrameTalks(y, f, now);
    FrameRest(y, f, now);
  }

  lemma StreamThen(x: Sys, y: Sys, z: Sys)
    requires SameStream(x, y) && SameStream(y, z)
    ensures SameStream(x, z)
  {
    hide Listen;
  }

  lemma CloseAll(y: Sys, r: CloseReason)
    requires All(y) && y.sink.Some? && !r.InternalError?
    ensures All(CloseSession(y, r)) && SameStream(y, CloseSession(y, r))
  {
    hide Inv, Owns, Talks, Asks, Hears, SameStream, Grew;
    CloseKeeps(y, r);
    CloseOwns(y, r);
    AnyCloseTalks(y, r);
    CloseGrew(y, r);
    GrewAll(y, CloseSession(y, r));
  }

  lemma {:induction false} ConsumeAll(y: Sys, stream: seq<byte>, now: nat)
    requires All(y) && y.sink.Some? && !IsClosed(y)
    ensures var z := Consume(y, stream, now).0;
            All(z) && SameStream(y, z) && z.w.setup == y.w.setup
    decreases |stream|
  {
    hide All, SameStream, HandleFrame, CloseSession;
    var r := PopFrame(Xr, stream);
    if r.Bad? {
      CloseAll(y, ParserError);
    } else if r.Got? {
      PopSound(Xr, stream);
      hide PopFrame;
      var y1 := HandleFrame(y, r.frame, now);
      FrameAll(y, r.frame, now);
      if !IsClosed(y1) {
        ConsumeAll(y1, r.rest, now);
        StreamThen(y, y1, Consume(y1, r.rest, now).0);
      }
    } else {
      SelfStream(y);
    }
  }

  lemma SelfStream(y: Sys)
    ensures SameStream(y, y)
  {
  }

  // --- the daemon link -------------------------------------------------------

  // The parser holds an incomplete frame, and dispatch has seen all before it.
  ghost predicate Linked(y: Sys, held: seq<byte>) {
    Live(y.b) ==> PopFrame(FromDaemon, held).NeedMore? && Ahead(EarOf(y), held)
  }

  lemma DisconnectAll(y: Sys)
    requires All(y) && !y.b.state.Faulted?
    ensures var z := HandleDisconnect(y);
            All(z) && !Live(z.b) && !Applying(z.b) && z.w.setup == y.w.setup
  {
    hide Inv, Owns, Talks, Asks, Hears, Grows;
    DisconnectKeeps(y);
    DisconnectOwns(y);
    DisconnectTalks(y);
    DisconnectGrew(y);
    DisconnectTame(y);
    hide HandleDisconnect;
    GrewAll(y, HandleDisconnect(y));
  }

  lemma DisconnectTame(y: Sys)
    ensures var z := HandleDisconnect(y);
            Tame(y, z) && !Live(z.b) && !Applying(z.b) && z.w.setup == y.w.setup
  {
  }

  // A dispatched frame never touches a configure, for there is none.
  lemma DispatchAsks(y: Sys, f: Frame)
    requires Asks(y) && Live(y.b)
    ensures Asks(Dispatch(y, f))
  {
    var y1 := Note(y, Heard(f));
    HeardAsks(y, Heard(f));
    DispatchStates(y, f);
    hide Asks, Grows, DecodeRx;
    if f.ty != RX_PACKET {
      OtherGrew(y, f);
      hide Dispatch;
      KeepAsks(y1, Dispatch(y, f));
    } else if DecodeRx(f).Some? {
      var rx := DecodeRx(f).value;
      var y2 := Note(y1, LogRx(rx));
      HeardAsks(y1, LogRx(rx));
      if y2.sink.Some? {
        QueueAsks(y2, rx);
      }
    }
  }

  lemma QueueAsks(y: Sys, rx: Rx)
    requires Asks(y) && y.sink.Some? && !Applying(y.b)
    ensures Asks(OnRx(y, rx))
  {
    AskLog();
    hide Ask, Encode, PutBe16;
  }

  lemma DispatchAll(y: Sys, stream: seq<byte>)
    requires All(y) && Live(y.b) && Ahead(EarOf(y), stream) && PopFrame(FromDaemon, stream).Got?
    ensures var g := PopFrame(FromDaemon, stream);
            All(Dispatch(y, g.frame)) && Ahead(EarOf(Dispatch(y, g.frame)), g.rest)
  {
    var g := PopFrame(FromDaemon, stream);
    hide Inv, Owns, Talks, Asks, Hears, InStep, Ahead, Dispatch, PopFrame;
    DispatchKeeps(y, g.frame);
    DispatchOwns(y, g.frame);
    DispatchTalks(y, g.frame);
    DispatchAsks(y, g.frame);
    InStepAll(y);
    DispatchHears(y, stream);
  }

  lemma {:induction false} DigestAll(y: Sys, stream: seq<byte>, draining: bool)
    requires All(y) && Live(y.b) && y.b.state.Draining? == draining && Ahead(EarOf(y), stream)
    ensures var (z, held) := Digest(y, stream, draining);
            && All(z) && Linked(z, held) && z.w.setup == y.w.setup
            && (LeftLoop(z.b, draining) || (Live(z.b) && z.b.state.Draining? == draining))
    decreases |stream|
  {
    hide All, Ahead, Dispatch, HandleDisconnect;
    var r := PopFrame(FromDaemon, stream);
    if r.Bad? {
      DisconnectAll(y);
    } else if r.Got? {
      DispatchAll(y, stream);
      DispatchStates(y, r.frame);
      PopSmaller(stream);
      hide PopFrame;
      var y1 := Dispatch(y, r.frame);
      if !LeftLoop(y1.b, draining) {
        DigestAll(y1, r.rest, draining);
      }
    }
  }

  lemma PopSmaller(s: seq<byte>)
    requires PopFrame(FromDaemon, s).Got?
    ensures |PopFrame(FromDaemon, s).rest| < |s|
  {
  }

  lemma ChunkAll(y: Sys, held: seq<byte>, chunk: seq<byte>)
    requires All(y) && Live(y.b) && Linked(y, held)
    ensures var z := Note(y, DataRx(chunk));
            All(z) && Ahead(EarOf(z), held + chunk)
  {
    var z := Note(y, DataRx(chunk));
    hide Owns, Talks, Asks, Hears, Ahead, PopFrame, BackendOk, SessionOk;
    assert Inv(z);
    ChunkHears(y, held, chunk);
    HeardAsks(y, DataRx(chunk));
    NoteWordless(y, DataRx(chunk));
    WordlessTalks(y, z);
    assert Owns(z) by {
      assert Books(z.w.trace) == Books(y.w.trace) by { BooksLog(); hide Books; }
      SameOwns(y, z);
    }
  }

  // Changing the script changes nothing that is observed.
  lemma ScriptAll(y: Sys, s: Script)
    requires All(y)
    ensures var z := y.(w := y.w.(script := s));
            All(z) && EarOf(z) == EarOf(y)
  {
    hide Books, Dialogue, Ask, Listen, BackendOk, SessionOk, Accounts, Queued, Underway;
  }

  lemma {:induction false} ReadDataAll(y: Sys, held: seq<byte>, draining: bool)
    requires All(y) && Live(y.b) && y.b.state.Draining? == draining && Linked(y, held)
    ensures var (z, h) := ReadData(y, held, draining);
            All(z) && Linked(z, h) && z.w.setup == y.w.setup
    decreases |y.w.script.dataIn|
  {
    hide All, Ahead, Digest, HandleDisconnect, PopFrame;
    var input := y.w.script.dataIn;
    if input != [] {
      var y1 := y.(w := y.w.(script := y.w.script.(dataIn := input[1..])));
      ScriptAll(y, y.w.script.(dataIn := input[1..]));
      if input[0].Gone? {
        DisconnectAll(y1);
      } else {
        var chunk := input[0].bytes;
        ChunkAll(y1, held, chunk);
        var y2 := Note(y1, DataRx(chunk));
        DigestAll(y2, held + chunk, draining);
        var (y3, h) := Digest(y2, held + chunk, draining);
        if !LeftLoop(y3.b, draining) && |chunk| >= READ_CHUNK {
          ReadDataAll(y3, h, draining);
        }
      }
    }
  }

  // --- CONF traffic outside a configure --------------------------------------

  lemma {:induction false} ConfBad(y: Sys, z: Sys)
    requires Grows(Conf, y, z)
    ensures Ask(z.w.trace).bad == Ask(y.w.trace).bad
    decreases |z.w.trace|
  {
    hide Done;
    var a, b := y.w.trace, z.w.trace;
    if |b| > |a| {
      ConfBad(y, z.(w := z.w.(trace := b[..|b| - 1])));
      assert Is(Conf, b[|b| - 1]);
    } else {
      assert b == a;
    }
  }

  // A step of the CONF dialogue touches only these.
  predicate SameButConf(y: Sys, z: Sys) {
    && z.sink == y.sink && z.b.confOff <= |z.b.confOut|
    && z.b == y.b.(confLine := z.b.confLine, confOff := z.b.confOff, awaiting := z.b.awaiting)
  }

  lemma ConfOwns(y: Sys, z: Sys)
    requires Owns(y) && Books(z.w.trace) == Books(y.w.trace) && SameButConf(y, z)
    ensures Owns(z)
  {
    hide Books, Payloads, Select;
  }

  // Everything but the configuration desk.
  ghost predicate Bulk(y: Sys) {
    Inv(y) && Owns(y) && Talks(y) && Hears(y)
  }

  // Writing, reading or discarding CONF text leaves the other accounts as they are.
  lemma ConfBulk(y: Sys, z: Sys)
    requires Bulk(y) && Grows(Conf, y, z) && SameButConf(y, z)
    ensures Bulk(z) && EarOf(z) == EarOf(y) && z.w.setup == y.w.setup
  {
    GrowsDialogue(Conf, y, z);
    hide Owns, Talks, Hears, Listen, Dialogue, Books, IsTxFrame, Grows;
    ConfOwns(y, z);
    WordlessTalks(y, z);
    ConfHears(y, z);
  }

  lemma ConfAll(y: Sys, z: Sys)
    requires All(y) && !Applying(y.b) && Grows(Conf, y, z) && SameButConf(y, z)
    ensures All(z) && EarOf(z) == EarOf(y) && z.w.setup == y.w.setup
  {
    ConfBad(y, z);
    hide Inv, Owns, Talks, Hears, Ask, Grows;
    ConfBulk(y, z);
  }

  lemma LiveConfAll(y: Sys)
    requires All(y) && !Applying(y.b)
    ensures All(PumpConf(y, false).0) && EarOf(PumpConf(y, false).0) == EarOf(y)
    ensures All(DrainConf(y)) && EarOf(DrainConf(y)) == EarOf(y)
    ensures PumpConf(y, false).0.w.setup == y.w.setup && DrainConf(y).w.setup == y.w.setup
  {
    PumpConfGrows(y, false);
    DrainConfGrows(y);
    hide Owns, Talks, Asks, Hears, Grows, PumpConf, DrainConf, Listen;
    ConfAll(y, PumpConf(y, false).0);
    ConfAll(y, DrainConf(y));
  }

  lemma ResumeAll(y: Sys)
    requires All(y) && Live(y.b)
    ensures var z := ResumeTx(y);
            All(z) && SameStream(y, z) && z.w.setup == y.w.setup
            && (Live(z.b) ==> (z.b.state.Draining? <==> y.b.state.Draining?))
  {
    hide Inv, Owns, Talks, Asks, Hears, Grows;
    ResumeKeeps(y);
    ResumeOwns(y);
    ResumeTalks(y);
    ResumeGrew(y);
    ResumeTame(y);
    hide ResumeTx;
    GrewAll(y, ResumeTx(y));
  }

  lemma ResumeTame(y: Sys)
    requires Live(y.b)
    ensures var z := ResumeTx(y);
            && Tame(y, z) && z.w.setup == y.w.setup && !Applying(z.b)
            && (Live(z.b) ==> (z.b.state.Draining? <==> y.b.state.Draining?))
  {
    PumpTxGrew(y);
    hide PumpTx;
  }

  lemma OperationalAll(y: Sys, held: seq<byte>)
    requires All(y) && Live(y.b) && !y.b.state.Draining? && Linked(y, held)
    ensures var (z, h) := AdvanceOperational(y, held);
            All(z) && Linked(z, h) && z.w.setup == y.w.setup
  {
    LiveConfAll(y);
    var (y1, r) := PumpConf(y, false);
    hide All, Ahead, PopFrame, PumpConf, HandleDisconnect, ResumeTx, ReadData, Listen;
    if r.ConfFailed? {
      DisconnectAll(y1);
    } else {
      ResumeAll(y1);
      var y2 := ResumeTx(y1);
      if Live(y2.b) {
        AheadSame(EarOf(y1), EarOf(y2), held);
        ReadDataAll(y2, held, false);
      }
    }
  }

  lemma AheadSame(m: Ear, k: Ear, held: seq<byte>)
    requires Ahead(m, held) && k.raw == m.raw && k.heard == m.heard
    ensures Ahead(k, held)
  {
  }

  lemma FaultAll(y: Sys)
    requires All(y) && y.b.state.Draining?
    ensures var z := EnterFault(y);
            All(z) && !Live(z.b) && z.w.setup == y.w.setup
  {
    assert HandleDisconnect(y) == EnterFault(y);
    DisconnectAll(y);
  }

  lemma DrainAll(y: Sys, held: seq<byte>, now: nat)
    requires All(y) && y.b.state.Draining? && Linked(y, held)
    ensures var (z, h) := AdvanceDrain(y, held, now);
            All(z) && Linked(z, h) && z.w.setup == y.w.setup
  {
    hide All, Ahead, PopFrame, EnterFault, DrainConf, ReadData, Listen;
    if now >= y.b.drainDeadline {
      FaultAll(y);
    } else {
      LiveConfAll(y);
      ReadDataAll(DrainConf(y), held, true);
    }
  }

  // --- configuring -----------------------------------------------------------

  lemma FailBulk(y: Sys, now: nat)
    requires Bulk(y) && Applying(y.b)
    ensures var z := ConfigFail(y, now);
            Bulk(z) && !Live(z.b) && z.w.setup == y.w.setup
  {
    hide Inv, Owns, Talks, Hears;
    ConfigFailKeeps(y, now);
    ConfigFailOwns(y, now);
    ConfigFailTalks(y, now);
    FailHears(y, now);
  }

  lemma FailHears(y: Sys, now: nat)
    requires Inv(y) && Hears(y) && Applying(y.b)
    ensures var z := ConfigFail(y, now);
            Hears(z) && !Live(z.b) && z.w.setup == y.w.setup
  {
    var y1 := ResetLink(y);
    ResetGrew(y);
    hide Hears, Listen, BackendOk, OnConfigureComplete, Grows;
    KeepHears(y, y1);
    if y1.sink.Some? {
      CompleteHears(y1, y1.b.configToken, None, now);
      CompleteShape(y1, y1.b.configToken, None, now);
    }
  }

  lemma CompleteShape(y: Sys, token: nat, effective: Option<RadioConfig>, now: nat)
    requires y.sink.Some?
    ensures var z := OnConfigureComplete(y, token, effective, now);
            z.b == y.b && z.w.setup == y.w.setup
  {
    hide Encode, PackConfig;
  }

  lemma SucceedBulk(y: Sys, now: nat)
    requires Bulk(y) && Applying(y.b)
    ensures var z := ConfigSucceed(y, now);
            Bulk(z) && Linked(z, []) && z.w.setup == y.w.setup
  {
    hide Inv, Owns, Talks, Hears, Linked;
    ConfigSucceedKeeps(y, now);
    ConfigSucceedOwns(y, now);
    ConfigSucceedTalks(y, now);
    SucceedHears(y, now);
  }

  lemma SucceedHears(y: Sys, now: nat)
    requires Inv(y) && Hears(y) && Applying(y.b)
    ensures var z := ConfigSucceed(y, now);
            Hears(z) && Linked(z, []) && z.w.setup == y.w.setup
  {
    var b := y.b.(state := Ready, txEpoch := NextU32(y.b.txEpoch), confOut := "", confOff := 0, awaiting := false);
    var y1 := y.(b := b);
    hide Listen, BackendOk, OnConfigureComplete;
    assert Hears(y1) && EarOf(y1).raw == [] && EarOf(y1).heard == [];
    if y1.sink.Some? {
      CompleteHears(y1, b.configToken, Some(b.pendingCfg), now);
      CompleteShape(y1, b.configToken, Some(b.pendingCfg), now);
    }
  }

  lemma ReadStatusBulk(y: Sys, now: nat)
    requires Bulk(y) && Applying(y.b) && y.b.confOff <= |y.b.confOut|
    ensures var z := ReadStatus(y, now);
            Bulk(z) && Linked(z, []) && z.w.setup == y.w.setup
  {
    hide Bulk, Linked, PumpConf, ConfigFail, ConfigSucceed;
    PumpConfGrows(y, true);
    var (z, r) := PumpConf(y, true);
    ConfBulk(y, z);
    match r
    case ConfFailed => FailBulk(z, now); Unlinked(ConfigFail(z, now));
    case ConfStatus(ready) =>
      if ready { SucceedBulk(z, now); } else { FailBulk(z, now); Unlinked(ConfigFail(z, now)); }
    case ConfQuiet => Unlinked(z);
  }

  lemma Unlinked(y: Sys)
    requires !Live(y.b)
    ensures Linked(y, [])
  {
  }

  lemma AwaitAsks(d: Desk, b: Backend)
    requires Underway(d, b) && b.confOff == |b.confOut|
    ensures Underway(d, b.(awaiting := true))
    ensures !d.bad ==> Replied(d, b, Pending(b.confLine))
  {
    hide WholeScript;
    assert b.confOut[..|b.confOut|] == b.confOut;
  }

  lemma ReadStatusAll(y: Sys, now: nat)
    requires Bulk(y) && Asks(y) && Applying(y.b) && y.b.awaiting
    ensures var z := ReadStatus(y, now);
            All(z) && Linked(z, []) && z.w.setup == y.w.setup
  {
    AwaitAsks(Ask(y.w.trace), y.b);
    ReadStatusAsks(y, now);
    hide Owns, Talks, Hears, Inv, Asks, Linked, ReadStatus, Ask, WholeScript;
    ReadStatusBulk(y, now);
  }

  lemma StartReadingAll(y: Sys)
    requires Bulk(y) && Asks(y) && Applying(y.b) && y.b.confOff == |y.b.confOut|
    ensures var z := y.(b := y.b.(awaiting := true));
            Bulk(z) && Asks(z)
  {
    var z := y.(b := y.b.(awaiting := true));
    hide Ask, Underway, Bulk;
    AwaitAsks(Ask(y.w.trace), y.b);
    ConfBulk(y, z);
  }

  lemma WrittenAll(y: Sys)
    requires All(y) && Applying(y.b)
    ensures var z := PumpConfOut(y).0;
            Bulk(z) && Asks(z) && z.w.setup == y.w.setup
  {
    PumpConfOutGrows(y);
    var z := PumpConfOut(y).0;
    if !y.b.awaiting {
      PumpOutAsks(y);
    } else {
      assert z == y;
    }
    hide Owns, Talks, Hears, Asks, Grows, PumpConfOut, IsTxFrame;
    ConfBulk(y, z);
  }

  lemma AdvanceConfigureAll(y: Sys, now: nat)
    requires All(y) && Applying(y.b)
    ensures var z := AdvanceConfigure(y, now);
            All(z) && Linked(z, []) && z.w.setup == y.w.setup
  {
    WrittenAll(y);
    var (y1, r) := PumpConfOut(y);
    hide Inv, Owns, Talks, Hears, Linked, PumpConfOut, ReadStatus, ConfigFail;
    match r
    case FlushFailed => FailAll(y1, now);
    case Complete =>
      StartReadingAll(y1);
      ReadStatusAll(y1.(b := y1.b.(awaiting := true)), now);
    case Partial =>
      if y1.b.awaiting { ReadStatusAll(y1, now); } else { Unlinked(y1); }
  }

  lemma FailAll(y: Sys, now: nat)
    requires Bulk(y) && Asks(y) && Applying(y.b)
    ensures var z := ConfigFail(y, now);
            All(z) && Linked(z, []) && z.w.setup == y.w.setup
  {
    FailAsks(y, now);
    hide Inv, Owns, Talks, Hears, Asks, ConfigFail;
    FailBulk(y, now);
  }

  lemma ConnectedAll(y: Sys)
    requires All(y) && y.b.state.Connecting?
    ensures All(y.(b := y.b.(state := Configuring)))
  {
    hide Ask, Books, Dialogue, Listen, IsTxFrame, Payloads, Select, Queued, Scan, WholeScript;
  }

  lemma AdvanceConnectAll(y: Sys, now: nat)
    requires All(y) && y.b.state.Connecting?
    ensures var z := AdvanceConnect(y, now);
            All(z) && Linked(z, []) && z.w.setup == y.w.setup
  {
    var c := y.w.script.connects;
    var y1 := y.(w := y.w.(script := y.w.script.(connects := Tail(c))));
    ScriptAll(y, y.w.script.(connects := Tail(c)));
    hide Inv, Owns, Talks, Asks, Hears, Linked, AdvanceConfigure, ConfigFail;
    if c == [] || c[0].StillConnecting? {
      Unlinked(y1);
    } else if c[0].ConnectFailed? {
      FailAll(y1, now);
    } else {
      ConnectedAll(y1);
      AdvanceConfigureAll(y1.(b := y1.b.(state := Configuring)), now);
    }
  }

  // Polling the backend keeps everything, whatever the daemon answers.
  lemma PollAll(y: Sys, held: seq<byte>, now: nat)
    requires All(y) && Linked(y, held)
    ensures var (z, h) := Poll(y, held, now);
            All(z) && Linked(z, h) && z.w.setup == y.w.setup
  {
    hide Inv, Owns, Talks, Asks, Hears, ConfigFail, AdvanceConnect, AdvanceConfigure, AdvanceDrain, AdvanceOperational, Ahead, PopFrame;
    match y.b.state
    case Connecting => FailAll(y, now); AdvanceConnectAll(y, now);
    case Configuring => FailAll(y, now); AdvanceConfigureAll(y, now);
    case Draining => DrainAll(y, held, now);
    case Disconnected =>
    case Faulted =>
    case _ => OperationalAll(y, held);
  }

  // --- the running server ----------------------------------------------------

  // What holds between any two stages of the loop.
  ghost predicate Good(n: Node) {
    All(n.y) && Linked(n.y, n.held) && (!Live(n.y.b) ==> n.held == [])
  }

  lemma StreamLinked(y: Sys, z: Sys, held: seq<byte>)
    requires Linked(y, held) && SameStream(y, z)
    ensures Linked(z, held)
  {
    hide Ahead, PopFrame, Listen;
    if Live(z.b) {
      AheadSame(EarOf(y), EarOf(z), held);
    }
  }

  lemma GoodInv(n: Node)
    requires Good(n)
    ensures Inv(n.y)
  {
    hide Inv;
  }

  lemma SettleGood(n: Node)
    requires All(n.y) && Linked(n.y, n.held)
    ensures Good(Settle(n))
  {
    hide All, Ahead, PopFrame;
  }

  lemma {:induction false} ReadClientGood(n: Node, now: nat)
    requires Good(n) && n.y.sink.Some?
    ensures var r := ReadClient(n, now);
            Good(r) && r.y.w.setup == n.y.w.setup
    decreases |n.y.w.script.clientIn|
  {
    hide All, Linked, Consume, SameStream;
    var input := n.y.w.script.clientIn;
    if input != [] {
      var y1 := n.y.(w := n.y.w.(script := n.y.w.script.(clientIn := input[1..])));
      ScriptGood(n, n.y.w.script.(clientIn := input[1..]));
      match input[0]
      case FromClient(bytes) =>
        FeedGood(n.(y := y1), bytes, now);
        var (y2, xrHeld) := Feed(y1, n.xrHeld, bytes, now);
        var n2 := Settle(n.(y := y2, xrHeld := xrHeld));
        hide Settle, Feed, Good;
        if !IsClosed(y2) && |bytes| >= 1024 { ReadClientGood(n2, now); }
      case RecvInterrupted => ReadClientGood(n.(y := y1), now);
      case _ =>
    }
  }

  lemma ScriptGood(n: Node, s: Script)
    requires Good(n)
    ensures Good(n.(y := n.y.(w := n.y.w.(script := s))))
  {
    hide All, Ahead, PopFrame, Listen;
    ScriptAll(n.y, s);
  }

  lemma FeedGood(n: Node, data: seq<byte>, now: nat)
    requires Good(n) && n.y.sink.Some?
    ensures var (y, xrHeld) := Feed(n.y, n.xrHeld, data, now);
            Good(Settle(n.(y := y, xrHeld := xrHeld))) && y.w.setup == n.y.w.setup
  {
    hide All, Linked, Consume, SameStream, Settle;
    var (y, xrHeld) := Feed(n.y, n.xrHeld, data, now);
    if !IsClosed(n.y) {
      ConsumeAll(n.y, n.xrHeld + data, now);
      StreamLinked(n.y, y, n.held);
    }
    SettleGood(n.(y := y, xrHeld := xrHeld));
  }

  lemma FlushGood(n: Node)
    requires Good(n) && n.y.sink.Some?
    ensures Good(FlushOut(n)) && FlushOut(n).y.w.setup == n.y.w.setup
  {
    var r := FlushOut(n);
    FlushGrew(n);
    FlushBooks(n);
    FlushTalks(n);
    hide FlushOut, Inv, Owns, Talks, Asks, Hears, Books, Linked, Grows, SameStream;
    OutboxKeeps(n.y, r.y);
    GrewAll(n.y, r.y);
    StreamLinked(n.y, r.y, n.held);
  }

  lemma OutboxKeeps(y: Sys, z: Sys)
    requires Inv(y) && Owns(y) && y.sink.Some? && z.sink.Some? && z.b == y.b
    requires z.sink.value == y.sink.value.(outbox := z.sink.value.outbox)
    requires Books(z.w.trace) == Books(y.w.trace)
    ensures Inv(z) && Owns(z) && Tame(y, z)
  {
    hide Books, Accounts, BackendOk;
  }

  lemma {:induction false} FlushBooks(n: Node)
    requires n.y.sink.Some?
    ensures Books(FlushOut(n).y.w.trace) == Books(n.y.w.trace)
    decreases |n.y.w.script.clientRoom|
  {
    BooksLog();
    hide Books;
    var s, rooms := n.y.sink.value, n.y.w.script.clientRoom;
    if s.outbox != [] && rooms != [] {
      var y1 := n.y.(w := n.y.w.(script := n.y.w.script.(clientRoom := rooms[1..])));
      match rooms[0]
      case Accepted(k) =>
        if k > 0 {
          var m := Min(k, |s.outbox|);
          FlushBooks(n.(y := Note(y1.(sink := Some(s.(outbox := s.outbox[m..]))), XrSent(s.outbox[..m]))));
        }
      case SendInterrupted => FlushBooks(n.(y := y1));
      case _ =>
    }
  }

  lemma TickTame(y: Sys, now: nat)
    requires y.sink.Some?
    ensures Tame(y, Tick(y, now))
  {
    hide Encode;
  }

  lemma TickGood(n: Node, now: nat)
    requires Good(n) && n.y.sink.Some?
    ensures Good(TickNode(n, now)) && TickNode(n, now).y.w.setup == n.y.w.setup
  {
    var z := Tick(n.y, now);
    hide Inv, Owns, Talks, Asks, Hears, Linked, SameStream, Tick, Settle;
    TickKeeps(n.y, now);
    TickOwns(n.y, now);
    TickTalks(n.y, now);
    TickGrew(n.y, now);
    TickTame(n.y, now);
    hide Tame;
    GrewAll(n.y, z);
    StreamLinked(n.y, z, n.held);
    SettleGood(n.(y := z));
  }

  lemma OpenGood(n: Node, now: nat)
    requires Good(n) && n.y.sink.None?
    ensures var r := OpenConnection(n, now);
            Good(r) && r.y.w.setup == n.y.w.setup
  {
    var r := OpenConnection(n, now);
    hide Owns, Talks, Asks, Hears, Ahead, PopFrame, Listen, BackendOk;
    OpenOwns(n, now);
    OpenTalks(n, now);
    OpenRest(n, now);
  }

  lemma OpenRest(n: Node, now: nat)
    requires Inv(n.y) && Asks(n.y) && Hears(n.y) && n.y.sink.None?
    ensures var r := OpenConnection(n, now);
            Inv(r.y) && Asks(r.y) && Hears(r.y) && EarOf(r.y) == EarOf(n.y)
  {
    var y := Note(n.y, ConnOpen(now));
    OpenKeeps(n, now);
    NoteHears(n.y, ConnOpen(now));
    HeardAsks(n.y, ConnOpen(now));
    hide Listen, Ask;
  }

  lemma TeardownGood(n: Node, now: nat)
    requires Good(n) && n.y.sink.Some?
    ensures var r := Teardown(n, now);
            Good(r) && r.y.sink.None? && r.y.w.setup == n.y.w.setup
  {
    var y1 := AbandonTx(n.y, now).(sink := None);
    var y2 := Stop(y1);
    var r := n.(y := Note(y2, ConnDrop), xrHeld := [], broken := false);
    AbandonGrew(n.y, now);
    StopGrew(y1);
    TeardownTame(n.y, now);
    TeardownKeeps(n, now);
    TeardownOwns(n, now);
    TeardownTalks(n, now);
    hide Inv, Owns, Talks, Asks, Hears, Linked, SameStream, AbandonTx, Stop, Tame, Listen;
    GrewThen(n.y, y1, y2);
    hide Grew;
    GrewAll(n.y, y2);
    StreamLinked(n.y, y2, n.held);
    HeardAsks(y2, ConnDrop);
    NoteHears(y2, ConnDrop);
    DropLinked(y2, n.held);
    SettleGood(r);
  }

  lemma DropLinked(y: Sys, held: seq<byte>)
    requires Linked(y, held) && Hears(y)
    ensures Linked(Note(y, ConnDrop), held)
  {
    hide Hears, Ahead, PopFrame, Listen;
    NoteHears(y, ConnDrop);
  }

  lemma TeardownTame(y: Sys, now: nat)
    ensures Tame(y, Stop(AbandonTx(y, now).(sink := None)))
    ensures Stop(AbandonTx(y, now).(sink := None)).w.setup == y.w.setup
  {
  }

  lemma {:induction false} AcceptGood(n: Node, arrivals: seq<bool>, now: nat)
    requires Good(n)
    ensures var r := AcceptAll(n, arrivals, now);
            && Good(r) && r.y.w.setup == n.y.w.setup
            && (n.y.sink.Some? ==> r.y.sink.Some?)
    decreases |arrivals|
  {
    hide Good, OpenConnection;
    if arrivals != [] {
      var n1 := if n.y.sink.None? && arrivals[0] then OpenConnection(n, now) else n;
      if n.y.sink.None? && arrivals[0] { OpenGood(n, now); }
      AcceptGood(n1, arrivals[1..], now);
    }
  }

  lemma PollGood(n: Node, now: nat)
    requires Good(n)
    ensures Good(PollNode(n, now)) && PollNode(n, now).y.w.setup == n.y.w.setup
  {
    hide All, Linked, Poll;
    PollAll(n.y, n.held, now);
    var (y, held) := Poll(n.y, n.held, now);
    SettleGood(n.(y := y, held := held));
  }

  lemma ServiceGood(n: Node, t: Turn)
    requires Good(n)
    ensures Good(Service(n, t)) && Service(n, t).y.w.setup == n.y.w.setup
  {
    hide Good, ReadClient, FlushOut;
    if n.y.sink.Some? {
      ReadClientGood(n, t.tRead);
      FlushGood(ReadClient(n, t.tRead));
      FlushGood(if t.readable then ServiceRead(n, t.tRead) else n);
    }
  }

  lemma FinishGood(n: Node, t: Turn)
    requires Good(n) && n.y.sink.Some?
    ensures Good(Finish(n, t)) && Finish(n, t).y.w.setup == n.y.w.setup
  {
    hide Good, TickNode, FlushOut, Teardown;
    TickGood(n, t.tTick);
    FlushGood(TickNode(n, t.tTick));
    TeardownGood(FlushOut(TickNode(n, t.tTick)), t.tDrop);
  }

  lemma TurnGood(n: Node, t: Turn)
    requires Good(n)
    ensures Good(PollOnce(n, t)) && PollOnce(n, t).y.w.setup == n.y.w.setup
  {
    hide Good, AcceptAll, Service, PollNode, Finish;
    ScriptGood(n, t.script);
    var n0 := n.(y := n.y.(w := n.y.w.(script := t.script)));
    if t.pollOk {
      AcceptGood(n0, t.arrivals, t.tRead);
      var n1 := AcceptAll(n0, t.arrivals, t.tRead);
      ServiceGood(n1, t);
      var n2 := if n0.y.sink.Some? then Service(n1, t) else n1;
      PollGood(n2, t.tPoll);
      var n3 := PollNode(n2, t.tPoll);
      if n3.y.sink.Some? { FinishGood(n3, t); }
    }
  }

  // Every reachable state of the server is good, whatever the daemon, the
  // firmware, the clock and the sockets do.
  lemma {:induction false} RunGood(setup: Setup, turns: seq<Turn>)
    ensures Good(Run(setup, turns)) && Run(setup, turns).y.w.setup == setup
    decreases |turns|
  {
    if turns == [] {
      BootGood(setup);
    } else {
      var k := |turns| - 1;
      RunGood(setup, turns[..k]);
      TurnGood(Run(setup, turns[..k]), turns[k]);
    }
  }

  lemma BootGood(setup: Setup)
    ensures Good(Boot(setup))
  {
  }
}
