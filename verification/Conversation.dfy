// The XR dialogue: the session's phase is always where an observer of its frames
// puts it, and the bytes sent and queued are always exactly its frames.
module Conversation {
  import opened Bytes
  import opened Frames
  import opened Messages
  import opened Radio
  import opened World
  import opened Monitors
  import opened Model
  import opened Joint
  import opened Growth

  function TalkOf(y: Sys): Talk {
    Dialogue(y.w.setup, y.w.trace)
  }

  function StageOf(s: Session): Stage {
    match s.phase
    case WaitHello => Fresh
    case WaitAuth => Challenged(s.nonce)
    case WaitConfigure => Authed
    case Settling => Authed
    case Operational => Running(s.awaitingPong)
    case Closed => Shut(s.closeReason)
  }

  // Sent then queued bytes are the queued frames, encoded; every one is legal.
  predicate Queued(sent: seq<byte>, outbox: seq<byte>, frames: seq<Frame>, max: nat) {
    && sent + outbox == EncodeAll(Xr, frames)
    && AllLegal(Xr, frames)
    && |outbox| <= max
  }

  ghost predicate Talks(y: Sys) {
    var t := TalkOf(y);
    && !t.bad
    && if y.sink.None? then t.stage.NoPeer?
       else
         && t.stage == StageOf(y.sink.value)
         && Queued(t.sent, y.sink.value.outbox, t.frames, y.w.setup.maxOutbox)
         && (y.sink.value.phase.WaitAuth? ==> y.w.setup.mac.Some?)
         && y.sink.value.txSeq < 65536 && !y.sink.value.deadlineReason.InternalError?
  }

  // In mid-step: a session whose dialogue stands at `stage`.
  ghost predicate At(y: Sys, stage: Stage) {
    && y.sink.Some? && !IsClosed(y)
    && !TalkOf(y).bad && TalkOf(y).stage == stage
    && Queued(TalkOf(y).sent, y.sink.value.outbox, TalkOf(y).frames, y.w.setup.maxOutbox)
    && y.sink.value.txSeq < 65536 && !y.sink.value.deadlineReason.InternalError?
  }

  predicate Peer(stage: Stage) {
    !stage.NoPeer? && !stage.Shut?
  }

  lemma CloseTalks(y: Sys, stage: Stage, r: CloseReason)
    requires At(y, stage) && Peer(stage) && !r.InternalError?
    ensures Talks(CloseSession(y, r))
  {
    DialogueLog(y.w.setup);
    hide Dialogue, EncodeAll, AllLegal, Say, Reply;
  }

  lemma QueueMore(sent: seq<byte>, outbox: seq<byte>, frames: seq<Frame>, max: nat, f: Frame)
    requires Queued(sent, outbox, frames, max) && Legal(Xr, f) && |outbox| + |Encode(Xr, f)| <= max
    ensures Queued(sent, outbox + Encode(Xr, f), frames + [f], max)
  {
    hide Encode, Legal;
    EncodeAllAppend(Xr, frames, [f]);
    assert EncodeAll(Xr, [f]) == Encode(Xr, f) + [] == Encode(Xr, f);
    assert sent + (outbox + Encode(Xr, f)) == (sent + outbox) + Encode(Xr, f);
  }

  lemma EmitTalks(y: Sys, stage: Stage, f: Frame)
    requires At(y, stage) && Peer(stage) && Legal(Xr, f) && Say(y.w.setup, stage, f).Some?
    ensures var (z, ok) := Emit(y, f);
            && (ok ==> At(z, Say(y.w.setup, stage, f).value) &&
                       z.sink == Some(y.sink.value.(outbox := z.sink.value.outbox)))
            && (!ok ==> Talks(z) && IsClosed(z))
  {
    hide Dialogue, Queued, Say, Encode, CloseSession, Talks;
    if |y.sink.value.outbox| + |Encode(Xr, f)| <= y.w.setup.maxOutbox {
      DialogueLog(y.w.setup);
      QueueMore(TalkOf(y).sent, y.sink.value.outbox, TalkOf(y).frames, y.w.setup.maxOutbox, f);
    } else {
      CloseTalks(y, stage, OutputOverflow);
    }
  }

  // --- handshake -------------------------------------------------------------

  lemma AnyCloseTalks(y: Sys, r: CloseReason)
    requires Talks(y) && y.sink.Some? && !r.InternalError?
    ensures Talks(CloseSession(y, r))
  {
    if !IsClosed(y) {
      CloseTalks(y, StageOf(y.sink.value), r);
    }
  }

  lemma RejectTalks(y: Sys, stage: Stage, f: Frame, r: CloseReason)
    requires At(y, stage) && Peer(stage) && Legal(Xr, f) && !r.InternalError?
    requires Say(y.w.setup, stage, f).Some? && Peer(Say(y.w.setup, stage, f).value)
    ensures Talks(Reject(y, f, r))
  {
    EmitTalks(y, stage, f);
    var (z, ok) := Emit(y, f);
    if ok {
      CloseTalks(z, Say(y.w.setup, stage, f).value, r);
    }
    hide Talks, At, Emit, Say;
  }

  lemma WelcomeTalks(y: Sys, stage: Stage, now: nat)
    requires At(y, stage) && Peer(stage) && Say(y.w.setup, stage, Byte1(AUTH_RESULT, AUTH_OK)) == Some(Authed)
    ensures Talks(Welcome(y, now))
  {
    EmitTalks(y, stage, Byte1(AUTH_RESULT, AUTH_OK));
    hide Emit, Dialogue, Queued, Say;
  }

  lemma ChallengeTalks(y: Sys, now: nat)
    requires At(y, Greeted) && y.w.setup.mac.Some?
    ensures Talks(Challenge(y, now))
  {
    var nonces := y.w.script.nonces;
    var y1 := y.(w := y.w.(script := y.w.script.(nonces := Tail(nonces))));
    hide Emit, CloseSession, Dialogue, Queued;
    if nonces == [] || nonces[0].None? {
      CloseTalks(y1, Greeted, AuthError);
    } else {
      var nonce := nonces[0].value;
      EmitTalks(y1.(sink := Some(y1.sink.value.(nonce := nonce))), Greeted, Frame(AUTH_CHALLENGE, 0, nonce));
    }
  }

  lemma HelloTalks(y: Sys, now: nat)
    requires At(y, Fresh)
    ensures Talks(HandleHello(y, now))
  {
    var ack := Byte1(HELLO_ACK, VERSION);
    EmitTalks(y, Fresh, ack);
    var (y1, ok) := Emit(y, ack);
    hide Emit, Welcome, Challenge, Talks, At;
    if ok {
      if y.w.setup.mac.None? {
        WelcomeTalks(y1, Greeted, now);
      } else {
        ChallengeTalks(y1, now);
      }
    }
  }

  // What a client frame does to the dialogue before it is handled.
  lemma HeardTalks(y: Sys, f: Frame)
    requires Talks(y) && y.sink.Some? && !IsClosed(y)
    ensures At(Note(y, XrIn(f)), Reply(y.w.setup, StageOf(y.sink.value), f))
  {
    DialogueLog(y.w.setup);
    hide Dialogue, Queued, Reply;
  }

  lemma AuthTalks(y: Sys, f: Frame, now: nat)
    requires y.sink.Some? && y.sink.value.phase.WaitAuth? && y.w.setup.mac.Some?
    requires WellFormed(f) && f.ty == AUTH_RESPONSE
    requires At(y, Reply(y.w.setup, Challenged(y.sink.value.nonce), f))
    ensures Talks(HandleAuth(y, f, now))
  {
    hide Dialogue, Queued, Welcome, Reject;
    if Verified(y.w.setup, y.sink.value.nonce, f.payload) {
      WelcomeTalks(y, Proved, now);
    } else {
      RejectTalks(y, Challenged(y.sink.value.nonce), Byte1(AUTH_RESULT, AUTH_FAIL), AuthFailed);
    }
  }

  // A configure is begun at an authenticated stage, and says nothing itself.
  lemma BeginTalks(y: Sys, c: RadioConfig, now: nat)
    requires At(y, Authed)
    ensures var z := BeginConfigure(y, c, now).0;
            At(z, Authed) && z.sink == y.sink
  {
    DialogueLog(y.w.setup);
    hide Dialogue, Queued, Commands, SetCommand;
  }

  lemma ConfigureTalks(y: Sys, f: Frame, now: nat)
    requires At(y, Authed)
    ensures Talks(HandleConfigure(y, f, now))
  {
    var c := DecodeConfig(f);
    hide Dialogue, Queued, Emit, Reject, BeginConfigure, DecodeConfig;
    if c.None? {
      RejectTalks(y, Authed, Byte1(CONFIG_RESULT, CFG_INVALID), ConfigFailed);
    } else {
      BeginTalks(y, c.value, now);
      var (y1, token) := BeginConfigure(y, c.value, now);
      if token == 0 {
        RejectTalks(y1, Authed, Byte1(CONFIG_RESULT, CFG_UNSUPPORTED), ConfigFailed);
      }
    }
  }

  // --- operation -------------------------------------------------------------

  lemma PongTalks(y: Sys, now: nat)
    requires y.sink.Some? && y.sink.value.phase.Operational? && At(y, Running(false))
    ensures Talks(HandlePong(y, now))
  {
    CloseTalks(y, Running(false), BadState);
    hide Dialogue, Queued, CloseSession;
  }

  lemma SubmitTalks(y: Sys, rf: seq<byte>)
    ensures TalkOf(SubmitTx(y, rf).0) == TalkOf(y) && SubmitTx(y, rf).0.w.setup == y.w.setup
  {
    var y1 := y.(b := StartTx(y.b, rf));
    PumpTxGrows(y1);
    var z := PumpTx(y1).0;
    GrowsDialogue(Data, y1, z);
    DialogueLog(y.w.setup);
    hide Dialogue, PumpTx, StartTx;
  }

  lemma TxRequestTalks(y: Sys, f: Frame, now: nat)
    requires y.sink.Some? && y.sink.value.phase.Operational? && f.sn < 65536
    requires At(y, Running(y.sink.value.awaitingPong))
    ensures Talks(HandleTxRequest(y, f, now))
  {
    var s := y.sink.value;
    if s.txInFlight {
      CloseTalks(y, Running(s.awaitingPong), BadState);
    } else {
      var y1 := y.(sink := Some(s.(txSeq := f.sn)));
      SubmitTalks(y1, f.payload);
      var (y2, ok) := SubmitTx(y1, f.payload);
      hide Dialogue, Queued, SubmitTx, CloseSession;
      if !ok {
        CloseTalks(y2, Running(s.awaitingPong), BackendFailure);
      }
    }
  }

  // The handler of each phase keeps the dialogue.
  lemma PhaseTalks(y: Sys, stage: Stage, f: Frame, now: nat)
    requires y.sink.Some? && At(y, Reply(y.w.setup, stage, f)) && stage == StageOf(y.sink.value)
    requires WellFormed(f) && f.sn < 65536 && (y.sink.value.phase.WaitAuth? ==> y.w.setup.mac.Some?)
    ensures var p := y.sink.value.phase;
            && (p.WaitHello? ==> Talks(HandleHello(y, now)))
            && (p.WaitAuth? && f.ty == AUTH_RESPONSE ==> Talks(HandleAuth(y, f, now)))
            && (p.WaitConfigure? ==> Talks(HandleConfigure(y, f, now)))
            && (p.Operational? && f.ty == PONG ==> Talks(HandlePong(y, now)))
            && (p.Operational? && f.ty == TX_REQUEST ==> Talks(HandleTxRequest(y, f, now)))
  {
    hide At, Talks, WellFormed, HandleHello, HandleAuth, HandleConfigure, HandlePong, HandleTxRequest;
    match y.sink.value.phase
    case WaitHello => HelloTalks(y, now);
    case WaitAuth => if f.ty == AUTH_RESPONSE { AuthTalks(y, f, now); }
    case WaitConfigure => ConfigureTalks(y, f, now);
    case Operational =>
      if f.ty == PONG { PongTalks(y, now); }
      if f.ty == TX_REQUEST { TxRequestTalks(y, f, now); }
    case _ =>
  }

  lemma ReplyPeer(setup: Setup, s: Session, f: Frame)
    requires !s.phase.Closed?
    ensures Peer(Reply(setup, StageOf(s), f))
  {
    hide WellFormed;
  }

  lemma AuthMeansMac(y: Sys)
    requires Talks(y) && y.sink.Some? && y.sink.value.phase.WaitAuth?
    ensures y.w.setup.mac.Some?
  {
    hide Dialogue, Queued;
  }

  lemma FrameTalks(y: Sys, f: Frame, now: nat)
    requires Talks(y) && y.sink.Some? && !IsClosed(y) && Legal(Xr, f)
    ensures Talks(HandleFrame(y, f, now))
  {
    hide At, Talks, CloseSession, WellFormed, Reply, StageOf, Peer;
    hide HandleHello, HandleAuth, HandleConfigure, HandlePong, HandleTxRequest;
    var y1 := Note(y, XrIn(f));
    var s := y.sink.value;
    var stage := Reply(y.w.setup, StageOf(s), f);
    HeardTalks(y, f);
    ReplyPeer(y.w.setup, s, f);
    CloseTalks(y1, stage, MalformedFrame);
    CloseTalks(y1, stage, BadState);
    CloseTalks(y1, stage, RemoteError);
    if s.phase.WaitAuth? { AuthMeansMac(y); }
    if WellFormed(f) {
      PhaseTalks(y1, StageOf(s), f, now);
    }
  }

  // --- time ------------------------------------------------------------------

  lemma AbandonTalks(y: Sys, now: nat)
    ensures TalkOf(AbandonTx(y, now)) == TalkOf(y) && AbandonTx(y, now).sink == y.sink
    ensures AbandonTx(y, now).w.setup == y.w.setup
  {
    DialogueLog(y.w.setup);
    hide Dialogue;
  }

  lemma PingTalks(y: Sys, now: nat)
    requires y.sink.Some? && y.sink.value.phase.Operational? && At(y, Running(false))
    ensures Talks(SendPing(y, now))
  {
    EmitTalks(y, Running(false), Frame(PING, 0, []));
    hide Dialogue, Queued, Emit;
  }

  lemma OpenAt(y: Sys)
    requires Talks(y) && y.sink.Some? && !IsClosed(y)
    ensures At(y, StageOf(y.sink.value)) && Peer(StageOf(y.sink.value))
  {
    hide Dialogue, Queued;
  }

  lemma ExpireTalks(y: Sys, stage: Stage, now: nat)
    requires At(y, stage) && Peer(stage)
    ensures Talks(CloseSession(AbandonTx(y, now), TxTimeoutUncertain))
  {
    var z := AbandonTx(y, now);
    AbandonTalks(y, now);
    hide Dialogue, Queued, CloseSession, AbandonTx;
    CloseTalks(z, stage, TxTimeoutUncertain);
  }

  lemma UnpingedStage(s: Session)
    requires s.phase.Operational? && !s.awaitingPong
    ensures StageOf(s) == Running(false)
  {
  }

  lemma TickTalks(y: Sys, now: nat)
    requires Talks(y) && y.sink.Some?
    ensures Talks(Tick(y, now))
  {
    hide At, Talks, CloseSession, SendPing, AbandonTx, StageOf, Peer;
    var s := y.sink.value;
    var stage := StageOf(s);
    if !s.phase.Closed? {
      OpenAt(y);
      ExpireTalks(y, stage, now);
      ReasonTalks(y);
      CloseTalks(y, stage, s.deadlineReason);
      CloseTalks(y, stage, PongTimeout);
      if s.phase.Operational? && !s.awaitingPong {
        UnpingedStage(s);
        PingTalks(y, now);
      }
    }
  }

  lemma ReasonTalks(y: Sys)
    requires Talks(y) && y.sink.Some?
    ensures !y.sink.value.deadlineReason.InternalError?
  {
    hide Dialogue, Queued;
  }

  // --- events from the backend -----------------------------------------------

  // Backend steps that say nothing, and leave the session as it is.
  ghost predicate Wordless(y: Sys, z: Sys) {
    z.sink == y.sink && z.w.setup == y.w.setup && TalkOf(z) == TalkOf(y)
  }

  lemma WordlessTalks(y: Sys, z: Sys)
    requires Talks(y) && Wordless(y, z)
    ensures Talks(z)
  {
    hide Dialogue, Queued;
  }

  lemma TellTalks(y: Sys, z: Sys)
    requires Talks(y) && Wordless(y, z)
    ensures Talks(TellFailure(z))
  {
    WordlessTalks(y, z);
    if z.sink.Some? {
      AnyCloseTalks(z, BackendFailure);
    }
  }

  lemma LinkWordless(y: Sys)
    ensures Wordless(y, ResetLink(y)) && Wordless(y, EnterFault(y))
    ensures forall ok :: Wordless(y, LogTxOutcome(y, ok))
  {
    DialogueLog(y.w.setup);
    hide Dialogue;
  }

  lemma DisconnectTalks(y: Sys)
    requires Talks(y)
    ensures Talks(HandleDisconnect(y))
  {
    LinkWordless(y);
    hide Talks, Wordless, ResetLink, EnterFault, TellFailure;
    WordlessTalks(y, EnterFault(y));
    TellTalks(y, EnterFault(y));
    TellTalks(y, ResetLink(y));
  }

  lemma ResumeTalks(y: Sys)
    requires Talks(y)
    ensures Talks(ResumeTx(y))
  {
    PumpTxGrows(y);
    var z := PumpTx(y).0;
    GrowsDialogue(Data, y, z);
    hide Dialogue, PumpTx, ResetLink, TellFailure, Talks;
    assert Wordless(y, z);
    LinkWordless(z);
    WordlessTalks(y, z);
    TellTalks(z, ResetLink(z));
    WordlessTalks(y, z.(b := z.b.(state := TxPending)));
  }

  lemma RxTalks(y: Sys, rx: Rx)
    requires Talks(y) && y.sink.Some?
    ensures Talks(OnRx(y, rx))
  {
    if y.sink.value.phase.Operational? && RxAcceptable(|rx.data|) {
      assert Legal(Xr, XrRxFrame(rx));
      EmitTalks(y, Running(y.sink.value.awaitingPong), XrRxFrame(rx));
    }
    hide Dialogue, Queued, Emit, XrRxFrame;
  }

  lemma ResultTalks(y: Sys, o: TxOutcome)
    requires Talks(y) && y.sink.Some? && (y.sink.value.txInFlight ==> y.sink.value.phase.Operational?)
    ensures Talks(OnTxComplete(y, o))
  {
    var s := y.sink.value;
    if s.txInFlight {
      var y1 := y.(sink := Some(s.(txInFlight := false)));
      assert Legal(Xr, TxResultFrame(s.txSeq, o));
      EmitTalks(y1, Running(s.awaitingPong), TxResultFrame(s.txSeq, o));
    }
    hide Dialogue, Queued, Emit, TxResultFrame;
  }

  lemma NoteWordless(y: Sys, e: Event)
    requires e.Heard? || e.LogRx? || e.CfgDone? || e.DataRx?
    ensures Wordless(y, Note(y, e))
  {
    DialogueLog(y.w.setup);
    hide Dialogue;
  }

  lemma AnswerTalks(y: Sys, o: TxOutcome)
    requires Talks(y) && Inv(y)
    ensures Talks(DispatchAnswer(y, o))
  {
    if y.b.state.TxPending? && y.sink.Some? {
      var y1 := y.(b := y.b.(state := Ready, txOut := [], txOff := 0));
      WordlessTalks(y, y1);
      ResultTalks(y1, o);
    }
    LinkWordless(y);
    WordlessTalks(y, ResetLink(y));
    hide Talks, OnTxComplete, ResetLink, IsTxFrame;
  }

  lemma HeardRxTalks(y: Sys, f: Frame)
    requires Talks(y) && f.ty == RX_PACKET
    ensures Talks(Dispatch(y, f))
  {
    var y1 := Note(y, Heard(f));
    NoteWordless(y, Heard(f));
    WordlessTalks(y, y1);
    if DecodeRx(f).Some? {
      var rx := DecodeRx(f).value;
      var y2 := Note(y1, LogRx(rx));
      NoteWordless(y1, LogRx(rx));
      WordlessTalks(y1, y2);
      hide Talks, Wordless, OnRx, DecodeRx;
      if y.sink.Some? {
        RxTalks(y2, rx);
      }
    }
  }

  lemma HeardOtherTalks(y: Sys, f: Frame)
    requires Talks(y) && Inv(y) && f.ty != RX_PACKET
    ensures Talks(Dispatch(y, f))
  {
    hide Talks, BackendOk, SessionOk, Wordless, DispatchAnswer, DecodeTxResult, MapTxStatus;
    var y1 := Note(y, Heard(f));
    NoteWordless(y, Heard(f));
    WordlessTalks(y, y1);
    LinkWordless(y1);
    var y2 := LogTxOutcome(y1, true);
    WordlessTalks(y1, y2);
    assert Inv(y1) && Inv(y2);
    hide Inv, LogTxOutcome;
    AnswerTalks(y1, RadioError);
    if DecodeTxResult(f).Some? {
      var o := MapTxStatus(DecodeTxResult(f).value.status);
      AnswerTalks(y1, o);
      AnswerTalks(y2, o);
    }
  }

  lemma DispatchTalks(y: Sys, f: Frame)
    requires Talks(y) && Inv(y)
    ensures Talks(Dispatch(y, f))
  {
    hide Talks, Inv, Dispatch;
    if f.ty == RX_PACKET {
      HeardRxTalks(y, f);
    } else {
      HeardOtherTalks(y, f);
    }
  }

  // --- configuration results -------------------------------------------------

  lemma AcceptTalks(y: Sys, c: RadioConfig, now: nat)
    requires At(y, Authed)
    ensures var (z, ok) := Emit(y, ConfigOkFrame(c));
            Talks(if ok then EnterOperational(z, now) else z)
  {
    hide Dialogue, Queued, Emit, PackConfig;
    EmitTalks(y, Authed, ConfigOkFrame(c));
  }

  lemma CompleteTalks(y: Sys, token: nat, effective: Option<RadioConfig>, now: nat)
    requires Talks(y) && y.sink.Some?
    ensures Talks(OnConfigureComplete(y, token, effective, now))
  {
    var y1 := Note(y, CfgDone(token, effective.Some?));
    NoteWordless(y, CfgDone(token, effective.Some?));
    WordlessTalks(y, y1);
    var s := y.sink.value;
    assert s.phase.Settling? ==> At(y1, Authed);
    hide At, Talks, Emit, Reject, ConfigOkFrame, EnterOperational;
    if s.phase.Settling? && token == s.opToken {
      if effective != Some(s.requested) {
        RejectTalks(y1, Authed, Byte1(CONFIG_RESULT, CFG_UNSUPPORTED), ConfigFailed);
      } else {
        AcceptTalks(y1, effective.value, now);
      }
    }
  }

  lemma ConfigFailTalks(y: Sys, now: nat)
    requires Talks(y)
    ensures Talks(ConfigFail(y, now))
  {
    LinkWordless(y);
    var z := ResetLink(y);
    WordlessTalks(y, z);
    hide Talks, ResetLink, OnConfigureComplete;
    if z.sink.Some? {
      CompleteTalks(z, z.b.configToken, None, now);
    }
  }

  lemma ConfigSucceedTalks(y: Sys, now: nat)
    requires Talks(y)
    ensures Talks(ConfigSucceed(y, now))
  {
    var b := y.b.(state := Ready, txEpoch := NextU32(y.b.txEpoch), confOut := "", confOff := 0, awaiting := false);
    WordlessTalks(y, y.(b := b));
    hide Talks, OnConfigureComplete;
    if y.sink.Some? {
      CompleteTalks(y.(b := b), b.configToken, Some(b.pendingCfg), now);
    }
  }

  // --- connection ------------------------------------------------------------

  lemma {:induction false} FlushTalks(n: Node)
    requires n.y.sink.Some? && Talks(n.y)
    ensures Talks(FlushOut(n).y)
    decreases |n.y.w.script.clientRoom|
  {
    var s, rooms := n.y.sink.value, n.y.w.script.clientRoom;
    if s.outbox != [] && rooms != [] {
      var y1 := n.y.(w := n.y.w.(script := n.y.w.script.(clientRoom := rooms[1..])));
      WordlessTalks(n.y, y1);
      hide Talks;
      match rooms[0]
      case Accepted(k) =>
        if k > 0 {
          var m := Min(k, |s.outbox|);
          var y2 := Note(y1.(sink := Some(s.(outbox := s.outbox[m..]))), XrSent(s.outbox[..m]));
          SentTalks(y1, m);
          FlushTalks(n.(y := y2));
        }
      case SendInterrupted => FlushTalks(n.(y := y1));
      case _ =>
    }
  }

  lemma SentTalks(y: Sys, m: nat)
    requires y.sink.Some? && Talks(y) && m <= |y.sink.value.outbox|
    ensures var s := y.sink.value;
            Talks(Note(y.(sink := Some(s.(outbox := s.outbox[m..]))), XrSent(s.outbox[..m])))
  {
    DialogueLog(y.w.setup);
    hide Dialogue, EncodeAll, AllLegal;
    var s, t := y.sink.value, TalkOf(y);
    assert (t.sent + s.outbox[..m]) + s.outbox[m..] == t.sent + s.outbox;
  }

  lemma OpenTalks(n: Node, now: nat)
    requires Talks(n.y) && n.y.sink.None?
    ensures Talks(OpenConnection(n, now).y)
  {
    DialogueLog(n.y.w.setup);
    hide Dialogue;
  }

  lemma TeardownTalks(n: Node, now: nat)
    requires Talks(n.y) && n.y.sink.Some?
    ensures Talks(Teardown(n, now).y)
  {
    DialogueLog(n.y.w.setup);
    AbandonTalks(n.y, now);
    hide Dialogue, Queued, AbandonTx;
  }
}
