// Reception: every frame of the daemon's byte stream is dispatched once and in
// order, every decoded packet is logged, and an operational session is sent
// exactly the acceptable ones.
module Reception {
  import opened Bytes
  import opened Frames
  import opened Messages
  import opened Radio
  import opened World
  import opened Monitors
  import opened Model
  import opened Joint
  import opened Growth
  import opened Ownership

  function EarOf(y: Sys): Ear {
    Listen(y.w.setup, y.w.trace)
  }

  // The dialogue observer and the session agree on who is operational.
  predicate InStep(y: Sys) {
    Dialogue(y.w.setup, y.w.trace).stage.Running? <==> IsOperational(y)
  }

  predicate Hears(y: Sys) {
    var m := EarOf(y);
    && !m.bad && m.decoded == m.logged
    && (IsOperational(y) ==> m.out == m.due)
    && (Applying(y.b) ==> m.raw == [] && m.heard == [])
  }

  // `stream` is what the link has delivered and dispatch has not yet seen.
  predicate Ahead(m: Ear, stream: seq<byte>) {
    var p := Parse(FromDaemon, stream);
    Parse(FromDaemon, m.raw) == Parsed(m.heard + p.frames, p.rest, p.bad)
  }

  lemma KeepHears(y: Sys, z: Sys)
    requires Hears(y) && Grew(y, z)
    requires (IsOperational(z) ==> IsOperational(y)) && (Applying(z.b) ==> Applying(y.b))
    ensures Hears(z) && EarOf(z) == EarOf(y)
  {
    hide Listen;
    GrowsListen(Minor, y, z);
  }

  // --- daemon frames ---------------------------------------------------------

  lemma AheadFrame(m: Ear, stream: seq<byte>, running: bool)
    requires Ahead(m, stream) && PopFrame(FromDaemon, stream).Got? && !m.bad
    ensures var g := PopFrame(FromDaemon, stream);
            var m1 := HearFrame(m, running, g.frame);
            !m1.bad && Ahead(m1, g.rest)
  {
    var g := PopFrame(FromDaemon, stream);
    var p := Parse(FromDaemon, g.rest);
    hide PopFrame;
    assert Parse(FromDaemon, stream).frames == [g.frame] + p.frames;
    assert m.heard + ([g.frame] + p.frames) == (m.heard + [g.frame]) + p.frames;
    assert m.heard + [g.frame] <= Parse(FromDaemon, m.raw).frames;
  }

  // A packet that has just become due is queued, or the session overflows and closes.
  lemma QueueRx(y: Sys, rx: Rx)
    requires IsOperational(y) && !EarOf(y).bad && EarOf(y).due == EarOf(y).out + [XrRxFrame(rx)]
    ensures var (z, ok) := Emit(y, XrRxFrame(rx));
            && (ok ==> EarOf(z) == EarOf(y).(out := EarOf(y).due))
            && (!ok ==> EarOf(z) == EarOf(y) && !IsOperational(z))
  {
    ListenLog(y.w.setup);
    hide Listen, Dialogue, Encode, PutBe16;
  }

  // The packet is logged, and due if the session is operational and it is acceptable.
  lemma LoggedRx(y: Sys, f: Frame, rx: Rx)
    requires DecodeRx(f) == Some(rx) && InStep(y)
    ensures EarOf(Note(Note(y, Heard(f)), LogRx(rx))) ==
            var m := HearFrame(EarOf(y), IsOperational(y), f);
            m.(logged := m.logged + [rx])
  {
    ListenLog(y.w.setup);
    hide Listen, Dialogue, HearFrame;
  }

  lemma RxHears(y: Sys, f: Frame)
    requires Inv(y) && Hears(y) && InStep(y) && Live(y.b) && f.ty == RX_PACKET
    requires !HearFrame(EarOf(y), IsOperational(y), f).bad
    ensures Hears(Dispatch(y, f))
    ensures EarOf(Dispatch(y, f)).raw == EarOf(y).raw && EarOf(Dispatch(y, f)).heard == EarOf(y).heard + [f]
  {
    hide Listen, Dialogue, DecodeRx, Emit, XrRxFrame, IsTxFrame, Parse;
    if DecodeRx(f).Some? {
      var rx := DecodeRx(f).value;
      LoggedRx(y, f, rx);
      var y1 := Note(Note(y, Heard(f)), LogRx(rx));
      if IsOperational(y) && RxAcceptable(|rx.data|) {
        QueueRx(y1, rx);
      }
    } else {
      ListenLog(y.w.setup);
    }
  }

  lemma OtherHears(y: Sys, f: Frame)
    requires Inv(y) && Hears(y) && Live(y.b) && f.ty != RX_PACKET && !HearFrame(EarOf(y), TalkRunning(y), f).bad
    ensures Hears(Dispatch(y, f))
    ensures EarOf(Dispatch(y, f)).raw == EarOf(y).raw && EarOf(Dispatch(y, f)).heard == EarOf(y).heard + [f]
  {
    ListenLog(y.w.setup);
    var y1 := Note(y, Heard(f));
    hide Listen, Dialogue, Parse, BackendOk;
    assert Hears(y1) && EarOf(y1).heard == EarOf(y).heard + [f];
    OtherGrew(y, f);
    OtherQuiet(y, f);
    KeepHears(y1, Dispatch(y, f));
  }

  predicate TalkRunning(y: Sys) {
    Dialogue(y.w.setup, y.w.trace).stage.Running?
  }

  lemma OtherGrew(y: Sys, f: Frame)
    requires f.ty != RX_PACKET
    ensures Grew(Note(y, Heard(f)), Dispatch(y, f))
  {
    var y1 := Note(y, Heard(f));
    LogOutcomeGrew(y1, true);
    var y2 := LogTxOutcome(y1, true);
    AnswerGrew(y1, RadioError);
    if DecodeTxResult(f).Some? {
      var o := MapTxStatus(DecodeTxResult(f).value.status);
      AnswerGrew(y1, o);
      AnswerGrew(y2, o);
      GrewThen(y1, y2, DispatchAnswer(y2, o));
    }
    hide LogTxOutcome, DispatchAnswer, DecodeTxResult, MapTxStatus, Grows;
  }

  lemma OtherQuiet(y: Sys, f: Frame)
    requires f.ty != RX_PACKET
    ensures IsOperational(Dispatch(y, f)) ==> IsOperational(y)
    ensures Applying(Dispatch(y, f).b) ==> Applying(y.b) && Dispatch(y, f).b == y.b
    ensures Live(Dispatch(y, f).b) ==> Live(y.b)
  {
    hide Encode, DecodeTxResult, MapTxStatus, TxResultFrame;
  }

  // A frame of the stream reaches dispatch: it is the next one, and nothing is lost.
  lemma DispatchHears(y: Sys, stream: seq<byte>)
    requires Inv(y) && Hears(y) && InStep(y) && Live(y.b)
    requires Ahead(EarOf(y), stream) && PopFrame(FromDaemon, stream).Got?
    ensures var g := PopFrame(FromDaemon, stream);
            Hears(Dispatch(y, g.frame)) && Ahead(EarOf(Dispatch(y, g.frame)), g.rest)
  {
    var g := PopFrame(FromDaemon, stream);
    AheadFrame(EarOf(y), stream, IsOperational(y));
    AheadFrame(EarOf(y), stream, TalkRunning(y));
    hide Hears, Dispatch, PopFrame, Parse, Listen, Inv;
    if g.frame.ty == RX_PACKET {
      RxHears(y, g.frame);
    } else {
      OtherHears(y, g.frame);
    }
  }

  // More bytes arrive behind an incomplete frame.
  lemma AheadChunk(m: Ear, held: seq<byte>, chunk: seq<byte>)
    requires Ahead(m, held) && PopFrame(FromDaemon, held).NeedMore?
    ensures Ahead(m.(raw := m.raw + chunk), held + chunk)
  {
    assert Parse(FromDaemon, held) == Parsed([], held, false);
    hide PopFrame;
    ParseAppend(FromDaemon, m.raw, chunk);
    hide Parse;
    assert m.heard + [] == m.heard;
  }

  lemma ChunkHears(y: Sys, held: seq<byte>, chunk: seq<byte>)
    requires Hears(y) && Ahead(EarOf(y), held) && PopFrame(FromDaemon, held).NeedMore? && Live(y.b)
    ensures Hears(Note(y, DataRx(chunk))) && Ahead(EarOf(Note(y, DataRx(chunk))), held + chunk)
  {
    ListenLog(y.w.setup);
    AheadChunk(EarOf(y), held, chunk);
    hide Listen, Dialogue, Ahead;
  }

  // --- configuration ---------------------------------------------------------

  // Events that are nothing to the ear.
  lemma NoteHears(y: Sys, e: Event)
    requires Hears(y) && (e.XrIn? || e.CfgDone? || e.ConnOpen? || e.ConnDrop?)
    ensures Hears(Note(y, e)) && EarOf(Note(y, e)) == EarOf(y)
  {
    ListenLog(y.w.setup);
    hide Listen, Dialogue;
  }

  lemma ConfHears(y: Sys, z: Sys)
    requires Hears(y) && Grows(Conf, y, z) && z.sink == y.sink && (Applying(z.b) ==> Applying(y.b))
    ensures Hears(z) && EarOf(z) == EarOf(y)
  {
    hide Listen;
    GrowsListen(Conf, y, z);
  }

  // A new link starts a new stream.
  lemma BeginHears(y: Sys, c: RadioConfig, now: nat)
    requires Hears(y) && !Applying(y.b)
    ensures var z := BeginConfigure(y, c, now).0;
            Hears(z) && (z.b == y.b ==> EarOf(z) == EarOf(y))
  {
    ListenLog(y.w.setup);
    hide Listen, Dialogue, Commands, SetCommand;
  }

  lemma EchoHears(y: Sys, c: RadioConfig, now: nat)
    requires Hears(y) && y.sink.Some? && !IsOperational(y)
    ensures var (z, ok) := Emit(y, ConfigOkFrame(c));
            var r := if ok then EnterOperational(z, now) else z;
            Hears(r) && EarOf(r).raw == EarOf(y).raw && EarOf(r).heard == EarOf(y).heard
  {
    ListenLog(y.w.setup);
    hide Listen, Dialogue, Encode, PackConfig;
  }

  lemma CompleteHears(y: Sys, token: nat, effective: Option<RadioConfig>, now: nat)
    requires Hears(y) && y.sink.Some? && !IsOperational(y)
    ensures var z := OnConfigureComplete(y, token, effective, now);
            Hears(z) && EarOf(z).raw == EarOf(y).raw && EarOf(z).heard == EarOf(y).heard
  {
    var e := CfgDone(token, effective.Some?);
    NoteHears(y, e);
    var y1 := Note(y, e);
    var s := y.sink.value;
    hide Listen, Emit, Hears, ConfigOkFrame, EnterOperational, Grows;
    if s.phase.Settling? && token == s.opToken {
      if effective != Some(s.requested) {
        RejectGrew(y1, Byte1(CONFIG_RESULT, CFG_UNSUPPORTED), ConfigFailed);
        KeepHears(y1, Reject(y1, Byte1(CONFIG_RESULT, CFG_UNSUPPORTED), ConfigFailed));
      } else {
        EchoHears(y1, effective.value, now);
      }
    }
  }
}
