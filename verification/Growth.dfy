// Operations whose trace only grows by events that neither the reception nor the
// configuration observer reacts to.
module Growth {
  import opened Bytes
  import opened Frames
  import opened Messages
  import opened ConfText
  import opened World
  import opened Monitors
  import opened Model

  // Minor: everything but receptions, configuration steps and openings; Data and
  // Conf: bytes of one socket only.
  datatype Kind = Minor | Data | Conf

  predicate Is(k: Kind, e: Event) {
    match e
    case DataTx(_) => !k.Conf?
    case ConfTx(_) => k.Conf?
    case ConfRx(_) => k.Conf?
    case LinkDown => k.Minor?
    case LogTx(_, _) => k.Minor?
    case XrSent(_) => k.Minor?
    case XrClosed(_) => k.Minor?
    case XrOut(f) => k.Minor? && !IsConfigOk(f) && f.ty != XR_RX
    case _ => false
  }

  ghost predicate Grows(k: Kind, y: Sys, z: Sys) {
    var a, b := y.w.trace, z.w.trace;
    && z.w.setup == y.w.setup
    && |a| <= |b| && b[..|a|] == a
    && forall i :: |a| <= i < |b| ==> Is(k, b[i])
  }

  ghost predicate Grew(y: Sys, z: Sys) {
    Grows(Minor, y, z)
  }

  lemma GrowsThen(k: Kind, x: Sys, y: Sys, z: Sys)
    requires Grows(k, x, y) && Grows(k, y, z)
    ensures Grows(k, x, z)
  {
    var a, b, c := x.w.trace, y.w.trace, z.w.trace;
    assert c[..|a|] == c[..|b|][..|a|];
    assert forall i :: |a| <= i < |b| ==> c[i] == b[i];
  }

  lemma GrewThen(x: Sys, y: Sys, z: Sys)
    requires Grew(x, y) && Grew(y, z)
    ensures Grew(x, z)
  {
    GrowsThen(Minor, x, y, z);
  }

  lemma NoteGrows(k: Kind, y: Sys, e: Event)
    requires Is(k, e)
    ensures Grows(k, y, Note(y, e))
  {
  }

  // Socket bytes mean nothing to the dialogue, and CONF text nothing to the ledger.
  lemma {:induction false} GrowsDialogue(k: Kind, y: Sys, z: Sys)
    requires Grows(k, y, z) && !k.Minor?
    ensures Dialogue(y.w.setup, z.w.trace) == Dialogue(y.w.setup, y.w.trace)
    ensures k.Conf? ==> Books(z.w.trace) == Books(y.w.trace)
    decreases |z.w.trace|
  {
    hide Say, Reply, HandOver, Orphan;
    var a, b := y.w.trace, z.w.trace;
    if |b| > |a| {
      GrowsDialogue(k, y, z.(w := z.w.(trace := b[..|b| - 1])));
      assert Is(k, b[|b| - 1]);
    } else {
      assert b == a;
    }
  }

  lemma {:induction false} GrowsListen(k: Kind, y: Sys, z: Sys)
    requires Grows(k, y, z)
    ensures Listen(y.w.setup, z.w.trace) == Listen(y.w.setup, y.w.trace)
    decreases |z.w.trace|
  {
    hide Dialogue, HearFrame;
    var a, b := y.w.trace, z.w.trace;
    if |b| > |a| {
      GrowsListen(k, y, z.(w := z.w.(trace := b[..|b| - 1])));
      assert Is(k, b[|b| - 1]);
    } else {
      assert b == a;
    }
  }

  lemma {:induction false} GrewAsk(y: Sys, z: Sys)
    requires Grew(y, z)
    ensures Ask(z.w.trace) == Ask(y.w.trace)
    decreases |z.w.trace|
  {
    hide Done;
    var a, b := y.w.trace, z.w.trace;
    if |b| > |a| {
      GrewAsk(y, z.(w := z.w.(trace := b[..|b| - 1])));
      assert Is(Minor, b[|b| - 1]);
    } else {
      assert b == a;
    }
  }

  // --- session ---------------------------------------------------------------

  lemma CloseGrew(y: Sys, r: CloseReason)
    requires y.sink.Some?
    ensures Grew(y, CloseSession(y, r))
  {
  }

  lemma EmitGrew(y: Sys, f: Frame)
    requires y.sink.Some? && Is(Minor, XrOut(f))
    ensures Grew(y, Emit(y, f).0)
  {
    CloseGrew(y, InternalError);
    CloseGrew(y, OutputOverflow);
    hide Encode, CloseSession;
  }

  lemma RejectGrew(y: Sys, f: Frame, r: CloseReason)
    requires y.sink.Some? && Is(Minor, XrOut(f))
    ensures Grew(y, Reject(y, f, r))
  {
    hide Emit, CloseSession, Grew;
    EmitGrew(y, f);
    CloseGrew(Emit(y, f).0, r);
    GrewThen(y, Emit(y, f).0, Reject(y, f, r));
  }

  lemma WelcomeGrew(y: Sys, now: nat)
    requires y.sink.Some?
    ensures Grew(y, Welcome(y, now))
  {
    EmitGrew(y, Byte1(AUTH_RESULT, AUTH_OK));
    hide Emit;
  }

  lemma ChallengeGrew(y: Sys, now: nat)
    requires y.sink.Some?
    ensures Grew(y, Challenge(y, now))
  {
    var nonces := y.w.script.nonces;
    var y1 := y.(w := y.w.(script := y.w.script.(nonces := Tail(nonces))));
    CloseGrew(y1, AuthError);
    if nonces != [] && nonces[0].Some? {
      var nonce := nonces[0].value;
      EmitGrew(y1.(sink := Some(y1.sink.value.(nonce := nonce))), Frame(AUTH_CHALLENGE, 0, nonce));
    }
    hide Emit, CloseSession;
  }

  lemma HelloGrew(y: Sys, now: nat)
    requires y.sink.Some?
    ensures Grew(y, HandleHello(y, now))
  {
    EmitGrew(y, Byte1(HELLO_ACK, VERSION));
    var y1 := Emit(y, Byte1(HELLO_ACK, VERSION)).0;
    WelcomeGrew(y1, now);
    ChallengeGrew(y1, now);
    hide Emit, Welcome, Challenge, Grew;
    GrewThen(y, y1, Welcome(y1, now));
    GrewThen(y, y1, Challenge(y1, now));
  }

  lemma AuthGrew(y: Sys, f: Frame, now: nat)
    requires y.sink.Some?
    ensures Grew(y, HandleAuth(y, f, now))
  {
    WelcomeGrew(y, now);
    RejectGrew(y, Byte1(AUTH_RESULT, AUTH_FAIL), AuthFailed);
    hide Welcome, Reject, Verified;
  }

  lemma {:induction false} PumpTxGrows(y: Sys)
    ensures Grows(Data, y, PumpTx(y).0)
    decreases |y.b.txOut| - y.b.txOff
  {
    var left := |y.b.txOut| - y.b.txOff;
    var room := Room(y.w.script.dataRoom);
    if left > 0 && room > 0 {
      var n := Min(room, left);
      var y1 := y.(w := y.w.(script := y.w.script.(dataRoom := Tail(y.w.script.dataRoom))));
      var y2 := Note(y1.(b := y1.b.(txOff := y.b.txOff + n)), DataTx(y.b.txOut[y.b.txOff..y.b.txOff + n]));
      NoteGrows(Data, y, DataTx(y.b.txOut[y.b.txOff..y.b.txOff + n]));
      assert Grows(Data, y, y2);
      PumpTxGrows(y2);
      GrowsThen(Data, y, y2, PumpTx(y2).0);
    }
  }

  lemma PumpTxGrew(y: Sys)
    ensures Grew(y, PumpTx(y).0)
  {
    PumpTxGrows(y);
    var z := PumpTx(y).0;
    assert forall i :: |y.w.trace| <= i < |z.w.trace| && Is(Data, z.w.trace[i]) ==> Is(Minor, z.w.trace[i]);
  }

  // --- CONF socket -----------------------------------------------------------

  lemma {:induction false} PumpConfOutGrows(y: Sys)
    ensures Grows(Conf, y, PumpConfOut(y).0)
    decreases |y.b.confOut| - y.b.confOff
  {
    var left := |y.b.confOut| - y.b.confOff;
    var room := Room(y.w.script.confRoom);
    if left > 0 && room > 0 {
      var n := Min(room, left);
      var e := ConfTx(y.b.confOut[y.b.confOff..y.b.confOff + n]);
      var y1 := y.(w := y.w.(script := y.w.script.(confRoom := Tail(y.w.script.confRoom))));
      var y2 := Note(y1.(b := y1.b.(confOff := y.b.confOff + n)), e);
      NoteGrows(Conf, y, e);
      assert Grows(Conf, y, y2);
      PumpConfOutGrows(y2);
      GrowsThen(Conf, y, y2, PumpConfOut(y2).0);
    }
  }

  lemma {:induction false} PumpConfGrows(y: Sys, awaiting: bool)
    ensures Grows(Conf, y, PumpConf(y, awaiting).0)
    decreases |y.w.script.confIn|
  {
    hide FeedChunk;
    var input := y.w.script.confIn;
    if input != [] && input[0].Chunk? {
      var e := ConfRx(input[0].bytes);
      NoteGrows(Conf, y, e);
      var y1 := y.(w := y.w.(script := y.w.script.(confIn := input[1..])));
      var r := FeedChunk(y.b.confLine, input[0].bytes, awaiting);
      if r.Read? && r.verdict.Pending? {
        var y2 := Note(y1, e).(b := y.b.(confLine := r.verdict.rest));
        PumpConfGrows(y2, awaiting);
        assert Grows(Conf, y, y2);
        GrowsThen(Conf, y, y2, PumpConf(y2, awaiting).0);
      }
    }
  }

  lemma {:induction false} DrainConfGrows(y: Sys)
    ensures Grows(Conf, y, DrainConf(y))
    decreases |y.w.script.confIn|
  {
    var input := y.w.script.confIn;
    if input != [] && input[0].Chunk? {
      var e := ConfRx(input[0].bytes);
      NoteGrows(Conf, y, e);
      var y1 := y.(w := y.w.(script := y.w.script.(confIn := input[1..])));
      var y2 := Note(y1, e);
      DrainConfGrows(y2);
      GrowsThen(Conf, y, y2, DrainConf(y2));
    }
  }

  // --- requests --------------------------------------------------------------

  lemma TxRequestGrew(y: Sys, f: Frame, now: nat)
    requires y.sink.Some?
    ensures Grew(y, HandleTxRequest(y, f, now))
  {
    var s := y.sink.value;
    CloseGrew(y, BadState);
    if !s.txInFlight {
      var y1 := y.(sink := Some(s.(txSeq := f.sn)));
      SubmitGrew(y1, f.payload);
      var (y2, ok) := SubmitTx(y1, f.payload);
      hide SubmitTx, CloseSession, Grew;
      CloseGrew(y2, BackendFailure);
      GrewThen(y1, y2, CloseSession(y2, BackendFailure));
    }
  }

  lemma SubmitGrew(y: Sys, rf: seq<byte>)
    ensures Grew(y, SubmitTx(y, rf).0)
  {
    var y1 := y.(b := StartTx(y.b, rf));
    PumpTxGrew(y1);
    var z := PumpTx(y1).0;
    ResetGrew(z);
    hide PumpTx, StartTx, ResetLink;
    GrewThen(y1, z, ResetLink(z));
  }

  lemma ResetGrew(y: Sys)
    ensures Grew(y, ResetLink(y))
  {
  }

  lemma TickGrew(y: Sys, now: nat)
    requires y.sink.Some?
    ensures Grew(y, Tick(y, now))
  {
    var s := y.sink.value;
    CloseGrew(y, s.deadlineReason);
    CloseGrew(y, PongTimeout);
    EmitGrew(y, Frame(PING, 0, []));
    AbandonGrew(y, now);
    var z := AbandonTx(y, now);
    CloseGrew(z, TxTimeoutUncertain);
    hide CloseSession, AbandonTx, Emit;
    GrewThen(y, z, CloseSession(z, TxTimeoutUncertain));
  }

  // --- backend ---------------------------------------------------------------

  lemma AbandonGrew(y: Sys, now: nat)
    ensures Grew(y, AbandonTx(y, now))
    ensures AbandonTx(y, now).sink == y.sink
  {
  }

  lemma StopGrew(y: Sys)
    ensures Grew(y, Stop(y))
  {
  }

  lemma LogOutcomeGrew(y: Sys, ok: bool)
    ensures Grew(y, LogTxOutcome(y, ok))
  {
  }

  lemma FaultGrew(y: Sys)
    ensures Grew(y, EnterFault(y))
  {
    LogOutcomeGrew(y, false);
    var y1 := LogTxOutcome(y, false);
    hide LogTxOutcome;
    NoteGrows(Minor, y1, LinkDown);
    GrewThen(y, y1, EnterFault(y));
  }

  lemma TellGrew(y: Sys)
    ensures Grew(y, TellFailure(y))
  {
    if y.sink.Some? {
      CloseGrew(y, BackendFailure);
    }
  }

  lemma DisconnectGrew(y: Sys)
    ensures Grew(y, HandleDisconnect(y))
  {
    FaultGrew(y);
    ResetGrew(y);
    TellGrew(EnterFault(y));
    TellGrew(ResetLink(y));
    hide EnterFault, ResetLink, TellFailure, Grew;
    GrewThen(y, EnterFault(y), TellFailure(EnterFault(y)));
    GrewThen(y, ResetLink(y), TellFailure(ResetLink(y)));
  }

  lemma ResumeGrew(y: Sys)
    ensures Grew(y, ResumeTx(y))
  {
    PumpTxGrew(y);
    var z := PumpTx(y).0;
    ResetGrew(z);
    var x := ResetLink(z);
    TellGrew(x);
    hide PumpTx, ResetLink, TellFailure;
    GrewThen(y, z, x);
    GrewThen(y, x, TellFailure(x));
  }

  // What follows the announcement of an answer.
  lemma AnswerGrew(y: Sys, o: TxOutcome)
    ensures Grew(y, DispatchAnswer(y, o))
  {
    ResetGrew(y);
    if y.b.state.TxPending? && y.sink.Some? {
      var s := y.sink.value;
      var y1 := y.(b := y.b.(state := Ready, txOut := [], txOff := 0));
      EmitGrew(y1.(sink := Some(s.(txInFlight := false))), TxResultFrame(s.txSeq, o));
    }
    hide Emit, ResetLink, TxResultFrame;
  }

  lemma {:induction false} FlushGrew(n: Node)
    requires n.y.sink.Some?
    ensures Grew(n.y, FlushOut(n).y)
    decreases |n.y.w.script.clientRoom|
  {
    var s, rooms := n.y.sink.value, n.y.w.script.clientRoom;
    if s.outbox != [] && rooms != [] {
      var y1 := n.y.(w := n.y.w.(script := n.y.w.script.(clientRoom := rooms[1..])));
      match rooms[0]
      case Accepted(k) =>
        if k > 0 {
          var m := Min(k, |s.outbox|);
          var n1 := n.(y := Note(y1.(sink := Some(s.(outbox := s.outbox[m..]))), XrSent(s.outbox[..m])));
          NoteGrows(Minor, n.y, XrSent(s.outbox[..m]));
          assert Grew(n.y, n1.y);
          FlushGrew(n1);
          GrewThen(n.y, n1.y, FlushOut(n1).y);
        }
      case SendInterrupted =>
        FlushGrew(n.(y := y1));
        GrewThen(n.y, y1, FlushOut(n.(y := y1)).y);
      case _ =>
    }
  }
}
