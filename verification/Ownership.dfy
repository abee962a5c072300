// Transmit ownership: what the ledger kept by an outside observer has to do with
// the backend's state and the session's, after every operation.
module Ownership {
  import opened Bytes
  import opened Frames
  import opened Messages
  import opened Radio
  import opened World
  import opened Monitors
  import opened Model
  import opened Joint

  predicate IsOperational(y: Sys) {
    y.sink.Some? && y.sink.value.phase.Operational?
  }

  // The RF payload of the packet held by the backend.
  function Payload(b: Backend): seq<byte> {
    if |b.txOut| < HeaderLen(ToDaemon) then [] else b.txOut[HeaderLen(ToDaemon)..]
  }

  predicate IsLive(m: Ledger) {
    m.req.Some? && m.req.value.live
  }

  // The link as the backend sees it.
  function LinkOf(b: Backend): Link {
    if Applying(b) then Raw else if Live(b) then Fit else Down
  }

  // The daemon's side: what it holds, what it was given and what became of it.
  predicate Accounts(m: Ledger, b: Backend) {
    && !m.bad
    && m.link == LinkOf(b)
    && m.part == (if b.state.TxWriting? then Sofar(b) else [])
    && (m.lost <==> b.state.Faulted?)
    && (if Owing(b) then m.owned == Some(Payload(b)) else m.owned.Some? <==> b.state.Faulted?)
    && m.handed == Payloads(m.resolved) + (if Owing(b) then [Payload(b)] else [])
    && m.okLog == Select(m.resolved, Sent)
    && m.lostLog == Select(m.resolved, Unknown)
  }

  function Sofar(b: Backend): seq<byte> {
    if b.txOff <= |b.txOut| then b.txOut[..b.txOff] else b.txOut
  }

  // The firmware's side: the request being served.
  predicate Serves(m: Ledger, y: Sys) {
    && (m.ready <==> IsOperational(y))
    && (IsLive(m) <==> IsOperational(y) && y.sink.value.txInFlight)
    && (IsLive(m) ==> m.req.value.sn == y.sink.value.txSeq && m.req.value.answer.None?)
    && (y.b.state.TxWriting? || Owing(y.b) ==>
          && m.req.Some? && m.req.value.payload == Payload(y.b) && m.req.value.answer.None?
          && (m.req.value.written <==> Owing(y.b)))
  }

  predicate Owns(y: Sys) {
    Accounts(Books(y.w.trace), y.b) && Serves(Books(y.w.trace), y)
  }

  // --- writing a packet ------------------------------------------------------

  lemma TxFrameParse(out: seq<byte>, n: nat)
    requires IsTxFrame(out) && n <= |out|
    ensures Parse(ToDaemon, out[..n]) ==
            if n < |out| then Parsed([], out[..n], false)
            else Parsed([TxPacketFrame(out[HeaderLen(ToDaemon)..])], [], false)
  {
    var f := TxPacketFrame(out[HeaderLen(ToDaemon)..]);
    assert out == Encode(ToDaemon, f);
    hide Encode;
    if n < |out| {
      ParsePrefix(ToDaemon, f, n);
    } else {
      PopEncode(ToDaemon, f, []);
      assert out[..n] == Encode(ToDaemon, f) + [];
      assert PopFrame(ToDaemon, []).NeedMore?;
    }
  }

  // The ledger of a packet being written: nothing owned, its request not yet written.
  predicate MidWrite(m: Ledger, b: Backend) {
    && IsTxFrame(b.txOut) && b.txOff < |b.txOut|
    && m.link.Fit? && m.part == b.txOut[..b.txOff] && m.owned.None? && !m.bad
    && m.req.Some? && !m.req.value.written && m.req.value.payload == Payload(b)
  }

  function Given(m: Ledger, payload: seq<byte>): Ledger
    requires m.req.Some?
  {
    m.(part := [], owned := Some(payload), handed := m.handed + [payload],
       req := Some(m.req.value.(written := true)))
  }

  lemma WriteStep(m: Ledger, b: Backend, n: nat)
    requires MidWrite(m, b) && b.txOff + n <= |b.txOut|
    ensures var m1 := HandOver(m, b.txOut[b.txOff..b.txOff + n]);
            m1 == if b.txOff + n < |b.txOut| then m.(part := b.txOut[..b.txOff + n]) else Given(m, Payload(b))
  {
    hide IsTxFrame;
    assert m.part + b.txOut[b.txOff..b.txOff + n] == b.txOut[..b.txOff + n];
    TxFrameParse(b.txOut, b.txOff + n);
  }

  lemma WroteBooks(y: Sys, n: nat)
    requires MidWrite(Books(y.w.trace), y.b) && y.b.txOff + n <= |y.b.txOut|
    ensures Books(Wrote(y, n).w.trace) ==
            if y.b.txOff + n < |y.b.txOut| then Books(y.w.trace).(part := y.b.txOut[..y.b.txOff + n])
            else Given(Books(y.w.trace), Payload(y.b))
  {
    hide Books, IsTxFrame, HandOver, Given;
    WriteStep(Books(y.w.trace), y.b, n);
    BooksLog();
  }

  // Writing hands the packet over exactly when its last byte is accepted.
  lemma {:induction false} PumpTxBooks(y: Sys)
    requires MidWrite(Books(y.w.trace), y.b)
    ensures var (z, r) := PumpTx(y);
            Books(z.w.trace) == if r.Complete? then Given(Books(y.w.trace), Payload(y.b))
                                else Books(y.w.trace).(part := y.b.txOut[..z.b.txOff])
    decreases |y.b.txOut| - y.b.txOff
  {
    hide Books, IsTxFrame, Given;
    var left := |y.b.txOut| - y.b.txOff;
    var room := Room(y.w.script.dataRoom);
    if room > 0 {
      var n := Min(room, left);
      WroteBooks(y, n);
      assert PumpTx(y) == PumpTx(Wrote(y, n));
      if n < left {
        MoreGiven(Books(y.w.trace), Payload(y.b), y.b.txOut[..y.b.txOff + n]);
        PumpTxBooks(Wrote(y, n));
      }
    }
  }

  lemma MoreGiven(m: Ledger, payload: seq<byte>, part: seq<byte>)
    requires m.req.Some?
    ensures Given(m.(part := part), payload) == Given(m, payload)
  {
  }

  // --- session ---------------------------------------------------------------

  lemma CloseOwns(y: Sys, r: CloseReason)
    requires Inv(y) && Owns(y) && y.sink.Some?
    ensures Owns(CloseSession(y, r))
  {
    BooksLog();
    hide Books, IsTxFrame;
  }

  // An output frame that is neither a CONFIG_RESULT success nor a TX_RESULT.
  predicate Plain(f: Frame) {
    !IsConfigOk(f) && f.ty != XR_TX_RESULT
  }

  lemma EmitPlain(y: Sys, f: Frame)
    requires y.sink.Some? && !IsClosed(y) && Plain(f)
    ensures var (z, ok) := Emit(y, f);
            && Books(z.w.trace) == (if ok then Books(y.w.trace) else Orphan(Books(y.w.trace)))
            && (if ok then z.sink == Some(y.sink.value.(outbox := z.sink.value.outbox))
                else IsClosed(z) && !z.sink.value.txInFlight)
  {
    BooksLog();
    hide Books, Encode, TxResultFrame;
  }

  lemma CloseBooks(y: Sys, r: CloseReason)
    requires y.sink.Some? && !IsClosed(y)
    ensures Books(CloseSession(y, r).w.trace) == Orphan(Books(y.w.trace))
    ensures !IsOperational(CloseSession(y, r))
  {
    BooksLog();
    hide Books;
  }

  // Outside operation, plain output and a close leave the accounts alone.
  predicate OffDuty(y: Sys, z: Sys) {
    && z.b == y.b && !IsOperational(z)
    && (Books(z.w.trace) == Books(y.w.trace) || Books(z.w.trace) == Orphan(Books(y.w.trace)))
  }

  lemma OffDutyOwns(y: Sys, z: Sys)
    requires Owns(y) && !IsOperational(y) && OffDuty(y, z)
    ensures Owns(z)
  {
    hide Books, Payloads, Select;
  }

  lemma RejectBooks(y: Sys, f: Frame, r: CloseReason)
    requires y.sink.Some? && !IsClosed(y) && Plain(f) && !IsOperational(y)
    ensures OffDuty(y, Reject(y, f, r))
  {
    EmitPlain(y, f);
    var z := Emit(y, f).0;
    if !IsClosed(z) {
      CloseBooks(z, r);
    }
    hide Books, Emit;
  }

  lemma WelcomeBooks(y: Sys, now: nat)
    requires y.sink.Some? && !IsClosed(y) && !IsOperational(y)
    ensures OffDuty(y, Welcome(y, now))
  {
    EmitPlain(y, Byte1(AUTH_RESULT, AUTH_OK));
    hide Emit, Books;
  }

  lemma ChallengeBooks(y: Sys, now: nat)
    requires y.sink.Some? && !IsClosed(y) && !IsOperational(y)
    ensures OffDuty(y, Challenge(y, now))
  {
    var nonces := y.w.script.nonces;
    var y1 := y.(w := y.w.(script := y.w.script.(nonces := Tail(nonces))));
    CloseBooks(y1, AuthError);
    if nonces != [] && nonces[0].Some? {
      var nonce := nonces[0].value;
      EmitPlain(y1.(sink := Some(y1.sink.value.(nonce := nonce))), Frame(AUTH_CHALLENGE, 0, nonce));
    }
    hide Emit, CloseSession, Books;
  }

  lemma HelloBooks(y: Sys, now: nat)
    requires y.sink.Some? && y.sink.value.phase.WaitHello?
    ensures OffDuty(y, HandleHello(y, now))
  {
    EmitPlain(y, Byte1(HELLO_ACK, VERSION));
    var (y1, ok) := Emit(y, Byte1(HELLO_ACK, VERSION));
    hide Emit, Welcome, Challenge, Books;
    if ok {
      WelcomeBooks(y1, now);
      ChallengeBooks(y1, now);
    }
  }

  lemma AuthBooks(y: Sys, f: Frame, now: nat)
    requires y.sink.Some? && y.sink.value.phase.WaitAuth?
    ensures OffDuty(y, HandleAuth(y, f, now))
  {
    WelcomeBooks(y, now);
    RejectBooks(y, Byte1(AUTH_RESULT, AUTH_FAIL), AuthFailed);
    hide Welcome, Reject, Books, Verified;
  }

  // A configure is only ever begun with nothing owed.
  lemma BeginBooks(y: Sys, c: RadioConfig, now: nat)
    requires Inv(y) && Owns(y) && !y.b.state.Ready?
    ensures var z := BeginConfigure(y, c, now).0;
            Books(z.w.trace) == Books(y.w.trace).(link := LinkOf(z.b))
  {
    BooksLog();
    hide Books, IsTxFrame, Commands, SetCommand, Payloads, Select;
    var m := Books(y.w.trace);
    if MayConfigure(y.b) {
      assert m.part == [] && m.owned.None? && m.link.Down? && !m.bad;
    }
  }

  lemma SettlingOwns(y: Sys, z: Sys)
    requires Owns(y) && !IsOperational(y) && !IsOperational(z) && z.b == y.b && z.w == y.w
    ensures Owns(z)
  {
    hide Books, Accounts;
  }

  lemma RejectOwns(y: Sys, f: Frame, r: CloseReason)
    requires Owns(y) && y.sink.Some? && !IsClosed(y) && Plain(f) && !IsOperational(y)
    ensures Owns(Reject(y, f, r))
  {
    hide Owns, OffDuty, Reject;
    RejectBooks(y, f, r);
    OffDutyOwns(y, Reject(y, f, r));
  }

  lemma ConfigureOwns(y: Sys, f: Frame, now: nat)
    requires Inv(y) && Owns(y) && y.sink.Some? && y.sink.value.phase.WaitConfigure?
    ensures Owns(HandleConfigure(y, f, now))
  {
    var c := DecodeConfig(f);
    assert !y.b.state.Ready?;
    hide Owns, Inv, BeginConfigure, Reject, DecodeConfig;
    if c.None? {
      RejectOwns(y, Byte1(CONFIG_RESULT, CFG_INVALID), ConfigFailed);
    } else {
      BeginOwns(y, c.value, now);
      var (y1, token) := BeginConfigure(y, c.value, now);
      if token == 0 {
        RejectOwns(y1, Byte1(CONFIG_RESULT, CFG_UNSUPPORTED), ConfigFailed);
      } else {
        SettlingOwns(y1, HandleConfigure(y, f, now));
      }
    }
  }

  // The accounts do not distinguish the states that hold no packet.
  predicate Empty(b: Backend) {
    !b.state.TxWriting? && !Owing(b) && !b.state.Faulted?
  }

  lemma AccountsMove(m: Ledger, b: Backend, c: Backend)
    requires Accounts(m, b) && Empty(b) && Empty(c)
    ensures Accounts(m.(link := LinkOf(c)), c)
  {
  }

  lemma SameUp(m: Ledger, b: Backend)
    requires Accounts(m, b)
    ensures m.(link := LinkOf(b)) == m
  {
    hide Payloads, Select;
  }

  lemma BeginOwns(y: Sys, c: RadioConfig, now: nat)
    requires Inv(y) && Owns(y) && !IsOperational(y) && !y.b.state.Ready?
    ensures var y1 := BeginConfigure(y, c, now).0;
            Owns(y1) && y1.sink == y.sink
  {
    hide Books, IsTxFrame, Accounts, Commands, SetCommand;
    BeginBooks(y, c, now);
    var y1 := BeginConfigure(y, c, now).0;
    if y1.b != y.b {
      AccountsMove(Books(y.w.trace), y.b, y1.b);
    } else {
      SameUp(Books(y.w.trace), y.b);
    }
  }

  lemma PongOwns(y: Sys, now: nat)
    requires Inv(y) && Owns(y) && IsOperational(y)
    ensures Owns(HandlePong(y, now))
  {
    CloseOwns(y, BadState);
    hide Books, CloseSession, IsTxFrame, Payloads, Select;
  }

  // --- accepting a request ---------------------------------------------------

  // An operational session with nothing in flight has just been asked to send rf.
  predicate Asked(m: Ledger, b: Backend, rf: seq<byte>, sn: nat) {
    && b.state.Ready? && b.started && Accounts(m, b) && m.ready
    && m.req == Some(Req(sn, rf, true, false, None))
  }

  lemma StartAccounts(m: Ledger, b: Backend, c: Backend)
    requires Accounts(m, b) && b.state.Ready? && c.state.TxWriting? && c.txOff == 0
    ensures Accounts(m, c)
  {
  }

  lemma SubmitBooks(y: Sys, rf: seq<byte>, sn: nat)
    requires BackendOk(y.b) && Asked(Books(y.w.trace), y.b, rf, sn)
    ensures var (z, ok) := SubmitTx(y, rf);
            var m := Books(z.w.trace);
            && BackendOk(z.b) && Accounts(m, z.b) && m.ready
            && (if ok then Transmitting(z.b) && Payload(z.b) == rf && m.req == Some(Req(sn, rf, true, z.b.state.TxPending?, None))
                else !z.b.state.TxWriting? && !Owing(z.b))
  {
    BooksLog();
    if 0 < |rf| <= MAX_RF {
      TxFrameShape(rf);
      var m, y1 := Books(y.w.trace), y.(b := StartTx(y.b, rf));
      StartAccounts(m, y.b, y1.b);
      hide Books, IsTxFrame, Encode, PumpTx, LedgerStep;
      PumpTxBooks(y1);
      var (z, r) := PumpTx(y1);
      GivenAccounts(m, y1.b);
      PartialAccounts(m, y1.b, z.b.txOff);
      hide Accounts;
      if r.FlushFailed? {
        ResetAccounts(z);
      }
    } else {
      hide Books, IsTxFrame, Accounts;
    }
  }

  lemma BusyOwns(y: Sys, f: Frame)
    requires Inv(y) && Owns(y) && IsOperational(y) && y.sink.value.txInFlight
    ensures Owns(CloseSession(Note(y, XrIn(f)), BadState))
  {
    BooksLog();
    var y1 := Note(y, XrIn(f));
    hide Books, CloseSession, IsTxFrame, Accounts;
    assert Owns(y1);
    CloseOwns(y1, BadState);
  }

  lemma AskedBooks(y: Sys, f: Frame)
    requires Inv(y) && Owns(y) && IsOperational(y) && !y.sink.value.txInFlight && f.ty == TX_REQUEST
    ensures Asked(Books(Note(y, XrIn(f)).w.trace), y.b, f.payload, f.sn)
  {
    BooksLog();
    hide Books, IsTxFrame, Payloads, Select;
  }

  lemma TxRequestOwns(y: Sys, f: Frame, now: nat)
    requires Inv(y) && Owns(y) && IsOperational(y) && f.ty == TX_REQUEST
    ensures Owns(HandleTxRequest(Note(y, XrIn(f)), f, now))
  {
    var y1 := Note(y, XrIn(f));
    var s := y.sink.value;
    if s.txInFlight {
      BusyOwns(y, f);
    } else {
      AskedBooks(y, f);
      var y2 := y1.(sink := Some(s.(txSeq := f.sn)));
      hide Books, SubmitTx, IsTxFrame, Accounts, CloseSession;
      SubmitBooks(y2, f.payload, f.sn);
      var (y3, ok) := SubmitTx(y2, f.payload);
      if !ok {
        CloseBooks(y3, BackendFailure);
        OrphanAccounts(Books(y3.w.trace), y3.b);
      }
    }
  }

  // --- the daemon link -------------------------------------------------------

  // A session is told to close, or there is none, and no packet is held.
  lemma ClosedOwns(y: Sys)
    requires Accounts(Books(y.w.trace), y.b) && !Books(y.w.trace).ready && !IsLive(Books(y.w.trace))
    requires !IsOperational(y) && !y.b.state.TxWriting? && !Owing(y.b)
    ensures Owns(y)
  {
    hide Books, Accounts;
  }

  lemma OrphanAccounts(m: Ledger, b: Backend)
    requires Accounts(m, b)
    ensures Accounts(Orphan(m), b) && !IsLive(Orphan(m)) && !Orphan(m).ready
  {
    hide Payloads, Select;
  }

  lemma TellOwns(y: Sys)
    requires Accounts(Books(y.w.trace), y.b) && !y.b.state.TxWriting? && !Owing(y.b)
    requires Books(y.w.trace).ready <==> IsOperational(y)
    requires IsLive(Books(y.w.trace)) ==> IsOperational(y)
    ensures Owns(TellFailure(y))
  {
    hide Books, Accounts, Orphan;
    if y.sink.Some? && !IsClosed(y) {
      hide CloseSession;
      CloseBooks(y, BackendFailure);
      OrphanAccounts(Books(y.w.trace), y.b);
      ClosedOwns(CloseSession(y, BackendFailure));
    } else {
      ClosedOwns(y);
      assert TellFailure(y) == y;
    }
  }

  lemma ResetAccounts(y: Sys)
    requires BackendOk(y.b) && Accounts(Books(y.w.trace), y.b) && !Owing(y.b) && !y.b.state.Faulted?
    ensures var z := ResetLink(y);
            Books(z.w.trace) == Books(y.w.trace).(link := Down, part := []) && Accounts(Books(z.w.trace), z.b)
  {
    BooksLog();
    hide Books, IsTxFrame, Payloads, Select;
  }

  // The fate of a packet is lost: it is logged as unconfirmed, with its payload.
  lemma FaultAccounts(y: Sys)
    requires BackendOk(y.b) && Accounts(Books(y.w.trace), y.b) && Owing(y.b)
    ensures var z, m := EnterFault(y), Books(y.w.trace);
            && Accounts(Books(z.w.trace), z.b)
            && Books(z.w.trace).req == m.req && Books(z.w.trace).ready == m.ready
  {
    BooksLog();
    hide Books, Payloads, Select, Encode;
  }

  lemma DisconnectOwns(y: Sys)
    requires Inv(y) && Owns(y) && !y.b.state.Faulted?
    ensures Owns(HandleDisconnect(y))
  {
    hide Books, IsTxFrame, Accounts, Encode, TellFailure;
    if Owing(y.b) {
      FaultAccounts(y);
      if y.b.state.Draining? {
        ClosedOwns(EnterFault(y));
      } else {
        TellOwns(EnterFault(y));
      }
    } else {
      ResetAccounts(y);
      TellOwns(ResetLink(y));
    }
  }

  lemma AbandonAccounts(y: Sys, now: nat)
    requires Inv(y) && Owns(y)
    ensures var z := AbandonTx(y, now);
            && Accounts(Books(z.w.trace), z.b)
            && Books(z.w.trace).req == Books(y.w.trace).req && Books(z.w.trace).ready == Books(y.w.trace).ready
  {
    if y.b.state.TxWriting? {
      ResetAccounts(y);
    }
    hide Books, IsTxFrame, Payloads, Select;
  }

  // --- time ------------------------------------------------------------------

  // A transmit deadline closes the session; the packet stays owed to nobody's request.
  lemma ExpireOwns(y: Sys, now: nat)
    requires Inv(y) && Owns(y) && IsOperational(y) && y.sink.value.txInFlight
    ensures Owns(CloseSession(AbandonTx(y, now), TxTimeoutUncertain))
  {
    AbandonAccounts(y, now);
    var z := AbandonTx(y, now);
    hide Books, IsTxFrame, Accounts, CloseSession, Encode;
    CloseBooks(z, TxTimeoutUncertain);
    OrphanAccounts(Books(z.w.trace), z.b);
  }

  lemma EmitOwns(y: Sys, f: Frame)
    requires Owns(y) && IsOperational(y) && Plain(f)
    ensures Owns(Emit(y, f).0)
  {
    EmitPlain(y, f);
    hide Books, Accounts, Emit;
    OrphanAccounts(Books(y.w.trace), y.b);
  }

  lemma PingOwns(y: Sys, now: nat)
    requires Inv(y) && Owns(y) && IsOperational(y)
    ensures Owns(SendPing(y, now))
  {
    EmitOwns(y, Frame(PING, 0, []));
    hide Books, Accounts, IsTxFrame, Emit;
  }

  lemma TickOwns(y: Sys, now: nat)
    requires Inv(y) && Owns(y) && y.sink.Some?
    ensures Owns(Tick(y, now))
  {
    var s := y.sink.value;
    hide Books, Owns, Inv, CloseSession, AbandonTx, SendPing;
    if !s.phase.Closed? {
      CloseOwns(y, s.deadlineReason);
      CloseOwns(y, PongTimeout);
      if s.phase.Operational? {
        PingOwns(y, now);
        if s.txInFlight {
          ExpireOwns(y, now);
        }
      }
    }
  }

  // --- configuration results -------------------------------------------------

  // Closing or rejecting outside operation, after the accounts were settled.
  lemma CompleteOwns(y: Sys, token: nat, effective: Option<RadioConfig>, now: nat)
    requires Owns(Note(y, CfgDone(token, effective.Some?)))
    requires y.sink.Some? && !IsOperational(y) && Empty(y.b) && !y.sink.value.txInFlight
    ensures Owns(OnConfigureComplete(y, token, effective, now))
  {
    var y1 := Note(y, CfgDone(token, effective.Some?));
    var s := y.sink.value;
    hide Books, Accounts, Encode;
    if s.phase.Settling? && token == s.opToken {
      if effective != Some(s.requested) {
        RejectBooks(y1, Byte1(CONFIG_RESULT, CFG_UNSUPPORTED), ConfigFailed);
        OffDutyOwns(y1, Reject(y1, Byte1(CONFIG_RESULT, CFG_UNSUPPORTED), ConfigFailed));
      } else {
        ReadyOwns(y1, effective.value, now);
      }
    }
  }

  lemma EmitConfigOk(y: Sys, c: RadioConfig)
    requires y.sink.Some? && !IsClosed(y)
    ensures var (z, ok) := Emit(y, ConfigOkFrame(c));
            && Books(z.w.trace) == (if ok then Books(y.w.trace).(ready := true) else Orphan(Books(y.w.trace)))
            && (if ok then z.sink == Some(y.sink.value.(outbox := z.sink.value.outbox)) else IsClosed(z))
  {
    BooksLog();
    hide Books, Encode, PackConfig, TxResultFrame;
  }

  lemma ReadyOwns(y: Sys, c: RadioConfig, now: nat)
    requires Owns(y) && y.sink.Some? && y.sink.value.phase.Settling? && Empty(y.b) && !y.sink.value.txInFlight
    ensures var (z, ok) := Emit(y, ConfigOkFrame(c));
            Owns(if ok then EnterOperational(z, now) else z)
  {
    EmitConfigOk(y, c);
    OrphanAccounts(Books(y.w.trace), y.b);
    ReadyAccounts(Books(y.w.trace), y.b);
    hide Books, Emit, Accounts;
  }

  lemma ReadyAccounts(m: Ledger, b: Backend)
    requires Accounts(m, b)
    ensures Accounts(m.(ready := true), b)
  {
  }

  lemma ConfigFailOwns(y: Sys, now: nat)
    requires Inv(y) && Owns(y) && Applying(y.b)
    ensures Owns(ConfigFail(y, now))
  {
    hide Books, Accounts, IsTxFrame, OnConfigureComplete;
    ResetAccounts(y);
    var z := ResetLink(y);
    ClosedOwns(z);
    BooksLog();
    SameOwns(z, Note(z, CfgDone(z.b.configToken, false)));
    CompleteOwns(z, z.b.configToken, None, now);
  }

  // The success is what makes the link fit for packets.
  lemma ConfigSucceedOwns(y: Sys, now: nat)
    requires Inv(y) && Owns(y) && Applying(y.b)
    ensures Owns(ConfigSucceed(y, now))
  {
    var b := y.b.(state := Ready, txEpoch := NextU32(y.b.txEpoch), confOut := "", confOff := 0, awaiting := false);
    var z := y.(b := b);
    AccountsMove(Books(y.w.trace), y.b, b);
    RawLink(Books(y.w.trace), y.b);
    hide Books, Accounts, IsTxFrame, OnConfigureComplete;
    BooksLog();
    ClosedOwns(Note(z, CfgDone(b.configToken, true)));
    CompleteOwns(z, b.configToken, Some(b.pendingCfg), now);
  }

  lemma RawLink(m: Ledger, b: Backend)
    requires Accounts(m, b) && Applying(b)
    ensures m.link == Raw && !m.bad
  {
    hide Payloads, Select;
  }

  // --- daemon frames ---------------------------------------------------------

  lemma SameOwns(y: Sys, z: Sys)
    requires Owns(y) && z.b == y.b && z.sink == y.sink && Books(z.w.trace) == Books(y.w.trace)
    ensures Owns(z)
  {
    hide Books, Accounts;
  }

  lemma RxBooks(y: Sys, f: Frame, rx: Rx)
    requires f.ty == RX_PACKET
    ensures Books(Note(y, Heard(f)).w.trace) == Books(y.w.trace)
    ensures Books(Note(Note(y, Heard(f)), LogRx(rx)).w.trace) == Books(y.w.trace)
  {
    BooksLog();
    hide Books;
  }

  lemma RxOwns(y: Sys, f: Frame)
    requires Inv(y) && Owns(y) && f.ty == RX_PACKET
    ensures Owns(Dispatch(y, f))
  {
    hide Books, Owns, DecodeRx, Emit;
    if DecodeRx(f).Some? {
      var rx := DecodeRx(f).value;
      var y2 := Note(Note(y, Heard(f)), LogRx(rx));
      RxBooks(y, f, rx);
      SameOwns(y, y2);
      if IsOperational(y2) {
        EmitOwns(y2, XrRxFrame(rx));
      }
    } else {
      RxBooks(y, f, Rx(0, 0, []));
      SameOwns(y, Note(y, Heard(f)));
    }
  }

  lemma IgnoredOwns(y: Sys, f: Frame)
    requires Inv(y) && Owns(y) && f.ty != RX_PACKET && (Answer(f).None? || !Owing(y.b))
    ensures Owns(Dispatch(y, f))
  {
    BooksLog();
    hide Books, Accounts, IsTxFrame, Answered;
    assert Dispatch(y, f) == Note(y, Heard(f));
    assert LedgerStep(Books(y.w.trace), Heard(f)) == Books(y.w.trace) by { NotAnswered(Books(y.w.trace), y.b, f); }
  }

  lemma NotAnswered(m: Ledger, b: Backend, f: Frame)
    requires Accounts(m, b) && (Answer(f).None? || !Owing(b))
    ensures LedgerStep(m, Heard(f)) == m
  {
  }

  // The daemon's verdict settles the packet, and the RF log records a success.
  function Settled(y: Sys, f: Frame): (z: Sys)
    ensures z.b == y.b && z.sink == y.sink
  {
    var y1 := Note(y, Heard(f));
    if Answer(f) == Some(Success) then LogTxOutcome(y1, true) else y1
  }

  lemma SettledAccounts(y: Sys, f: Frame)
    requires BackendOk(y.b) && Accounts(Books(y.w.trace), y.b) && Owing(y.b) && Answer(f).Some?
    ensures var m := Books(y.w.trace);
            var m1 := Books(Settled(y, f).w.trace);
            && Accounts(m1, y.b.(state := Ready, txOut := [], txOff := 0)) && m1.ready == m.ready
            && m1.req == (if m.req.None? then None else Some(m.req.value.(answer := Answer(f))))
  {
    BooksLog();
    hide Books, Answer, Payloads, Select, Encode;
  }

  lemma DispatchSettles(y: Sys, f: Frame)
    requires Owing(y.b) && Answer(f).Some?
    ensures Dispatch(y, f) == DispatchAnswer(Settled(y, f), Answer(f).value)
  {
    hide DispatchAnswer;
  }

  // A late answer clears the packet and tells nobody.
  lemma LateOwns(y: Sys, f: Frame)
    requires Inv(y) && Owns(y) && y.b.state.Draining? && Answer(f).Some?
    ensures Owns(Dispatch(y, f))
  {
    BooksLog();
    hide Books, IsTxFrame, Answer, Payloads, Select, Dispatch, LogTxOutcome;
    DispatchSettles(y, f);
    SettledAccounts(y, f);
    var z := Settled(y, f);
    var gone := ResetLink(z);
    LateReset(Books(z.w.trace), y.b.(state := Ready, txOut := [], txOff := 0), gone.b);
    hide Accounts;
    assert Books(gone.w.trace) == Books(z.w.trace).(link := Down, part := []);
  }

  lemma LateReset(m: Ledger, b: Backend, c: Backend)
    requires Accounts(m, b) && Empty(b) && Empty(c)
    ensures Accounts(m.(link := LinkOf(c), part := []), c)
  {
  }

  // The result frame of the request in flight, and only that, may be queued.
  lemma EmitResult(y: Sys, o: TxOutcome)
    requires y.sink.Some? && !IsClosed(y)
    requires var m := Books(y.w.trace);
             IsLive(m) && m.req.value.sn == y.sink.value.txSeq && m.req.value.answer == Some(o)
    ensures var (z, ok) := Emit(y, TxResultFrame(y.sink.value.txSeq, o));
            && Books(z.w.trace) == (if ok then Books(y.w.trace).(req := None) else Orphan(Books(y.w.trace)))
            && (if ok then z.sink == Some(y.sink.value.(outbox := z.sink.value.outbox)) else IsClosed(z))
  {
    BooksLog();
    hide Books, Encode, OutcomeCode;
  }

  lemma ServedAccounts(m: Ledger, b: Backend)
    requires Accounts(m, b)
    ensures Accounts(m.(req := None), b)
  {
  }

  lemma PromptOwns(y: Sys, f: Frame)
    requires Inv(y) && Owns(y) && y.b.state.TxPending? && Answer(f).Some?
    ensures Owns(Dispatch(y, f))
  {
    hide Books, Accounts, IsTxFrame, Answer, Emit, Dispatch, LogTxOutcome;
    DispatchSettles(y, f);
    SettledAccounts(y, f);
    var z := Settled(y, f);
    var z1 := z.(b := z.b.(state := Ready, txOut := [], txOff := 0));
    var o := Answer(f).value;
    SettledShape(y, f);
    assert Dispatch(y, f) == OnTxComplete(z1, o);
    if y.sink.value.txInFlight {
      var z2 := z1.(sink := Some(z1.sink.value.(txInFlight := false)));
      EmitResult(z2, o);
      ServedAccounts(Books(z2.w.trace), z2.b);
      OrphanAccounts(Books(z2.w.trace), z2.b);
    } else {
      ClosedOwns(z1);
    }
  }

  lemma SettledShape(y: Sys, f: Frame)
    ensures Settled(y, f).b == y.b && Settled(y, f).sink == y.sink
  {
    hide Answer;
  }

  lemma DispatchOwns(y: Sys, f: Frame)
    requires Inv(y) && Owns(y)
    ensures Owns(Dispatch(y, f))
  {
    hide Owns, Inv, Dispatch;
    if f.ty == RX_PACKET {
      RxOwns(y, f);
    } else if Answer(f).None? || !Owing(y.b) {
      IgnoredOwns(y, f);
    } else if y.b.state.Draining? {
      LateOwns(y, f);
    } else {
      PromptOwns(y, f);
    }
  }

  // --- the rest --------------------------------------------------------------

  lemma PartialAccounts(m: Ledger, b: Backend, off: nat)
    requires Accounts(m, b) && b.state.TxWriting? && off <= |b.txOut|
    ensures Accounts(m.(part := b.txOut[..off]), b.(txOff := off))
  {
    hide Payloads, Select;
  }

  lemma GivenAccounts(m: Ledger, b: Backend)
    requires Accounts(m, b) && b.state.TxWriting? && m.req.Some?
    ensures Accounts(Given(m, Payload(b)), b.(txOff := |b.txOut|, state := TxPending))
  {
    hide Select;
  }

  lemma WritingMid(y: Sys)
    requires Inv(y) && Owns(y) && y.b.state.TxWriting?
    ensures MidWrite(Books(y.w.trace), y.b) && BackendOk(y.b)
  {
    hide Books, IsTxFrame, Payloads, Select;
  }

  lemma ResumeOwns(y: Sys)
    requires Inv(y) && Owns(y)
    ensures Owns(ResumeTx(y))
  {
    hide Books, IsTxFrame, PumpTx, TellFailure, Accounts, MidWrite;
    if y.b.state.TxWriting? {
      var m := Books(y.w.trace);
      WritingMid(y);
      PumpTxBooks(y);
      var (z, r) := PumpTx(y);
      GivenAccounts(m, y.b);
      PartialAccounts(m, y.b, z.b.txOff);
      if r.FlushFailed? {
        ResetAccounts(z);
        TellOwns(ResetLink(z));
      }
    }
  }

  lemma StopAccounts(y: Sys)
    requires BackendOk(y.b) && Accounts(Books(y.w.trace), y.b) && !y.b.state.TxPending?
    ensures var z := Stop(y);
            Accounts(Books(z.w.trace), z.b) && Books(z.w.trace).req == Books(y.w.trace).req
  {
    if !y.b.state.Draining? && !y.b.state.Faulted? {
      ResetAccounts(y);
    }
    hide Books, IsTxFrame, Payloads, Select;
  }

  function TornDown(y: Sys, now: nat): Sys {
    Stop(AbandonTx(y, now).(sink := None))
  }

  lemma TornDownState(y: Sys, now: nat)
    ensures var w := TornDown(y, now);
            && w.sink.None? && !w.b.state.TxWriting?
            && (Owing(w.b) ==> Owing(y.b) && Payload(w.b) == Payload(y.b))
  {
  }

  lemma TornDownAccounts(y: Sys, now: nat)
    requires Inv(y) && Owns(y)
    ensures var w := TornDown(y, now);
            Accounts(Books(w.w.trace), w.b) && Books(w.w.trace).req == Books(y.w.trace).req
  {
    AbandonAccounts(y, now);
    AbandonOk(y, now);
    var z := AbandonTx(y, now).(sink := None);
    hide Books, Accounts, BackendOk, Stop;
    StopAccounts(z);
  }

  lemma TeardownOwns(n: Node, now: nat)
    requires Inv(n.y) && Owns(n.y) && n.y.sink.Some?
    ensures Owns(Teardown(n, now).y)
  {
    BooksLog();
    hide Books, Accounts, Inv, Stop, AbandonTx;
    TornDownState(n.y, now);
    TornDownAccounts(n.y, now);
    var w := TornDown(n.y, now);
    OrphanAccounts(Books(w.w.trace), w.b);
    hide TornDown;
    var t := Note(w, ConnDrop);
    assert Owns(t);
  }

  lemma AbandonOk(y: Sys, now: nat)
    requires Inv(y)
    ensures BackendOk(AbandonTx(y, now).b)
  {
    hide Encode;
  }

  lemma OpenOwns(n: Node, now: nat)
    requires Inv(n.y) && Owns(n.y) && n.y.sink.None?
    ensures Owns(OpenConnection(n, now).y)
  {
    BooksLog();
    hide Books, IsTxFrame, Accounts;
    OrphanAccounts(Books(n.y.w.trace), n.y.b);
    OpenedAccounts(Books(n.y.w.trace), n.y.b);
  }

  lemma OpenedAccounts(m: Ledger, b: Backend)
    requires Accounts(Orphan(m), b)
    ensures Accounts(Orphan(m), b.(started := true))
  {
  }

  // --- firmware frames -------------------------------------------------------

  lemma HeardPlain(y: Sys, f: Frame)
    requires Owns(y) && (!IsOperational(y) || f.ty != TX_REQUEST)
    ensures Owns(Note(y, XrIn(f)))
  {
    BooksLog();
    hide Books, Accounts;
  }

  lemma RefusedOwns(y: Sys, f: Frame, r: CloseReason)
    requires Inv(y) && Owns(y) && IsOperational(y) && f.ty == TX_REQUEST
    ensures Owns(CloseSession(Note(y, XrIn(f)), r))
  {
    var y1 := Note(y, XrIn(f));
    if y.sink.value.txInFlight {
      BooksLog();
      hide Books, CloseSession, IsTxFrame, Accounts;
      assert Owns(y1);
      CloseOwns(y1, r);
    } else {
      AskedBooks(y, f);
      hide Books, CloseSession, IsTxFrame, Accounts;
      CloseBooks(y1, r);
      OrphanAccounts(Books(y1.w.trace), y1.b);
      ClosedOwns(CloseSession(y1, r));
    }
  }

  lemma FrameOwns(y: Sys, f: Frame, now: nat)
    requires Inv(y) && Owns(y) && y.sink.Some?
    ensures Owns(HandleFrame(y, f, now))
  {
    var y1 := Note(y, XrIn(f));
    hide Owns, Inv, CloseSession, WellFormed, HandleHello, HandleAuth, HandleConfigure, HandlePong, HandleTxRequest;
    if IsOperational(y) && f.ty == TX_REQUEST {
      TxRequestOwns(y, f, now);
      RefusedOwns(y, f, MalformedFrame);
    } else {
      NoteKeeps(y, XrIn(f));
      HeardPlain(y, f);
      CloseOwns(y1, MalformedFrame);
      CloseOwns(y1, BadState);
      CloseOwns(y1, RemoteError);
      PhaseOwns(y1, f, now);
    }
  }

  lemma NoteKeeps(y: Sys, e: Event)
    requires Inv(y)
    ensures Inv(Note(y, e))
  {
    hide BackendOk, SessionOk;
  }

  lemma PhaseOwns(y: Sys, f: Frame, now: nat)
    requires Inv(y) && Owns(y) && y.sink.Some?
    ensures y.sink.value.phase.WaitHello? ==> Owns(HandleHello(y, now))
    ensures y.sink.value.phase.WaitAuth? ==> Owns(HandleAuth(y, f, now))
    ensures y.sink.value.phase.WaitConfigure? ==> Owns(HandleConfigure(y, f, now))
    ensures y.sink.value.phase.Operational? ==> Owns(HandlePong(y, now))
  {
    hide Owns, Inv, HandleHello, HandleAuth, HandleConfigure, HandlePong, OffDuty;
    match y.sink.value.phase
    case WaitHello => HelloBooks(y, now); OffDutyOwns(y, HandleHello(y, now));
    case WaitAuth => AuthBooks(y, f, now); OffDutyOwns(y, HandleAuth(y, f, now));
    case WaitConfigure => ConfigureOwns(y, f, now);
    case Operational => PongOwns(y, now);
    case _ =>
  }
}
