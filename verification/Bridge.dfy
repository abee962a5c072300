// The objects of the bridge, with their fields updated in place, each method
// proved to compute the function of Model.dfy that it stands for.
module Bridge {
  import opened Bytes
  import opened Frames
  import opened Messages
  import opened ConfText
  import opened Radio
  import opened BoundedFifo
  import opened World
  import opened Model

  // The sockets, the random generator and the RF log: answers come from the
  // script, and everything that crosses a boundary is recorded.
  class Env {
    const setup: Setup
    var script: Script
    ghost var trace: seq<Event>

    ghost function Now(): World
      reads this
    {
      World(setup, script, trace)
    }

    constructor (setup: Setup)
      ensures Now() == World(setup, SILENT, [])
    {
      this.setup := setup;
      script, trace := SILENT, [];
    }

    // begin_connect; `up`: there is a link, which is closed first in any case.
    method Dial(band: Band, up: bool) returns (ok: bool)
      modifies this
      ensures ok == (old(script.dials) != [] && old(script.dials)[0])
      ensures var w := old(Now()).(script := old(script).(dials := Tail(old(script.dials))));
              var w1 := if up then Log(w, LinkDown) else w;
              Now() == if ok then Log(w1, LinkUp(band)) else w1
    {
      ok := script.dials != [] && script.dials[0];
      script := script.(dials := Tail(script.dials));
      if up {
        trace := trace + [LinkDown];
      }
      if ok {
        trace := trace + [LinkUp(band)];
      }
    }

    method PollConnect() returns (c: ConnectState)
      modifies `script
      ensures c == if old(script.connects) == [] then StillConnecting else old(script.connects)[0]
      ensures script == old(script).(connects := Tail(old(script.connects)))
    {
      c := if script.connects == [] then StillConnecting else script.connects[0];
      script := script.(connects := Tail(script.connects));
    }

    // A partial send: negative on error, else the number of bytes accepted.
    method ConfSendSome(text: string) returns (w: int)
      modifies this
      ensures var room := Room(old(script.confRoom));
              w == if room < 0 then -1 else Min(room, |text|)
      ensures var w0 := old(Now()).(script := old(script).(confRoom := Tail(old(script.confRoom))));
              Now() == if w > 0 then Log(w0, ConfTx(text[..w])) else w0
    {
      var room := Room(script.confRoom);
      script := script.(confRoom := Tail(script.confRoom));
      w := if room < 0 then -1 else Min(room, |text|);
      if w > 0 {
        trace := trace + [ConfTx(text[..w])];
      }
    }

    method DataSendSome(bytes: seq<byte>) returns (w: int)
      modifies this
      ensures var room := Room(old(script.dataRoom));
              w == if room < 0 then -1 else Min(room, |bytes|)
      ensures var w0 := old(Now()).(script := old(script).(dataRoom := Tail(old(script.dataRoom))));
              Now() == if w > 0 then Log(w0, DataTx(bytes[..w])) else w0
    {
      var room := Room(script.dataRoom);
      script := script.(dataRoom := Tail(script.dataRoom));
      w := if room < 0 then -1 else Min(room, |bytes|);
      if w > 0 {
        trace := trace + [DataTx(bytes[..w])];
      }
    }

    // A read of at most READ_CHUNK bytes: negative when the socket is gone, zero
    // when there is nothing now.
    method ConfRecv() returns (r: int, text: string)
      modifies this
      ensures var input := old(script.confIn);
              if input == [] then r == 0 && Now() == old(Now())
              else
                var w := old(Now()).(script := old(script).(confIn := input[1..]));
                if input[0].Gone? then r < 0 && Now() == w
                else r == |text| && text == input[0].bytes && Now() == Log(w, ConfRx(text))
    {
      var input := script.confIn;
      if input == [] {
        return 0, "";
      }
      script := script.(confIn := input[1..]);
      if input[0].Gone? {
        return -1, "";
      }
      text := input[0].bytes;
      trace := trace + [ConfRx(text)];
      r := |text|;
    }

    method DataRecv() returns (r: int, bytes: seq<byte>)
      modifies this
      ensures var input := old(script.dataIn);
              if input == [] then r == 0 && Now() == old(Now())
              else
                var w := old(Now()).(script := old(script).(dataIn := input[1..]));
                if input[0].Gone? then r < 0 && Now() == w
                else r == |bytes| && bytes == input[0].bytes && Now() == Log(w, DataRx(bytes))
    {
      var input := script.dataIn;
      if input == [] {
        return 0, [];
      }
      script := script.(dataIn := input[1..]);
      if input[0].Gone? {
        return -1, [];
      }
      bytes := input[0].bytes;
      trace := trace + [DataRx(bytes)];
      r := |bytes|;
    }

    method RandomNonce() returns (nonce: Option<Nonce>)
      modifies `script
      ensures nonce == if old(script.nonces) == [] then None else old(script.nonces)[0]
      ensures script == old(script).(nonces := Tail(old(script.nonces)))
    {
      nonce := if script.nonces == [] then None else script.nonces[0];
      script := script.(nonces := Tail(script.nonces));
    }

    // A read of at most 1024 bytes from the client; None when there is nothing now.
    method RecvFromClient() returns (r: Option<ClientRecv>)
      modifies `script
      ensures if old(script.clientIn) == [] then r == None && script == old(script)
              else r == Some(old(script.clientIn)[0]) &&
                   script == old(script).(clientIn := old(script.clientIn)[1..])
    {
      if script.clientIn == [] {
        return None;
      }
      r := Some(script.clientIn[0]);
      script := script.(clientIn := script.clientIn[1..]);
    }

    // A send to the client; `Accepted` says how many of the bytes were taken.
    method SendToClient(bytes: seq<byte>) returns (r: ClientSend)
      modifies this
      ensures var rooms := old(script.clientRoom);
              if rooms == [] then r == SendAgain && Now() == old(Now())
              else
                var w := old(Now()).(script := old(script).(clientRoom := rooms[1..]));
                if rooms[0].Accepted? then
                  && r == Accepted(Min(rooms[0].n, |bytes|))
                  && Now() == if r.n > 0 then Log(w, XrSent(bytes[..r.n])) else w
                else r == rooms[0] && Now() == w
    {
      var rooms := script.clientRoom;
      if rooms == [] {
        return SendAgain;
      }
      script := script.(clientRoom := rooms[1..]);
      if !rooms[0].Accepted? {
        return rooms[0];
      }
      r := Accepted(Min(rooms[0].n, |bytes|));
      if r.n > 0 {
        trace := trace + [XrSent(bytes[..r.n])];
      }
    }

    // What the environment will answer from now on.
    method Load(answers: Script)
      modifies `script
      ensures script == answers
    {
      script := answers;
    }

    ghost method Note(e: Event)
      modifies `trace
      ensures Now() == Log(old(Now()), e)
    {
      trace := trace + [e];
    }
  }

  // The fields of the session object are the components of `my`; its output queue
  // and its parser are objects of their own.
  class XrSession {
    const env: Env
    const backend: LorahamBackend
    const outbox: BoundedBuffer
    const parser: FrameParser
    var my: Session

    ghost function View(): Session
      reads `my, outbox
    {
      my.(outbox := if outbox.Valid() then outbox.Contents() else [])
    }

    // The session is the backend's sink.
    ghost predicate Attached()
      reads outbox, parser, backend`sink, backend`my, backend.parser
    {
      && outbox.Valid() && outbox.cap == env.setup.maxOutbox
      && parser.Valid() && parser.codec == Xr
      && backend.sink == this && env == backend.env && backend.Valid()
      && parser != backend.parser && parser.buf != backend.parser.buf
    }

    constructor (backend: LorahamBackend)
      ensures this.backend == backend && env == backend.env
      ensures fresh(outbox) && outbox.Valid() && outbox.cap == env.setup.maxOutbox && outbox.Contents() == []
      ensures fresh(parser) && fresh(parser.buf) && parser.Valid() && parser.codec == Xr
      ensures my == Blank()
    {
      this.backend, env := backend, backend.env;
      outbox := new BoundedBuffer(backend.env.setup.maxOutbox);
      parser := new FrameParser(Xr);
      my := Blank();
    }

    method Open(now: nat)
      requires Attached() && my == Blank()
      modifies `my, outbox, parser, backend`my
      ensures Attached() && View() == NewSession(env.setup, now) && Held() == []
      ensures backend.my == old(backend.my).(started := true)
    {
      parser.Reset();
      outbox.Clear();
      my := my.(phase := WaitHello, closeReason := NoReason, txInFlight := false, awaitingPong := false);
      backend.Start();
      Arm(now, env.setup.to.handshake, HandshakeTimeout);
    }

    // Become the backend's sink, then open.
    method Attach(now: nat)
      requires outbox.Valid() && outbox.cap == env.setup.maxOutbox && parser.Valid() && parser.codec == Xr
      requires env == backend.env && backend.Valid() && my == Blank()
      requires parser != backend.parser && parser.buf != backend.parser.buf
      modifies `my, outbox, parser, backend`my, backend`sink, env
      ensures Attached() && Held() == []
      ensures backend.Snap() == Sys(old(backend.my).(started := true), Some(NewSession(env.setup, now)),
                                    Log(old(env.Now()), ConnOpen(now)))
    {
      hide NewSession, Blank;
      env.Note(ConnOpen(now));
      backend.sink := this;
      Open(now);
    }

    method Close(r: CloseReason)
      requires Attached()
      modifies `my, env
      ensures Attached() && backend.Snap() == CloseSession(old(backend.Snap()), r)
    {
      if my.phase.Closed? {
        return;
      }
      my := my.(closeReason := r, phase := Closed, armed := false, txInFlight := false);
      env.Note(XrClosed(r));
    }

    method Emit(f: Frame) returns (ok: bool)
      requires Attached()
      modifies `my, outbox, env
      ensures Attached() && (backend.Snap(), ok) == Model.Emit(old(backend.Snap()), f)
    {
      if |f.payload| > MaxPayload(Xr) {
        Close(InternalError);
        return false;
      }
      var fits := outbox.Append(Encode(Xr, f));
      if !fits {
        Close(OutputOverflow);
        return false;
      }
      env.Note(XrOut(f));
      return true;
    }

    method Arm(now: nat, timeout: nat, reason: CloseReason)
      modifies `my
      ensures View() == Model.Arm(old(View()), now, timeout, reason)
    {
      my := my.(armed := true, deadlineAt := now + timeout, deadlineReason := reason);
    }

    // --- events from the backend ---------------------------------------------

    method OnRx(rx: Rx)
      requires Attached()
      modifies `my, outbox, env
      ensures Attached() && backend.Snap() == Model.OnRx(old(backend.Snap()), rx)
    {
      if !my.phase.Operational? || !RxAcceptable(|rx.data|) {
        return;
      }
      var _ := Emit(XrRxFrame(rx));
    }

    method OnTxComplete(o: TxOutcome)
      requires Attached()
      modifies `my, outbox, env
      ensures Attached() && backend.Snap() == Model.OnTxComplete(old(backend.Snap()), o)
    {
      if !my.txInFlight {
        return;
      }
      my := my.(txInFlight := false);
      var _ := Emit(TxResultFrame(my.txSeq, o));
    }

    method OnBackendFailure()
      requires Attached()
      modifies `my, env
      ensures Attached() && backend.Snap() == Model.OnBackendFailure(old(backend.Snap()))
    {
      Close(BackendFailure);
    }

    method Reject(f: Frame, r: CloseReason)
      requires Attached()
      modifies `my, outbox, env
      ensures Attached() && backend.Snap() == Model.Reject(old(backend.Snap()), f, r)
    {
      var _ := Emit(f);
      Close(r);
    }

    method OnConfigureComplete(token: nat, effective: Option<RadioConfig>, now: nat)
      requires Attached()
      modifies `my, outbox, env
      ensures Attached()
      ensures backend.Snap() == Model.OnConfigureComplete(old(backend.Snap()), token, effective, now)
    {
      env.Note(CfgDone(token, effective.Some?));
      if !my.phase.Settling? || token != my.opToken {
        return;
      }
      if effective != Some(my.requested) {
        Reject(Byte1(CONFIG_RESULT, CFG_UNSUPPORTED), ConfigFailed);
        return;
      }
      var ok := Emit(ConfigOkFrame(effective.value));
      if ok {
        EnterReady(now);
      }
    }

    method EnterReady(now: nat)
      requires Attached()
      modifies `my
      ensures Attached() && backend.Snap() == EnterOperational(old(backend.Snap()), now)
    {
      my := my.(phase := Operational, armed := false, awaitingPong := false,
                nextPingAt := now + env.setup.to.pingInterval);
    }

    // --- frames from the firmware --------------------------------------------

    method ToConfigure(now: nat)
      requires Attached()
      modifies `my
      ensures Attached() && backend.Snap() == Model.ToConfigure(old(backend.Snap()), now)
    {
      my := my.(phase := WaitConfigure);
      Arm(now, env.setup.to.config, ConfigTimeout);
    }

    method Welcome(now: nat)
      requires Attached()
      modifies `my, outbox, env
      ensures Attached() && backend.Snap() == Model.Welcome(old(backend.Snap()), now)
    {
      var ok := Emit(Byte1(AUTH_RESULT, AUTH_OK));
      if ok {
        ToConfigure(now);
      }
    }

    method Challenge(now: nat)
      requires Attached()
      modifies `my, outbox, env
      ensures Attached() && backend.Snap() == Model.Challenge(old(backend.Snap()), now)
    {
      hide CloseSession, Model.Emit;
      var random := env.RandomNonce();
      if random.None? {
        Close(AuthError);
        return;
      }
      my := my.(nonce := random.value);
      var ok := Emit(Frame(AUTH_CHALLENGE, 0, my.nonce));
      if ok {
        my := my.(phase := WaitAuth);
        Arm(now, env.setup.to.auth, AuthTimeout);
      }
    }

    method HandleHello(now: nat)
      requires Attached()
      modifies `my, outbox, env
      ensures Attached() && backend.Snap() == Model.HandleHello(old(backend.Snap()), now)
    {
      var ok := Emit(Byte1(HELLO_ACK, VERSION));
      if !ok {
        return;
      }
      if env.setup.mac.Some? {
        Challenge(now);
      } else {
        Welcome(now);
      }
    }

    method HandleAuth(f: Frame, now: nat)
      requires Attached()
      modifies `my, outbox, env
      ensures Attached() && backend.Snap() == Model.HandleAuth(old(backend.Snap()), f, now)
    {
      if Verified(env.setup, my.nonce, f.payload) {
        Welcome(now);
      } else {
        Reject(Byte1(AUTH_RESULT, AUTH_FAIL), AuthFailed);
      }
    }

    method HandleConfigure(f: Frame, now: nat)
      requires Attached()
      modifies `my, outbox, env, backend`my, backend.parser
      ensures Attached() && backend.Snap() == Model.HandleConfigure(old(backend.Snap()), f, now)
      ensures Live(backend.my) ==> Live(old(backend.my)) && backend.parser.have == old(backend.parser.have)
    {
      hide Model.BeginConfigure, DecodeConfig;
      var c := DecodeConfig(f);
      if c.None? {
        Reject(Byte1(CONFIG_RESULT, CFG_INVALID), ConfigFailed);
        return;
      }
      var token := backend.BeginConfigure(c.value, now);
      if token == 0 {
        Reject(Byte1(CONFIG_RESULT, CFG_UNSUPPORTED), ConfigFailed);
        return;
      }
      my := my.(opToken := token, requested := c.value, phase := Settling);
      Arm(now, env.setup.to.config, ConfigTimeout);
    }

    method HandlePong(now: nat)
      requires Attached()
      modifies `my, env
      ensures Attached() && backend.Snap() == Model.HandlePong(old(backend.Snap()), now)
    {
      if !my.awaitingPong {
        Close(BadState);
        return;
      }
      my := my.(awaitingPong := false, nextPingAt := now + env.setup.to.pingInterval);
    }

    method HandleTxRequest(f: Frame, now: nat)
      requires Attached()
      modifies `my, env, backend`my, backend.parser
      ensures Attached() && backend.Snap() == Model.HandleTxRequest(old(backend.Snap()), f, now)
      ensures Live(backend.my) ==> Live(old(backend.my)) && backend.parser.have == old(backend.parser.have)
    {
      hide Model.SubmitTx;
      if my.txInFlight {
        Close(BadState);
        return;
      }
      my := my.(txSeq := f.sn);
      var ok := backend.SubmitTx(f.payload);
      if !ok {
        Close(BackendFailure);
        return;
      }
      my := my.(txInFlight := true, txDeadlineAt := now + env.setup.to.tx);
    }

    method HandleFrame(f: Frame, now: nat)
      requires Attached()
      modifies `my, outbox, env, backend`my, backend.parser
      ensures Attached() && backend.Snap() == Model.HandleFrame(old(backend.Snap()), f, now)
      ensures Live(backend.my) ==> Live(old(backend.my)) && backend.parser.have == old(backend.parser.have)
    {
      env.Note(XrIn(f));
      if !WellFormed(f) {
        Close(MalformedFrame);
        return;
      }
      if !IsClientMessage(f.ty) {
        Close(BadState);
        return;
      }
      if f.ty == XR_ERROR {
        Close(RemoteError);
        return;
      }
      HandleInPhase(f, now);
    }

    method HandleInPhase(f: Frame, now: nat)
      requires Attached()
      modifies `my, outbox, env, backend`my, backend.parser
      ensures Attached() && backend.Snap() == InPhase(old(backend.Snap()), f, now)
      ensures Live(backend.my) ==> Live(old(backend.my)) && backend.parser.have == old(backend.parser.have)
    {
      hide Model.HandleHello, Model.HandleAuth, Model.HandleConfigure, InReady, CloseSession;
      if my.phase.Operational? {
        HandleReadyFrame(f, now);
      } else if my.phase.WaitConfigure? && f.ty == CONFIGURE {
        HandleConfigure(f, now);
      } else if !my.phase.Closed? {
        HandleGreeting(f, now);
      }
    }

    // The frames before a CONFIGURE; any other closes.
    method HandleGreeting(f: Frame, now: nat)
      requires Attached() && !my.phase.Operational? && !my.phase.Closed?
      requires !(my.phase.WaitConfigure? && f.ty == CONFIGURE)
      modifies `my, outbox, env
      ensures Attached() && backend.Snap() == InPhase(old(backend.Snap()), f, now)
    {
      hide Model.HandleHello, Model.HandleAuth, Model.HandleConfigure, InReady, CloseSession;
      if my.phase.WaitHello? && f.ty == HELLO {
        HandleHello(now);
      } else if my.phase.WaitAuth? && f.ty == AUTH_RESPONSE {
        HandleAuth(f, now);
      } else {
        Close(BadState);
      }
    }

    method HandleReadyFrame(f: Frame, now: nat)
      requires Attached()
      modifies `my, env, backend`my, backend.parser
      ensures Attached() && backend.Snap() == InReady(old(backend.Snap()), f, now)
      ensures Live(backend.my) ==> Live(old(backend.my)) && backend.parser.have == old(backend.parser.have)
    {
      hide Model.HandleTxRequest, Model.HandlePong;
      if f.ty == PONG {
        HandlePong(now);
      } else if f.ty == TX_REQUEST {
        HandleTxRequest(f, now);
      } else {
        Close(BadState);
      }
    }

    // Input held for a closed session does not matter.
    ghost function Held(): seq<byte>
      reads `my, parser, parser.buf
      requires parser.Valid()
    {
      if my.phase.Closed? then [] else parser.Held()
    }

    // Pop one frame and act on it.
    method TakeFrame(now: nat) returns (r: Round)
      requires Attached() && !my.phase.Closed?
      modifies `my, outbox, env, backend`my, backend.parser, parser, parser.buf
      ensures Attached()
      ensures Live(backend.my) ==> Live(old(backend.my)) && backend.parser.have == old(backend.parser.have)
      ensures match PopFrame(Xr, old(parser.Held()))
              case NeedMore =>
                r == Hungry && backend.Snap() == old(backend.Snap()) && parser.Held() == old(parser.Held()) &&
                parser.have < MaxFrame(Xr)
              case Bad => r == Left && backend.Snap() == CloseSession(old(backend.Snap()), ParserError)
              case Got(f, rest) =>
                && backend.Snap() == Model.HandleFrame(old(backend.Snap()), f, now)
                && (if my.phase.Closed? then r == Left else r == Again && parser.Held() == rest)
      ensures r.Left? <==> my.phase.Closed?
    {
      hide PopFrame, Model.HandleFrame;
      var p := parser.PopOne();
      if p.Got? {
        HandleFrame(p.frame, now);
        return if my.phase.Closed? then Left else Again;
      }
      if p.Bad? {
        Close(ParserError);
        return Left;
      }
      return Hungry;
    }

    method Feed(data: seq<byte>, now: nat)
      requires Attached()
      modifies `my, outbox, env, backend`my, backend.parser, parser, parser.buf
      ensures Attached()
      ensures (backend.Snap(), Held()) == Model.Feed(old(backend.Snap()), old(Held()), data, now)
      ensures Live(backend.my) ==> Live(old(backend.my)) && backend.parser.have == old(backend.parser.have)
    {
      hide Consume, PopFrame, Model.HandleFrame, CloseSession;
      if my.phase.Closed? {
        return;
      }
      var off := 0;
      while true
        invariant off <= |data| && Attached() && !my.phase.Closed?
        invariant Consume(backend.Snap(), parser.Held() + data[off..], now) ==
                  Consume(old(backend.Snap()), old(parser.Held()) + data, now)
        invariant Live(backend.my) ==> Live(old(backend.my)) && backend.parser.have == old(backend.parser.have)
        decreases |parser.Held()| + |data| - off, |data| - off
      {
        ConsumeStep(backend.Snap(), parser.Held(), data[off..], now);
        var r := TakeFrame(now);
        if r.Left? {
          return;
        }
        if r.Again? {
          continue;
        }
        if off >= |data| {
          return;
        }
        off := parser.Refill(data, off);
      }
    }

    // --- time ----------------------------------------------------------------

    method SendPing(now: nat)
      requires Attached()
      modifies `my, outbox, env
      ensures Attached() && backend.Snap() == Model.SendPing(old(backend.Snap()), now)
    {
      var ok := Emit(Frame(PING, 0, []));
      if ok {
        my := my.(awaitingPong := true, pongDeadlineAt := now + env.setup.to.pongTimeout);
      }
    }

    method Tick(now: nat)
      requires Attached()
      modifies `my, outbox, env, backend`my, backend.parser
      ensures Attached() && backend.Snap() == Model.Tick(old(backend.Snap()), now)
      ensures Live(backend.my) ==> Live(old(backend.my)) && backend.parser.have == old(backend.parser.have)
    {
      if my.phase.Closed? {
        return;
      }
      if my.armed && now >= my.deadlineAt {
        Close(my.deadlineReason);
        return;
      }
      if !my.phase.Operational? {
        return;
      }
      if my.txInFlight && now >= my.txDeadlineAt {
        backend.AbandonPendingTx(now);
        Close(TxTimeoutUncertain);
        return;
      }
      if my.awaitingPong {
        if now >= my.pongDeadlineAt {
          Close(PongTimeout);
        }
      } else if now >= my.nextPingAt {
        SendPing(now);
      }
    }

    method NextDeadline() returns (d: Option<nat>)
      ensures d == SessionDeadline(View())
    {
      if my.phase.Closed? {
        return None;
      }
      d := None;
      if my.armed {
        d := Earlier(d, Some(my.deadlineAt));
      }
      if my.phase.Operational? {
        if my.txInFlight {
          d := Earlier(d, Some(my.txDeadlineAt));
        }
        d := Earlier(d, Some(if my.awaitingPong then my.pongDeadlineAt else my.nextPingAt));
      }
    }
  }

  class LorahamBackend {
    const env: Env
    const parser: FrameParser
    var sink: XrSession?
    var my: Backend

    // The parser holds nothing unless the link is live.
    ghost predicate Valid()
      reads `my, parser
    {
      parser.Valid() && parser.codec == FromDaemon && (Live(my) || parser.have == 0)
    }

    ghost function Sink(): Option<Session>
      reads `sink, sink, if sink == null then {} else {sink.outbox}
    {
      if sink == null then None else Some(sink.View())
    }

    // The state of the whole system, as the model has it.
    ghost function Snap(): Sys
      reads `my, `sink, env, sink, if sink == null then {} else {sink.outbox}
    {
      Sys(my, Sink(), env.Now())
    }

    constructor (env: Env)
      ensures this.env == env && sink == null && my == COLD
      ensures fresh(parser) && fresh(parser.buf) && Valid()
    {
      this.env, sink, my := env, null, COLD;
      parser := new FrameParser(FromDaemon);
    }

    method Start()
      modifies `my
      ensures my == old(my).(started := true)
    {
      my := my.(started := true);
    }

    method PumpTxWrite() returns (r: Flush)
      modifies `my, env
      ensures (Snap(), r) == PumpTx(old(Snap()))
    {
      hide PumpTx;
      ghost var s := Sink();
      while my.txOff < |my.txOut|
        invariant PumpTx(Sys(my, s, env.Now())) == PumpTx(old(Snap()))
        decreases |my.txOut| - my.txOff
      {
        ghost var y := Sys(my, s, env.Now());
        PumpTxStep(y);
        var w := env.DataSendSome(my.txOut[my.txOff..]);
        if w < 0 { return FlushFailed; }
        if w == 0 { return Partial; }
        assert my.txOut[my.txOff..][..w] == my.txOut[my.txOff..my.txOff + w];
        my := my.(txOff := my.txOff + w);
        assert Sys(my, s, env.Now()) == Wrote(y, w);
      }
      PumpTxStep(Snap());
      r := Complete;
    }

    // --- configuration -------------------------------------------------------

    // Write the queued commands.
    method FlushConf() returns (r: Flush)
      modifies `my, env
      ensures (Snap(), r) == PumpConfOut(old(Snap()))
    {
      hide PumpConfOut;
      ghost var s := Sink();
      while my.confOff < |my.confOut|
        invariant PumpConfOut(Sys(my, s, env.Now())) == PumpConfOut(old(Snap()))
        decreases |my.confOut| - my.confOff
      {
        ghost var y := Sys(my, s, env.Now());
        PumpConfOutStep(y);
        var w := env.ConfSendSome(my.confOut[my.confOff..]);
        if w < 0 { return FlushFailed; }
        if w == 0 { return Partial; }
        assert my.confOut[my.confOff..][..w] == my.confOut[my.confOff..my.confOff + w];
        my := my.(confOff := my.confOff + w);
        assert Sys(my, s, env.Now()) == ConfWrote(y, w);
      }
      PumpConfOutStep(Snap());
      r := Complete;
    }

    // Take complete lines off the front of the reassembly buffer.
    method ReadLines(awaiting: bool) returns (r: ConfRead)
      modifies `my
      ensures var v := Scan(old(my.confLine), awaiting);
              my == old(my).(confLine := v.rest) && r == ReadOf(v)
    {
      hide Scan;
      ScanStep(my.confLine, awaiting);
      while FindNl(my.confLine) < |my.confLine|
        invariant my == old(my).(confLine := my.confLine)
        invariant Scan(my.confLine, awaiting) == Scan(old(my.confLine), awaiting)
        decreases |my.confLine|
      {
        var nl := FindNl(my.confLine);
        ScanStep(my.confLine, awaiting);
        var line := Trim(my.confLine[..nl]);
        my := my.(confLine := my.confLine[nl + 1..]);
        if line == "" || IsBroadcast(line) { continue; }
        if awaiting {
          if line == "OK" { continue; }
          if StartsWith(line, "ERR") { return ConfFailed; }
        }
        if StartsWith(line, "STATUS") {
          if !awaiting { return ConfFailed; }
          return ConfStatus(RadioReady(line));
        }
        return ConfFailed;
      }
      ScanStep(my.confLine, awaiting);
      r := ConfQuiet;
    }

    method PumpConf(awaiting: bool) returns (r: ConfRead)
      modifies `my, env
      ensures (Snap(), r) == Model.PumpConf(old(Snap()), awaiting)
    {
      hide Model.PumpConf, Scan;
      ghost var s := Sink();
      while true
        invariant Model.PumpConf(Sys(my, s, env.Now()), awaiting) == Model.PumpConf(old(Snap()), awaiting)
        decreases |env.script.confIn|
      {
        PumpConfStep(Sys(my, s, env.Now()), awaiting);
        var n, text := env.ConfRecv();
        if n < 0 { return ConfFailed; }
        if n == 0 { return ConfQuiet; }
        my := my.(confLine := my.confLine + text);
        if |my.confLine| > MAX_CONF_LINE { return ConfFailed; }
        r := ReadLines(awaiting);
        if !r.ConfQuiet? { return; }
        if n < READ_CHUNK { return; }
      }
    }

    // --- the link ------------------------------------------------------------

    ghost function SinkSet(): set<object>
      reads `sink
    {
      if sink == null then {} else {sink, sink.outbox}
    }

    ghost predicate Wired()
      reads `sink, `my, parser, sink, if sink == null then {} else {sink.outbox, sink.parser}
    {
      Valid() && (sink != null ==> sink.backend == this && sink.Attached())
    }

    method ResetLink()
      requires parser.Valid() && parser.codec == FromDaemon
      modifies `my, parser, env
      ensures Valid() && Snap() == Model.ResetLink(old(Snap())) && !Live(my)
    {
      env.Note(LinkDown);
      my := my.(state := Disconnected, confLine := "", confOut := "", confOff := 0,
                txOut := [], txOff := 0, awaiting := false);
      parser.Reset();
    }

    method LogTxOutcome(ok: bool)
      modifies env
      ensures Snap() == Model.LogTxOutcome(old(Snap()), ok)
    {
      if |my.txOut| <= HeaderLen(ToDaemon) {
        return;
      }
      env.Note(LogTx(ok, my.txOut[HeaderLen(ToDaemon)..]));
    }

    method EnterFault()
      requires parser.Valid() && parser.codec == FromDaemon
      modifies `my, parser, env
      ensures Valid() && Snap() == Model.EnterFault(old(Snap())) && !Live(my)
    {
      LogTxOutcome(false);
      env.Note(LinkDown);
      my := my.(state := Faulted, confLine := "", confOut := "", confOff := 0,
                txOut := [], txOff := 0, awaiting := false);
      parser.Reset();
    }

    method TellFailure()
      requires Wired()
      modifies env, SinkSet()
      ensures Wired() && Snap() == Model.TellFailure(old(Snap()))
    {
      if sink != null {
        sink.OnBackendFailure();
      }
    }

    method HandleDisconnect()
      requires Wired()
      modifies `my, parser, env, SinkSet()
      ensures Wired() && Snap() == Model.HandleDisconnect(old(Snap()))
      ensures my.state.Disconnected? || my.state.Faulted?
    {
      if my.state.Draining? {
        EnterFault();
        return;
      }
      if my.state.TxPending? {
        EnterFault();
        TellFailure();
        return;
      }
      ResetLink();
      TellFailure();
    }

    method ConfigSucceed(now: nat)
      requires Wired()
      modifies `my, env, SinkSet()
      ensures Wired() && Snap() == Model.ConfigSucceed(old(Snap()), now)
    {
      my := my.(state := Ready, txEpoch := NextU32(my.txEpoch), confOut := "", confOff := 0, awaiting := false);
      if sink != null {
        sink.OnConfigureComplete(my.configToken, Some(my.pendingCfg), now);
      }
    }

    method ConfigFail(now: nat)
      requires Wired()
      modifies `my, parser, env, SinkSet()
      ensures Wired() && Snap() == Model.ConfigFail(old(Snap()), now) && !Live(my)
    {
      ResetLink();
      if sink != null {
        sink.OnConfigureComplete(my.configToken, None, now);
      }
    }

    // Refused with 0. Otherwise the rest of the configure progresses in Poll.
    method BeginConfigure(c: RadioConfig, now: nat) returns (token: nat)
      requires Valid()
      modifies `my, parser, env
      ensures Valid() && (Snap(), token) == Model.BeginConfigure(old(Snap()), c, now)
      ensures Live(my) ==> Live(old(my)) && parser.have == old(parser.have)
    {
      hide Commands, SetCommand;
      if my.state.Faulted? || my.state.Draining? || my.state.Connecting? || my.state.Configuring? ||
         my.state.TxWriting? || my.state.TxPending?
      {
        return 0;
      }
      if Validate(c) != Ok || SetCommand(c).None? { return 0; }
      var dialled := env.Dial(SelectBand(c.freqHz).value, my.state.Ready?);
      if !dialled { return 0; }
      token := StartConfigure(c, now);
      env.Note(CfgBegin(token, c));
    }

    method StartConfigure(c: RadioConfig, now: nat) returns (token: nat)
      requires parser.Valid() && parser.codec == FromDaemon && SetCommand(c).Some?
      modifies `my, parser
      ensures Valid() && !Live(my) && token == NextU32(old(my.nextToken))
      ensures my == old(my).(confOut := Commands(c), confOff := 0, awaiting := false, confLine := "",
                             pendingCfg := c, state := Connecting, nextToken := token, configToken := token,
                             configDeadline := now + env.setup.configTimeout)
    {
      var out := "SET TXMODE=MANAGED\n";
      out := out + "SET TXQUEUE=1\n";
      out := out + "SET TXRESULT=1\n";
      out := out + SetCommand(c).value;
      out := out + "GET STATUS\n";
      token := NextU32(my.nextToken);
      my := my.(confOut := out, confOff := 0, awaiting := false, confLine := "",
                pendingCfg := c, state := Connecting, nextToken := token, configToken := token,
                configDeadline := now + env.setup.configTimeout);
      parser.Reset();
    }

    method AdvanceConfigure(now: nat)
      requires Wired()
      modifies `my, parser, env, SinkSet()
      ensures Wired() && Snap() == Model.AdvanceConfigure(old(Snap()), now)
      ensures Live(my) ==> parser.have == old(parser.have)
    {
      var flushed := FlushConf();
      if flushed.FlushFailed? {
        ConfigFail(now);
        return;
      }
      if my.confOff >= |my.confOut| {
        my := my.(awaiting := true);
      }
      if my.awaiting {
        ReadStatus(now);
      }
    }

    method ReadStatus(now: nat)
      requires Wired()
      modifies `my, parser, env, SinkSet()
      ensures Wired() && Snap() == Model.ReadStatus(old(Snap()), now)
      ensures Live(my) ==> parser.have == old(parser.have)
    {
      hide Model.PumpConf, Model.ConfigFail, Model.ConfigSucceed;
      var r := PumpConf(true);
      if r.ConfFailed? {
        ConfigFail(now);
      } else if r.ConfStatus? {
        if r.ready {
          ConfigSucceed(now);
        } else {
          ConfigFail(now);
        }
      }
    }

    method AdvanceConnect(now: nat)
      requires Wired() && !Live(my)
      modifies `my, parser, env, SinkSet()
      ensures Wired() && Snap() == Model.AdvanceConnect(old(Snap()), now)
      ensures Live(my) ==> parser.have == old(parser.have)
    {
      var c := env.PollConnect();
      if c.ConnectFailed? {
        ConfigFail(now);
        return;
      }
      if c.StillConnecting? {
        return;
      }
      my := my.(state := Configuring);
      AdvanceConfigure(now);
    }

    // --- transmission --------------------------------------------------------

    method SubmitTx(rf: seq<byte>) returns (ok: bool)
      requires Valid()
      modifies `my, parser, env
      ensures Valid() && (Snap(), ok) == Model.SubmitTx(old(Snap()), rf)
      ensures Live(my) ==> Live(old(my)) && parser.have == old(parser.have)
    {
      if !my.started || !my.state.Ready? {
        return false;
      }
      if |rf| == 0 || |rf| > MAX_RF {
        return false;
      }
      my := my.(txOut := Encode(ToDaemon, TxPacketFrame(rf)), txOff := 0, txEpoch := NextU32(my.txEpoch),
                pendingEpoch := NextU32(my.txEpoch), state := TxWriting);
      var r := PumpTxWrite();
      if r.FlushFailed? {
        ResetLink();
        return false;
      }
      if r.Complete? {
        my := my.(state := TxPending);
      }
      return true;
    }

    method AbandonPendingTx(now: nat)
      requires Valid()
      modifies `my, parser, env
      ensures Valid() && Snap() == AbandonTx(old(Snap()), now)
      ensures Live(my) ==> Live(old(my)) && parser.have == old(parser.have)
    {
      if my.state.TxPending? {
        my := my.(state := Draining, drainDeadline := now + env.setup.drainTimeout);
        return;
      }
      if my.state.TxWriting? {
        ResetLink();
      }
    }

    method Stop()
      requires Valid()
      modifies `my, parser, env
      ensures Valid() && Snap() == Model.Stop(old(Snap()))
      ensures Live(my) ==> Live(old(my)) && parser.have == old(parser.have)
    {
      if my.state.Draining? || my.state.Faulted? {
        my := my.(started := false);
        return;
      }
      ResetLink();
      my := my.(started := false);
    }

    // --- daemon frames -------------------------------------------------------

    method DispatchRx(rx: Rx)
      requires Wired()
      modifies env, SinkSet()
      ensures Wired() && Snap() == Model.DispatchRx(old(Snap()), rx)
    {
      env.Note(LogRx(rx));
      if !(my.state.Ready? || my.state.TxWriting? || my.state.TxPending?) || sink == null {
        return;
      }
      sink.OnRx(rx);
    }

    method DispatchAnswer(o: TxOutcome)
      requires Wired()
      modifies `my, parser, env, SinkSet()
      ensures Wired() && Snap() == Model.DispatchAnswer(old(Snap()), o)
      ensures Live(my) ==> parser.have == old(parser.have)
    {
      if my.state.TxPending? {
        my := my.(state := Ready, txOut := [], txOff := 0);
        if sink != null && my.pendingEpoch == my.txEpoch {
          sink.OnTxComplete(o);
        }
        return;
      }
      if my.state.Draining? {
        ResetLink();
      }
    }

    method Dispatch(f: Frame)
      requires Wired()
      modifies `my, parser, env, SinkSet()
      ensures Wired() && Snap() == Model.Dispatch(old(Snap()), f)
      ensures Live(my) ==> parser.have == old(parser.have)
    {
      env.Note(Heard(f));
      if f.ty == RX_PACKET {
        var rx := DecodeRx(f);
        if rx.Some? {
          DispatchRx(rx.value);
        }
      } else if f.ty == TX_RESULT {
        var result := DecodeTxResult(f);
        if result.Some? {
          var status := result.value.status;
          if status == STATUS_OK && (my.state.TxPending? || my.state.Draining?) {
            LogTxOutcome(true);
          }
          DispatchAnswer(MapTxStatus(status));
        }
      } else if f.ty == DAEMON_ERROR {
        DispatchAnswer(RadioError);
      }
    }

    // Pop one frame and act on it.
    method TakeFrame(draining: bool) returns (r: Round)
      requires Wired() && Live(my) && my.state.Draining? == draining
      modifies `my, parser, parser.buf, env, SinkSet()
      ensures Wired()
      ensures match PopFrame(FromDaemon, old(parser.Held()))
              case NeedMore =>
                r == Hungry && Snap() == old(Snap()) && parser.Held() == old(parser.Held()) &&
                parser.have < MaxFrame(FromDaemon)
              case Bad => r == Left && Snap() == Model.HandleDisconnect(old(Snap()))
              case Got(f, rest) =>
                && Snap() == Model.Dispatch(old(Snap()), f)
                && (if LeftLoop(my, draining) then r == Left else r == Again && parser.Held() == rest)
      ensures r.Left? ==> LeftLoop(my, draining) && parser.have == 0
      ensures !r.Left? ==> Live(my) && my.state.Draining? == draining
    {
      hide PopFrame, Model.Dispatch, Model.HandleDisconnect;
      ghost var y := Snap();
      var p := parser.PopOne();
      if p.Got? {
        DispatchStates(y, p.frame);
        Dispatch(p.frame);
        return if LeftLoop(my, draining) then Left else Again;
      }
      if p.Bad? {
        HandleDisconnect();
        return Left;
      }
      return Hungry;
    }

    // Pop and dispatch frames until the bytes of one read are used up or the state
    // is no longer the loop's own.
    method ReadFrames(bytes: seq<byte>, draining: bool)
      requires Wired() && Live(my) && my.state.Draining? == draining
      modifies `my, parser, parser.buf, env, SinkSet()
      ensures Wired()
      ensures (Snap(), parser.Held()) == Digest(old(Snap()), old(parser.Held()) + bytes, draining)
      ensures LeftLoop(my, draining) || (Live(my) && my.state.Draining? == draining)
    {
      hide Digest, PopFrame, Model.Dispatch, Model.HandleDisconnect;
      var off := 0;
      while true
        invariant off <= |bytes| && Wired() && Live(my) && my.state.Draining? == draining
        invariant Digest(Snap(), parser.Held() + bytes[off..], draining) ==
                  Digest(old(Snap()), old(parser.Held()) + bytes, draining)
        decreases |parser.Held()| + |bytes| - off, |bytes| - off
      {
        DigestStep(Snap(), parser.Held(), bytes[off..], draining);
        var r := TakeFrame(draining);
        if r.Left? {
          return;
        }
        if r.Again? {
          continue;
        }
        if off >= |bytes| {
          return;
        }
        off := parser.Refill(bytes, off);
      }
    }

    // One read and its frames; true when there may be more to read.
    method ReadOnce(draining: bool) returns (again: bool)
      requires Wired() && Live(my) && my.state.Draining? == draining
      modifies `my, parser, parser.buf, env, SinkSet()
      ensures Wired() && sink == old(sink)
      ensures Model.ReadData(old(Snap()), old(parser.Held()), draining) ==
              if again then Model.ReadData(Snap(), parser.Held(), draining) else (Snap(), parser.Held())
      ensures again ==> Live(my) && my.state.Draining? == draining
      ensures again ==> |env.script.dataIn| < |old(env.script.dataIn)|
    {
      hide Model.ReadData, Digest, Model.HandleDisconnect;
      ReadDataStep(Snap(), parser.Held(), draining);
      var n, bytes := env.DataRecv();
      if n < 0 {
        HandleDisconnect();
        return false;
      }
      if n == 0 {
        return false;
      }
      ReadFrames(bytes, draining);
      return !LeftLoop(my, draining) && n >= READ_CHUNK;
    }

    // The receive loop.
    method ReadData(draining: bool)
      requires Wired() && Live(my) && my.state.Draining? == draining
      modifies `my, parser, parser.buf, env, SinkSet()
      ensures Wired()
      ensures (Snap(), parser.Held()) == Model.ReadData(old(Snap()), old(parser.Held()), draining)
    {
      hide Model.ReadData;
      var again := true;
      while again
        invariant Wired() && (again ==> Live(my) && my.state.Draining? == draining)
        invariant Model.ReadData(old(Snap()), old(parser.Held()), draining) ==
                  if again then Model.ReadData(Snap(), parser.Held(), draining) else (Snap(), parser.Held())
        decreases again, |env.script.dataIn|
      {
        again := ReadOnce(draining);
      }
    }

    // Resume an interrupted write.
    method ResumeTx()
      requires Wired()
      modifies `my, parser, env, SinkSet()
      ensures Wired() && Snap() == Model.ResumeTx(old(Snap()))
      ensures my.state.Draining? ==> old(my).state.Draining?
      ensures Live(my) ==> Live(old(my)) && parser.have == old(parser.have)
    {
      if !my.state.TxWriting? {
        return;
      }
      var r := PumpTxWrite();
      if r.FlushFailed? {
        ResetLink();
        TellFailure();
      } else if r.Complete? {
        my := my.(state := TxPending);
      }
    }

    method AdvanceOperational()
      requires Wired() && Live(my) && !my.state.Draining?
      modifies `my, parser, parser.buf, env, SinkSet()
      ensures Wired()
      ensures (Snap(), parser.Held()) == Model.AdvanceOperational(old(Snap()), old(parser.Held()))
    {
      hide Model.PumpConf, Model.HandleDisconnect, Model.ResumeTx, Model.ReadData;
      var r := PumpConf(false);
      if r.ConfFailed? {
        HandleDisconnect();
        return;
      }
      ResumeTx();
      if Live(my) {
        ReadData(false);
      }
    }

    method DrainConfInput()
      modifies env
      ensures Snap() == DrainConf(old(Snap()))
    {
      hide DrainConf;
      ghost var b, s := my, Sink();
      while true
        invariant DrainConf(Sys(b, s, env.Now())) == DrainConf(old(Snap()))
        decreases |env.script.confIn|
      {
        DrainConfStep(Sys(b, s, env.Now()));
        var n, text := env.ConfRecv();
        if n <= 0 || n < READ_CHUNK {
          return;
        }
      }
    }

    method AdvanceDrain(now: nat)
      requires Wired() && my.state.Draining?
      modifies `my, parser, parser.buf, env, SinkSet()
      ensures Wired()
      ensures (Snap(), parser.Held()) == Model.AdvanceDrain(old(Snap()), old(parser.Held()), now)
    {
      if now >= my.drainDeadline {
        EnterFault();
        return;
      }
      DrainConfInput();
      ReadData(true);
    }

    method Poll(now: nat)
      requires Wired()
      modifies `my, parser, parser.buf, env, SinkSet()
      ensures Wired()
      ensures (Snap(), parser.Held()) == Model.Poll(old(Snap()), old(parser.Held()), now)
    {
      match my.state
      case Disconnected =>
      case Faulted =>
      case Connecting =>
        if now >= my.configDeadline { ConfigFail(now); } else { AdvanceConnect(now); }
      case Configuring =>
        if now >= my.configDeadline { ConfigFail(now); } else { AdvanceConfigure(now); }
      case Draining => AdvanceDrain(now);
      case _ => AdvanceOperational();
    }

    method NextDeadline() returns (d: Option<nat>)
      ensures d == BackendDeadline(my)
    {
      if my.state.Connecting? || my.state.Configuring? {
        return Some(my.configDeadline);
      }
      if my.state.Draining? {
        return Some(my.drainDeadline);
      }
      return None;
    }
  }

  datatype Round = Hungry | Again | Left

  // --- one round of each of the model's loops --------------------------------

  // w bytes of the commands are accepted.
  ghost function ConfWrote(y: Sys, w: nat): Sys
    requires y.b.confOff + w <= |y.b.confOut|
  {
    var y1 := y.(w := y.w.(script := y.w.script.(confRoom := Tail(y.w.script.confRoom))));
    Note(y1.(b := y1.b.(confOff := y.b.confOff + w)), ConfTx(y.b.confOut[y.b.confOff..y.b.confOff + w]))
  }

  lemma PumpConfOutStep(y: Sys)
    ensures var left, room := |y.b.confOut| - y.b.confOff, Room(y.w.script.confRoom);
            var y1 := y.(w := y.w.(script := y.w.script.(confRoom := Tail(y.w.script.confRoom))));
            PumpConfOut(y) ==
              if left <= 0 then (y, Complete)
              else if room < 0 then (y1, FlushFailed)
              else if room == 0 then (y1, Partial)
              else PumpConfOut(ConfWrote(y, Min(room, left)))
  {
  }

  function ReadOf(v: Verdict): ConfRead {
    match v
    case Pending(_) => ConfQuiet
    case Failed(_) => ConfFailed
    case GotStatus(ready, _) => ConfStatus(ready)
  }

  lemma ScanStep(s: string, awaiting: bool)
    ensures var nl := FindNl(s);
            Scan(s, awaiting) ==
              if nl == |s| then Pending(s)
              else match Classify(TrimRight(s[..nl]), awaiting)
                   case Skip => Scan(s[nl + 1..], awaiting)
                   case Fatal => Failed(s[nl + 1..])
                   case Status(ready) => GotStatus(ready, s[nl + 1..])
  {
  }

  lemma PumpConfStep(y: Sys, awaiting: bool)
    ensures var input := y.w.script.confIn;
            input != [] ==>
              var y1 := y.(w := y.w.(script := y.w.script.(confIn := input[1..])));
              if input[0].Gone? then Model.PumpConf(y, awaiting) == (y1, ConfFailed)
              else
                var line := y.b.confLine + input[0].bytes;
                var y2 := Note(y1, ConfRx(input[0].bytes));
                if |line| > MAX_CONF_LINE then
                  Model.PumpConf(y, awaiting) == (y2.(b := y2.b.(confLine := line)), ConfFailed)
                else
                  var v := Scan(line, awaiting);
                  var y3 := y2.(b := y2.b.(confLine := v.rest));
                  Model.PumpConf(y, awaiting) ==
                    if v.Pending? && |input[0].bytes| >= READ_CHUNK then Model.PumpConf(y3, awaiting)
                    else (y3, ReadOf(v))
    ensures y.w.script.confIn == [] ==> Model.PumpConf(y, awaiting) == (y, ConfQuiet)
  {
    hide Scan;
  }

  // Cut trailing blanks.
  method Trim(text: string) returns (line: string)
    ensures line == TrimRight(text)
  {
    line := text;
    while line != "" && IsBlank(line[|line| - 1])
      invariant TrimRight(line) == TrimRight(text)
      decreases |line|
    {
      line := line[..|line| - 1];
    }
  }

  lemma DigestStep(y: Sys, held: seq<byte>, more: seq<byte>, draining: bool)
    ensures var r, d := PopFrame(FromDaemon, held), Digest(y, held + more, draining);
            && (r.Got? ==>
                  var y1 := Model.Dispatch(y, r.frame);
                  && |r.rest| < |held|
                  && d == if LeftLoop(y1.b, draining) then (y1, []) else Digest(y1, r.rest + more, draining))
            && (r.Bad? ==> d == (Model.HandleDisconnect(y), []))
            && (r.NeedMore? && more == [] ==> d == (y, held))
  {
    hide Model.Dispatch, Model.HandleDisconnect;
    PopStable(FromDaemon, held, more);
    assert held + [] == held;
  }

  lemma ReadDataStep(y: Sys, held: seq<byte>, draining: bool)
    ensures var input, d := y.w.script.dataIn, Model.ReadData(y, held, draining);
            && (input == [] ==> d == (y, held))
            && (input != [] ==>
                  var y1 := y.(w := y.w.(script := y.w.script.(dataIn := input[1..])));
                  if input[0].Gone? then d == (Model.HandleDisconnect(y1), [])
                  else
                    var (y2, h) := Digest(Note(y1, DataRx(input[0].bytes)), held + input[0].bytes, draining);
                    d == if LeftLoop(y2.b, draining) || |input[0].bytes| < READ_CHUNK then (y2, h)
                         else Model.ReadData(y2, h, draining))
  {
    hide Digest, Model.HandleDisconnect;
  }

  lemma DrainConfStep(y: Sys)
    ensures var input := y.w.script.confIn;
            if input == [] then DrainConf(y) == y
            else
              var y1 := y.(w := y.w.(script := y.w.script.(confIn := input[1..])));
              if input[0].Gone? then DrainConf(y) == y1
              else
                var y2 := Note(y1, ConfRx(input[0].bytes));
                DrainConf(y) == if |input[0].bytes| < READ_CHUNK then y2 else DrainConf(y2)
  {
  }

  lemma ConsumeStep(y: Sys, held: seq<byte>, more: seq<byte>, now: nat)
    requires y.sink.Some?
    ensures var r, d := PopFrame(Xr, held), Consume(y, held + more, now);
            && (r.Got? ==>
                  var y1 := Model.HandleFrame(y, r.frame, now);
                  && |r.rest| < |held|
                  && d == if IsClosed(y1) then (y1, []) else Consume(y1, r.rest + more, now))
            && (r.Bad? ==> d == (CloseSession(y, ParserError), []))
            && (r.NeedMore? && more == [] ==> d == (y, held))
  {
    hide Model.HandleFrame, CloseSession;
    PopStable(Xr, held, more);
    assert held + [] == held;
  }
}
