// The bridge as functions on values: the daemon backend, the XR session that is
// its event sink, the connection around the session and the server loop around
// both. Bridge.dfy holds the objects that are proved to compute these functions.
module Model {
  import opened Bytes
  import opened Frames
  import opened Messages
  import opened ConfText
  import opened Radio
  import opened World

  // --- state -----------------------------------------------------------------

  datatype State =
    | Disconnected | Connecting | Configuring | Ready | TxWriting | TxPending | Draining | Faulted

  datatype Backend = Backend(
    state: State, started: bool,
    configToken: nat, nextToken: nat, configDeadline: nat, pendingCfg: RadioConfig,
    confOut: string, confOff: nat, awaiting: bool, confLine: string,
    drainDeadline: nat, txOut: seq<byte>, txOff: nat, txEpoch: nat, pendingEpoch: nat)

  datatype Phase = WaitHello | WaitAuth | WaitConfigure | Settling | Operational | Closed

  datatype Session = Session(
    phase: Phase, closeReason: CloseReason,
    armed: bool, deadlineAt: nat, deadlineReason: CloseReason,
    nonce: seq<byte>, requested: RadioConfig, opToken: nat,
    txInFlight: bool, txSeq: nat, txDeadlineAt: nat,
    awaitingPong: bool, nextPingAt: nat, pongDeadlineAt: nat,
    outbox: seq<byte>)

  // `sink` is the session attached to the backend, if any.
  datatype Sys = Sys(b: Backend, sink: Option<Session>, w: World)

  // The running server: the system, the incomplete input frames held by the two
  // stream parsers, and the client socket's failure flag.
  datatype Node = Node(y: Sys, held: seq<byte>, xrHeld: seq<byte>, broken: bool)

  const NO_CONFIG: RadioConfig := RadioConfig(0, 0, 0, 0, 0, 0, 0, 0, 0)

  const COLD: Backend := Backend(
    Disconnected, false, 0, 0, 0, NO_CONFIG, "", 0, false, "", 0, [], 0, 0, 0)

  // States in which the DATA socket is read.
  predicate Live(b: Backend) {
    b.state.Ready? || b.state.TxWriting? || b.state.TxPending? || b.state.Draining?
  }

  function Note(y: Sys, e: Event): Sys {
    y.(w := Log(y.w, e))
  }

  predicate IsClosed(y: Sys) {
    y.sink.Some? && y.sink.value.phase.Closed?
  }

  // --- session: output and close ---------------------------------------------

  function CloseSession(y: Sys, r: CloseReason): (z: Sys)
    requires y.sink.Some?
    ensures IsClosed(z) && z.b == y.b && z.w.script == y.w.script && z.w.setup == y.w.setup
  {
    var s := y.sink.value;
    if s.phase.Closed? then y
    else Note(y.(sink := Some(s.(closeReason := r, phase := Closed, armed := false, txInFlight := false))), XrClosed(r))
  }

  function Emit(y: Sys, f: Frame): (z: (Sys, bool))
    requires y.sink.Some?
    ensures z.0.sink.Some? && z.0.b == y.b && z.0.w.script == y.w.script && z.0.w.setup == y.w.setup
  {
    var s := y.sink.value;
    if |f.payload| > MaxPayload(Xr) then (CloseSession(y, InternalError), false)
    else if |s.outbox| + |Encode(Xr, f)| > y.w.setup.maxOutbox then (CloseSession(y, OutputOverflow), false)
    else (Note(y.(sink := Some(s.(outbox := s.outbox + Encode(Xr, f)))), XrOut(f)), true)
  }

  function Arm(s: Session, now: nat, timeout: nat, reason: CloseReason): Session {
    s.(armed := true, deadlineAt := now + timeout, deadlineReason := reason)
  }

  function Byte1(ty: byte, b: byte): Frame {
    Frame(ty, 0, [b])
  }

  // Emit a last frame, then close (best effort).
  function Reject(y: Sys, f: Frame, r: CloseReason): Sys
    requires y.sink.Some?
  {
    CloseSession(Emit(y, f).0, r)
  }

  // --- session: events from the backend --------------------------------------

  function OnRx(y: Sys, rx: Rx): Sys
    requires y.sink.Some?
  {
    if !y.sink.value.phase.Operational? || !RxAcceptable(|rx.data|) then y
    else Emit(y, XrRxFrame(rx)).0
  }

  function OnTxComplete(y: Sys, o: TxOutcome): Sys
    requires y.sink.Some?
  {
    var s := y.sink.value;
    if !s.txInFlight then y
    else Emit(y.(sink := Some(s.(txInFlight := false))), TxResultFrame(s.txSeq, o)).0
  }

  function OnBackendFailure(y: Sys): Sys
    requires y.sink.Some?
  {
    CloseSession(y, BackendFailure)
  }

  function EnterOperational(y: Sys, now: nat): Sys
    requires y.sink.Some?
  {
    var s := y.sink.value;
    y.(sink := Some(s.(phase := Operational, armed := false, awaitingPong := false,
                       nextPingAt := now + y.w.setup.to.pingInterval)))
  }

  // `effective` is None when the configuration was not applied.
  function OnConfigureComplete(y0: Sys, token: nat, effective: Option<RadioConfig>, now: nat): Sys
    requires y0.sink.Some?
  {
    var y := Note(y0, CfgDone(token, effective.Some?));
    var s := y.sink.value;
    if !s.phase.Settling? || token != s.opToken then y
    else if effective != Some(s.requested) then Reject(y, Byte1(CONFIG_RESULT, CFG_UNSUPPORTED), ConfigFailed)
    else
      var (y1, ok) := Emit(y, ConfigOkFrame(effective.value));
      if ok then EnterOperational(y1, now) else y1
  }

  // --- backend: link and ownership -------------------------------------------

  function ResetLink(y: Sys): Sys {
    Note(y.(b := y.b.(state := Disconnected, confLine := "", confOut := "", confOff := 0,
                      txOut := [], txOff := 0, awaiting := false)), LinkDown)
  }

  function LogTxOutcome(y: Sys, ok: bool): Sys {
    if |y.b.txOut| <= HeaderLen(ToDaemon) then y
    else Note(y, LogTx(ok, y.b.txOut[HeaderLen(ToDaemon)..]))
  }

  function EnterFault(y: Sys): Sys {
    var y1 := LogTxOutcome(y, false);
    Note(y1.(b := y1.b.(state := Faulted, confLine := "", confOut := "", confOff := 0,
                        txOut := [], txOff := 0, awaiting := false)), LinkDown)
  }

  function TellFailure(y: Sys): Sys {
    if y.sink.None? then y else OnBackendFailure(y)
  }

  function HandleDisconnect(y: Sys): (r: Sys)
    ensures r.w.script == y.w.script
  {
    if y.b.state.Draining? then EnterFault(y)
    else if y.b.state.TxPending? then TellFailure(EnterFault(y))
    else TellFailure(ResetLink(y))
  }

  function ConfigSucceed(y: Sys, now: nat): Sys {
    var b := y.b.(state := Ready, txEpoch := NextU32(y.b.txEpoch), confOut := "", confOff := 0, awaiting := false);
    var y1 := y.(b := b);
    if y1.sink.None? then y1 else OnConfigureComplete(y1, b.configToken, Some(b.pendingCfg), now)
  }

  function ConfigFail(y: Sys, now: nat): Sys {
    var y1 := ResetLink(y);
    if y1.sink.None? then y1 else OnConfigureComplete(y1, y1.b.configToken, None, now)
  }

  // --- backend: configuration ------------------------------------------------

  // The five command lines of one configure.
  function Commands(c: RadioConfig): string
    requires SetCommand(c).Some?
  {
    "SET TXMODE=MANAGED\n" + "SET TXQUEUE=1\n" + "SET TXRESULT=1\n" + SetCommand(c).value + "GET STATUS\n"
  }

  predicate MayConfigure(b: Backend) {
    b.state.Disconnected? || b.state.Ready?
  }

  // begin_connect: a link that is up is closed first, whether or not the sockets of the
  // new one can be opened.
  function Dial(y: Sys): (r: (Sys, bool))
    ensures r.0.b == y.b && r.0.sink == y.sink && r.0.w.setup == y.w.setup
    ensures r.0.w.trace == y.w.trace + Hangup(y.b)
  {
    var d := y.w.script.dials;
    var w := y.w.(script := y.w.script.(dials := Tail(d)));
    (y.(w := if y.b.state.Ready? then Log(w, LinkDown) else w), d != [] && d[0])
  }

  function Hangup(b: Backend): seq<Event> {
    if b.state.Ready? then [LinkDown] else []
  }

  // The token is 0 when the request is refused.
  function BeginConfigure(y: Sys, c: RadioConfig, now: nat): (Sys, nat) {
    if !MayConfigure(y.b) || Validate(c) != Ok || SetCommand(c).None? then (y, 0)
    else
      var (y1, ok) := Dial(y);
      if !ok then (y1, 0)
      else
        var token := NextU32(y1.b.nextToken);
        var y2 := Note(y1, LinkUp(SelectBand(c.freqHz).value));
        var b := y2.b.(confOut := Commands(c), confOff := 0, awaiting := false, confLine := "",
                       pendingCfg := c, state := Connecting, nextToken := token, configToken := token,
                       configDeadline := now + y2.w.setup.configTimeout);
        (Note(y2.(b := b), CfgBegin(token, c)), token)
  }

  datatype Flush = Complete | Partial | FlushFailed

  // Room answered by the next partial send, and the rest of the answers.
  function Room(rooms: seq<int>): int {
    if rooms == [] then 0 else rooms[0]
  }

  function PumpConfOut(y: Sys): (r: (Sys, Flush))
    ensures r.0.b == y.b.(confOff := r.0.b.confOff) && r.0.sink == y.sink && r.0.w.setup == y.w.setup
    ensures y.b.confOff <= |y.b.confOut| ==> y.b.confOff <= r.0.b.confOff <= |y.b.confOut|
    ensures r.1.Complete? <==> r.0.b.confOff >= |y.b.confOut|
    decreases |y.b.confOut| - y.b.confOff
  {
    var left := |y.b.confOut| - y.b.confOff;
    if left <= 0 then (y, Complete)
    else
      var room := Room(y.w.script.confRoom);
      var y1 := y.(w := y.w.(script := y.w.script.(confRoom := Tail(y.w.script.confRoom))));
      if room < 0 then (y1, FlushFailed)
      else if room == 0 then (y1, Partial)
      else
        var n := Min(room, left);
        PumpConfOut(Note(y1.(b := y1.b.(confOff := y.b.confOff + n)), ConfTx(y.b.confOut[y.b.confOff..y.b.confOff + n])))
  }

  datatype ConfRead = ConfFailed | ConfQuiet | ConfStatus(ready: bool)

  function PumpConf(y: Sys, awaiting: bool): (r: (Sys, ConfRead))
    ensures r.0.b == y.b.(confLine := r.0.b.confLine) && r.0.sink == y.sink && r.0.w.setup == y.w.setup
    decreases |y.w.script.confIn|
  {
    var input := y.w.script.confIn;
    if input == [] then (y, ConfQuiet)
    else
      var y1 := y.(w := y.w.(script := y.w.script.(confIn := input[1..])));
      if input[0].Gone? then (y1, ConfFailed)
      else
        var chunk := input[0].bytes;
        var y2 := Note(y1, ConfRx(chunk));
        var r := FeedChunk(y.b.confLine, chunk, awaiting);
        if r.Overrun? then (y2.(b := y2.b.(confLine := y.b.confLine + chunk)), ConfFailed)
        else
          var y3 := y2.(b := y2.b.(confLine := r.verdict.rest));
          match r.verdict
          case Failed(_) => (y3, ConfFailed)
          case GotStatus(ready, _) => (y3, ConfStatus(ready))
          case Pending(_) => if |chunk| < READ_CHUNK then (y3, ConfQuiet) else PumpConf(y3, awaiting)
  }

  function ReadStatus(y: Sys, now: nat): Sys {
    var (y1, r) := PumpConf(y, true);
    match r
    case ConfFailed => ConfigFail(y1, now)
    case ConfQuiet => y1
    case ConfStatus(ready) => if ready then ConfigSucceed(y1, now) else ConfigFail(y1, now)
  }

  function AdvanceConfigure(y: Sys, now: nat): Sys
  {
    var (y1, r) := PumpConfOut(y);
    match r
    case FlushFailed => ConfigFail(y1, now)
    case Complete => ReadStatus(y1.(b := y1.b.(awaiting := true)), now)
    case Partial => if y1.b.awaiting then ReadStatus(y1, now) else y1
  }

  function AdvanceConnect(y: Sys, now: nat): Sys
  {
    var c := y.w.script.connects;
    var y1 := y.(w := y.w.(script := y.w.script.(connects := Tail(c))));
    if c == [] || c[0].StillConnecting? then y1
    else if c[0].ConnectFailed? then ConfigFail(y1, now)
    else AdvanceConfigure(y1.(b := y1.b.(state := Configuring)), now)
  }

  // --- backend: transmission -------------------------------------------------

  function PumpTx(y: Sys): (r: (Sys, Flush))
    ensures r.0.b == y.b.(txOff := r.0.b.txOff) && r.0.sink == y.sink
    ensures y.b.txOff <= |y.b.txOut| ==> y.b.txOff <= r.0.b.txOff <= |y.b.txOut|
    ensures r.1.Complete? <==> r.0.b.txOff >= |y.b.txOut|
    ensures r.0.w.script == y.w.script.(dataRoom := r.0.w.script.dataRoom)
    decreases |y.b.txOut| - y.b.txOff
  {
    var left := |y.b.txOut| - y.b.txOff;
    if left <= 0 then (y, Complete)
    else
      var room := Room(y.w.script.dataRoom);
      var y1 := y.(w := y.w.(script := y.w.script.(dataRoom := Tail(y.w.script.dataRoom))));
      if room < 0 then (y1, FlushFailed)
      else if room == 0 then (y1, Partial)
      else
        var n := Min(room, left);
        PumpTx(Note(y1.(b := y1.b.(txOff := y.b.txOff + n)), DataTx(y.b.txOut[y.b.txOff..y.b.txOff + n])))
  }

  // One accepted write of n bytes.
  function Wrote(y: Sys, n: nat): Sys
    requires y.b.txOff + n <= |y.b.txOut|
  {
    var y1 := y.(w := y.w.(script := y.w.script.(dataRoom := Tail(y.w.script.dataRoom))));
    Note(y1.(b := y1.b.(txOff := y.b.txOff + n)), DataTx(y.b.txOut[y.b.txOff..y.b.txOff + n]))
  }

  lemma PumpTxStep(y: Sys)
    ensures var left, room := |y.b.txOut| - y.b.txOff, Room(y.w.script.dataRoom);
            var y1 := y.(w := y.w.(script := y.w.script.(dataRoom := Tail(y.w.script.dataRoom))));
            PumpTx(y) ==
              if left <= 0 then (y, Complete)
              else if room < 0 then (y1, FlushFailed)
              else if room == 0 then (y1, Partial)
              else PumpTx(Wrote(y, Min(room, left)))
  {
  }

  function StartTx(b: Backend, rf: seq<byte>): Backend {
    b.(txOut := Encode(ToDaemon, TxPacketFrame(rf)), txOff := 0, txEpoch := NextU32(b.txEpoch),
       pendingEpoch := NextU32(b.txEpoch), state := TxWriting)
  }

  function SubmitTx(y: Sys, rf: seq<byte>): (r: (Sys, bool))
    ensures r.0.sink == y.sink
    ensures r.0.w.script == y.w.script.(dataRoom := r.0.w.script.dataRoom)
  {
    if !y.b.started || !y.b.state.Ready? || |rf| == 0 || |rf| > MAX_RF then (y, false)
    else
      var (y1, r) := PumpTx(y.(b := StartTx(y.b, rf)));
      match r
      case FlushFailed => (ResetLink(y1), false)
      case Complete => (y1.(b := y1.b.(state := TxPending)), true)
      case Partial => (y1, true)
  }

  function AbandonTx(y: Sys, now: nat): Sys {
    if y.b.state.TxPending? then y.(b := y.b.(state := Draining, drainDeadline := now + y.w.setup.drainTimeout))
    else if y.b.state.TxWriting? then ResetLink(y)
    else y
  }

  function Stop(y: Sys): Sys {
    var y1 := if y.b.state.Draining? || y.b.state.Faulted? then y else ResetLink(y);
    y1.(b := y1.b.(started := false))
  }

  // --- backend: daemon frames ------------------------------------------------

  function DispatchRx(y: Sys, rx: Rx): Sys {
    var y1 := Note(y, LogRx(rx));
    if !(y.b.state.Ready? || y.b.state.TxWriting? || y.b.state.TxPending?) || y.sink.None? then y1
    else OnRx(y1, rx)
  }

  // The daemon answered the outstanding frame.
  function DispatchAnswer(y: Sys, o: TxOutcome): Sys {
    if y.b.state.TxPending? then
      var y1 := y.(b := y.b.(state := Ready, txOut := [], txOff := 0));
      if y.sink.None? || y.b.pendingEpoch != y.b.txEpoch then y1 else OnTxComplete(y1, o)
    else if y.b.state.Draining? then ResetLink(y)
    else y
  }

  function Dispatch(y0: Sys, f: Frame): (r: Sys)
    ensures r.w.script == y0.w.script
  {
    var y := Note(y0, Heard(f));
    if f.ty == RX_PACKET then
      if DecodeRx(f).None? then y else DispatchRx(y, DecodeRx(f).value)
    else if f.ty == TX_RESULT then
      if DecodeTxResult(f).None? then y
      else
        var status := DecodeTxResult(f).value.status;
        var y1 := if status == STATUS_OK && (y.b.state.TxPending? || y.b.state.Draining?)
                  then LogTxOutcome(y, true) else y;
        DispatchAnswer(y1, MapTxStatus(status))
    else if f.ty == DAEMON_ERROR then DispatchAnswer(y, RadioError)
    else y
  }

  lemma DispatchStates(y: Sys, f: Frame)
    requires Live(y.b)
    ensures var z := Dispatch(y, f);
            && (!y.b.state.Draining? ==> Live(z.b) && !z.b.state.Draining?)
            && (y.b.state.Draining? ==> z.b.state.Draining? || z.b.state.Disconnected?)
            && z.w.setup == y.w.setup
  {
    hide Encode, DecodeRx, DecodeTxResult, MapTxStatus, XrRxFrame, TxResultFrame;
  }

  // The receive loop leaves as soon as the state is no longer its own.
  predicate LeftLoop(b: Backend, draining: bool) {
    if draining then !b.state.Draining?
    else b.state.Disconnected? || b.state.Faulted? || b.state.Draining?
  }

  // Dispatch every frame of a byte stream; the result keeps the incomplete tail.
  function Digest(y: Sys, stream: seq<byte>, draining: bool): (r: (Sys, seq<byte>))
    ensures r.0.w.script == y.w.script
    decreases |stream|
  {
    match PopFrame(FromDaemon, stream)
    case NeedMore => (y, stream)
    case Bad => (HandleDisconnect(y), [])
    case Got(f, rest) =>
      var y1 := Dispatch(y, f);
      if LeftLoop(y1.b, draining) then (y1, []) else Digest(y1, rest, draining)
  }

  function ReadData(y: Sys, held: seq<byte>, draining: bool): (Sys, seq<byte>)
    decreases |y.w.script.dataIn|
  {
    var input := y.w.script.dataIn;
    if input == [] then (y, held)
    else
      var y1 := y.(w := y.w.(script := y.w.script.(dataIn := input[1..])));
      if input[0].Gone? then (HandleDisconnect(y1), [])
      else
        var chunk := input[0].bytes;
        var (y2, held2) := Digest(Note(y1, DataRx(chunk)), held + chunk, draining);
        if LeftLoop(y2.b, draining) || |chunk| < READ_CHUNK then (y2, held2)
        else ReadData(y2, held2, draining)
  }

  function ResumeTx(y: Sys): Sys
  {
    if !y.b.state.TxWriting? then y
    else
      var (y1, r) := PumpTx(y);
      match r
      case FlushFailed => TellFailure(ResetLink(y1))
      case Complete => y1.(b := y1.b.(state := TxPending))
      case Partial => y1
  }

  function AdvanceOperational(y: Sys, held: seq<byte>): (Sys, seq<byte>)
  {
    var (y1, r) := PumpConf(y, false);
    if r.ConfFailed? then (HandleDisconnect(y1), [])
    else
      var y2 := ResumeTx(y1);
      if Live(y2.b) then ReadData(y2, held, false) else (y2, [])
  }

  function DrainConf(y: Sys): (r: Sys)
    ensures r.b == y.b && r.sink == y.sink
    decreases |y.w.script.confIn|
  {
    var input := y.w.script.confIn;
    if input == [] then y
    else
      var y1 := y.(w := y.w.(script := y.w.script.(confIn := input[1..])));
      if input[0].Gone? then y1
      else
        var y2 := Note(y1, ConfRx(input[0].bytes));
        if |input[0].bytes| < READ_CHUNK then y2 else DrainConf(y2)
  }

  function AdvanceDrain(y: Sys, held: seq<byte>, now: nat): (Sys, seq<byte>) {
    if now >= y.b.drainDeadline then (EnterFault(y), [])
    else ReadData(DrainConf(y), held, true)
  }

  function Poll(y: Sys, held: seq<byte>, now: nat): (Sys, seq<byte>)
  {
    match y.b.state
    case Disconnected => (y, [])
    case Faulted => (y, [])
    case Connecting => (if now >= y.b.configDeadline then ConfigFail(y, now) else AdvanceConnect(y, now), [])
    case Configuring => (if now >= y.b.configDeadline then ConfigFail(y, now) else AdvanceConfigure(y, now), [])
    case Draining => AdvanceDrain(y, held, now)
    case _ => AdvanceOperational(y, held)
  }

  // --- session: frames from the firmware -------------------------------------

  function ToConfigure(y: Sys, now: nat): Sys
    requires y.sink.Some?
  {
    y.(sink := Some(Arm(y.sink.value.(phase := WaitConfigure), now, y.w.setup.to.config, ConfigTimeout)))
  }

  // AUTH_OK, then wait for a CONFIGURE.
  function Welcome(y: Sys, now: nat): (z: Sys)
    requires y.sink.Some?
    ensures z.sink.Some? && z.w.script.clientIn == y.w.script.clientIn
  {
    var (y1, ok) := Emit(y, Byte1(AUTH_RESULT, AUTH_OK));
    if ok then ToConfigure(y1, now) else y1
  }

  function Challenge(y: Sys, now: nat): (z: Sys)
    requires y.sink.Some?
    ensures z.sink.Some? && z.w.script.clientIn == y.w.script.clientIn
  {
    var nonces := y.w.script.nonces;
    var y1 := y.(w := y.w.(script := y.w.script.(nonces := Tail(nonces))));
    if nonces == [] || nonces[0].None? then CloseSession(y1, AuthError)
    else
      var nonce := nonces[0].value;
      var (y2, ok) := Emit(y1.(sink := Some(y1.sink.value.(nonce := nonce))), Frame(AUTH_CHALLENGE, 0, nonce));
      if !ok then y2
      else y2.(sink := Some(Arm(y2.sink.value.(phase := WaitAuth), now, y.w.setup.to.auth, AuthTimeout)))
  }

  function HandleHello(y: Sys, now: nat): (z: Sys)
    requires y.sink.Some?
    ensures z.sink.Some? && z.w.script.clientIn == y.w.script.clientIn
  {
    var (y1, ok) := Emit(y, Byte1(HELLO_ACK, VERSION));
    if !ok then y1
    else if y.w.setup.mac.Some? then Challenge(y1, now)
    else Welcome(y1, now)
  }

  predicate Verified(setup: Setup, nonce: seq<byte>, response: seq<byte>) {
    setup.mac.Some? && |response| == RESPONSE_SIZE && setup.mac.value(nonce) == response
  }

  function HandleAuth(y: Sys, f: Frame, now: nat): (z: Sys)
    requires y.sink.Some?
    ensures z.sink.Some? && z.w.script.clientIn == y.w.script.clientIn
  {
    if Verified(y.w.setup, y.sink.value.nonce, f.payload) then Welcome(y, now)
    else Reject(y, Byte1(AUTH_RESULT, AUTH_FAIL), AuthFailed)
  }

  function HandleConfigure(y: Sys, f: Frame, now: nat): (z: Sys)
    requires y.sink.Some?
    ensures z.sink.Some? && z.w.script.clientIn == y.w.script.clientIn
  {
    var c := DecodeConfig(f);
    if c.None? then Reject(y, Byte1(CONFIG_RESULT, CFG_INVALID), ConfigFailed)
    else
      var (y1, token) := BeginConfigure(y, c.value, now);
      if token == 0 then Reject(y1, Byte1(CONFIG_RESULT, CFG_UNSUPPORTED), ConfigFailed)
      else
        var s := y1.sink.value.(opToken := token, requested := c.value, phase := Settling);
        y1.(sink := Some(Arm(s, now, y.w.setup.to.config, ConfigTimeout)))
  }

  function HandlePong(y: Sys, now: nat): Sys
    requires y.sink.Some?
  {
    var s := y.sink.value;
    if !s.awaitingPong then CloseSession(y, BadState)
    else y.(sink := Some(s.(awaitingPong := false, nextPingAt := now + y.w.setup.to.pingInterval)))
  }

  function HandleTxRequest(y: Sys, f: Frame, now: nat): (z: Sys)
    requires y.sink.Some?
    ensures z.sink.Some? && z.w.script.clientIn == y.w.script.clientIn
  {
    var s := y.sink.value;
    if s.txInFlight then CloseSession(y, BadState)
    else
      var (y1, ok) := SubmitTx(y.(sink := Some(s.(txSeq := f.sn))), f.payload);
      if !ok then CloseSession(y1, BackendFailure)
      else y1.(sink := Some(y1.sink.value.(txInFlight := true, txDeadlineAt := now + y.w.setup.to.tx)))
  }

  function InReady(y: Sys, f: Frame, now: nat): (r: Sys)
    requires y.sink.Some?
    ensures r.sink.Some? && r.w.script.clientIn == y.w.script.clientIn
  {
    if f.ty == PONG then HandlePong(y, now)
    else if f.ty == TX_REQUEST then HandleTxRequest(y, f, now)
    else CloseSession(y, BadState)
  }

  function InPhase(y: Sys, f: Frame, now: nat): (r: Sys)
    requires y.sink.Some?
    ensures r.sink.Some? && r.w.script.clientIn == y.w.script.clientIn
  {
    match y.sink.value.phase
    case WaitHello => if f.ty != HELLO then CloseSession(y, BadState) else HandleHello(y, now)
    case WaitAuth => if f.ty != AUTH_RESPONSE then CloseSession(y, BadState) else HandleAuth(y, f, now)
    case WaitConfigure => if f.ty != CONFIGURE then CloseSession(y, BadState) else HandleConfigure(y, f, now)
    case Settling => CloseSession(y, BadState)
    case Operational => InReady(y, f, now)
    case Closed => y
  }

  function HandleFrame(y0: Sys, f: Frame, now: nat): (r: Sys)
    requires y0.sink.Some?
    ensures r.sink.Some? && r.w.script.clientIn == y0.w.script.clientIn
  {
    var y := Note(y0, XrIn(f));
    if !WellFormed(f) then CloseSession(y, MalformedFrame)
    else if !IsClientMessage(f.ty) then CloseSession(y, BadState)
    else if f.ty == XR_ERROR then CloseSession(y, RemoteError)
    else InPhase(y, f, now)
  }

  // Handle every frame of a byte stream until the session closes.
  function Consume(y: Sys, stream: seq<byte>, now: nat): (r: (Sys, seq<byte>))
    requires y.sink.Some?
    ensures r.0.sink.Some? && r.0.w.script.clientIn == y.w.script.clientIn
    decreases |stream|
  {
    match PopFrame(Xr, stream)
    case NeedMore => (y, stream)
    case Bad => (CloseSession(y, ParserError), [])
    case Got(f, rest) =>
      var y1 := HandleFrame(y, f, now);
      if IsClosed(y1) then (y1, []) else Consume(y1, rest, now)
  }

  function Feed(y: Sys, xrHeld: seq<byte>, data: seq<byte>, now: nat): (r: (Sys, seq<byte>))
    requires y.sink.Some?
    ensures r.0.sink.Some? && r.0.w.script.clientIn == y.w.script.clientIn
  {
    if IsClosed(y) then (y, []) else Consume(y, xrHeld + data, now)
  }

  // --- session: time ---------------------------------------------------------

  function Earlier(a: Option<nat>, b: Option<nat>): Option<nat> {
    if a.None? then b else if b.None? then a else Some(Min(a.value, b.value))
  }

  function SessionDeadline(s: Session): Option<nat> {
    if s.phase.Closed? then None
    else
      var d := if s.armed then Some(s.deadlineAt) else None;
      if !s.phase.Operational? then d
      else
        var d1 := if s.txInFlight then Earlier(d, Some(s.txDeadlineAt)) else d;
        Earlier(d1, Some(if s.awaitingPong then s.pongDeadlineAt else s.nextPingAt))
  }

  function BackendDeadline(b: Backend): Option<nat> {
    if b.state.Connecting? || b.state.Configuring? then Some(b.configDeadline)
    else if b.state.Draining? then Some(b.drainDeadline)
    else None
  }

  function SendPing(y: Sys, now: nat): Sys
    requires y.sink.Some?
  {
    var (y1, ok) := Emit(y, Frame(PING, 0, []));
    if !ok then y1
    else y1.(sink := Some(y1.sink.value.(awaitingPong := true, pongDeadlineAt := now + y.w.setup.to.pongTimeout)))
  }

  function Tick(y: Sys, now: nat): (r: Sys)
    requires y.sink.Some?
    ensures r.sink.Some?
  {
    var s := y.sink.value;
    if s.phase.Closed? then y
    else if s.armed && now >= s.deadlineAt then CloseSession(y, s.deadlineReason)
    else if !s.phase.Operational? then y
    else if s.txInFlight && now >= s.txDeadlineAt then CloseSession(AbandonTx(y, now), TxTimeoutUncertain)
    else if s.awaitingPong then
      if now >= s.pongDeadlineAt then CloseSession(y, PongTimeout) else y
    else if now >= s.nextPingAt then SendPing(y, now)
    else y
  }

  // --- connection ------------------------------------------------------------

  // Input held for a link or a session that is gone is dropped.
  function Settle(n: Node): Node {
    n.(held := if Live(n.y.b) then n.held else [], xrHeld := if IsClosed(n.y) then [] else n.xrHeld)
  }

  function Blank(): Session {
    Session(WaitHello, NoReason, false, 0, NoReason, seq(NONCE_SIZE, _ => 0), NO_CONFIG, 0,
            false, 0, 0, false, 0, 0, [])
  }

  function NewSession(setup: Setup, now: nat): Session {
    Arm(Blank(), now, setup.to.handshake, HandshakeTimeout)
  }

  function OpenConnection(n: Node, now: nat): Node {
    var y := Note(n.y, ConnOpen(now));
    n.(y := y.(sink := Some(NewSession(y.w.setup, now)), b := y.b.(started := true)), xrHeld := [], broken := false)
  }

  // The destructor: abandon, detach, stop, in this order.
  function Teardown(n: Node, now: nat): Node {
    var y := Stop(AbandonTx(n.y, now).(sink := None));
    Settle(n.(y := Note(y, ConnDrop), xrHeld := [], broken := false))
  }

  function FlushOut(n: Node): (r: Node)
    requires n.y.sink.Some?
    ensures r.y.sink.Some? && r.y.sink.value == n.y.sink.value.(outbox := r.y.sink.value.outbox)
    ensures r == n.(y := r.y, broken := r.broken) && r.y.b == n.y.b
    decreases |n.y.w.script.clientRoom|
  {
    var s := n.y.sink.value;
    var rooms := n.y.w.script.clientRoom;
    if s.outbox == [] || rooms == [] then n
    else
      var y1 := n.y.(w := n.y.w.(script := n.y.w.script.(clientRoom := rooms[1..])));
      match rooms[0]
      case Accepted(k) =>
        if k == 0 then n.(y := y1, broken := true)
        else
          var m := Min(k, |s.outbox|);
          FlushOut(n.(y := Note(y1.(sink := Some(s.(outbox := s.outbox[m..]))), XrSent(s.outbox[..m]))))
      case SendAgain => n.(y := y1)
      case SendInterrupted => FlushOut(n.(y := y1))
      case SendError => n.(y := y1, broken := true)
  }

  function ReadClient(n: Node, now: nat): (r: Node)
    requires n.y.sink.Some?
    ensures r.y.sink.Some?
    decreases |n.y.w.script.clientIn|
  {
    var input := n.y.w.script.clientIn;
    if input == [] then n
    else
      var y1 := n.y.(w := n.y.w.(script := n.y.w.script.(clientIn := input[1..])));
      match input[0]
      case FromClient(bytes) =>
        var (y2, xrHeld) := Feed(y1, n.xrHeld, bytes, now);
        var n2 := Settle(n.(y := y2, xrHeld := xrHeld));
        if IsClosed(y2) || |bytes| < 1024 then n2 else ReadClient(n2, now)
      case PeerClosed => n.(y := y1, broken := true)
      case RecvInterrupted => ReadClient(n.(y := y1), now)
      case RecvError => n.(y := y1, broken := true)
  }

  function ServiceRead(n: Node, now: nat): (r: Node)
    requires n.y.sink.Some?
    ensures r.y.sink.Some?
  {
    FlushOut(ReadClient(n, now))
  }

  predicate Finished(n: Node)
    requires n.y.sink.Some?
  {
    n.broken || (IsClosed(n.y) && n.y.sink.value.outbox == [])
  }

  // --- server loop -----------------------------------------------------------

  // One loop iteration: what poll() reported, the answers the sockets will give,
  // and the clock as read by its successive stages. `arrivals` are the pending
  // connections, each with whether it could be made non-blocking.
  datatype Turn = Turn(
    script: Script, pollOk: bool, arrivals: seq<bool>, readable: bool, writable: bool,
    tRead: nat, tPoll: nat, tTick: nat, tDrop: nat)

  // One client at a time: while one is connected every newcomer is closed.
  function AcceptAll(n: Node, arrivals: seq<bool>, now: nat): Node
    decreases |arrivals|
  {
    if arrivals == [] then n
    else AcceptAll(if n.y.sink.None? && arrivals[0] then OpenConnection(n, now) else n, arrivals[1..], now)
  }

  function PollNode(n: Node, now: nat): Node {
    var (y, held) := Poll(n.y, n.held, now);
    Settle(n.(y := y, held := held))
  }

  function TickNode(n: Node, now: nat): (r: Node)
    requires n.y.sink.Some?
    ensures r.y.sink.Some?
  {
    Settle(n.(y := Tick(n.y, now)))
  }

  function Service(n: Node, t: Turn): Node {
    if n.y.sink.None? then n
    else
      var n1 := if t.readable then ServiceRead(n, t.tRead) else n;
      if t.writable then FlushOut(n1) else n1
  }

  function Finish(n: Node, t: Turn): Node
    requires n.y.sink.Some?
  {
    var n1 := FlushOut(TickNode(n, t.tTick));
    if Finished(n1) then Teardown(n1, t.tDrop) else n1
  }

  function PollOnce(n: Node, t: Turn): Node {
    var n0 := n.(y := n.y.(w := n.y.w.(script := t.script)));
    if !t.pollOk then n0
    else
      var n1 := AcceptAll(n0, t.arrivals, t.tRead);
      var n2 := if n0.y.sink.Some? then Service(n1, t) else n1;
      var n3 := PollNode(n2, t.tPoll);
      if n3.y.sink.None? then n3 else Finish(n3, t)
  }

  function ComputeTimeout(n: Node, now: nat): int {
    var next := if n.y.sink.None? then BackendDeadline(n.y.b)
                else Earlier(BackendDeadline(n.y.b), SessionDeadline(n.y.sink.value));
    if next.None? then 100
    else if next.value <= now then 0
    else Min(next.value - now, 100)
  }

  // --- runs ------------------------------------------------------------------

  const SILENT: Script := Script([], [], [], [], [], [], [], [], [])

  function Boot(setup: Setup): Node {
    Node(Sys(COLD, None, World(setup, SILENT, [])), [], [], false)
  }

  // The server after any sequence of loop iterations.
  function Run(setup: Setup, turns: seq<Turn>): Node {
    if turns == [] then Boot(setup)
    else PollOnce(Run(setup, turns[..|turns| - 1]), turns[|turns| - 1])
  }

  lemma RunStart(setup: Setup)
    ensures Run(setup, []) == Boot(setup)
  {
  }

  lemma RunStep(setup: Setup, turns: seq<Turn>, t: Turn)
    ensures Run(setup, turns + [t]) == PollOnce(Run(setup, turns), t)
  {
    hide PollOnce;
    assert (turns + [t])[..|turns|] == turns;
  }
}
