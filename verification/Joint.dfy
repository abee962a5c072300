// The invariant that ties the session to the backend, kept by every operation
// of the running server.
module Joint {
  import opened Bytes
  import opened Frames
  import opened Messages
  import opened Radio
  import opened World
  import opened Model

  // --- the invariant ---------------------------------------------------------

  predicate Owing(b: Backend) {
    b.state.TxPending? || b.state.Draining?
  }

  predicate Transmitting(b: Backend) {
    b.state.TxWriting? || b.state.TxPending?
  }

  predicate Applying(b: Backend) {
    b.state.Connecting? || b.state.Configuring?
  }

  predicate Idle(b: Backend) {
    b.state.Disconnected? || b.state.Draining? || b.state.Faulted?
  }

  // `out` is one encoded TX_PACKET with an RF payload the daemon accepts.
  predicate IsTxFrame(out: seq<byte>) {
    && HeaderLen(ToDaemon) < |out| <= MaxFrame(ToDaemon)
    && out == Encode(ToDaemon, TxPacketFrame(out[HeaderLen(ToDaemon)..]))
  }

  predicate BackendOk(b: Backend) {
    && b.confOff <= |b.confOut|
    && (if b.state.TxWriting? then IsTxFrame(b.txOut) && b.txOff < |b.txOut|
        else if Owing(b) then IsTxFrame(b.txOut) && b.txOff == |b.txOut|
        else b.txOut == [] && b.txOff == 0)
    && (Transmitting(b) ==> b.pendingEpoch == b.txEpoch)
  }

  predicate SessionOk(b: Backend, s: Session) {
    && b.started
    && match s.phase
       case WaitHello => Idle(b) && s.armed && !s.txInFlight
       case WaitAuth => Idle(b) && s.armed && !s.txInFlight
       case WaitConfigure => Idle(b) && s.armed && !s.txInFlight
       case Settling => Applying(b) && s.armed && !s.txInFlight && b.configToken == s.opToken && b.pendingCfg == s.requested
       case Operational => (b.state.Ready? || Transmitting(b)) && !s.armed && (s.txInFlight <==> Transmitting(b))
       case Closed => !s.armed && !s.txInFlight
  }

  predicate Inv(y: Sys) {
    && BackendOk(y.b)
    && (if y.sink.None? then Idle(y.b) && !y.b.started else SessionOk(y.b, y.sink.value))
  }

  // --- session ---------------------------------------------------------------

  lemma CloseKeeps(y: Sys, r: CloseReason)
    requires Inv(y) && y.sink.Some?
    ensures Inv(CloseSession(y, r))
  {
  }

  lemma HelloKeeps(y: Sys, now: nat)
    requires Inv(y) && y.sink.Some? && y.sink.value.phase.WaitHello?
    ensures Inv(HandleHello(y, now))
  {
    hide Encode;
  }

  lemma AuthKeeps(y: Sys, f: Frame, now: nat)
    requires Inv(y) && y.sink.Some? && y.sink.value.phase.WaitAuth?
    ensures Inv(HandleAuth(y, f, now))
  {
    hide Encode;
  }

  lemma ConfigureKeeps(y: Sys, f: Frame, now: nat)
    requires Inv(y) && y.sink.Some? && y.sink.value.phase.WaitConfigure?
    ensures Inv(HandleConfigure(y, f, now))
  {
    hide Encode, Commands, SetCommand, Validate, SelectBand, DecodeConfig;
  }

  lemma PongKeeps(y: Sys, now: nat)
    requires Inv(y) && y.sink.Some? && y.sink.value.phase.Operational?
    ensures Inv(HandlePong(y, now))
  {
  }

  lemma TxFrameShape(rf: seq<byte>)
    requires 0 < |rf| <= MAX_RF
    ensures IsTxFrame(Encode(ToDaemon, TxPacketFrame(rf)))
    ensures Encode(ToDaemon, TxPacketFrame(rf))[HeaderLen(ToDaemon)..] == rf
  {
  }

  lemma TxRequestKeeps(y: Sys, f: Frame, now: nat)
    requires Inv(y) && y.sink.Some? && y.sink.value.phase.Operational?
    ensures Inv(HandleTxRequest(y, f, now))
  {
    if 0 < |f.payload| <= MAX_RF {
      TxFrameShape(f.payload);
    }
    hide Encode, PumpTx;
  }

  lemma FrameKeeps(y: Sys, f: Frame, now: nat)
    requires Inv(y) && y.sink.Some?
    ensures Inv(HandleFrame(y, f, now))
  {
    hide HandleHello, HandleAuth, HandleConfigure, HandlePong, HandleTxRequest, WellFormed, IsTxFrame;
    var y1 := Note(y, XrIn(f));
    match y.sink.value.phase
    case WaitHello => HelloKeeps(y1, now);
    case WaitAuth => AuthKeeps(y1, f, now);
    case WaitConfigure => ConfigureKeeps(y1, f, now);
    case Operational => PongKeeps(y1, now); TxRequestKeeps(y1, f, now);
    case _ =>
  }

  lemma TickKeeps(y: Sys, now: nat)
    requires Inv(y) && y.sink.Some?
    ensures Inv(Tick(y, now))
  {
    hide Encode;
  }

  // --- backend ---------------------------------------------------------------

  lemma DisconnectKeeps(y: Sys)
    requires Inv(y)
    ensures Inv(HandleDisconnect(y))
  {
  }

  lemma ConfigFailKeeps(y: Sys, now: nat)
    requires Inv(y) && Applying(y.b)
    ensures Inv(ConfigFail(y, now))
  {
    hide Encode;
  }

  lemma ConfigSucceedKeeps(y: Sys, now: nat)
    requires Inv(y) && Applying(y.b)
    ensures Inv(ConfigSucceed(y, now))
  {
    hide Encode;
  }

  lemma DispatchKeeps(y: Sys, f: Frame)
    requires Inv(y)
    ensures Inv(Dispatch(y, f))
  {
    hide Encode, DecodeRx, DecodeTxResult, XrRxFrame, MapTxStatus;
  }

  lemma ResumeKeeps(y: Sys)
    requires Inv(y)
    ensures Inv(ResumeTx(y))
  {
    hide Encode, PumpTx;
  }

  // Abandon, detach, stop: whatever the state, what is left needs no session.
  lemma TeardownKeeps(n: Node, now: nat)
    requires Inv(n.y) && n.y.sink.Some?
    ensures Inv(Teardown(n, now).y)
  {
    hide Encode;
  }

  lemma OpenKeeps(n: Node, now: nat)
    requires Inv(n.y) && n.y.sink.None?
    ensures Inv(OpenConnection(n, now).y)
  {
    hide Encode;
  }
}
