// Time: deadlines are exact, the loop neither oversleeps nor spins, and a
// handshake ends in bounded time.
module Timing {
  import opened Bytes
  import opened Frames
  import opened Messages
  import opened Radio
  import opened World
  import opened Monitors
  import opened Model
  import opened Joint
  import opened Invariance
  import opened Past
  import opened Passive

  // --- one session -----------------------------------------------------------

  // An open session always has a next deadline.
  lemma OpenHasDeadline(y: Sys)
    requires Inv(y) && y.sink.Some? && !IsClosed(y)
    ensures SessionDeadline(y.sink.value).Some?
  {
    hide BackendOk;
  }

  // A tick does nothing before that deadline, and something from it on.
  lemma TickExact(y: Sys, now: nat)
    requires y.sink.Some?
    ensures var next := SessionDeadline(y.sink.value);
            Tick(y, now) == y <==> next.None? || now < next.value
  {
    hide Encode, AbandonTx;
    var s := y.sink.value;
    if !s.phase.Closed? {
      CloseMoves(y, s.deadlineReason);
      CloseMoves(y, PongTimeout);
      PingMoves(y, now);
      AbandonMoves(y, now);
    }
  }

  lemma CloseMoves(y: Sys, r: CloseReason)
    requires y.sink.Some? && !IsClosed(y)
    ensures CloseSession(y, r) != y
  {
    assert !IsClosed(y);
  }

  lemma PingMoves(y: Sys, now: nat)
    requires y.sink.Some? && !IsClosed(y)
    ensures SendPing(y, now) != y
  {
    hide Encode;
    assert |SendPing(y, now).w.trace| > |y.w.trace|;
  }

  lemma AbandonMoves(y: Sys, now: nat)
    requires y.sink.Some? && !IsClosed(y)
    ensures CloseSession(AbandonTx(y, now), TxTimeoutUncertain) != y
  {
    assert IsClosed(CloseSession(AbandonTx(y, now), TxTimeoutUncertain));
  }

  // The transmit ceiling: the session closes as uncertain and is told nothing. A packet
  // the daemon owns is drained from then on, an incomplete one is dropped with its link.
  lemma TxCeilingSilent(y: Sys, now: nat)
    requires y.sink.Some? && y.sink.value.phase.Operational? && !y.sink.value.armed
    requires y.sink.value.txInFlight && now >= y.sink.value.txDeadlineAt
    ensures var z := Tick(y, now);
            && IsClosed(z) && z.sink.value.closeReason == TxTimeoutUncertain
            && z.sink.value.outbox == y.sink.value.outbox
            && z.w.trace == y.w.trace + (if y.b.state.TxWriting? then [LinkDown] else []) + [XrClosed(TxTimeoutUncertain)]
            && (y.b.state.TxPending? ==>
                  z.b == y.b.(state := Draining, drainDeadline := now + y.w.setup.drainTimeout))
            && (y.b.state.TxWriting? ==> z.b.state.Disconnected?)
  {
    assert y.w.trace + [] == y.w.trace;
  }

  // What a tick that is due does: an overdue handshake is closed for its armed reason, a
  // missing PONG for PongTimeout, and a PING is queued when its time has come.
  lemma TickDoes(y: Sys, now: nat)
    requires y.sink.Some? && !IsClosed(y) && (y.sink.value.phase.Operational? ==> !y.sink.value.armed)
    ensures var s, z := y.sink.value, Tick(y, now);
            && (s.armed && now >= s.deadlineAt ==>
                  IsClosed(z) && z.sink.value.closeReason == s.deadlineReason && z.sink.value.outbox == s.outbox)
            && (s.phase.Operational? && !(s.txInFlight && now >= s.txDeadlineAt) ==>
                  if s.awaitingPong then
                    now >= s.pongDeadlineAt ==>
                      IsClosed(z) && z.sink.value.closeReason == PongTimeout && z.sink.value.outbox == s.outbox
                  else now >= s.nextPingAt && |s.outbox| + 8 <= y.w.setup.maxOutbox ==>
                      && z.w.trace == y.w.trace + [XrOut(Frame(0x0B, 0, []))]
                      && z.sink == Some(s.(awaitingPong := true, pongDeadlineAt := now + y.w.setup.to.pongTimeout,
                                           outbox := s.outbox + [0x58, 0x52, 1, 0x0B, 0, 0, 0, 0])))
  {
    assert Encode(Xr, Frame(PING, 0, [])) == [0x58, 0x52, 1, 0x0B, 0, 0, 0, 0];
    hide Encode;
  }

  // --- the poll timeout ------------------------------------------------------

  // The deadlines the server waits for.
  predicate IsDue(n: Node, d: nat) {
    || BackendDeadline(n.y.b) == Some(d)
    || (n.y.sink.Some? && SessionDeadline(n.y.sink.value) == Some(d))
  }

  // The computed timeout is at most 100 ms, never oversleeps a deadline, is zero exactly
  // when one has passed, and shorter than 100 ms only to meet one.
  lemma TimeoutExact(n: Node, now: nat)
    ensures var t := ComputeTimeout(n, now);
            && 0 <= t <= 100
            && (forall d: nat :: IsDue(n, d) && d >= now ==> now + t <= d)
            && (t == 0 <==> exists d: nat :: IsDue(n, d) && d <= now)
            && (t < 100 ==> exists d: nat :: IsDue(n, d) && d <= now + t)
  {
    hide SessionDeadline, BackendDeadline;
    var a := BackendDeadline(n.y.b);
    var b := if n.y.sink.None? then None else SessionDeadline(n.y.sink.value);
    assert a.Some? ==> IsDue(n, a.value);
    assert b.Some? ==> IsDue(n, b.value);
  }

  // The deadline the backend reports is the time at which a poll acts on its own: with
  // nothing to read, write or connect, it ends a configure or a drain at or after it, and
  // changes no state before.
  lemma PollExact(y: Sys, held: seq<byte>, now: nat)
    requires Inv(y) && y.w.script == SILENT
    ensures var z, d := Poll(y, held, now).0, BackendDeadline(y.b);
            && (d.Some? && now >= d.value ==>
                  if y.b.state.Draining? then z.b.state.Faulted? else z.b.state.Disconnected?)
            && (d.None? || now < d.value ==> z.b.state == y.b.state && z.sink == y.sink && z.w.trace == y.w.trace)
            && (d.Some? <==> Applying(y.b) || y.b.state.Draining?)
            && (Applying(y.b) ==> d == Some(y.b.configDeadline)) && (y.b.state.Draining? ==> d == Some(y.b.drainDeadline))
  {
    hide OnConfigureComplete, IsTxFrame, SessionOk;
    FailEnds(y, now);
    NoRoom(y);
    NoRoom(y.(b := y.b.(state := Configuring)));
  }

  // A deadline that has passed comes first, whatever there is to read: a configure fails
  // although its STATUS may have arrived, a drain faults although its answer may have.
  lemma DeadlineFirst(y: Sys, held: seq<byte>, now: nat)
    requires BackendDeadline(y.b).Some? && now >= BackendDeadline(y.b).value
    ensures var z := Poll(y, held, now).0;
            if Applying(y.b) then
              && z.b.state.Disconnected?
              && (y.sink.Some? ==> |z.w.trace| > |y.w.trace| + 1 && z.w.trace[|y.w.trace| + 1] == CfgDone(y.b.configToken, false))
            else
              && z.b.state.Faulted? && z.sink == y.sink
              && (IsTxFrame(y.b.txOut) ==> z.w.trace == y.w.trace + [LogTx(false, y.b.txOut[3..])] + [LinkDown])
  {
    if Applying(y.b) && y.sink.Some? { FailMarks(y, now); }
    hide ConfigFail;
    FailEnds(y, now);
  }

  lemma FailMarks(y: Sys, now: nat)
    requires y.sink.Some?
    ensures var tr := ConfigFail(y, now).w.trace;
            |tr| > |y.w.trace| + 1 && tr[|y.w.trace| + 1] == CfgDone(y.b.configToken, false)
  {
    hide Emit, CloseSession, Continues;
    var y1 := ResetLink(y);
    var y2 := Note(y1, CfgDone(y.b.configToken, false));
    RejectContinues(y2, Byte1(CONFIG_RESULT, CFG_UNSUPPORTED), ConfigFailed);
    SameContinues(y2, y2);
    KeepsEvent(y2, ConfigFail(y, now), |y.w.trace| + 1);
  }

  lemma KeepsEvent(y: Sys, z: Sys, i: nat)
    requires Continues(y, z) && i < |y.w.trace|
    ensures i < |z.w.trace| && z.w.trace[i] == y.w.trace[i]
  {
  }

  lemma NoRoom(y: Sys)
    requires y.w.script == SILENT && y.b.confOff <= |y.b.confOut|
    ensures var (z, r) := PumpConfOut(y);
            z.b == y.b && z.sink == y.sink && z.w.trace == y.w.trace && z.w.script == SILENT && !r.FlushFailed?
    ensures y.b.txOff < |y.b.txOut| ==>
              var (z, r) := PumpTx(y);
              z.b == y.b && z.w.trace == y.w.trace && z.w.script == SILENT && r.Partial?
    ensures forall awaiting :: PumpConf(y, awaiting) == (y, ConfQuiet)
  {
  }

  // --- no spinning -----------------------------------------------------------

  predicate Positive(setup: Setup) {
    var to := setup.to;
    && to.handshake > 0 && to.auth > 0 && to.config > 0 && to.tx > 0
    && to.pingInterval > 0 && to.pongTimeout > 0
    && setup.configTimeout > 0 && setup.drainTimeout > 0
  }

  // The backend's deadline, if any, is after t.
  predicate DueAfter(b: Backend, t: nat) {
    BackendDeadline(b).Some? ==> BackendDeadline(b).value > t
  }

  // A step that sets no deadline and enters no state that has one.
  predicate Calm(b: Backend, c: Backend) {
    && (Applying(c) ==> Applying(b) && c.configDeadline == b.configDeadline)
    && (c.state.Draining? ==> b.state.Draining? && c.drainDeadline == b.drainDeadline)
  }

  lemma DispatchCalm(y: Sys, f: Frame)
    ensures Calm(y.b, Dispatch(y, f).b)
  {
    hide Encode, DecodeRx, DecodeTxResult, MapTxStatus, XrRxFrame, TxResultFrame;
  }

  lemma DisconnectCalm(y: Sys)
    ensures Calm(y.b, HandleDisconnect(y).b)
  {
  }

  lemma {:induction false} DigestCalm(y: Sys, stream: seq<byte>, draining: bool)
    ensures Calm(y.b, Digest(y, stream, draining).0.b)
    decreases |stream|
  {
    hide Dispatch, HandleDisconnect;
    DisconnectCalm(y);
    var r := PopFrame(FromDaemon, stream);
    if r.Got? {
      DispatchCalm(y, r.frame);
      DigestCalm(Dispatch(y, r.frame), r.rest, draining);
    }
  }

  lemma {:induction false} ReadCalm(y: Sys, held: seq<byte>, draining: bool)
    ensures Calm(y.b, ReadData(y, held, draining).0.b)
    decreases |y.w.script.dataIn|
  {
    hide Digest, HandleDisconnect;
    var input := y.w.script.dataIn;
    if input != [] {
      var y1 := y.(w := y.w.(script := y.w.script.(dataIn := input[1..])));
      DisconnectCalm(y1);
      if input[0].Chunk? {
        var y2 := Note(y1, DataRx(input[0].bytes));
        DigestCalm(y2, held + input[0].bytes, draining);
        var (y3, h) := Digest(y2, held + input[0].bytes, draining);
        ReadCalm(y3, h, draining);
      }
    }
  }

  lemma ResumeCalm(y: Sys)
    ensures Calm(y.b, ResumeTx(y).b)
  {
    hide PumpTx;
  }

  lemma FinishConfigCalm(y: Sys, now: nat)
    ensures Calm(y.b, ConfigFail(y, now).b) && Calm(y.b, ConfigSucceed(y, now).b)
  {
    hide Encode, PackConfig;
  }

  lemma ConfigureCalm(y: Sys, now: nat)
    ensures Calm(y.b, AdvanceConfigure(y, now).b)
  {
    hide PumpConfOut, PumpConf, ConfigFail, ConfigSucceed;
    var y1 := PumpConfOut(y).0;
    FinishConfigCalm(y1, now);
    var y2 := y1.(b := y1.b.(awaiting := true));
    FinishConfigCalm(PumpConf(y1, true).0, now);
    FinishConfigCalm(PumpConf(y2, true).0, now);
  }

  lemma ConnectCalm(y: Sys, now: nat)
    requires Applying(y.b)
    ensures Calm(y.b, AdvanceConnect(y, now).b)
  {
    hide AdvanceConfigure, ConfigFail;
    var c := y.w.script.connects;
    var y1 := y.(w := y.w.(script := y.w.script.(connects := Tail(c))));
    FinishConfigCalm(y1, now);
    ConfigureCalm(y1.(b := y1.b.(state := Configuring)), now);
  }

  // After a poll at t, no backend deadline is due any more.
  lemma PollAhead(y: Sys, held: seq<byte>, t: nat)
    ensures DueAfter(Poll(y, held, t).0.b, t)
  {
    hide AdvanceConnect, AdvanceConfigure, ReadData, PumpConf, ResumeTx, HandleDisconnect, OnConfigureComplete;
    match y.b.state
    case Connecting => ConnectCalm(y, t); FailEnds(y, t);
    case Configuring => ConfigureCalm(y, t); FailEnds(y, t);
    case Draining => ReadCalm(DrainConf(y), held, true);
    case Disconnected =>
    case Faulted =>
    case _ =>
      var y1 := PumpConf(y, false).0;
      DisconnectCalm(y1);
      ResumeCalm(y1);
      ReadCalm(ResumeTx(y1), held, false);
  }

  lemma FailEnds(y: Sys, now: nat)
    ensures ConfigFail(y, now).b.state.Disconnected?
  {
    hide Encode;
  }

  lemma TickAhead(y: Sys, p: nat, t: nat)
    requires y.sink.Some? && Positive(y.w.setup) && DueAfter(y.b, p) && p <= t
    ensures var z := Tick(y, t);
            && DueAfter(z.b, p) && z.w.setup == y.w.setup
            && (SessionDeadline(z.sink.value).Some? ==> SessionDeadline(z.sink.value).value > t)
  {
    hide Encode;
  }

  lemma TeardownAhead(n: Node, p: nat, t: nat)
    requires Positive(n.y.w.setup) && DueAfter(n.y.b, p) && p <= t
    ensures DueAfter(Teardown(n, t).y.b, p) && Teardown(n, t).y.sink.None?
  {
  }

  // A turn leaves every deadline of the backend after its poll, and every deadline of
  // the session after its tick: with positive timeouts, and unless the turn itself
  // outlasts a deadline, the next poll() does wait.
  lemma NoSpin(n: Node, t: Turn)
    requires t.pollOk && t.tPoll <= t.tTick <= t.tDrop && Positive(n.y.w.setup)
    requires Good(n)
    ensures var z := PollOnce(n, t);
            && (BackendDeadline(z.y.b).Some? ==> BackendDeadline(z.y.b).value > t.tPoll)
            && (z.y.sink.Some? && SessionDeadline(z.y.sink.value).Some? ==>
                  SessionDeadline(z.y.sink.value).value > t.tTick)
            && forall now: nat :: now <= t.tPoll ==> ComputeTimeout(z, now) > 0
  {
    hide AcceptAll, Service, Poll, Good, FlushOut, Tick, Teardown, SessionDeadline, BackendDeadline, ComputeTimeout;
    ScriptGood(n, t.script);
    var n0 := n.(y := n.y.(w := n.y.w.(script := t.script)));
    AcceptGood(n0, t.arrivals, t.tRead);
    var n1 := AcceptAll(n0, t.arrivals, t.tRead);
    ServiceGood(n1, t);
    var n2 := if n0.y.sink.Some? then Service(n1, t) else n1;
    PollGood(n2, t.tPoll);
    PollAhead(n2.y, n2.held, t.tPoll);
    var n3 := PollNode(n2, t.tPoll);
    if n3.y.sink.Some? {
      TickAhead(n3.y, t.tPoll, t.tTick);
      var n4 := TickNode(n3, t.tTick);
      TickGood(n3, t.tTick);
      FlushGood(n4);
      SameDeadline(n4.y.sink.value, FlushOut(n4).y.sink.value);
      TeardownAhead(FlushOut(n4), t.tPoll, t.tDrop);
    }
    forall now: nat | now <= t.tPoll ensures ComputeTimeout(PollOnce(n, t), now) > 0 {
      TimeoutExact(PollOnce(n, t), now);
    }
  }

  lemma SameDeadline(s: Session, r: Session)
    requires r == s.(outbox := r.outbox)
    ensures SessionDeadline(r) == SessionDeadline(s)
  {
  }

  // --- the handshake ends in bounded time ------------------------------------

  function Rank(p: Phase): nat {
    match p
    case WaitHello => 0
    case WaitAuth => 1
    case WaitConfigure => 2
    case Settling => 3
    case Operational => 4
    case Closed => 5
  }

  // The time allowed in a phase of the handshake.
  function Allowed(setup: Setup, p: Phase): nat {
    match p
    case WaitHello => setup.to.handshake
    case WaitAuth => setup.to.auth
    case _ => setup.to.config
  }

  // The session stayed in its phase with its deadline, or moved on at time r and
  // was given the new phase's time; or it is past the handshake.
  predicate Moved(setup: Setup, r: nat, s: Session, z: Session) {
    IsOpening(z) ==>
      || (z.phase == s.phase && z.deadlineAt == s.deadlineAt)
      || (Rank(z.phase) > Rank(s.phase) && z.deadlineAt == r + Allowed(setup, z.phase))
  }

  lemma MovedThen(setup: Setup, r: nat, x: Session, y: Session, z: Session)
    requires Moved(setup, r, x, y) && Moved(setup, r, y, z) && (IsOpening(z) ==> IsOpening(y))
    ensures Moved(setup, r, x, z)
  {
  }

  lemma SelfMoved(setup: Setup, r: nat, s: Session)
    ensures Moved(setup, r, s, s)
  {
  }

  lemma HelloMoved(y: Sys, now: nat)
    requires y.sink.Some? && y.sink.value.phase.WaitHello?
    ensures Moved(y.w.setup, now, y.sink.value, HandleHello(y, now).sink.value)
  {
    hide Encode;
  }

  lemma AuthMoved(y: Sys, f: Frame, now: nat)
    requires y.sink.Some? && y.sink.value.phase.WaitAuth?
    ensures Moved(y.w.setup, now, y.sink.value, HandleAuth(y, f, now).sink.value)
  {
    hide Encode, Verified;
  }

  lemma ConfigureMoved(y: Sys, f: Frame, now: nat)
    requires y.sink.Some? && y.sink.value.phase.WaitConfigure?
    ensures Moved(y.w.setup, now, y.sink.value, HandleConfigure(y, f, now).sink.value)
  {
    hide Encode, DecodeConfig, BeginConfigure;
    var c := DecodeConfig(f);
    if c.Some? {
      BeginShape(y, c.value, now);
    }
  }

  lemma OperationalMoved(y: Sys, f: Frame, now: nat)
    requires y.sink.Some? && y.sink.value.phase.Operational?
    ensures !IsOpening(HandlePong(y, now).sink.value)
    ensures !IsOpening(HandleTxRequest(y, f, now).sink.value)
  {
    hide SubmitTx;
  }

  lemma FrameMoved(y: Sys, f: Frame, now: nat)
    requires y.sink.Some?
    ensures Moved(y.w.setup, now, y.sink.value, HandleFrame(y, f, now).sink.value)
  {
    hide WellFormed, HandleHello, HandleAuth, HandleConfigure, HandlePong, HandleTxRequest, Allowed;
    var y1 := Note(y, XrIn(f));
    SelfMoved(y.w.setup, now, y.sink.value);
    match y.sink.value.phase
    case WaitHello => HelloMoved(y1, now);
    case WaitAuth => AuthMoved(y1, f, now);
    case WaitConfigure => ConfigureMoved(y1, f, now);
    case Operational => OperationalMoved(y1, f, now);
    case _ =>
  }

  lemma {:induction false} ConsumeMoved(y: Sys, stream: seq<byte>, now: nat)
    requires All(y) && y.sink.Some? && !IsClosed(y)
    ensures Moved(y.w.setup, now, y.sink.value, Consume(y, stream, now).0.sink.value)
    decreases |stream|
  {
    hide All, HandleFrame, Allowed;
    var r := PopFrame(Xr, stream);
    if r.Got? {
      PopSound(Xr, stream);
      hide PopFrame;
      FrameAll(y, r.frame, now);
      FrameMoved(y, r.frame, now);
      var y1 := HandleFrame(y, r.frame, now);
      if !IsClosed(y1) {
        ConsumeMoved(y1, r.rest, now);
      }
    }
  }

  lemma FeedMoved(n: Node, data: seq<byte>, now: nat)
    requires Good(n) && n.y.sink.Some?
    ensures Moved(n.y.w.setup, now, n.y.sink.value, Feed(n.y, n.xrHeld, data, now).0.sink.value)
  {
    hide Good, Consume, Moved;
    SelfMoved(n.y.w.setup, now, n.y.sink.value);
    if !IsClosed(n.y) {
      GoodAll(n);
      ConsumeMoved(n.y, n.xrHeld + data, now);
    }
  }

  lemma {:induction false} ReadMoved(n: Node, now: nat)
    requires Good(n) && n.y.sink.Some?
    ensures Moved(n.y.w.setup, now, n.y.sink.value, ReadClient(n, now).y.sink.value)
    decreases |n.y.w.script.clientIn|
  {
    hide Good, Feed, Moved, IsOpening;
    SelfMoved(n.y.w.setup, now, n.y.sink.value);
    var input := n.y.w.script.clientIn;
    if input != [] {
      var y1 := n.y.(w := n.y.w.(script := n.y.w.script.(clientIn := input[1..])));
      ScriptGood(n, n.y.w.script.(clientIn := input[1..]));
      match input[0]
      case FromClient(bytes) =>
        FeedGood(n.(y := y1), bytes, now);
        FeedMoved(n.(y := y1), bytes, now);
        var (y2, xrHeld) := Feed(y1, n.xrHeld, bytes, now);
        if !IsClosed(y2) && |bytes| >= 1024 {
          var n2 := Settle(n.(y := y2, xrHeld := xrHeld));
          ReadMoved(n2, now);
          StillOpening(n.y.w.setup, now, y2.sink.value, ReadClient(n2, now).y.sink.value);
          MovedThen(n.y.w.setup, now, n.y.sink.value, y2.sink.value, ReadClient(n2, now).y.sink.value);
        }
      case RecvInterrupted => ReadMoved(n.(y := y1), now);
      case _ =>
    }
  }

  lemma StillOpening(setup: Setup, r: nat, s: Session, z: Session)
    requires Moved(setup, r, s, z)
    ensures IsOpening(z) ==> IsOpening(s)
  {
  }

  lemma GoodAll(n: Node)
    requires Good(n)
    ensures All(n.y)
  {
    hide All;
  }

  // The latest deadline of each phase, for a session accepted at o, when ticks are
  // at most d apart.
  function Limit(to: Timeouts, p: Phase, o: nat, d: nat): nat {
    match p
    case WaitHello => o + to.handshake
    case WaitAuth => o + to.handshake + to.auth + d
    case WaitConfigure => o + to.handshake + to.auth + to.config + 2 * d
    case _ => o + to.handshake + to.auth + 2 * to.config + 3 * d
  }

  predicate InHandshake(n: Node) {
    n.y.sink.Some? && IsOpening(n.y.sink.value)
  }

  // After a tick at tau a session still in its handshake is before its deadline,
  // and that is within the phase's limit.
  predicate InTime(n: Node, o: nat, tau: nat, d: nat) {
    InHandshake(n) ==>
      tau < n.y.sink.value.deadlineAt <= Limit(n.y.w.setup.to, n.y.sink.value.phase, o, d)
  }

  lemma MovedInLimit(setup: Setup, s: Session, z: Session, o: nat, tau: nat, r: nat, d: nat)
    requires Moved(setup, r, s, z) && IsOpening(z) && r <= tau + d
    requires IsOpening(s) ==> tau < s.deadlineAt <= Limit(setup.to, s.phase, o, d)
    ensures z.deadlineAt <= Limit(setup.to, z.phase, o, d)
  {
  }

  lemma {:induction false} AcceptFresh(n: Node, arrivals: seq<bool>, now: nat)
    ensures var r := AcceptAll(n, arrivals, now);
            if n.y.sink.Some? then r == n
            else r.y.sink.None? || r.y.sink == Some(NewSession(n.y.w.setup, now))
    decreases |arrivals|
  {
    hide NewSession;
    if arrivals != [] {
      var n1 := if n.y.sink.None? && arrivals[0] then OpenConnection(n, now) else n;
      AcceptFresh(n1, arrivals[1..], now);
    }
  }

  lemma ServiceMoved(n: Node, t: Turn)
    requires Good(n) && n.y.sink.Some?
    ensures var r := Service(n, t);
            r.y.sink.Some? && Moved(n.y.w.setup, t.tRead, n.y.sink.value, r.y.sink.value)
  {
    hide Good, ReadClient, FlushOut, Allowed;
    ReadMoved(n, t.tRead);
  }

  // The end of a turn: the backend is polled, and a session that is still in its
  // handshake afterwards passed the tick untouched.
  lemma FinishInTime(n: Node, t: Turn)
    requires Good(n)
    ensures var n3 := PollNode(n, t.tPoll);
            var r := if n3.y.sink.None? then n3 else Finish(n3, t);
            r.y.sink.Some? && IsOpening(r.y.sink.value) ==>
              && n.y.sink.Some? && r.y.sink.value.phase == n.y.sink.value.phase
              && r.y.sink.value.deadlineAt == n.y.sink.value.deadlineAt && t.tTick < r.y.sink.value.deadlineAt
  {
    hide Good, Poll, FlushOut, Tick;
    PollGood(n, t.tPoll);
    PollPassive(n.y, n.held, t.tPoll);
    var n3 := PollNode(n, t.tPoll);
    if n3.y.sink.Some? {
      GoodInv(n3);
      TickOpening(n3.y, t.tTick);
    }
  }

  lemma TickOpening(y: Sys, now: nat)
    requires Inv(y) && y.sink.Some?
    ensures var z := Tick(y, now);
            IsOpening(z.sink.value) ==> z == y && now < y.sink.value.deadlineAt
  {
    hide Encode, BackendOk;
  }

  lemma TurnInTime(n: Node, t: Turn, o: nat, tau: nat, d: nat)
    requires Good(n) && t.pollOk && t.tRead <= t.tTick
    requires n.y.sink.Some? ==> InTime(n, o, tau, d) && t.tTick <= tau + d
    ensures InTime(PollOnce(n, t), if n.y.sink.None? then t.tRead else o, t.tTick, d)
  {
    hide Good, AcceptAll, Service, PollNode, Finish, Limit, Allowed;
    ScriptGood(n, t.script);
    var n0 := n.(y := n.y.(w := n.y.w.(script := t.script)));
    AcceptGood(n0, t.arrivals, t.tRead);
    AcceptFresh(n0, t.arrivals, t.tRead);
    var n1 := AcceptAll(n0, t.arrivals, t.tRead);
    ServiceGood(n1, t);
    var n2 := if n0.y.sink.Some? then Service(n1, t) else n1;
    PollGood(n2, t.tPoll);
    var n3 := PollNode(n2, t.tPoll);
    if n3.y.sink.Some? { FinishGood(n3, t); }
    FinishInTime(n2, t);
    var r := PollOnce(n, t);
    if r.y.sink.Some? && IsOpening(r.y.sink.value) {
      if n.y.sink.Some? {
        ServiceMoved(n1, t);
        MovedInLimit(n.y.w.setup, n.y.sink.value, n2.y.sink.value, o, tau, t.tRead, d);
        SameLimit(n.y.w.setup.to, n2.y.sink.value, r.y.sink.value, o, d);
      } else {
        FreshLimit(n.y.w.setup, t.tRead, d);
        SameLimit(n.y.w.setup.to, n2.y.sink.value, r.y.sink.value, t.tRead, d);
      }
    }
  }

  lemma SameLimit(to: Timeouts, s: Session, z: Session, o: nat, d: nat)
    requires s.deadlineAt <= Limit(to, s.phase, o, d) && z.phase == s.phase && z.deadlineAt == s.deadlineAt
    ensures z.deadlineAt <= Limit(to, z.phase, o, d)
  {
    hide Limit;
  }

  lemma FreshLimit(setup: Setup, now: nat, d: nat)
    ensures var s := NewSession(setup, now); s.deadlineAt <= Limit(setup.to, s.phase, now, d)
  {
  }

  // When the last tick was.
  function LastTick(turns: seq<Turn>): Option<nat> {
    if turns == [] then None
    else
      var t := turns[|turns| - 1];
      if t.pollOk then Some(t.tTick) else LastTick(turns[..|turns| - 1])
  }

  // Within a turn the clock is read in order, and ticks are at most d apart.
  predicate Paced(turns: seq<Turn>, d: nat) {
    turns == [] ||
    var t, past := turns[|turns| - 1], turns[..|turns| - 1];
    && Paced(past, d)
    && (t.pollOk ==> t.tRead <= t.tTick && (LastTick(past).Some? ==> t.tTick <= LastTick(past).value + d))
  }

  // When the current connection was accepted: in the last turn that began without one.
  function AcceptedAt(setup: Setup, turns: seq<Turn>): nat {
    if turns == [] then 0
    else
      var t, past := turns[|turns| - 1], turns[..|turns| - 1];
      if t.pollOk && Run(setup, past).y.sink.None? then t.tRead else AcceptedAt(setup, past)
  }

  // With ticks at most d apart, a session still in its handshake after a tick was
  // accepted less than handshake + auth + 2 * config + 3 * d before it: the next
  // tick, at most d later, finds it operational or closed. This holds for every
  // firmware and daemon, although input is handled before time in each turn.
  lemma {:induction false} HandshakeBound(setup: Setup, turns: seq<Turn>, d: nat)
    requires Paced(turns, d)
    ensures var n, o := Run(setup, turns), AcceptedAt(setup, turns);
            n.y.sink.Some? ==>
              && LastTick(turns).Some?
              && InTime(n, o, LastTick(turns).value, d)
              && (IsOpening(n.y.sink.value) ==>
                    LastTick(turns).value < o + setup.to.handshake + setup.to.auth + 2 * setup.to.config + 3 * d)
    decreases |turns|
  {
    hide PollOnce, Good, InTime, IsOpening;
    if turns != [] {
      var t, past := turns[|turns| - 1], turns[..|turns| - 1];
      HandshakeBound(setup, past, d);
      RunGood(setup, past);
      RunGood(setup, turns);
      var n := Run(setup, past);
      if t.pollOk {
        TurnInTime(n, t, AcceptedAt(setup, past), if LastTick(past).Some? then LastTick(past).value else 0, d);
      } else {
        IdleTurn(n, t, AcceptedAt(setup, past), if LastTick(past).Some? then LastTick(past).value else 0, d);
      }
      if LastTick(turns).Some? && InHandshake(Run(setup, turns)) {
        UnderLimit(Run(setup, turns), AcceptedAt(setup, turns), LastTick(turns).value, d);
      }
    }
  }

  // --- the time of acceptance is in the trace --------------------------------

  lemma StaysClosed(n: Node, known: bool, t: Turn)
    requires n.y.sink.None?
    ensures AfterAccept(n, known, t).y.sink.None?
  {
    hide Poll;
    PollPassive(n.y, n.held, t.tPoll);
  }

  lemma TurnOpened(n: Node, t: Turn)
    requires Good(n)
    ensures var z := PollOnce(n, t).y;
            z.sink.Some? ==>
              OpenedAt(z) == if n.y.sink.None? && t.pollOk then t.tRead else OpenedAt(n.y)
  {
    TurnGood(n, t);
    hide Good, AcceptAll, AfterAccept, Dialogue, Continues;
    var n0 := n.(y := n.y.(w := n.y.w.(script := t.script)));
    if t.pollOk {
      AcceptExtends(n0, t.arrivals, t.tRead);
      var n1 := AcceptAll(n0, t.arrivals, t.tRead);
      TurnParts(n, t);
      RestContinues(n1, n0.y.sink.Some?, t);
      ContinuesOpened(n1.y, PollOnce(n, t).y);
      if n1.y.sink.None? {
        StaysClosed(n1, n0.y.sink.Some?, t);
      }
    }
  }

  lemma {:induction false} AcceptedOpened(setup: Setup, turns: seq<Turn>)
    ensures var y := Run(setup, turns).y;
            y.sink.Some? ==> OpenedAt(y) == AcceptedAt(setup, turns)
    decreases |turns|
  {
    hide PollOnce, Good, OpenedAt;
    if turns != [] {
      var t, past := turns[|turns| - 1], turns[..|turns| - 1];
      AcceptedOpened(setup, past);
      RunGood(setup, past);
      TurnOpened(Run(setup, past), t);
      if !t.pollOk {
        IdleTurn(Run(setup, past), t, 0, 0, 0);
      }
    }
  }

  // With ticks at most d apart, a session whose connection the trace opened at o is
  // operational or closed after any tick at or after o + handshake + auth + 2 * config
  // + 3 * d, whatever the firmware and the daemon do, although input is handled before
  // time in each turn.
  lemma HandshakeEnds(setup: Setup, turns: seq<Turn>, d: nat)
    requires Paced(turns, d) && Run(setup, turns).y.sink.Some?
    ensures var y := Run(setup, turns).y;
            && LastTick(turns).Some?
            && (LastTick(turns).value >= OpenedAt(y) + setup.to.handshake + setup.to.auth + 2 * setup.to.config + 3 * d ==>
                  !IsOpening(y.sink.value))
  {
    hide Run, AcceptedAt, OpenedAt, InTime, Paced;
    HandshakeBound(setup, turns, d);
    AcceptedOpened(setup, turns);
  }

  lemma IdleTurn(n: Node, t: Turn, o: nat, tau: nat, d: nat)
    requires !t.pollOk
    ensures PollOnce(n, t).y.sink == n.y.sink
    ensures InTime(PollOnce(n, t), o, tau, d) <==> InTime(n, o, tau, d)
  {
    hide AcceptAll, Service, Poll, Finish;
  }

  lemma UnderLimit(n: Node, o: nat, tau: nat, d: nat)
    requires InTime(n, o, tau, d) && InHandshake(n)
    ensures var to := n.y.w.setup.to; tau < o + to.handshake + to.auth + 2 * to.config + 3 * d
  {
  }

  // --- no deadline is further away than its timeout --------------------------

  function ReasonOf(p: Phase): CloseReason {
    match p
    case WaitHello => HandshakeTimeout
    case WaitAuth => AuthTimeout
    case _ => ConfigTimeout
  }

  predicate SessionWithin(setup: Setup, s: Session, t: nat) {
    && (IsOpening(s) ==>
          s.deadlineAt <= t + Allowed(setup, s.phase) && s.deadlineReason == ReasonOf(s.phase) && !s.txInFlight)
    && (s.phase.Operational? ==>
          && (s.txInFlight ==> s.txDeadlineAt <= t + setup.to.tx)
          && (s.awaitingPong ==> s.pongDeadlineAt <= t + setup.to.pongTimeout)
          && (!s.awaitingPong ==> s.nextPingAt <= t + setup.to.pingInterval))
  }

  predicate BackendWithin(setup: Setup, b: Backend, t: nat) {
    && (Applying(b) ==> b.configDeadline <= t + setup.configTimeout)
    && (b.state.Draining? ==> b.drainDeadline <= t + setup.drainTimeout)
  }

  predicate Within(y: Sys, t: nat) {
    BackendWithin(y.w.setup, y.b, t) && (y.sink.Some? ==> SessionWithin(y.w.setup, y.sink.value, t))
  }

  lemma HelloWithin(y: Sys, now: nat, t: nat)
    requires Within(y, t) && y.sink.Some? && y.sink.value.phase.WaitHello? && now <= t
    ensures Within(HandleHello(y, now), t)
  {
    hide Encode;
  }

  lemma AuthWithin(y: Sys, f: Frame, now: nat, t: nat)
    requires Within(y, t) && y.sink.Some? && y.sink.value.phase.WaitAuth? && now <= t
    ensures Within(HandleAuth(y, f, now), t)
  {
    hide Encode, Verified;
  }

  lemma ConfigureWithin(y: Sys, f: Frame, now: nat, t: nat)
    requires Within(y, t) && y.sink.Some? && y.sink.value.phase.WaitConfigure? && now <= t
    ensures Within(HandleConfigure(y, f, now), t)
  {
    hide Encode, DecodeConfig, Commands, SetCommand;
  }

  lemma ReadyWithin(y: Sys, f: Frame, now: nat, t: nat)
    requires Within(y, t) && y.sink.Some? && y.sink.value.phase.Operational? && now <= t
    ensures Within(HandlePong(y, now), t) && Within(HandleTxRequest(y, f, now), t)
  {
    PumpTxSetup(y.(sink := Some(y.sink.value.(txSeq := f.sn)), b := StartTx(y.b, f.payload)));
    hide Encode, PumpTx;
  }

  lemma {:induction false} PumpTxSetup(y: Sys)
    ensures PumpTx(y).0.w.setup == y.w.setup
    decreases |y.b.txOut| - y.b.txOff
  {
    var left, room := |y.b.txOut| - y.b.txOff, Room(y.w.script.dataRoom);
    if left > 0 && room > 0 {
      var y1 := y.(w := y.w.(script := y.w.script.(dataRoom := Tail(y.w.script.dataRoom))));
      var n := Min(room, left);
      PumpTxSetup(Note(y1.(b := y1.b.(txOff := y.b.txOff + n)), DataTx(y.b.txOut[y.b.txOff..y.b.txOff + n])));
    }
  }

  lemma FrameWithin(y: Sys, f: Frame, now: nat, t: nat)
    requires Within(y, t) && y.sink.Some? && now <= t
    ensures Within(HandleFrame(y, f, now), t)
  {
    hide WellFormed, HandleHello, HandleAuth, HandleConfigure, HandlePong, HandleTxRequest, Allowed;
    var y1 := Note(y, XrIn(f));
    match y.sink.value.phase
    case WaitHello => HelloWithin(y1, now, t);
    case WaitAuth => AuthWithin(y1, f, now, t);
    case WaitConfigure => ConfigureWithin(y1, f, now, t);
    case Operational => ReadyWithin(y1, f, now, t);
    case _ =>
  }

  lemma {:induction false} ConsumeWithin(y: Sys, stream: seq<byte>, now: nat, t: nat)
    requires Within(y, t) && y.sink.Some? && now <= t
    ensures Within(Consume(y, stream, now).0, t)
    decreases |stream|
  {
    hide HandleFrame, Allowed;
    var r := PopFrame(Xr, stream);
    if r.Got? {
      FrameWithin(y, r.frame, now, t);
      ConsumeWithin(HandleFrame(y, r.frame, now), r.rest, now, t);
    }
  }

  lemma {:induction false} ReadWithin(n: Node, now: nat, t: nat)
    requires Within(n.y, t) && n.y.sink.Some? && now <= t
    ensures Within(ReadClient(n, now).y, t)
    decreases |n.y.w.script.clientIn|
  {
    hide Consume, SessionWithin, BackendWithin;
    var input := n.y.w.script.clientIn;
    if input != [] {
      var y1 := n.y.(w := n.y.w.(script := n.y.w.script.(clientIn := input[1..])));
      match input[0]
      case FromClient(bytes) =>
        ConsumeWithin(y1, n.xrHeld + bytes, now, t);
        var (y2, xrHeld) := Feed(y1, n.xrHeld, bytes, now);
        if !IsClosed(y2) && |bytes| >= 1024 {
          ReadWithin(Settle(n.(y := y2, xrHeld := xrHeld)), now, t);
        }
      case RecvInterrupted => ReadWithin(n.(y := y1), now, t);
      case _ =>
    }
  }

  lemma PollCalm(y: Sys, held: seq<byte>, now: nat)
    ensures Calm(y.b, Poll(y, held, now).0.b)
  {
    hide AdvanceConnect, AdvanceConfigure, ReadData, PumpConf, ResumeTx, HandleDisconnect, ConfigFail, EnterFault;
    match y.b.state
    case Connecting => ConnectCalm(y, now); FinishConfigCalm(y, now);
    case Configuring => ConfigureCalm(y, now); FinishConfigCalm(y, now);
    case Draining => ReadCalm(DrainConf(y), held, true); FaultCalm(y);
    case Disconnected =>
    case Faulted =>
    case _ =>
      var y1 := PumpConf(y, false).0;
      DisconnectCalm(y1);
      ResumeCalm(y1);
      ReadCalm(ResumeTx(y1), held, false);
  }

  lemma FaultCalm(y: Sys)
    ensures Calm(y.b, EnterFault(y).b)
  {
  }

  lemma PollWithin(y: Sys, held: seq<byte>, now: nat, t: nat)
    requires Within(y, t) && now <= t && Poll(y, held, now).0.w.setup == y.w.setup
    ensures Within(Poll(y, held, now).0, t)
  {
    hide Poll;
    PollCalm(y, held, now);
    PollPassive(y, held, now);
  }

  lemma TickWithin(y: Sys, now: nat, t: nat)
    requires Within(y, t) && y.sink.Some? && now <= t
    ensures Within(Tick(y, now), t)
  {
    hide Encode;
  }

  lemma TeardownWithin(n: Node, now: nat, t: nat)
    requires Within(n.y, t) && now <= t
    ensures Within(Teardown(n, now).y, t)
  {
  }

  lemma FlushWithin(n: Node, t: nat)
    requires Within(n.y, t) && n.y.sink.Some? && FlushOut(n).y.w.setup == n.y.w.setup
    ensures Within(FlushOut(n).y, t)
  {
    hide FlushOut;
  }

  lemma {:induction false} AcceptWithin(n: Node, arrivals: seq<bool>, now: nat, t: nat)
    requires Within(n.y, t) && now <= t
    ensures Within(AcceptAll(n, arrivals, now).y, t)
    decreases |arrivals|
  {
    if arrivals != [] {
      var n1 := if n.y.sink.None? && arrivals[0] then OpenConnection(n, now) else n;
      AcceptWithin(n1, arrivals[1..], now, t);
    }
  }

  lemma ServiceWithin(n: Node, t: Turn, u: nat)
    requires Good(n) && Within(n.y, u) && t.tRead <= u
    ensures Within(Service(n, t).y, u)
  {
    hide Good, ReadClient, FlushOut, Within;
    if n.y.sink.Some? {
      var n1 := ReadClient(n, t.tRead);
      ReadWithin(n, t.tRead, u);
      ReadClientGood(n, t.tRead);
      FlushGood(n1);
      FlushWithin(n1, u);
      var n2 := if t.readable then FlushOut(n1) else n;
      FlushGood(n2);
      FlushWithin(n2, u);
    }
  }

  lemma FinishWithin(n: Node, t: Turn, u: nat)
    requires Good(n) && n.y.sink.Some? && Within(n.y, u) && t.tTick <= u && t.tDrop <= u
    ensures Within(Finish(n, t).y, u)
  {
    hide Good, FlushOut, Tick, Teardown, Within;
    TickWithin(n.y, t.tTick, u);
    TickGood(n, t.tTick);
    var n1 := TickNode(n, t.tTick);
    FlushGood(n1);
    FlushWithin(n1, u);
    TeardownWithin(FlushOut(n1), t.tDrop, u);
  }

  predicate Until(t: Turn, u: nat) {
    t.tRead <= u && t.tPoll <= u && t.tTick <= u && t.tDrop <= u
  }

  lemma TurnWithin(n: Node, t: Turn, u: nat)
    requires Good(n) && Within(n.y, u) && Until(t, u)
    ensures Within(PollOnce(n, t).y, u)
  {
    hide Good, AcceptAll, Service, Poll, Finish, SessionWithin, BackendWithin;
    ScriptGood(n, t.script);
    var n0 := n.(y := n.y.(w := n.y.w.(script := t.script)));
    if t.pollOk {
      AcceptGood(n0, t.arrivals, t.tRead);
      AcceptWithin(n0, t.arrivals, t.tRead, u);
      var n1 := AcceptAll(n0, t.arrivals, t.tRead);
      ServiceGood(n1, t);
      ServiceWithin(n1, t, u);
      var n2 := if n0.y.sink.Some? then Service(n1, t) else n1;
      PollGood(n2, t.tPoll);
      PollWithin(n2.y, n2.held, t.tPoll, u);
      var n3 := PollNode(n2, t.tPoll);
      if n3.y.sink.Some? { FinishWithin(n3, t, u); }
    }
  }

  // In every run, at any time u not before the clock readings so far, every pending
  // deadline of the session and of the backend is at most its own timeout after u,
  // and a handshake deadline carries the reason of its phase.
  lemma {:induction false} DeadlinesWithin(setup: Setup, turns: seq<Turn>, u: nat)
    requires forall i :: 0 <= i < |turns| ==> Until(turns[i], u)
    ensures Run(setup, turns).y.w.setup == setup && Within(Run(setup, turns).y, u)
    decreases |turns|
  {
    hide PollOnce, Good, Within, Until;
    RunGood(setup, turns);
    if turns == [] {
      BootWithin(setup, u);
    } else {
      var k := |turns| - 1;
      DeadlinesWithin(setup, turns[..k], u);
      RunGood(setup, turns[..k]);
      TurnWithin(Run(setup, turns[..k]), turns[k], u);
    }
  }

  lemma BootWithin(setup: Setup, u: nat)
    ensures Within(Boot(setup).y, u)
  {
  }
}
