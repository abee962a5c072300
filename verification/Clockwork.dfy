// Time over every run: every wait of the bridge lasts its whole timeout, counted from
// the event that began it, and ends no earlier.
module Clockwork {
  import opened Bytes
  import opened Frames
  import opened Messages
  import opened ConfText
  import opened Radio
  import opened World
  import opened Model
  import opened Joint
  import opened Growth
  import opened Ownership
  import opened Invariance
  import opened Past

  // --- when things happen ----------------------------------------------------

  predicate IsTimeout(r: CloseReason) {
    r.HandshakeTimeout? || r.AuthTimeout? || r.ConfigTimeout? || r.PongTimeout? || r.TxTimeoutUncertain?
  }

  predicate IsOk(e: Event) {
    e.XrOut? && e.frame.ty == 7 && |e.frame.payload| > 0 && e.frame.payload[0] == 0
  }

  // The clock reading of the stage of a turn in which such events happen: PINGs, timeouts
  // at the tick, the success of a configuration at the poll, drops at the teardown, and
  // all else that begins a wait at the input.
  function TimeOf(t: Turn, e: Event): nat {
    match e
    case XrOut(f) => if f.ty == 11 then t.tTick else if IsOk(e) then t.tPoll else t.tRead
    case XrClosed(r) => if IsTimeout(r) then t.tTick else t.tRead
    case ConnDrop => t.tDrop
    case _ => t.tRead
  }

  datatype Stamp = Stamp(e: Event, at: nat)

  function Stamped(t: Turn, es: seq<Event>): seq<Stamp> {
    seq(|es|, i requires 0 <= i < |es| => Stamp(es[i], TimeOf(t, es[i])))
  }

  // The trace of a run, with times.
  function Journal(setup: Setup, turns: seq<Turn>): seq<Stamp> {
    if turns == [] then []
    else
      var before := turns[..|turns| - 1];
      Journal(setup, before) + Stamped(turns[|turns| - 1], NewIn(TraceOf(setup, before), TraceOf(setup, turns)))
  }

  function NewIn(a: seq<Event>, b: seq<Event>): seq<Event> {
    if |a| <= |b| then b[|a|..] else []
  }

  // --- waits -----------------------------------------------------------------

  datatype Timer = Hello | Auth | Config | Ping | Pong | Tx | Apply | Drain

  // What begins each wait: the connection; the challenge; AUTH_OK and the CONFIGURE; the
  // success and the PONG; the PING; the TX_REQUEST; the configure; being left alone.
  predicate Begins(w: Timer, e: Event) {
    match w
    case Hello => e.ConnOpen?
    case Auth => e.XrOut? && e.frame.ty == 3
    case Config => (e.XrOut? && e.frame.ty == 5 && e.frame.payload == [0]) || (e.XrIn? && e.frame.ty == 6)
    case Ping => IsOk(e) || (e.XrIn? && e.frame.ty == 12)
    case Pong => e.XrOut? && e.frame.ty == 11
    case Tx => e.XrIn? && e.frame.ty == 9
    case Apply => e.CfgBegin?
    case Drain => e.ConnDrop? || (e.XrClosed? && e.reason.TxTimeoutUncertain?)
  }

  // What ends it unfinished: a new connection; for PING and PONG each other; and for the
  // drain the next session's success.
  predicate Ends(w: Timer, e: Event) {
    match w
    case Apply => false
    case Drain => IsOk(e)
    case Ping => e.ConnOpen? || (e.XrOut? && e.frame.ty == 11)
    case Pong => e.ConnOpen? || (e.XrIn? && e.frame.ty == 12)
    case _ => e.ConnOpen?
  }

  // What happens when it has lasted.
  function Expired(e: Event): Option<Timer> {
    match e
    case XrOut(f) => if f.ty == 11 then Some(Ping) else None
    case XrClosed(HandshakeTimeout) => Some(Hello)
    case XrClosed(AuthTimeout) => Some(Auth)
    case XrClosed(ConfigTimeout) => Some(Config)
    case XrClosed(PongTimeout) => Some(Pong)
    case XrClosed(TxTimeoutUncertain) => Some(Tx)
    case _ => None
  }

  function Span(setup: Setup, w: Timer): nat {
    match w
    case Hello => setup.to.handshake
    case Auth => setup.to.auth
    case Config => setup.to.config
    case Ping => setup.to.pingInterval
    case Pong => setup.to.pongTimeout
    case Tx => setup.to.tx
    case Apply => setup.configTimeout
    case Drain => setup.drainTimeout
  }

  // A drain is counted from its first cause.
  function Next(w: Timer, prev: Option<nat>, s: Stamp): Option<nat> {
    if Begins(w, s.e) then (if w.Drain? && prev.Some? then prev else Some(s.at))
    else if Ends(w, s.e) then None
    else prev
  }

  // Since when the wait has been going on.
  function StartOf(w: Timer, log: seq<Stamp>): Option<nat> {
    if log == [] then None else Next(w, StartOf(w, log[..|log| - 1]), log[|log| - 1])
  }

  // --- the watch -------------------------------------------------------------

  datatype Watch = Watch(
    hello: Option<nat>, auth: Option<nat>, config: Option<nat>, ping: Option<nat>,
    pong: Option<nat>, tx: Option<nat>, apply: Option<nat>, drain: Option<nat>, bad: bool)

  function Gauge(m: Watch, w: Timer): Option<nat> {
    match w
    case Hello => m.hello
    case Auth => m.auth
    case Config => m.config
    case Ping => m.ping
    case Pong => m.pong
    case Tx => m.tx
    case Apply => m.apply
    case Drain => m.drain
  }

  predicate Lasted(setup: Setup, since: Option<nat>, w: Timer, at: nat) {
    since.Some? && at >= since.value + Span(setup, w)
  }

  // It raises an alarm when a wait ends early.
  function WatchStep(setup: Setup, m: Watch, s: Stamp): Watch {
    var x := Expired(s.e);
    Watch(Next(Hello, m.hello, s), Next(Auth, m.auth, s), Next(Config, m.config, s), Next(Ping, m.ping, s),
          Next(Pong, m.pong, s), Next(Tx, m.tx, s), Next(Apply, m.apply, s), Next(Drain, m.drain, s),
          m.bad || (x.Some? && !Lasted(setup, Gauge(m, x.value), x.value, s.at)))
  }

  const WATCH: Watch := Watch(None, None, None, None, None, None, None, None, false)

  function WatchOf(setup: Setup, log: seq<Stamp>): Watch {
    if log == [] then WATCH else WatchStep(setup, WatchOf(setup, log[..|log| - 1]), log[|log| - 1])
  }

  lemma {:induction false} WatchReads(setup: Setup, log: seq<Stamp>, w: Timer)
    ensures Gauge(WatchOf(setup, log), w) == StartOf(w, log)
    decreases |log|
  {
    hide Next;
    if log != [] { WatchReads(setup, log[..|log| - 1], w); }
  }

  // --- within a turn ---------------------------------------------------------

  // The journal up to a turn, how much of the trace it covers, and the turn.
  datatype Page = Page(log: seq<Stamp>, base: nat, turn: Turn)

  function WatchAt(p: Page, y: Sys): Watch {
    WatchOf(y.w.setup, p.log + Stamped(p.turn, if p.base <= |y.w.trace| then y.w.trace[p.base..] else []))
  }

  lemma StampMore(t: Turn, es: seq<Event>, e: Event)
    ensures Stamped(t, es + [e]) == Stamped(t, es) + [Stamp(e, TimeOf(t, e))]
  {
    hide TimeOf;
  }

  lemma NowLog(p: Page)
    ensures forall y: Sys, e: Event {:trigger Note(y, e)} :: p.base <= |y.w.trace| ==>
              WatchAt(p, Note(y, e)) == WatchStep(y.w.setup, WatchAt(p, y), Stamp(e, TimeOf(p.turn, e)))
  {
    forall y: Sys, e: Event | p.base <= |y.w.trace|
      ensures WatchAt(p, Note(y, e)) == WatchStep(y.w.setup, WatchAt(p, y), Stamp(e, TimeOf(p.turn, e)))
    {
      hide WatchStep, Stamped, TimeOf;
      var es, z := y.w.trace[p.base..], Note(y, e);
      assert z.w.trace[p.base..] == es + [e];
      StampMore(p.turn, es, e);
      var log, s := p.log + Stamped(p.turn, es), Stamp(e, TimeOf(p.turn, e));
      assert p.log + (Stamped(p.turn, es) + [s]) == log + [s];
      assert (log + [s])[..|log|] == log;
    }
  }

  // The armed deadline is that of this wait.
  predicate ArmedFor(setup: Setup, s: Session, since: Option<nat>, w: Timer, r: CloseReason) {
    && !s.txInFlight && s.armed && since.Some?
    && s.deadlineAt == since.value + Span(setup, w) && s.deadlineReason == r
  }

  predicate SessionTimed(setup: Setup, m: Watch, s: Session) {
    match s.phase
    case WaitHello => ArmedFor(setup, s, m.hello, Hello, HandshakeTimeout)
    case WaitAuth => ArmedFor(setup, s, m.auth, Auth, AuthTimeout)
    case WaitConfigure => ArmedFor(setup, s, m.config, Config, ConfigTimeout)
    case Settling => ArmedFor(setup, s, m.config, Config, ConfigTimeout)
    case Operational =>
      && !s.armed && m.drain.None?
      && (s.txInFlight ==> m.tx.Some? && s.txDeadlineAt == m.tx.value + setup.to.tx)
      && (if s.awaitingPong then m.pong.Some? && s.pongDeadlineAt == m.pong.value + setup.to.pongTimeout
          else m.ping.Some? && s.nextPingAt == m.ping.value + setup.to.pingInterval)
    case Closed => true
  }

  predicate BackendTimed(setup: Setup, m: Watch, b: Backend) {
    && (Applying(b) ==> m.apply.Some? && b.configDeadline == m.apply.value + setup.configTimeout)
    && (b.state.Draining? ==> m.drain.Some? && b.drainDeadline == m.drain.value + setup.drainTimeout)
    && (Transmitting(b) ==> m.drain.None?)
  }

  // Every deadline is exact, and nothing has ended early.
  predicate OnTime(p: Page, y: Sys) {
    var m := WatchAt(p, y);
    && p.base <= |y.w.trace| && !m.bad && BackendTimed(y.w.setup, m, y.b)
    && (y.sink.Some? ==> SessionTimed(y.w.setup, m, y.sink.value))
  }

  // --- output ----------------------------------------------------------------

  // Events that neither begin nor end a wait.
  predicate Timeless(e: Event) {
    match e
    case ConnOpen(_) => false
    case XrIn(f) => f.ty != 6 && f.ty != 9 && f.ty != 12
    case XrOut(f) => f.ty != 3 && !(f.ty == 5 && f.payload == [0]) && f.ty != 11 && !IsOk(e)
    case CfgBegin(_, _) => false
    case XrClosed(r) => !IsTimeout(r)
    case ConnDrop => false
    case _ => true
  }

  lemma TimelessStep(setup: Setup, m: Watch, s: Stamp)
    requires Timeless(s.e)
    ensures WatchStep(setup, m, s) == m
  {
  }

  lemma TimelessNow(p: Page, y: Sys, e: Event)
    requires Timeless(e) && p.base <= |y.w.trace|
    ensures WatchAt(p, Note(y, e)) == WatchAt(p, y)
  {
    hide WatchStep, TimeOf, WatchAt, Timeless;
    NowLog(p);
    TimelessStep(y.w.setup, WatchAt(p, y), Stamp(e, TimeOf(p.turn, e)));
  }

  lemma CloseOnTime(p: Page, y: Sys, r: CloseReason)
    requires y.sink.Some? && OnTime(p, y) && !IsTimeout(r)
    ensures OnTime(p, CloseSession(y, r))
  {
    hide WatchAt;
    if !IsClosed(y) {
      var y1 := y.(sink := CloseSession(y, r).sink);
      TimelessNow(p, y1, XrClosed(r));
      SameNow(p, y, y1);
    }
  }

  lemma SameNow(p: Page, y: Sys, z: Sys)
    requires z.w.trace == y.w.trace && z.w.setup == y.w.setup
    ensures WatchAt(p, z) == WatchAt(p, y)
  {
    hide WatchOf, Stamped;
  }

  lemma EmitOnTime(p: Page, y: Sys, f: Frame)
    requires y.sink.Some? && OnTime(p, y) && Timeless(XrOut(f))
    ensures OnTime(p, Emit(y, f).0)
  {
    hide WatchAt, Encode, CloseSession, Timeless;
    CloseOnTime(p, y, InternalError);
    CloseOnTime(p, y, OutputOverflow);
    var s := y.sink.value;
    var y1 := y.(sink := Some(s.(outbox := s.outbox + Encode(Xr, f))));
    SameNow(p, y, y1);
    TimelessNow(p, y1, XrOut(f));
  }

  lemma RejectOnTime(p: Page, y: Sys, f: Frame, r: CloseReason)
    requires y.sink.Some? && OnTime(p, y) && Timeless(XrOut(f)) && !IsTimeout(r)
    ensures OnTime(p, Reject(y, f, r))
  {
    hide OnTime, Emit, CloseSession, Timeless, IsTimeout;
    EmitOnTime(p, y, f);
    CloseOnTime(p, Emit(y, f).0, r);
  }

  lemma NoteOnTime(p: Page, y: Sys, e: Event)
    requires OnTime(p, y) && Timeless(e)
    ensures OnTime(p, Note(y, e))
  {
    hide WatchAt, Timeless;
    TimelessNow(p, y, e);
  }

  // --- the backend's poll ----------------------------------------------------

  lemma {:induction false} QuietNow(p: Page, y: Sys, z: Sys)
    requires p.base <= |y.w.trace| <= |z.w.trace| && z.w.trace[..|y.w.trace|] == y.w.trace && z.w.setup == y.w.setup
    requires forall i :: |y.w.trace| <= i < |z.w.trace| ==> Timeless(z.w.trace[i])
    ensures WatchAt(p, z) == WatchAt(p, y)
    decreases |z.w.trace|
  {
    hide WatchAt, Timeless;
    var k := |z.w.trace| - 1;
    if |y.w.trace| <= k {
      var z1 := z.(w := z.w.(trace := z.w.trace[..k]));
      QuietNow(p, y, z1);
      TimelessNow(p, z1, z.w.trace[k]);
      assert z1.w.trace + [z.w.trace[k]] == z.w.trace;
      SameNow(p, z, Note(z1, z.w.trace[k]));
    } else {
      assert z.w.trace == y.w.trace;
      SameNow(p, y, z);
    }
  }

  lemma GrowsNow(p: Page, k: Kind, y: Sys, z: Sys)
    requires Grows(k, y, z) && !k.Minor? && p.base <= |y.w.trace|
    ensures WatchAt(p, z) == WatchAt(p, y) && p.base <= |z.w.trace|
  {
    hide WatchAt;
    forall i | |y.w.trace| <= i < |z.w.trace| ensures Timeless(z.w.trace[i]) {
      assert Is(k, z.w.trace[i]);
    }
    QuietNow(p, y, z);
  }

  lemma ResetOnTime(p: Page, y: Sys)
    requires OnTime(p, y)
    ensures OnTime(p, ResetLink(y)) && OnTime(p, EnterFault(y)) && OnTime(p, LogTxOutcome(y, true))
  {
    hide WatchAt;
    NowLog(p);
    var y1 := ResetLink(y);
    SameNow(p, y, y.(b := y1.b));
    TimelessNow(p, y.(b := y1.b), LinkDown);
    var y2, y3 := LogTxOutcome(y, false), LogTxOutcome(y, true);
    LogNow(p, y);
    var z := EnterFault(y);
    SameNow(p, y2, y2.(b := z.b));
    TimelessNow(p, y2.(b := z.b), LinkDown);
  }

  lemma LogNow(p: Page, y: Sys)
    requires p.base <= |y.w.trace|
    ensures forall ok :: WatchAt(p, LogTxOutcome(y, ok)) == WatchAt(p, y) && p.base <= |LogTxOutcome(y, ok).w.trace|
  {
    hide WatchAt;
    if |y.b.txOut| > HeaderLen(ToDaemon) {
      TimelessNow(p, y, LogTx(true, y.b.txOut[HeaderLen(ToDaemon)..]));
      TimelessNow(p, y, LogTx(false, y.b.txOut[HeaderLen(ToDaemon)..]));
    }
  }

  lemma RxOnTime(p: Page, y: Sys, rx: Rx)
    requires OnTime(p, y)
    ensures OnTime(p, DispatchRx(y, rx))
  {
    hide OnTime, Emit, PutBe16;
    NoteOnTime(p, y, LogRx(rx));
    if y.sink.Some? { EmitOnTime(p, Note(y, LogRx(rx)), XrRxFrame(rx)); }
  }

  lemma ResultOnTime(p: Page, y: Sys, o: TxOutcome)
    requires OnTime(p, y) && y.sink.Some?
    ensures OnTime(p, OnTxComplete(y, o))
  {
    hide WatchAt, Emit;
    var s := y.sink.value;
    var y1 := y.(sink := Some(s.(txInFlight := false)));
    SameNow(p, y, y1);
    EmitOnTime(p, y1, TxResultFrame(s.txSeq, o));
  }

  lemma AnswerOnTime(p: Page, y: Sys, o: TxOutcome)
    requires OnTime(p, y)
    ensures OnTime(p, DispatchAnswer(y, o))
  {
    hide WatchAt, OnTxComplete, ResetLink;
    ResetOnTime(p, y);
    var y1 := y.(b := y.b.(state := Ready, txOut := [], txOff := 0));
    SameNow(p, y, y1);
    if y.b.state.TxPending? && y.sink.Some? { ResultOnTime(p, y1, o); }
  }

  lemma DispatchOnTime(p: Page, y: Sys, f: Frame)
    requires OnTime(p, y)
    ensures OnTime(p, Dispatch(y, f))
  {
    hide OnTime, DispatchRx, DispatchAnswer, LogTxOutcome, DecodeRx, DecodeTxResult, MapTxStatus;
    NoteOnTime(p, y, Heard(f));
    var y1 := Note(y, Heard(f));
    ResetOnTime(p, y1);
    if DecodeRx(f).Some? { RxOnTime(p, y1, DecodeRx(f).value); }
    if DecodeTxResult(f).Some? {
      var o := MapTxStatus(DecodeTxResult(f).value.status);
      AnswerOnTime(p, y1, o);
      AnswerOnTime(p, LogTxOutcome(y1, true), o);
    }
    AnswerOnTime(p, y1, RadioError);
  }

  lemma TellOnTime(p: Page, y: Sys)
    requires OnTime(p, y)
    ensures OnTime(p, TellFailure(y))
  {
    hide OnTime, CloseSession;
    if y.sink.Some? { CloseOnTime(p, y, BackendFailure); }
  }

  lemma DisconnectOnTime(p: Page, y: Sys)
    requires OnTime(p, y)
    ensures OnTime(p, HandleDisconnect(y))
  {
    hide OnTime, TellFailure, ResetLink, EnterFault;
    ResetOnTime(p, y);
    TellOnTime(p, ResetLink(y));
    TellOnTime(p, EnterFault(y));
  }

  lemma {:induction false} DigestOnTime(p: Page, y: Sys, stream: seq<byte>, draining: bool)
    requires OnTime(p, y)
    ensures OnTime(p, Digest(y, stream, draining).0)
    decreases |stream|
  {
    hide OnTime, Dispatch, HandleDisconnect;
    DisconnectOnTime(p, y);
    var r := PopFrame(FromDaemon, stream);
    if r.Got? {
      DispatchOnTime(p, y, r.frame);
      DigestOnTime(p, Dispatch(y, r.frame), r.rest, draining);
    }
  }

  // Only the script differs.
  lemma ScriptOnTime(p: Page, y: Sys, s: Script)
    requires OnTime(p, y)
    ensures OnTime(p, y.(w := y.w.(script := s)))
  {
    hide WatchAt;
    SameNow(p, y, y.(w := y.w.(script := s)));
  }

  lemma {:induction false} ReadDataOnTime(p: Page, y: Sys, held: seq<byte>, draining: bool)
    requires OnTime(p, y)
    ensures OnTime(p, ReadData(y, held, draining).0)
    decreases |y.w.script.dataIn|
  {
    hide OnTime, Digest, HandleDisconnect;
    var input := y.w.script.dataIn;
    if input != [] {
      var s := y.w.script.(dataIn := input[1..]);
      var y1 := y.(w := y.w.(script := s));
      ScriptOnTime(p, y, s);
      DisconnectOnTime(p, y1);
      if input[0].Chunk? {
        NoteOnTime(p, y1, DataRx(input[0].bytes));
        var y2 := Note(y1, DataRx(input[0].bytes));
        DigestOnTime(p, y2, held + input[0].bytes, draining);
        var (y3, h) := Digest(y2, held + input[0].bytes, draining);
        ReadDataOnTime(p, y3, h, draining);
      }
    }
  }

  lemma PumpsOnTime(p: Page, k: Kind, y: Sys, z: Sys)
    requires OnTime(p, y) && Grows(k, y, z) && !k.Minor? && z.sink == y.sink
    requires z.b.state == y.b.state && z.b.configDeadline == y.b.configDeadline && z.b.drainDeadline == y.b.drainDeadline
    ensures OnTime(p, z)
  {
    hide WatchAt, Grows;
    GrowsNow(p, k, y, z);
    assert z.w.setup == y.w.setup by { GrowsSetup(k, y, z); }
  }

  lemma GrowsSetup(k: Kind, y: Sys, z: Sys)
    requires Grows(k, y, z)
    ensures z.w.setup == y.w.setup
  {
  }

  lemma ResumeOnTime(p: Page, y: Sys)
    requires OnTime(p, y)
    ensures OnTime(p, ResumeTx(y))
  {
    hide WatchAt, PumpTx, TellFailure, ResetLink, Grows;
    var y1 := PumpTx(y).0;
    PumpTxGrows(y);
    PumpsOnTime(p, Data, y, y1);
    ResetOnTime(p, y1);
    TellOnTime(p, ResetLink(y1));
    SameNow(p, y1, y1.(b := y1.b.(state := TxPending)));
  }

  lemma FailOnTime(p: Page, y: Sys, now: nat)
    requires OnTime(p, y)
    ensures OnTime(p, ConfigFail(y, now))
  {
    hide OnTime, ResetLink, Reject;
    ResetOnTime(p, y);
    var y1 := ResetLink(y);
    var y2 := Note(y1, CfgDone(y1.b.configToken, false));
    NoteOnTime(p, y1, CfgDone(y1.b.configToken, false));
    if y1.sink.Some? { RejectOnTime(p, y2, Byte1(CONFIG_RESULT, CFG_UNSUPPORTED), ConfigFailed); }
  }

  // The success of a configuration starts the wait for the first PING.
  lemma OkOnTime(p: Page, y: Sys, c: RadioConfig)
    requires OnTime(p, y) && y.sink.Some? && y.sink.value.phase.Settling? && !Applying(y.b) && !y.b.state.Draining?
    ensures var (z, ok) := Emit(y, ConfigOkFrame(c));
            OnTime(p, if ok then EnterOperational(z, p.turn.tPoll) else z)
  {
    hide WatchAt, Encode, PackConfig, CloseSession;
    CloseOnTime(p, y, InternalError);
    CloseOnTime(p, y, OutputOverflow);
    var f := ConfigOkFrame(c);
    var s := y.sink.value;
    var y1 := y.(sink := Some(s.(outbox := s.outbox + Encode(Xr, f))));
    SameNow(p, y, y1);
    NowLog(p);
    var z := Note(y1, XrOut(f));
    SameNow(p, z, EnterOperational(z, p.turn.tPoll));
  }

  lemma SucceedOnTime(p: Page, y: Sys)
    requires OnTime(p, y)
    ensures OnTime(p, ConfigSucceed(y, p.turn.tPoll))
  {
    hide WatchAt, Reject, Emit, EnterOperational, ConfigOkFrame;
    var b := y.b.(state := Ready, txEpoch := NextU32(y.b.txEpoch), confOut := "", confOff := 0, awaiting := false);
    var y1 := y.(b := b);
    SameNow(p, y, y1);
    if y.sink.Some? {
      var e := CfgDone(b.configToken, true);
      var y2 := Note(y1, e);
      NoteOnTime(p, y1, e);
      RejectOnTime(p, y2, Byte1(CONFIG_RESULT, CFG_UNSUPPORTED), ConfigFailed);
      if y.sink.value.phase.Settling? { OkOnTime(p, y2, b.pendingCfg); }
    }
  }

  lemma StatusOnTime(p: Page, y: Sys)
    requires OnTime(p, y)
    ensures OnTime(p, ReadStatus(y, p.turn.tPoll))
  {
    hide OnTime, PumpConf, ConfigFail, ConfigSucceed, Grows;
    var y1 := PumpConf(y, true).0;
    PumpConfGrows(y, true);
    PumpsOnTime(p, Conf, y, y1);
    FailOnTime(p, y1, p.turn.tPoll);
    SucceedOnTime(p, y1);
  }

  lemma AdvanceOnTime(p: Page, y: Sys)
    requires OnTime(p, y)
    ensures OnTime(p, AdvanceConfigure(y, p.turn.tPoll))
  {
    hide WatchAt, PumpConfOut, ReadStatus, ConfigFail, Grows;
    var y1 := PumpConfOut(y).0;
    PumpConfOutGrows(y);
    PumpsOnTime(p, Conf, y, y1);
    FailOnTime(p, y1, p.turn.tPoll);
    StatusOnTime(p, y1);
    var y2 := y1.(b := y1.b.(awaiting := true));
    SameNow(p, y1, y2);
    StatusOnTime(p, y2);
  }

  lemma ConnectOnTime(p: Page, y: Sys)
    requires OnTime(p, y) && Applying(y.b)
    ensures OnTime(p, AdvanceConnect(y, p.turn.tPoll))
  {
    hide WatchAt, AdvanceConfigure, ConfigFail;
    var s := y.w.script.(connects := Tail(y.w.script.connects));
    var y1 := y.(w := y.w.(script := s));
    ScriptOnTime(p, y, s);
    FailOnTime(p, y1, p.turn.tPoll);
    var y2 := y1.(b := y1.b.(state := Configuring));
    SameNow(p, y1, y2);
    AdvanceOnTime(p, y2);
  }

  lemma PollOnTime(p: Page, y: Sys, held: seq<byte>)
    requires OnTime(p, y)
    ensures OnTime(p, Poll(y, held, p.turn.tPoll).0)
  {
    hide OnTime, Grows, AdvanceConnect, AdvanceConfigure, ConfigFail, ReadData, PumpConf, ResumeTx;
    hide HandleDisconnect, DrainConf, EnterFault;
    match y.b.state
    case Connecting => ConnectOnTime(p, y); FailOnTime(p, y, p.turn.tPoll);
    case Configuring => AdvanceOnTime(p, y); FailOnTime(p, y, p.turn.tPoll);
    case Draining =>
      ResetOnTime(p, y);
      DrainConfGrows(y);
      PumpsOnTime(p, Conf, y, DrainConf(y));
      ReadDataOnTime(p, DrainConf(y), held, true);
    case Disconnected =>
    case Faulted =>
    case _ =>
      var y1 := PumpConf(y, false).0;
      PumpConfGrows(y, false);
      PumpsOnTime(p, Conf, y, y1);
      DisconnectOnTime(p, y1);
      ResumeOnTime(p, y1);
      ReadDataOnTime(p, ResumeTx(y1), held, false);
  }

  // --- the firmware's frames -------------------------------------------------

  // Reading a frame other than CONFIGURE, TX_REQUEST and PONG begins no wait; these do,
  // whatever the session then makes of them.
  lemma InputNow(p: Page, y: Sys, f: Frame)
    requires p.base <= |y.w.trace|
    ensures var m, n := WatchAt(p, y), WatchAt(p, Note(y, XrIn(f)));
            && n == m.(config := n.config, ping := n.ping, pong := n.pong, tx := n.tx)
            && n.config == (if f.ty == 6 then Some(p.turn.tRead) else m.config)
            && n.tx == (if f.ty == 9 then Some(p.turn.tRead) else m.tx)
            && n.ping == (if f.ty == 12 then Some(p.turn.tRead) else m.ping)
            && n.pong == (if f.ty == 12 then None else m.pong)
  {
    NowLog(p);
    hide WatchAt;
  }

  // Nothing has ended early, and the backend's deadlines are exact.
  predicate Neutral(p: Page, y: Sys) {
    p.base <= |y.w.trace| && !WatchAt(p, y).bad && BackendTimed(y.w.setup, WatchAt(p, y), y.b)
  }

  lemma CloseNow(p: Page, y: Sys, r: CloseReason)
    requires y.sink.Some? && Neutral(p, y) && !IsTimeout(r)
    ensures OnTime(p, CloseSession(y, r))
  {
    hide WatchAt;
    if !IsClosed(y) {
      var y1 := y.(sink := CloseSession(y, r).sink);
      TimelessNow(p, y1, XrClosed(r));
      SameNow(p, y, y1);
    }
  }

  lemma InputCloses(p: Page, y: Sys, f: Frame, r: CloseReason)
    requires OnTime(p, y) && y.sink.Some? && !IsTimeout(r)
    ensures OnTime(p, CloseSession(Note(y, XrIn(f)), r))
  {
    hide WatchAt, CloseSession;
    InputNow(p, y, f);
    CloseNow(p, Note(y, XrIn(f)), r);
  }

  // Queueing a frame, or closing for want of room.
  lemma EmitNow(p: Page, y: Sys, f: Frame)
    requires y.sink.Some? && Neutral(p, y)
    ensures var (z, ok) := Emit(y, f);
            if ok then
              && p.base <= |z.w.trace| && z.sink.value == y.sink.value.(outbox := z.sink.value.outbox)
              && WatchAt(p, z) == WatchStep(y.w.setup, WatchAt(p, y), Stamp(XrOut(f), TimeOf(p.turn, XrOut(f))))
            else OnTime(p, z)
  {
    hide WatchAt, Encode, CloseSession, WatchStep, TimeOf, BackendTimed;
    CloseNow(p, y, InternalError);
    CloseNow(p, y, OutputOverflow);
    var s := y.sink.value;
    var y1 := y.(sink := Some(s.(outbox := s.outbox + Encode(Xr, f))));
    SameNow(p, y, y1);
    NowLog(p);
  }

  lemma WelcomeOnTime(p: Page, y: Sys)
    requires y.sink.Some? && Neutral(p, y) && !y.sink.value.txInFlight
    ensures OnTime(p, Welcome(y, p.turn.tRead))
  {
    hide WatchAt, Emit;
    var f := Byte1(AUTH_RESULT, AUTH_OK);
    EmitNow(p, y, f);
    var z := Emit(y, f).0;
    SameNow(p, z, ToConfigure(z, p.turn.tRead));
  }

  lemma ChallengeOnTime(p: Page, y: Sys)
    requires y.sink.Some? && Neutral(p, y) && !y.sink.value.txInFlight
    ensures OnTime(p, Challenge(y, p.turn.tRead))
  {
    hide WatchAt, Emit, CloseSession;
    var nonces := y.w.script.nonces;
    var y1 := y.(w := y.w.(script := y.w.script.(nonces := Tail(nonces))));
    SameNow(p, y, y1);
    CloseNow(p, y1, AuthError);
    if nonces != [] && nonces[0].Some? {
      var y2 := y1.(sink := Some(y1.sink.value.(nonce := nonces[0].value)));
      SameNow(p, y1, y2);
      ChallengeSent(p, y2, nonces[0].value);
    }
  }

  lemma ChallengeSent(p: Page, y: Sys, nonce: Nonce)
    requires y.sink.Some? && Neutral(p, y) && !y.sink.value.txInFlight
    ensures var (z, ok) := Emit(y, Frame(AUTH_CHALLENGE, 0, nonce));
            var s := z.sink.value.(phase := WaitAuth);
            OnTime(p, if ok then z.(sink := Some(Arm(s, p.turn.tRead, y.w.setup.to.auth, AuthTimeout))) else z)
  {
    hide WatchAt, Emit;
    EmitNow(p, y, Frame(AUTH_CHALLENGE, 0, nonce));
    var z := Emit(y, Frame(AUTH_CHALLENGE, 0, nonce)).0;
    SameNow(p, z, z.(sink := Some(Arm(z.sink.value.(phase := WaitAuth), p.turn.tRead, y.w.setup.to.auth, AuthTimeout))));
  }

  lemma HelloOnTime(p: Page, y: Sys)
    requires y.sink.Some? && OnTime(p, y) && y.sink.value.phase.WaitHello?
    ensures OnTime(p, HandleHello(y, p.turn.tRead))
  {
    hide WatchAt, Emit, Welcome, Challenge;
    var f := Byte1(HELLO_ACK, VERSION);
    EmitOnTime(p, y, f);
    var (y1, ok) := Emit(y, f);
    if ok {
      assert !y1.sink.value.txInFlight by { EmitKeeps(y, f); }
      WelcomeOnTime(p, y1);
      ChallengeOnTime(p, y1);
    }
  }

  lemma EmitKeeps(y: Sys, f: Frame)
    requires y.sink.Some?
    ensures Emit(y, f).0.sink.value.txInFlight ==> y.sink.value.txInFlight
  {
    hide Encode;
  }

  lemma AuthOnTime(p: Page, y: Sys, f: Frame)
    requires y.sink.Some? && OnTime(p, y) && y.sink.value.phase.WaitAuth?
    ensures OnTime(p, HandleAuth(y, f, p.turn.tRead))
  {
    hide WatchAt, Emit, CloseSession, Welcome, Verified;
    WelcomeOnTime(p, y);
    FailedAuth(p, y);
  }

  lemma FailedAuth(p: Page, y: Sys)
    requires y.sink.Some? && OnTime(p, y)
    ensures OnTime(p, Reject(y, Byte1(AUTH_RESULT, AUTH_FAIL), AuthFailed))
  {
    hide WatchAt, Emit, CloseSession;
    EmitOnTime(p, y, Byte1(AUTH_RESULT, AUTH_FAIL));
    CloseOnTime(p, Emit(y, Byte1(AUTH_RESULT, AUTH_FAIL)).0, AuthFailed);
  }

  lemma BeginNow(p: Page, y: Sys, c: RadioConfig)
    requires Neutral(p, y) && (y.b.state.Disconnected? || y.b.state.Faulted?)
    ensures var z := BeginConfigure(y, c, p.turn.tRead).0;
            && Neutral(p, z) && z.sink == y.sink && z.w.setup == y.w.setup
            && WatchAt(p, z) == WatchAt(p, y).(apply := WatchAt(p, z).apply)
  {
    hide WatchAt, Commands, SetCommand, SelectBand;
    var y1 := Dial(y).0;
    SameNow(p, y, y1);
    var (z, token) := BeginConfigure(y, c, p.turn.tRead);
    if y.b.state.Disconnected? && Validate(c) == Ok && SetCommand(c).Some? && Dial(y).1 {
      var e := LinkUp(SelectBand(c.freqHz).value);
      TimelessNow(p, y1, e);
      var y2 := Note(y1, e).(b := z.b);
      SameNow(p, Note(y1, e), y2);
      NowLog(p);
      assert z == Note(y2, CfgBegin(z.b.configToken, c));
    }
  }

  lemma ConfigureOnTime(p: Page, y: Sys, f: Frame)
    requires y.sink.Some? && OnTime(p, y) && y.sink.value.phase.WaitConfigure? && f.ty == CONFIGURE
    requires Inv(y)
    ensures OnTime(p, HandleConfigure(Note(y, XrIn(f)), f, p.turn.tRead))
  {
    hide WatchAt, BeginConfigure, Emit, CloseSession, DecodeConfig, BackendOk;
    InputNow(p, y, f);
    var y1 := Note(y, XrIn(f));
    var c := DecodeConfig(f);
    FailedConfigure(p, y1, CFG_INVALID);
    if c.Some? {
      if !y.b.state.Draining? {
        BeginNow(p, y1, c.value);
      } else {
        DrainingRefuses(y1, c.value, p.turn.tRead);
      }
      var (y2, token) := BeginConfigure(y1, c.value, p.turn.tRead);
      FailedConfigure(p, y2, CFG_UNSUPPORTED);
      SameNow(p, y2, HandleConfigure(y1, f, p.turn.tRead).(w := y2.w));
    }
  }

  lemma DrainingRefuses(y: Sys, c: RadioConfig, now: nat)
    requires y.b.state.Draining?
    ensures BeginConfigure(y, c, now) == (y, 0)
  {
  }

  lemma FailedConfigure(p: Page, y: Sys, code: byte)
    requires y.sink.Some? && Neutral(p, y) && code != 0
    ensures OnTime(p, Reject(y, Byte1(CONFIG_RESULT, code), ConfigFailed))
  {
    hide WatchAt, Emit, CloseSession;
    var f := Byte1(CONFIG_RESULT, code);
    EmitNow(p, y, f);
    var z := Emit(y, f).0;
    TimelessStep(y.w.setup, WatchAt(p, y), Stamp(XrOut(f), TimeOf(p.turn, XrOut(f))));
    if Emit(y, f).1 { CloseNow(p, z, ConfigFailed); } else { CloseOnTime(p, z, ConfigFailed); }
  }

  lemma PongOnTime(p: Page, y: Sys, f: Frame)
    requires IsOperational(y) && OnTime(p, y) && f.ty == PONG
    ensures OnTime(p, HandlePong(Note(y, XrIn(f)), p.turn.tRead))
  {
    hide WatchAt, CloseSession;
    InputNow(p, y, f);
    InputCloses(p, y, f, BadState);
    var y1 := Note(y, XrIn(f));
    SameNow(p, y1, HandlePong(y1, p.turn.tRead).(w := y1.w));
  }

  lemma SubmitNow(p: Page, y: Sys, rf: seq<byte>)
    requires Neutral(p, y) && WatchAt(p, y).drain.None?
    ensures var (z, ok) := SubmitTx(y, rf);
            Neutral(p, z) && WatchAt(p, z) == WatchAt(p, y) && z.w.setup == y.w.setup
  {
    hide WatchAt, PumpTx, Encode, Grows;
    var y1 := y.(b := StartTx(y.b, rf));
    SameNow(p, y, y1);
    var y2 := PumpTx(y1).0;
    PumpTxGrows(y1);
    GrowsNow(p, Data, y1, y2);
    GrowsSetup(Data, y1, y2);
    var y3 := ResetLink(y2);
    SameNow(p, y2, y2.(b := y3.b));
    TimelessNow(p, y2.(b := y3.b), LinkDown);
    SameNow(p, y2, y2.(b := y2.b.(state := TxPending)));
  }

  lemma RequestOnTime(p: Page, y: Sys, f: Frame)
    requires IsOperational(y) && OnTime(p, y) && f.ty == TX_REQUEST
    ensures OnTime(p, HandleTxRequest(Note(y, XrIn(f)), f, p.turn.tRead))
  {
    hide WatchAt, CloseSession, SubmitTx;
    InputNow(p, y, f);
    InputCloses(p, y, f, BadState);
    var y1 := Note(y, XrIn(f));
    var y2 := y1.(sink := Some(y1.sink.value.(txSeq := f.sn)));
    SameNow(p, y1, y2);
    SubmitNow(p, y2, f.payload);
    var y3 := SubmitTx(y2, f.payload).0;
    CloseNow(p, y3, BackendFailure);
    SameNow(p, y3, HandleTxRequest(y1, f, p.turn.tRead).(w := y3.w));
  }

  lemma FrameOnTime(p: Page, y: Sys, f: Frame)
    requires y.sink.Some? && !IsClosed(y) && Inv(y) && OnTime(p, y)
    ensures OnTime(p, HandleFrame(y, f, p.turn.tRead))
  {
    hide OnTime, Inv, HandleHello, HandleAuth, HandleConfigure, HandlePong, HandleTxRequest, WellFormed, CloseSession;
    InputCloses(p, y, f, MalformedFrame);
    InputCloses(p, y, f, BadState);
    InputCloses(p, y, f, RemoteError);
    if f.ty == CONFIGURE {
      if y.sink.value.phase.WaitConfigure? { ConfigureOnTime(p, y, f); }
    } else if f.ty == PONG {
      if IsOperational(y) { PongOnTime(p, y, f); }
    } else if f.ty == TX_REQUEST {
      if IsOperational(y) { RequestOnTime(p, y, f); }
    } else {
      NoteOnTime(p, y, XrIn(f));
      var y1 := Note(y, XrIn(f));
      if y.sink.value.phase.WaitHello? { HelloOnTime(p, y1); }
      if y.sink.value.phase.WaitAuth? { AuthOnTime(p, y1, f); }
    }
  }

  lemma {:induction false} ConsumeOnTime(p: Page, y: Sys, stream: seq<byte>)
    requires y.sink.Some? && !IsClosed(y) && Inv(y) && OnTime(p, y)
    ensures OnTime(p, Consume(y, stream, p.turn.tRead).0)
    decreases |stream|
  {
    hide OnTime, Inv, HandleFrame, CloseSession;
    CloseOnTime(p, y, ParserError);
    var r := PopFrame(Xr, stream);
    if r.Got? {
      FrameOnTime(p, y, r.frame);
      FrameKeeps(y, r.frame, p.turn.tRead);
      var y1 := HandleFrame(y, r.frame, p.turn.tRead);
      if !IsClosed(y1) { ConsumeOnTime(p, y1, r.rest); }
    }
  }

  lemma {:induction false} ReadOnTime(p: Page, n: Node)
    requires n.y.sink.Some? && Good(n) && OnTime(p, n.y)
    ensures OnTime(p, ReadClient(n, p.turn.tRead).y)
    decreases |n.y.w.script.clientIn|
  {
    hide OnTime, Good, Consume;
    var input := n.y.w.script.clientIn;
    if input != [] {
      var s := n.y.w.script.(clientIn := input[1..]);
      var y1 := n.y.(w := n.y.w.(script := s));
      ScriptOnTime(p, n.y, s);
      ScriptGood(n, s);
      match input[0]
      case FromClient(bytes) =>
        GoodInv(n.(y := y1));
        if !IsClosed(y1) { ConsumeOnTime(p, y1, n.xrHeld + bytes); }
        FeedGood(n.(y := y1), bytes, p.turn.tRead);
        var (y2, xrHeld) := Feed(y1, n.xrHeld, bytes, p.turn.tRead);
        if !IsClosed(y2) && |bytes| >= 1024 {
          ReadOnTime(p, Settle(n.(y := y2, xrHeld := xrHeld)));
        }
      case RecvInterrupted => ReadOnTime(p, n.(y := y1));
      case _ =>
    }
  }

  // --- output, time, the end -------------------------------------------------

  lemma {:induction false} FlushOnTime(p: Page, n: Node)
    requires n.y.sink.Some? && OnTime(p, n.y)
    ensures OnTime(p, FlushOut(n).y)
    decreases |n.y.w.script.clientRoom|
  {
    hide WatchAt;
    var s, rooms := n.y.sink.value, n.y.w.script.clientRoom;
    if s.outbox != [] && rooms != [] {
      var script := n.y.w.script.(clientRoom := rooms[1..]);
      var y1 := n.y.(w := n.y.w.(script := script));
      ScriptOnTime(p, n.y, script);
      match rooms[0]
      case Accepted(k) =>
        if k > 0 {
          var m := Min(k, |s.outbox|);
          var y2 := y1.(sink := Some(s.(outbox := s.outbox[m..])));
          SameNow(p, y1, y2);
          NoteOnTime(p, y2, XrSent(s.outbox[..m]));
          FlushOnTime(p, n.(y := Note(y2, XrSent(s.outbox[..m]))));
        }
      case SendInterrupted => FlushOnTime(p, n.(y := y1));
      case _ =>
    }
  }

  // A deadline that is reached has lasted.
  lemma ExpireOnTime(p: Page, y: Sys, r: CloseReason, w: Timer)
    requires y.sink.Some? && !IsClosed(y) && Neutral(p, y) && Expired(XrClosed(r)) == Some(w) && !w.Tx?
    requires Lasted(y.w.setup, Gauge(WatchAt(p, y), w), w, p.turn.tTick)
    ensures OnTime(p, CloseSession(y, r))
  {
    hide WatchAt;
    var y1 := y.(sink := CloseSession(y, r).sink);
    SameNow(p, y, y1);
    NowLog(p);
  }

  // The ceiling begins the drain, unless one is under way.
  lemma CeilingStep(setup: Setup, m: Watch, at: nat)
    requires Lasted(setup, m.tx, Tx, at)
    ensures WatchStep(setup, m, Stamp(XrClosed(TxTimeoutUncertain), at))
         == m.(drain := if m.drain.Some? then m.drain else Some(at))
  {
  }

  lemma CeilingOnTime(p: Page, y: Sys)
    requires IsOperational(y) && OnTime(p, y) && y.sink.value.txInFlight && p.turn.tTick >= y.sink.value.txDeadlineAt
    ensures OnTime(p, CloseSession(AbandonTx(y, p.turn.tTick), TxTimeoutUncertain))
  {
    hide WatchAt, AbandonTx, WatchStep;
    var y1 := AbandonTx(y, p.turn.tTick);
    AbandonNow(p, y, p.turn.tTick);
    var y2 := y1.(sink := CloseSession(y1, TxTimeoutUncertain).sink);
    SameNow(p, y1, y2);
    NowLog(p);
    CeilingStep(y.w.setup, WatchAt(p, y), p.turn.tTick);
  }

  lemma AbandonNow(p: Page, y: Sys, now: nat)
    requires p.base <= |y.w.trace|
    ensures var z := AbandonTx(y, now);
            && WatchAt(p, z) == WatchAt(p, y) && p.base <= |z.w.trace| && z.sink == y.sink && z.w.setup == y.w.setup
            && (if y.b.state.TxPending? then z.b.state.Draining? && z.b.drainDeadline == now + y.w.setup.drainTimeout
                else if y.b.state.TxWriting? then z.b.state.Disconnected?
                else z.b == y.b)
  {
    hide WatchAt;
    var y1 := ResetLink(y);
    SameNow(p, y, y.(b := y1.b));
    TimelessNow(p, y.(b := y1.b), LinkDown);
    SameNow(p, y, y.(b := y.b.(state := Draining, drainDeadline := now + y.w.setup.drainTimeout)));
  }

  lemma PingOnTime(p: Page, y: Sys)
    requires IsOperational(y) && OnTime(p, y) && !y.sink.value.awaitingPong && p.turn.tTick >= y.sink.value.nextPingAt
    ensures OnTime(p, SendPing(y, p.turn.tTick))
  {
    hide WatchAt, Emit;
    var f := Frame(PING, 0, []);
    EmitNow(p, y, f);
    var z := Emit(y, f).0;
    SameNow(p, z, SendPing(y, p.turn.tTick).(w := z.w));
  }

  lemma TickOnTime(p: Page, y: Sys)
    requires y.sink.Some? && OnTime(p, y)
    ensures OnTime(p, Tick(y, p.turn.tTick))
  {
    hide WatchAt, CloseSession, SendPing, AbandonTx;
    var s, m := y.sink.value, WatchAt(p, y);
    if s.armed && !s.phase.Closed? && p.turn.tTick >= s.deadlineAt {
      match s.phase
      case WaitHello => ExpireOnTime(p, y, HandshakeTimeout, Hello);
      case WaitAuth => ExpireOnTime(p, y, AuthTimeout, Auth);
      case WaitConfigure => ExpireOnTime(p, y, ConfigTimeout, Config);
      case Settling => ExpireOnTime(p, y, ConfigTimeout, Config);
      case _ =>
    } else if s.phase.Operational? {
      if s.txInFlight && p.turn.tTick >= s.txDeadlineAt {
        CeilingOnTime(p, y);
      } else if s.awaitingPong {
        if p.turn.tTick >= s.pongDeadlineAt { ExpireOnTime(p, y, PongTimeout, Pong); }
      } else if p.turn.tTick >= s.nextPingAt {
        PingOnTime(p, y);
      }
    }
  }

  lemma DropStep(setup: Setup, m: Watch, at: nat)
    ensures WatchStep(setup, m, Stamp(ConnDrop, at)) == m.(drain := if m.drain.Some? then m.drain else Some(at))
  {
  }

  lemma TeardownOnTime(p: Page, n: Node)
    requires OnTime(p, n.y)
    ensures OnTime(p, Teardown(n, p.turn.tDrop).y)
  {
    hide WatchAt, AbandonTx, Stop, WatchStep;
    AbandonNow(p, n.y, p.turn.tDrop);
    var y1 := AbandonTx(n.y, p.turn.tDrop).(sink := None);
    SameNow(p, AbandonTx(n.y, p.turn.tDrop), y1);
    StopNow(p, y1);
    NowLog(p);
    DropStep(n.y.w.setup, WatchAt(p, n.y), p.turn.tDrop);
  }

  lemma StopNow(p: Page, y: Sys)
    requires p.base <= |y.w.trace|
    ensures var z := Stop(y);
            && WatchAt(p, z) == WatchAt(p, y) && p.base <= |z.w.trace| && z.sink == y.sink && z.w.setup == y.w.setup
            && (if y.b.state.Draining? || y.b.state.Faulted? then z.b == y.b.(started := false) else z.b.state.Disconnected?)
  {
    hide WatchAt;
    var y1 := ResetLink(y);
    SameNow(p, y, y.(b := y1.b));
    TimelessNow(p, y.(b := y1.b), LinkDown);
    var y2 := if y.b.state.Draining? || y.b.state.Faulted? then y else y1;
    SameNow(p, y2, Stop(y));
  }

  // --- a turn ----------------------------------------------------------------

  lemma {:induction false} AcceptOnTime(p: Page, n: Node, arrivals: seq<bool>)
    requires OnTime(p, n.y)
    ensures OnTime(p, AcceptAll(n, arrivals, p.turn.tRead).y)
    decreases |arrivals|
  {
    hide OnTime, OpenConnection;
    if arrivals != [] {
      OpenOnTime(p, n);
      AcceptOnTime(p, if n.y.sink.None? && arrivals[0] then OpenConnection(n, p.turn.tRead) else n, arrivals[1..]);
    }
  }

  lemma OpenOnTime(p: Page, n: Node)
    requires OnTime(p, n.y)
    ensures OnTime(p, OpenConnection(n, p.turn.tRead).y)
  {
    hide WatchAt;
    NowLog(p);
    var y := Note(n.y, ConnOpen(p.turn.tRead));
    SameNow(p, y, OpenConnection(n, p.turn.tRead).y);
  }

  lemma ServiceOnTime(p: Page, n: Node)
    requires Good(n) && OnTime(p, n.y)
    ensures OnTime(p, Service(n, p.turn).y)
  {
    hide OnTime, Good, ReadClient, FlushOut;
    if n.y.sink.Some? {
      var n1 := ReadClient(n, p.turn.tRead);
      ReadOnTime(p, n);
      FlushOnTime(p, n1);
      var n2 := if p.turn.readable then FlushOut(n1) else n;
      FlushOnTime(p, n2);
    }
  }

  lemma FinishOnTime(p: Page, n: Node)
    requires n.y.sink.Some? && OnTime(p, n.y)
    ensures OnTime(p, Finish(n, p.turn).y)
  {
    hide OnTime, Tick, FlushOut, Teardown;
    TickOnTime(p, n.y);
    var n1 := TickNode(n, p.turn.tTick);
    FlushOnTime(p, n1);
    TeardownOnTime(p, FlushOut(n1));
  }

  lemma TurnOnTime(p: Page, n: Node)
    requires Good(n) && OnTime(p, n.y)
    ensures OnTime(p, PollOnce(n, p.turn).y)
  {
    hide OnTime, Good, AcceptAll, Service, Poll, Finish;
    var t := p.turn;
    ScriptOnTime(p, n.y, t.script);
    ScriptGood(n, t.script);
    var n0 := n.(y := n.y.(w := n.y.w.(script := t.script)));
    if t.pollOk {
      AcceptOnTime(p, n0, t.arrivals);
      AcceptGood(n0, t.arrivals, t.tRead);
      var n1 := AcceptAll(n0, t.arrivals, t.tRead);
      ServiceOnTime(p, n1);
      var n2 := if n0.y.sink.Some? then Service(n1, t) else n1;
      PollOnTime(p, n2.y, n2.held);
      var n3 := PollNode(n2, t.tPoll);
      if n3.y.sink.Some? { FinishOnTime(p, n3); }
    }
  }

  // --- every run -------------------------------------------------------------

  // The journal is the trace, with times.
  lemma {:induction false} JournalTrace(setup: Setup, turns: seq<Turn>)
    ensures |Journal(setup, turns)| == |TraceOf(setup, turns)|
    ensures forall i :: 0 <= i < |TraceOf(setup, turns)| ==> Journal(setup, turns)[i].e == TraceOf(setup, turns)[i]
    decreases |turns|
  {
    hide PollOnce, TimeOf;
    if turns != [] {
      var before, t := turns[..|turns| - 1], turns[|turns| - 1];
      JournalTrace(setup, before);
      TurnExtends(Run(setup, before), t);
    }
  }

  function PageOf(setup: Setup, turns: seq<Turn>, t: Turn): Page {
    Page(Journal(setup, turns), |TraceOf(setup, turns)|, t)
  }

  // Where a turn begins and ends in the journal.
  lemma PageEnds(setup: Setup, turns: seq<Turn>, t: Turn)
    ensures var p := PageOf(setup, turns, t);
            && WatchAt(p, Run(setup, turns).y) == WatchOf(Run(setup, turns).y.w.setup, Journal(setup, turns))
            && WatchAt(p, Run(setup, turns + [t]).y) == WatchOf(Run(setup, turns + [t]).y.w.setup, Journal(setup, turns + [t]))
            && p.base <= |Run(setup, turns + [t]).y.w.trace|
  {
    hide PollOnce, WatchOf, TimeOf;
    RunStep(setup, turns, t);
    TurnExtends(Run(setup, turns), t);
    assert (turns + [t])[..|turns|] == turns;
    var log := Journal(setup, turns);
    assert log + Stamped(t, []) == log;
  }

  ghost predicate RunOnTime(setup: Setup, turns: seq<Turn>) {
    var y, m := Run(setup, turns).y, WatchOf(setup, Journal(setup, turns));
    && y.w.setup == setup && !m.bad && BackendTimed(setup, m, y.b)
    && (y.sink.Some? ==> SessionTimed(setup, m, y.sink.value))
  }

  // On every run all deadlines are exact and none has struck early.
  lemma {:induction false} AlwaysOnTime(setup: Setup, turns: seq<Turn>)
    ensures RunOnTime(setup, turns)
    decreases |turns|
  {
    if turns == [] {
      BootOnTime(setup);
    } else {
      var before, t := turns[..|turns| - 1], turns[|turns| - 1];
      assert before + [t] == turns;
      AlwaysOnTime(setup, before);
      hide Run, PollOnce, Good, WatchAt, WatchOf, Journal, BackendTimed, SessionTimed;
      RunGood(setup, before);
      PageEnds(setup, before, t);
      RunStep(setup, before, t);
      TurnGood(Run(setup, before), t);
      TurnOnTime(PageOf(setup, before, t), Run(setup, before));
    }
  }

  lemma BootOnTime(setup: Setup)
    ensures RunOnTime(setup, [])
  {
  }

  // The wait w has been going on since the event at j, which began it.
  predicate GoesOn(w: Timer, log: seq<Stamp>, j: nat) {
    && j < |log| && Begins(w, log[j].e)
    && forall x :: j < x < |log| ==> !Ends(w, log[x].e) && (w.Drain? || !Begins(w, log[x].e))
  }

  lemma {:induction false} StartFound(w: Timer, log: seq<Stamp>) returns (j: nat)
    requires StartOf(w, log).Some?
    ensures j < |log| && GoesOn(w, log, j) && log[j].at == StartOf(w, log).value
    decreases |log|
  {
    hide Begins, Ends;
    var k := |log| - 1;
    if Begins(w, log[k].e) && !(w.Drain? && StartOf(w, log[..k]).Some?) {
      j := k;
    } else {
      j := StartFound(w, log[..k]);
      LatchKept(w, log[k].e);
      assert forall x :: j < x < k ==> log[..k][x] == log[x];
    }
  }

  // What begins a drain does not end one.
  lemma LatchKept(w: Timer, e: Event)
    ensures w.Drain? && Begins(w, e) ==> !Ends(w, e)
  {
  }

  lemma {:induction false} WatchSticky(setup: Setup, log: seq<Stamp>, k: nat)
    requires k <= |log| && !WatchOf(setup, log).bad
    ensures !WatchOf(setup, log[..k]).bad
    decreases |log| - k
  {
    hide Next;
    if k < |log| {
      WatchSticky(setup, log, k + 1);
      assert log[..k + 1][..k] == log[..k];
    } else {
      assert log[..k] == log;
    }
  }

  // Nothing strikes early, in any run: when a PING is sent, or a session closed for a
  // timeout, the wait it ends has been going on, uninterrupted, since an event at least
  // the whole timeout earlier.
  lemma NeverEarly(setup: Setup, turns: seq<Turn>, k: nat, w: Timer)
    requires k < |Journal(setup, turns)| && Expired(Journal(setup, turns)[k].e) == Some(w)
    ensures var log := Journal(setup, turns);
            exists j: nat :: j < k && GoesOn(w, log[..k], j) && log[k].at >= log[j].at + Span(setup, w)
  {
    hide Run, Journal, Next, GoesOn, SessionTimed, BackendTimed;
    var log := Journal(setup, turns);
    AlwaysOnTime(setup, turns);
    WatchSticky(setup, log, k + 1);
    assert log[..k + 1][..k] == log[..k];
    WatchReads(setup, log[..k], w);
    var j := StartFound(w, log[..k]);
  }

  // --- the backend's deadlines -----------------------------------------------

  // The DATA bytes a poll may read, and whether the socket fails.
  function DataOf(input: seq<Recv<DataChunk>>): seq<byte> {
    if input == [] || input[0].Gone? then [] else input[0].bytes + DataOf(input[1..])
  }

  predicate AnyGone(input: seq<Recv<DataChunk>>) {
    exists i :: 0 <= i < |input| && input[i].Gone?
  }

  lemma {:induction false} DigestFaults(y: Sys, stream: seq<byte>)
    requires y.b.state.Draining?
    ensures var (z, held) := Digest(y, stream, true);
            && (z.b.state.Faulted? ==> Parse(FromDaemon, stream).bad)
            && (z.b.state.Draining? ==> !Parse(FromDaemon, stream).bad && held == Parse(FromDaemon, stream).rest)
    decreases |stream|
  {
    hide Dispatch, PopFrame;
    DrainingLost(y);
    var r := PopFrame(FromDaemon, stream);
    if r.Got? {
      DispatchStates(y, r.frame);
      var y1 := Dispatch(y, r.frame);
      PopSmaller(stream);
      if y1.b.state.Draining? { DigestFaults(y1, r.rest); }
    }
  }

  lemma DrainingLost(y: Sys)
    requires y.b.state.Draining?
    ensures HandleDisconnect(y).b.state.Faulted?
  {
  }

  lemma {:induction false} ReadFaults(y: Sys, held: seq<byte>)
    requires y.b.state.Draining? && !AnyGone(y.w.script.dataIn)
    ensures ReadData(y, held, true).0.b.state.Faulted? ==> Parse(FromDaemon, held + DataOf(y.w.script.dataIn)).bad
    decreases |y.w.script.dataIn|
  {
    hide Digest, Parse, HandleDisconnect;
    var input := y.w.script.dataIn;
    if input != [] {
      assert !input[0].Gone?;
      var chunk := input[0].bytes;
      var y1 := y.(w := y.w.(script := y.w.script.(dataIn := input[1..])));
      var y2 := Note(y1, DataRx(chunk));
      DigestFaults(y2, held + chunk);
      var (y3, h) := Digest(y2, held + chunk, true);
      ParseAppend(FromDaemon, held + chunk, DataOf(input[1..]));
      assert held + DataOf(input) == (held + chunk) + DataOf(input[1..]);
      if y3.b.state.Draining? && |chunk| >= READ_CHUNK {
        assert forall i :: 0 <= i < |input[1..]| ==> input[1..][i] == input[i + 1];
        ReadFaults(y3, h);
      }
    }
  }

  // A drain does not fault before its time: a poll earlier than the drain timeout after
  // the packet was left faults only when the DATA socket fails or its stream is malformed.
  lemma DrainLasts(setup: Setup, turns: seq<Turn>, held: seq<byte>, script: Script, now: nat)
    requires Run(setup, turns).y.b.state.Draining?
    ensures var y := Run(setup, turns).y;
            var z := Poll(y.(w := y.w.(script := script)), held, now).0;
            var since := StartOf(Drain, Journal(setup, turns));
            since.Some? &&
            (z.b.state.Faulted? ==>
               || now >= since.value + setup.drainTimeout
               || AnyGone(script.dataIn) || Parse(FromDaemon, held + DataOf(script.dataIn)).bad)
  {
    hide Run, Journal, Parse, ReadData, AnyGone, DataOf, SessionTimed;
    AlwaysOnTime(setup, turns);
    WatchReads(setup, Journal(setup, turns), Drain);
    var y := Run(setup, turns).y;
    var y1 := y.(w := y.w.(script := script));
    var y2 := DrainConf(y1);
    DrainConfData(y1);
    if !AnyGone(script.dataIn) { ReadFaults(y2, held); }
  }

  lemma {:induction false} DrainConfData(y: Sys)
    ensures DrainConf(y).w.script.dataIn == y.w.script.dataIn
    decreases |y.w.script.confIn|
  {
    var input := y.w.script.confIn;
    if input != [] && input[0].Chunk? {
      var y1 := y.(w := y.w.(script := y.w.script.(confIn := input[1..])));
      DrainConfData(Note(y1, ConfRx(input[0].bytes)));
    }
  }

  // Nor does a configure fail before its time: a poll earlier than the configure timeout
  // after it began fails it only when a connect or a write fails or something is read.
  lemma ApplyLasts(setup: Setup, turns: seq<Turn>, held: seq<byte>, script: Script, now: nat)
    requires Applying(Run(setup, turns).y.b)
    ensures var y := Run(setup, turns).y;
            var z := Poll(y.(w := y.w.(script := script)), held, now).0;
            var since := StartOf(Apply, Journal(setup, turns));
            since.Some? &&
            (!Applying(z.b) ==>
               || now >= since.value + setup.configTimeout
               || (script.connects != [] && script.connects[0].ConnectFailed?)
               || (exists i :: 0 <= i < |script.confRoom| && script.confRoom[i] < 0)
               || script.confIn != [])
  {
    hide Run, Journal, PumpConfOut, SessionTimed, AdvanceConfigure;
    AlwaysOnTime(setup, turns);
    WatchReads(setup, Journal(setup, turns), Apply);
    var y := Run(setup, turns).y;
    var y1 := y.(w := y.w.(script := script));
    if script.confIn == [] && !(exists i :: 0 <= i < |script.confRoom| && script.confRoom[i] < 0) {
      SilentAdvance(y1, now);
      SilentAdvance(y1.(w := y1.w.(script := script.(connects := Tail(script.connects))), b := y1.b.(state := Configuring)), now);
    }
  }

  lemma {:induction false} SoundFlush(y: Sys)
    requires forall i :: 0 <= i < |y.w.script.confRoom| ==> y.w.script.confRoom[i] >= 0
    ensures !PumpConfOut(y).1.FlushFailed? && PumpConfOut(y).0.w.script.confIn == y.w.script.confIn
    decreases |y.b.confOut| - y.b.confOff
  {
    var left, rooms := |y.b.confOut| - y.b.confOff, y.w.script.confRoom;
    if left > 0 && rooms != [] && rooms[0] > 0 {
      var n := Min(rooms[0], left);
      var y1 := y.(w := y.w.(script := y.w.script.(confRoom := Tail(rooms))));
      SoundFlush(Note(y1.(b := y1.b.(confOff := y.b.confOff + n)), ConfTx(y.b.confOut[y.b.confOff..y.b.confOff + n])));
    }
  }

  lemma SilentAdvance(y: Sys, now: nat)
    requires Applying(y.b) && y.w.script.confIn == []
    requires forall i :: 0 <= i < |y.w.script.confRoom| ==> y.w.script.confRoom[i] >= 0
    ensures Applying(AdvanceConfigure(y, now).b)
  {
    hide PumpConfOut, ConfigFail, ConfigSucceed;
    SoundFlush(y);
  }
}
