// A whole run: a client connects, authenticates, configures the radio, sends a packet
// and gets its answer. It shows that the states the other modules speak of are reached.
module Scenario {
  import opened Bytes
  import opened Frames
  import opened Messages
  import opened ConfText
  import opened Radio
  import opened World
  import opened Monitors
  import opened Model
  import opened Joint
  import opened Ownership
  import opened TxSafety
  import opened ConfigLaws
  import opened Exchange

  // --- one turn --------------------------------------------------------------

  // All clocks stand still.
  function At0(s: Script, arrivals: seq<bool>, readable: bool): Turn {
    Turn(s, true, arrivals, readable, false, 0, 0, 0, 0)
  }

  function Scripted(y: Sys, s: Script): Sys {
    y.(w := y.w.(script := s))
  }

  // A connected client with nothing half read.
  predicate Tidy(n: Node) {
    n.y.sink.Some? && n.xrHeld == [] && !n.broken
  }

  // Nothing is due at time 0, the client takes no output, and a closed session still has
  // some.
  predicate NothingDue(y: Sys) {
    && y.w.script.clientRoom == []
    && y.sink.Some? && (y.sink.value.phase.Closed? ==> y.sink.value.outbox != [])
    && (y.sink.value.armed ==> y.sink.value.deadlineAt > 0)
    && (y.sink.value.phase.Operational? ==>
          && !y.sink.value.awaitingPong && y.sink.value.nextPingAt > 0
          && (y.sink.value.txInFlight ==> y.sink.value.txDeadlineAt > 0))
  }

  lemma FinishEarly(n: Node, t: Turn)
    requires Tidy(n) && NothingDue(n.y) && t.tTick == 0
    ensures Finish(n, t) == Settle(n) && Tidy(Settle(n))
  {
    assert Tick(n.y, 0) == n.y;
  }

  // What poll() leaves of the daemon's input.
  function Kept(y: Sys, held: seq<byte>): seq<byte> {
    if Live(y.b) then held else []
  }

  lemma QuietTurn(n: Node, s: Script)
    requires Tidy(n)
    requires NothingDue(Poll(Scripted(n.y, s), n.held, 0).0)
    ensures var m, (z, held) := PollOnce(n, At0(s, [], false)), Poll(Scripted(n.y, s), n.held, 0);
            Tidy(m) && m.y == z && m.held == Kept(z, held)
  {
    hide Poll, Finish;
    var t := At0(s, [], false);
    var n0 := n.(y := Scripted(n.y, s));
    assert AcceptAll(n0, [], 0) == n0;
    FinishEarly(PollNode(n0, 0), t);
  }

  function Sends(s: Script, f: Frame): Script
    requires Legal(Xr, f)
  {
    EncodedSize(Xr, f);
    s.(clientIn := [FromClient(Encode(Xr, f))])
  }

  lemma OneFrame(n: Node, s: Script, f: Frame)
    requires Tidy(n) && !IsClosed(n.y) && Legal(Xr, f) && s.clientIn == []
    ensures ReadClient(n.(y := Scripted(n.y, Sends(s, f))), 0)
         == Settle(n.(y := HandleFrame(Scripted(n.y, s), f, 0)))
  {
    PopEncode(Xr, f, []);
    EncodedSize(Xr, f);
    assert [] + Encode(Xr, f) == Encode(Xr, f) + [] == Encode(Xr, f);
    hide HandleFrame, Encode, PopFrame;
    var y := Scripted(n.y, s);
    assert PopFrame(Xr, []).NeedMore? by { NoFrame(); }
    assert Consume(y, Encode(Xr, f), 0) == (HandleFrame(y, f, 0), []);
  }

  lemma NoFrame()
    ensures PopFrame(Xr, []).NeedMore? && PopFrame(FromDaemon, []).NeedMore?
  {
  }

  lemma ReadTurn(n: Node, s: Script, f: Frame)
    requires Tidy(n) && !IsClosed(n.y) && Legal(Xr, f) && s.clientIn == []
    requires var y := HandleFrame(Scripted(n.y, s), f, 0);
             && y.w.script.clientRoom == []
             && NothingDue(Poll(y, Kept(y, n.held), 0).0)
    ensures var m, y := PollOnce(n, At0(Sends(s, f), [], true)), HandleFrame(Scripted(n.y, s), f, 0);
            var (z, held) := Poll(y, Kept(y, n.held), 0);
            Tidy(m) && m.y == z && m.held == Kept(z, held)
  {
    hide Poll, Finish, HandleFrame, ReadClient, Sends;
    OneFrame(n, s, f);
    var t := At0(Sends(s, f), [], true);
    var n0 := n.(y := Scripted(n.y, Sends(s, f)));
    assert AcceptAll(n0, [], 0) == n0;
    var n1 := Settle(n.(y := HandleFrame(Scripted(n.y, s), f, 0)));
    assert Service(n0, t) == n1;
    FinishEarly(PollNode(n1, 0), t);
  }

  // --- handshake -------------------------------------------------------------

  // Every timeout is positive, a nonce's answer has the length of an HMAC-SHA256, and
  // the queue holds two frames.
  predicate Able(setup: Setup, nonce: Nonce) {
    && setup.to.handshake > 0 && setup.to.auth > 0 && setup.to.config > 0 && setup.to.tx > 0
    && setup.to.pingInterval > 0 && setup.configTimeout > 0
    && setup.maxOutbox >= 2 * MaxFrame(Xr)
    && (setup.mac.Some? ==> |setup.mac.value(nonce)| == RESPONSE_SIZE)
  }

  // There is no client, and the backend is idle after `t` configures.
  ghost predicate Vacant(n: Node, setup: Setup, t: nat) {
    n.y.sink.None? && n.y.w.setup == setup && n.y.b.state.Disconnected? && n.y.b.nextToken == t
  }

  // The session is in one phase of the handshake and the backend is idle.
  ghost predicate Handshaking(n: Node, setup: Setup, phase: Phase, t: nat) {
    && Tidy(n) && NothingDue(n.y) && n.y.w.setup == setup
    && n.y.b.state.Disconnected? && n.y.b.started && n.y.b.nextToken == t
    && n.y.sink.value.phase == phase && !n.y.sink.value.txInFlight
    && |n.y.sink.value.outbox| <= 50
  }

  const HELLO_FRAME: Frame := Frame(HELLO, 0, [VERSION])

  // The client connects, says HELLO and, when challenged, answers.
  const CONNECT: Turn := At0(SILENT, [true], false)

  lemma Opened(n: Node, setup: Setup, nonce: Nonce, t: nat)
    requires Able(setup, nonce) && Vacant(n, setup, t)
    ensures var m := PollOnce(n, CONNECT);
            Handshaking(m, setup, WaitHello, t) && m.y.sink.value.outbox == []
  {
    var n0 := n.(y := Scripted(n.y, SILENT));
    var n1 := OpenConnection(n0, 0);
    assert AcceptAll(n1, [], 0) == n1;
    assert AcceptAll(n0, [true], 0) == n1;
    hide Finish;
    FinishEarly(PollNode(n1, 0), CONNECT);
  }

  // One step of the handshake: only the session changes, and its new deadline is ahead.
  ghost predicate Advances(y: Sys, z: Sys, phase: Phase, room: nat) {
    && y.sink.Some? && z.sink.Some? && z.b == y.b && z.w.setup == y.w.setup
    && z.w.script.clientRoom == y.w.script.clientRoom
    && z.sink.value.phase == phase && z.sink.value.armed && z.sink.value.deadlineAt > 0
    && z.sink.value.txInFlight == y.sink.value.txInFlight && |z.sink.value.outbox| <= room
  }

  lemma Welcomes(y: Sys, nonce: Nonce)
    requires Able(y.w.setup, nonce) && y.sink.Some? && |y.sink.value.outbox| <= 33
    ensures Advances(y, Welcome(y, 0), WaitConfigure, 50)
  {
    EncodedSize(Xr, Byte1(AUTH_RESULT, AUTH_OK));
    hide Encode;
  }

  lemma Challenges(y: Sys, nonce: Nonce)
    requires Able(y.w.setup, nonce) && y.sink.Some? && |y.sink.value.outbox| <= 9
    requires y.w.script.nonces == [Some(nonce)]
    ensures Advances(y, Challenge(y, 0), WaitAuth, 33) && Challenge(y, 0).sink.value.nonce == nonce
  {
    EncodedSize(Xr, Frame(AUTH_CHALLENGE, 0, nonce));
    hide Encode;
  }

  lemma Greets(y: Sys, nonce: Nonce)
    requires Able(y.w.setup, nonce)
    requires y.sink.Some? && y.sink.value.phase.WaitHello? && y.sink.value.outbox == []
    requires y.w.script.nonces == [Some(nonce)]
    ensures var z := HandleFrame(y, HELLO_FRAME, 0);
            if y.w.setup.mac.None? then Advances(y, z, WaitConfigure, 50)
            else Advances(y, z, WaitAuth, 33) && z.sink.value.nonce == nonce
  {
    var y1 := Emit(Note(y, XrIn(HELLO_FRAME)), Byte1(HELLO_ACK, VERSION)).0;
    EncodedSize(Xr, Byte1(HELLO_ACK, VERSION));
    hide Encode, Welcome, Challenge;
    Welcomes(y1, nonce);
    Challenges(y1, nonce);
  }

  function Response(setup: Setup, nonce: Nonce): Frame
    requires setup.mac.Some?
  {
    Frame(AUTH_RESPONSE, 0, setup.mac.value(nonce))
  }

  lemma Responds(y: Sys, nonce: Nonce)
    requires Able(y.w.setup, nonce) && y.w.setup.mac.Some?
    requires y.sink.Some? && y.sink.value.phase.WaitAuth? && y.sink.value.nonce == nonce
    requires |y.sink.value.outbox| <= 33
    ensures Advances(y, HandleFrame(y, Response(y.w.setup, nonce), 0), WaitConfigure, 50)
  {
    hide Welcome;
    Welcomes(Note(y, XrIn(Response(y.w.setup, nonce))), nonce);
  }

  // The poll of a turn finds nothing to do.
  lemma IdlePolled(y: Sys, held: seq<byte>)
    requires y.b.state.Disconnected?
    ensures Poll(y, held, 0) == (y, [])
  {
  }

  lemma HelloTurn(n: Node, nonce: Nonce)
    requires Able(n.y.w.setup, nonce)
    requires Handshaking(n, n.y.w.setup, WaitHello, n.y.b.nextToken) && n.y.sink.value.outbox == []
    ensures var m := PollOnce(n, At0(Sends(SILENT.(nonces := [Some(nonce)]), HELLO_FRAME), [], true));
            if n.y.w.setup.mac.None? then Handshaking(m, n.y.w.setup, WaitConfigure, n.y.b.nextToken)
            else Handshaking(m, n.y.w.setup, WaitAuth, n.y.b.nextToken) && m.y.sink.value.nonce == nonce && |m.y.sink.value.outbox| <= 33
  {
    hide HandleFrame, Poll, PollOnce, Sends;
    var s := SILENT.(nonces := [Some(nonce)]);
    var y := Scripted(n.y, s);
    Greets(y, nonce);
    IdlePolled(HandleFrame(y, HELLO_FRAME, 0), []);
    ReadTurn(n, s, HELLO_FRAME);
  }

  lemma ResponseTurn(n: Node, nonce: Nonce)
    requires Able(n.y.w.setup, nonce) && n.y.w.setup.mac.Some?
    requires Handshaking(n, n.y.w.setup, WaitAuth, n.y.b.nextToken) && n.y.sink.value.nonce == nonce && |n.y.sink.value.outbox| <= 33
    ensures Handshaking(PollOnce(n, At0(Sends(SILENT, Response(n.y.w.setup, nonce)), [], true)), n.y.w.setup, WaitConfigure, n.y.b.nextToken)
  {
    hide HandleFrame, Poll, PollOnce, Sends;
    var y := Scripted(n.y, SILENT);
    Responds(y, nonce);
    IdlePolled(HandleFrame(y, Response(n.y.w.setup, nonce), 0), []);
    ReadTurn(n, SILENT, Response(n.y.w.setup, nonce));
  }

  function Hello(nonce: Nonce): Turn {
    At0(Sends(SILENT.(nonces := [Some(nonce)]), HELLO_FRAME), [], true)
  }

  function Handshake(setup: Setup, nonce: Nonce): seq<Turn>
    requires Able(setup, nonce)
  {
    if setup.mac.None? then [CONNECT] + [Hello(nonce)]
    else [CONNECT] + [Hello(nonce)] + [At0(Sends(SILENT, Response(setup, nonce)), [], true)]
  }

  lemma FirstTurns(setup: Setup, nonce: Nonce, before: seq<Turn>)
    ensures Run(setup, before + ([CONNECT] + [Hello(nonce)]))
         == PollOnce(PollOnce(Run(setup, before), CONNECT), Hello(nonce))
  {
    assert before + ([CONNECT] + [Hello(nonce)]) == before + [CONNECT] + [Hello(nonce)];
    hide PollOnce, Sends, Run;
    RunStep(setup, before, CONNECT);
    RunStep(setup, before + [CONNECT], Hello(nonce));
  }

  // A handshake from any idle state of any run.
  lemma HandshakeAgain(setup: Setup, nonce: Nonce, before: seq<Turn>, t: nat)
    requires Able(setup, nonce) && Vacant(Run(setup, before), setup, t)
    ensures Handshaking(Run(setup, before + Handshake(setup, nonce)), setup, WaitConfigure, t)
  {
    hide PollOnce, Run, Sends, Tidy, NothingDue;
    FirstTurns(setup, nonce, before);
    Opened(Run(setup, before), setup, nonce, t);
    HelloTurn(PollOnce(Run(setup, before), CONNECT), nonce);
    if setup.mac.Some? {
      var h, r := [CONNECT] + [Hello(nonce)], At0(Sends(SILENT, Response(setup, nonce)), [], true);
      assert before + (h + [r]) == before + h + [r];
      RunStep(setup, before + h, r);
      ResponseTurn(Run(setup, before + h), nonce);
    }
  }

  lemma HandshakeDone(setup: Setup, nonce: Nonce)
    requires Able(setup, nonce)
    ensures Handshaking(Run(setup, Handshake(setup, nonce)), setup, WaitConfigure, 0)
  {
    RunStart(setup);
    assert [] + Handshake(setup, nonce) == Handshake(setup, nonce);
    hide Run, Handshake, Handshaking;
    HandshakeAgain(setup, nonce, [], 0);
  }

  // --- configuration ---------------------------------------------------------

  function ConfigureFrame(c: RadioConfig): Frame {
    Frame(CONFIGURE, 0, PackConfig(c))
  }

  lemma ConfigureFine(c: RadioConfig)
    requires Validate(c) == Ok
    ensures WellFormed(ConfigureFrame(c)) && Legal(Xr, ConfigureFrame(c))
    ensures DecodeConfig(ConfigureFrame(c)) == Some(c)
  {
    hide PackConfig, Join16, Join32, Signed8, SelectBand, BandwidthToken;
    PackConfigRoundTrip(c);
  }

  lemma CommandsFine(c: RadioConfig)
    requires Validate(c) == Ok
    ensures SetCommand(c).Some? && 0 < |Commands(c)| <= 1000
  {
    hide SetCommand, Validate, Line;
    SetCommandIsLine(c);
  }

  // The commands of c are to be written and the session waits for their success.
  ghost predicate Instructed(y: Sys, c: RadioConfig) {
    && y.b.state.Connecting? && y.b.started && y.b.nextToken == 1 && y.b.configDeadline > 0
    && y.b.confOff == 0 && 0 < |y.b.confOut| <= 1000 && y.b.confLine == "" && y.b.pendingCfg == c
    && y.sink.Some? && y.sink.value.phase.Settling? && y.sink.value.requested == c
    && y.sink.value.opToken == y.b.configToken && NothingDue(y) && !y.sink.value.txInFlight
    && |y.sink.value.outbox| <= 50 && y.w.setup.maxOutbox >= 2 * MaxFrame(Xr)
  }

  lemma ConfigureTaken(y: Sys, c: RadioConfig, nonce: Nonce)
    requires Validate(c) == Ok && Able(y.w.setup, nonce)
    requires y.sink.Some? && y.sink.value.phase.WaitConfigure?
    requires y.b.state.Disconnected? && y.b.started && y.b.nextToken == 0
    requires !y.sink.value.txInFlight && |y.sink.value.outbox| <= 50
    requires y.w.script.dials == [true] && y.w.script.clientRoom == []
    ensures var z := HandleFrame(y, ConfigureFrame(c), 0);
            Instructed(z, c) && z.w.setup == y.w.setup && z.w.script == y.w.script.(dials := [])
  {
    hide PackConfig, Commands, SetCommand, Validate, SelectBand, DecodeConfig, WellFormed;
    ConfigureFine(c);
    CommandsFine(c);
  }

  // Both sockets connect and the commands go out in one write.
  const LINKED: Script := SILENT.(connects := [Connected], confRoom := [1000])

  lemma WritesCommands(y: Sys)
    requires y.b.confOff == 0 && 0 < |y.b.confOut| <= 1000 && y.w.script.confRoom == [1000]
    ensures var (z, r) := PumpConfOut(y);
            && r == Complete && z.b == y.b.(confOff := |y.b.confOut|) && z.sink == y.sink
            && z.w.setup == y.w.setup && z.w.script == y.w.script.(confRoom := [])
  {
  }

  lemma NoReply(y: Sys)
    requires y.w.script.confIn == []
    ensures ReadStatus(y, 0) == y
  {
  }

  lemma Flushes(y: Sys)
    requires y.b.confOff == 0 && 0 < |y.b.confOut| <= 1000
    requires y.w.script.confRoom == [1000] && y.w.script.confIn == []
    ensures var z := AdvanceConfigure(y, 0);
            && z.b == y.b.(confOff := |y.b.confOut|, awaiting := true) && z.sink == y.sink
            && z.w.setup == y.w.setup && z.w.script == y.w.script.(confRoom := [])
  {
    hide PumpConfOut, ReadStatus;
    WritesCommands(y);
    var z := PumpConfOut(y).0;
    NoReply(z.(b := z.b.(awaiting := true)));
  }

  lemma Links(y: Sys, c: RadioConfig, held: seq<byte>)
    requires Instructed(y, c) && y.w.script == LINKED
    ensures var (z, h) := Poll(y, held, 0);
            && Awaits(z) && z.sink == y.sink && z.w.setup == y.w.setup && z.w.script.clientRoom == [] && h == []
            && z.b.started && z.b.nextToken == 1 && z.b.confLine == "" && z.b.pendingCfg == c && z.b.configDeadline > 0
  {
    hide AdvanceConfigure;
    var y1 := y.(w := y.w.(script := y.w.script.(connects := Tail(y.w.script.connects))));
    Flushes(y1.(b := y1.b.(state := Configuring)));
  }

  // The CONFIGURE is read and the link comes up; the daemon has the commands.
  ghost predicate AwaitingReply(n: Node, setup: Setup, c: RadioConfig) {
    && Tidy(n) && NothingDue(n.y) && Awaits(n.y) && n.held == [] && n.y.w.setup == setup
    && n.y.b.started && n.y.b.nextToken == 1 && n.y.b.confLine == "" && n.y.b.pendingCfg == c && n.y.b.configDeadline > 0
    && !n.y.sink.value.txInFlight && |n.y.sink.value.outbox| <= 50
  }

  function Asking(c: RadioConfig): Turn
    requires Validate(c) == Ok
  {
    ConfigureFine(c);
    At0(Sends(LINKED.(dials := [true]), ConfigureFrame(c)), [], true)
  }

  lemma ConfigureTurn(n: Node, c: RadioConfig, nonce: Nonce)
    requires Validate(c) == Ok && Able(n.y.w.setup, nonce) && Handshaking(n, n.y.w.setup, WaitConfigure, 0)
    ensures AwaitingReply(PollOnce(n, Asking(c)), n.y.w.setup, c)
  {
    hide HandleFrame, Poll, PollOnce, Sends, PackConfig, Validate, Legal;
    ConfigureFine(c);
    var s := LINKED.(dials := [true]);
    var y := Scripted(n.y, s);
    ConfigureTaken(y, c, nonce);
    var z := HandleFrame(y, ConfigureFrame(c), 0);
    Links(z, c, []);
    ReadTurn(n, s, ConfigureFrame(c));
  }

  // The radio is configured, nothing is being sent.
  ghost predicate Operating(n: Node, setup: Setup) {
    && Tidy(n) && NothingDue(n.y) && n.y.b.state.Ready? && n.held == [] && n.y.w.setup == setup
    && n.y.b.started && n.y.b.nextToken == 1 && IsOperational(n.y) && !n.y.sink.value.txInFlight && |n.y.sink.value.outbox| <= 76
  }

  lemma BurstKeepsNothing(y: Sys, held: seq<byte>, burst: Burst)
    requires y.b.state.Configuring?
    ensures Poll(Heeding(y, burst), held, burst.now).1 == []
  {
    hide AdvanceConfigure, ConfigFail;
  }

  lemma StatusTurn(n: Node, c: RadioConfig, text: ConfChunk)
    requires AwaitingReply(n, n.y.w.setup, c) && n.y.w.setup.to.pingInterval > 0
    requires Scan(text, true).GotStatus? && Scan(text, true).ready && |text| <= MAX_CONF_LINE
    ensures Operating(PollOnce(n, At0(SILENT.(confIn := [Chunk(text)]), [], false)), n.y.w.setup)
  {
    hide Poll, PollOnce, Scan, Encode, PackConfig;
    var burst := Burst([text], 0);
    assert Arriving([text]) == [Chunk(text)];
    assert Heeding(n.y, burst) == Scripted(n.y, SILENT.(confIn := [Chunk(text)]));
    assert "" + text == text;
    assert FeedChunks("", [text], true) == Read(Scan(text, true));
    BurstDecides(n.y, [], burst);
    BurstKeepsNothing(n.y, [], burst);
    EncodedSize(Xr, ConfigOkFrame(c));
    QuietTurn(n, SILENT.(confIn := [Chunk(text)]));
  }

  // --- transmission ----------------------------------------------------------

  // A request, its packet, and a daemon socket that takes it in one write.
  predicate Sendable(sn: nat, rf: seq<byte>) {
    0 < sn < 65536 && 0 < |rf| <= MAX_RF
  }

  function RequestFrame(sn: nat, rf: seq<byte>): Frame {
    Frame(TX_REQUEST, sn, rf)
  }

  function Requesting(sn: nat, rf: seq<byte>): Turn
    requires Sendable(sn, rf)
  {
    At0(Sends(SILENT.(dataRoom := [300]), RequestFrame(sn, rf)), [], true)
  }

  // The daemon owns the packet of request sn.
  ghost predicate OnTheWay(n: Node, setup: Setup, sn: nat, rf: seq<byte>) {
    && Tidy(n) && NothingDue(n.y) && OnAir(n.y, rf, sn) && n.held == [] && n.y.w.setup == setup
    && |n.y.sink.value.outbox| <= 76
  }

  lemma PendingPolled(y: Sys, held: seq<byte>)
    requires y.b.state.TxPending? && y.w.script.confIn == [] && y.w.script.dataIn == []
    ensures Poll(y, held, 0) == (y, held)
  {
    hide Poll;
    WritePollResumes(y, held, 0);
  }

  lemma RequestTurn(n: Node, sn: nat, rf: seq<byte>)
    requires Operating(n, n.y.w.setup) && Sendable(sn, rf) && n.y.w.setup.to.tx > 0
    ensures OnTheWay(PollOnce(n, Requesting(sn, rf)), n.y.w.setup, sn, rf)
  {
    hide HandleFrame, Poll, PollOnce, Sends, Encode, Wire;
    var s := SILENT.(dataRoom := [300]);
    var y, f := Scripted(n.y, s), RequestFrame(sn, rf);
    EncodedSize(ToDaemon, TxPacketFrame(rf));
    assert Capacity([300]) == 300 + Capacity([]);
    RequestAccepted(y, f, 0);
    PendingPolled(HandleFrame(y, f, 0), []);
    ReadTurn(n, s, f);
  }

  // --- answer ----------------------------------------------------------------

  predicate Answers(g: Frame) {
    Legal(FromDaemon, g) && Answer(g).Some?
  }

  function Answering(g: Frame): Script
    requires Answers(g)
  {
    EncodedSize(FromDaemon, g);
    SILENT.(dataIn := [Chunk(Encode(FromDaemon, g))])
  }

  lemma OneAnswer(y: Sys, g: Frame)
    requires Answers(g) && !LeftLoop(Dispatch(y, g).b, false)
    ensures Digest(y, Encode(FromDaemon, g), false) == (Dispatch(y, g), [])
  {
    PopEncode(FromDaemon, g, []);
    NoFrame();
    assert Encode(FromDaemon, g) + [] == Encode(FromDaemon, g);
    hide Dispatch, Encode, PopFrame;
  }

  lemma AnswerRead(y: Sys, g: Frame)
    requires Answers(g) && y.b.state.TxPending? && y.w.script == Answering(g)
    requires var y1 := Note(Scripted(y, SILENT), DataRx(Encode(FromDaemon, g)));
             !LeftLoop(Dispatch(y1, g).b, false)
    ensures var y1 := Note(Scripted(y, SILENT), DataRx(Encode(FromDaemon, g)));
            Poll(y, [], 0) == (Dispatch(y1, g), [])
  {
    hide Encode, Dispatch, Digest;
    var y1 := Note(Scripted(y, SILENT), DataRx(Encode(FromDaemon, g)));
    OneAnswer(y1, g);
    assert y.w.script.(dataIn := y.w.script.dataIn[1..]) == SILENT;
    EncodedSize(FromDaemon, g);
    assert [] + Encode(FromDaemon, g) == Encode(FromDaemon, g);
  }

  lemma AnswerTurn(n: Node, sn: nat, rf: seq<byte>, g: Frame)
    requires OnTheWay(n, n.y.w.setup, sn, rf) && Answers(g) && n.y.w.setup.maxOutbox >= 2 * MaxFrame(Xr)
    ensures var z := PollOnce(n, At0(Answering(g), [], false)).y;
            && z.b.state.Ready? && IsOperational(z) && !z.sink.value.txInFlight
            && |z.w.trace| > 0 && z.w.trace[|z.w.trace| - 1] == XrOut(TxResultFrame(sn, Answer(g).value))
  {
    hide Poll, PollOnce, Encode, Dispatch, Answer;
    var y := Scripted(n.y, Answering(g));
    var y1 := Note(Scripted(y, SILENT), DataRx(Encode(FromDaemon, g)));
    EncodedSize(Xr, TxResultFrame(sn, Answer(g).value));
    AnswerReachesFirmware(y1, rf, sn, g);
    AnswerRead(y, g);
    QuietTurn(n, Answering(g));
  }

  // --- the run ---------------------------------------------------------------

  // A reply that reports the radio ready.
  predicate Reports(text: ConfChunk) {
    |text| <= MAX_CONF_LINE && Scan(text, true).GotStatus? && Scan(text, true).ready
  }

  function TillConfigured(setup: Setup, nonce: Nonce, c: RadioConfig, text: ConfChunk): seq<Turn>
    requires Able(setup, nonce) && Validate(c) == Ok
  {
    Handshake(setup, nonce) + [Asking(c)] + [At0(SILENT.(confIn := [Chunk(text)]), [], false)]
  }

  lemma Configured(setup: Setup, nonce: Nonce, c: RadioConfig, text: ConfChunk)
    requires Able(setup, nonce) && Validate(c) == Ok && Reports(text)
    ensures Operating(Run(setup, TillConfigured(setup, nonce, c, text)), setup)
  {
    hide Run, PollOnce, Handshake, Asking, Scan, Validate, Tidy, NothingDue;
    var h, t := Handshake(setup, nonce), At0(SILENT.(confIn := [Chunk(text)]), [], false);
    HandshakeDone(setup, nonce);
    RunStep(setup, h, Asking(c));
    ConfigureTurn(Run(setup, h), c, nonce);
    RunStep(setup, h + [Asking(c)], t);
    StatusTurn(Run(setup, h + [Asking(c)]), c, text);
  }

  function TillSent(setup: Setup, nonce: Nonce, c: RadioConfig, text: ConfChunk, sn: nat, rf: seq<byte>): seq<Turn>
    requires Able(setup, nonce) && Validate(c) == Ok && Sendable(sn, rf)
  {
    TillConfigured(setup, nonce, c, text) + [Requesting(sn, rf)]
  }

  // Every valid configuration and every packet gets to the daemon on some run.
  lemma PacketReaches(setup: Setup, nonce: Nonce, c: RadioConfig, text: ConfChunk, sn: nat, rf: seq<byte>)
    requires Able(setup, nonce) && Validate(c) == Ok && Reports(text) && Sendable(sn, rf)
    ensures OnTheWay(Run(setup, TillSent(setup, nonce, c, text, sn, rf)), setup, sn, rf)
  {
    hide Run, PollOnce, TillConfigured, Requesting, Reports, Validate, Tidy, NothingDue;
    var h := TillConfigured(setup, nonce, c, text);
    Configured(setup, nonce, c, text);
    RunStep(setup, h, Requesting(sn, rf));
    RequestTurn(Run(setup, h), sn, rf);
  }

  // And every answer of the daemon gets back to the firmware, under the request's number.
  lemma AnswerReturns(
    setup: Setup, nonce: Nonce, c: RadioConfig, text: ConfChunk, sn: nat, rf: seq<byte>, g: Frame)
    requires Able(setup, nonce) && Validate(c) == Ok && Reports(text) && Sendable(sn, rf) && Answers(g)
    ensures var z := Run(setup, TillSent(setup, nonce, c, text, sn, rf) + [At0(Answering(g), [], false)]).y;
            && z.b.state.Ready? && IsOperational(z) && !z.sink.value.txInFlight
            && |z.w.trace| > 0 && z.w.trace[|z.w.trace| - 1] == XrOut(TxResultFrame(sn, Answer(g).value))
  {
    hide Run, PollOnce, TillSent, Reports, Validate, Answers, Answering, Answer;
    var h := TillSent(setup, nonce, c, text, sn, rf);
    PacketReaches(setup, nonce, c, text, sn, rf);
    RunStep(setup, h, At0(Answering(g), [], false));
    AnswerTurn(Run(setup, h), sn, rf, g);
  }

  lemma ReadyReports()
    ensures Reports(READY_LINE + "\n")
  {
    hide Scan;
    ReadyScans();
  }

  // One setup in open mode, and one packet.
  const MINIMAL: Setup := Setup(Timeouts(1, 1, 1, 1, 1, 1), 1, 1, 2 * MaxFrame(Xr), None)
  const ZEROS: Nonce := seq(NONCE_SIZE, _ => 0)
  const PACKET: seq<byte> := [42]

  // Nothing assumed: a run in which the daemon owns a packet.
  lemma ConcreteRun()
    ensures Able(MINIMAL, ZEROS) && Validate(SAMPLE) == Ok && Reports(READY_LINE + "\n") && Sendable(1, PACKET)
    ensures var y := Run(MINIMAL, TillSent(MINIMAL, ZEROS, SAMPLE, READY_LINE + "\n", 1, PACKET)).y;
            y.b.state.TxPending? && OnAir(y, PACKET, 1)
  {
    hide Run, TillSent, Reports;
    ReadyReports();
    PacketReaches(MINIMAL, ZEROS, SAMPLE, READY_LINE + "\n", 1, PACKET);
  }

  // --- what a reachable state allows -----------------------------------------

  // stop() alone, at the state of this run: the daemon still owns the packet, the link is
  // closed, and the backend would begin the next configure.
  lemma StopForgets(setup: Setup, nonce: Nonce, c: RadioConfig, text: ConfChunk, sn: nat, rf: seq<byte>)
    requires Able(setup, nonce) && Validate(c) == Ok && Reports(text) && Sendable(sn, rf)
    ensures var y := Run(setup, TillSent(setup, nonce, c, text, sn, rf)).y;
            && y.b.state.TxPending? && Books(y.w.trace).owned == Some(rf)
            && Books(Stop(y).w.trace).owned == Some(rf) && Books(Stop(y).w.trace).link.Down?
            && Stop(y).b.txOut == [] && MayConfigure(Stop(y).b)
            && !Accounts(Books(Stop(y).w.trace), Stop(y).b)
  {
    hide Run, TillSent, Reports, Validate, Books, Accounts, Inv, Owns, Encode;
    var turns := TillSent(setup, nonce, c, text, sn, rf);
    var y := Run(setup, turns).y;
    PacketReaches(setup, nonce, c, text, sn, rf);
    OwnershipKnown(setup, turns);
    TxFrameShape(rf);
    RunOwns(setup, turns);
    StopForgetsIff(y);
    StopBooks(y);
  }

  lemma StopBooks(y: Sys)
    requires y.b.state.TxPending?
    ensures Books(Stop(y).w.trace) == Books(y.w.trace).(link := Down, part := [])
    ensures Stop(y).b.txOut == []
  {
    BooksLog();
    hide Books;
  }

  // A configure begun while Ready replaces the link: begin_configure() takes it at a state
  // of this run, and the old link is closed before the new one is opened. The session
  // never asks for one there.
  lemma ReadyReconfigures(setup: Setup, nonce: Nonce, c: RadioConfig, text: ConfChunk, d: RadioConfig)
    requires Able(setup, nonce) && Validate(c) == Ok && Reports(text) && Validate(d) == Ok
    ensures var y := Run(setup, TillConfigured(setup, nonce, c, text)).y;
            var (z, token) := BeginConfigure(Scripted(y, SILENT.(dials := [true])), d, 0);
            && y.b.state.Ready? && token != 0 && z.b.state.Connecting?
            && (exists band :: z.w.trace == y.w.trace + [LinkDown] + [LinkUp(band)] + [CfgBegin(token, d)])
            && LinkKnown(z) && !Books(z.w.trace).bad
  {
    hide Run, TillConfigured, Reports, Books, Inv, Serves, Payloads, Select, BeginConfigure, Tidy, NothingDue;
    var turns := TillConfigured(setup, nonce, c, text);
    Configured(setup, nonce, c, text);
    RunOwns(setup, turns);
    var y := Scripted(Run(setup, turns).y, SILENT.(dials := [true]));
    BeginEffect(y, d, 0);
    TokenNonzeroIff(y, d, 0);
    StrandsIff(y, d, 0);
    var (z, token) := BeginConfigure(y, d, 0);
    var band :| z.w.trace == y.w.trace + Hangup(y.b) + [LinkUp(band)] + [CfgBegin(token, d)];
    LinkReplaced(y.w.trace, band, token, d);
  }

  lemma LinkReplaced(tr: seq<Event>, band: Band, token: nat, d: RadioConfig)
    requires !Books(tr).bad && Books(tr).owned.None?
    ensures !Books(tr + [LinkDown] + [LinkUp(band)] + [CfgBegin(token, d)]).bad
  {
    hide Books;
    BooksAppend(tr, LinkDown);
    BooksAppend(tr + [LinkDown], LinkUp(band));
    BooksAppend(tr + [LinkDown] + [LinkUp(band)], CfgBegin(token, d));
  }

  // When the dial fails there, the caller is told that nothing was begun, the link is gone
  // all the same, and the backend still says Ready.
  lemma ReadyStrands(setup: Setup, nonce: Nonce, c: RadioConfig, text: ConfChunk, d: RadioConfig)
    requires Able(setup, nonce) && Validate(c) == Ok && Reports(text) && Validate(d) == Ok
    ensures var y := Run(setup, TillConfigured(setup, nonce, c, text)).y;
            var (z, token) := BeginConfigure(Scripted(y, SILENT.(dials := [false])), d, 0);
            && LinkKnown(y) && token == 0 && z.b == y.b && Stranded(z)
            && z.w.trace == y.w.trace + [LinkDown]
  {
    hide Run, TillConfigured, Reports, Books, Inv, Serves, Payloads, Select, BeginConfigure, Tidy, NothingDue;
    var turns := TillConfigured(setup, nonce, c, text);
    Configured(setup, nonce, c, text);
    RunOwns(setup, turns);
    var y := Scripted(Run(setup, turns).y, SILENT.(dials := [false]));
    BeginEffect(y, d, 0);
    StrandsIff(y, d, 0);
  }

  // --- the token counter -----------------------------------------------------

  // A configure whose link never comes up, and the end of its connection.
  function Trying(c: RadioConfig): Turn
    requires Validate(c) == Ok
  {
    ConfigureFine(c);
    At0(Sends(SILENT.(dials := [true]), ConfigureFrame(c)), [], true)
  }

  const HANG_UP: Turn := At0(SILENT.(clientIn := [PeerClosed]), [], true)

  // The operation `token` is connecting. The session waits for it, unless the token is
  // zero: then it was told that the configure is refused, and is closed.
  ghost predicate Tried(y: Sys, token: nat, c: RadioConfig) {
    && NothingDue(y) && y.b.state.Connecting? && y.b.configDeadline > 0
    && y.b.nextToken == token && y.b.configToken == token && y.b.pendingCfg == c
    && if token != 0 then y.sink.value.phase.Settling?
       else
         && IsClosed(y) && y.sink.value.closeReason.ConfigFailed?
         && XrOut(Byte1(CONFIG_RESULT, CFG_UNSUPPORTED)) in y.w.trace
  }

  lemma ConfigureTried(y: Sys, c: RadioConfig, nonce: Nonce)
    requires Validate(c) == Ok && Able(y.w.setup, nonce)
    requires y.sink.Some? && y.sink.value.phase.WaitConfigure? && y.b.state.Disconnected?
    requires |y.sink.value.outbox| <= 50 && y.w.script == SILENT.(dials := [true])
    ensures var z := HandleFrame(y, ConfigureFrame(c), 0);
            Tried(z, NextU32(y.b.nextToken), c) && z.w.setup == y.w.setup && z.w.script == SILENT
  {
    hide PackConfig, Commands, SetCommand, Validate, SelectBand, DecodeConfig, WellFormed, Encode;
    ConfigureFine(c);
    CommandsFine(c);
    EncodedSize(Xr, Byte1(CONFIG_RESULT, CFG_UNSUPPORTED));
  }

  lemma StillTrying(y: Sys, held: seq<byte>)
    requires y.b.state.Connecting? && y.b.configDeadline > 0 && y.w.script.connects == []
    ensures Poll(y, held, 0) == (y, [])
  {
  }

  lemma TryTurn(n: Node, c: RadioConfig, nonce: Nonce)
    requires Validate(c) == Ok && Able(n.y.w.setup, nonce)
    requires Handshaking(n, n.y.w.setup, WaitConfigure, n.y.b.nextToken)
    ensures var m := PollOnce(n, Trying(c));
            Tidy(m) && Tried(m.y, NextU32(n.y.b.nextToken), c) && m.y.w.setup == n.y.w.setup
  {
    hide HandleFrame, Poll, PollOnce, Sends, PackConfig, Validate, Legal;
    ConfigureFine(c);
    var s := SILENT.(dials := [true]);
    var y := Scripted(n.y, s);
    ConfigureTried(y, c, nonce);
    StillTrying(HandleFrame(y, ConfigureFrame(c), 0), []);
    ReadTurn(n, s, ConfigureFrame(c));
  }

  lemma HangUpTurn(n: Node, token: nat, c: RadioConfig)
    requires Tidy(n) && Tried(n.y, token, c)
    ensures Vacant(PollOnce(n, HANG_UP), n.y.w.setup, token)
  {
    hide Poll;
    var n0 := n.(y := Scripted(n.y, SILENT.(clientIn := [PeerClosed])));
    assert AcceptAll(n0, [], 0) == n0;
    var n1 := n.(y := Scripted(n.y, SILENT), broken := true);
    assert Service(n0, HANG_UP) == n1;
    StillTrying(n1.y, n1.held);
    assert Tick(n1.y, 0) == n1.y;
  }

  // k clients, one after the other, that each begin a configure and leave.
  function Rounds(setup: Setup, nonce: Nonce, c: RadioConfig, k: nat): seq<Turn>
    requires Able(setup, nonce) && Validate(c) == Ok
  {
    if k == 0 then [] else Rounds(setup, nonce, c, k - 1) + Handshake(setup, nonce) + [Trying(c)] + [HANG_UP]
  }

  // They leave the counter at k modulo 2^32.
  lemma {:induction false} RoundsCount(setup: Setup, nonce: Nonce, c: RadioConfig, k: nat)
    requires Able(setup, nonce) && Validate(c) == Ok
    ensures Vacant(Run(setup, Rounds(setup, nonce, c, k)), setup, k % U32)
    decreases k
  {
    hide PollOnce, Validate, Handshake, Trying, Tidy, Run, Boot;
    if k == 0 {
      BootVacant(setup);
    } else {
      RoundsCount(setup, nonce, c, k - 1);
      var r := Rounds(setup, nonce, c, k - 1) + Handshake(setup, nonce);
      HandshakeAgain(setup, nonce, Rounds(setup, nonce, c, k - 1), (k - 1) % U32);
      RunStep(setup, r, Trying(c));
      TryTurn(Run(setup, r), c, nonce);
      RunStep(setup, r + [Trying(c)], HANG_UP);
      HangUpTurn(Run(setup, r + [Trying(c)]), NextU32((k - 1) % U32), c);
    }
  }

  lemma BootVacant(setup: Setup)
    ensures Vacant(Run(setup, []), setup, 0)
  {
  }

  // So the counter wraps on a run: after 2^32 - 1 such clients the next configure is
  // accepted, the backend connects, and the session is told that it was refused.
  lemma WrapReached(setup: Setup, nonce: Nonce, c: RadioConfig)
    requires Able(setup, nonce) && Validate(c) == Ok
    ensures Tried(Run(setup, Rounds(setup, nonce, c, U32 - 1) + Handshake(setup, nonce) + [Trying(c)]).y, 0, c)
  {
    hide Run, PollOnce, Rounds, Handshake, Trying, Validate, Tidy, Tried;
    var k: nat := U32 - 1;
    var r := Rounds(setup, nonce, c, k) + Handshake(setup, nonce);
    RoundsCount(setup, nonce, c, k);
    HandshakeAgain(setup, nonce, Rounds(setup, nonce, c, k), k % U32);
    RunStep(setup, r, Trying(c));
    TryTurn(Run(setup, r), c, nonce);
  }
}
