// The XR dialogue over every run: what the bridge says, in which order, and that
// it is all delivered.
module DialogueLaws {
  import opened Bytes
  import opened Frames
  import opened Messages
  import opened World
  import opened Monitors
  import opened Model
  import opened Joint
  import opened Ownership
  import opened Reception
  import opened Conversation
  import opened Invariance
  import opened Past
  import opened TxSafety
  import opened RxLaws

  lemma DialogueAt(setup: Setup, tr: seq<Event>, k: nat)
    requires k < |tr|
    ensures Dialogue(setup, tr[..k + 1]) == TalkStep(setup, Dialogue(setup, tr[..k]), tr[k])
  {
    hide TalkStep;
    assert tr[..k + 1][..k] == tr[..k];
  }

  lemma {:induction false} DialogueSticky(setup: Setup, tr: seq<Event>, k: nat)
    requires k <= |tr| && !Dialogue(setup, tr).bad
    ensures !Dialogue(setup, tr[..k]).bad
    decreases |tr| - k
  {
    hide Dialogue, TalkStep;
    if k < |tr| {
      DialogueSticky(setup, tr, k + 1);
      DialogueAt(setup, tr, k);
      QuietTalk(setup, Dialogue(setup, tr[..k]), tr[k]);
    } else {
      assert tr[..k] == tr;
    }
  }

  // The dialogue before the k-th event of a run, and that the event is allowed.
  lemma TalkUpTo(setup: Setup, turns: seq<Turn>, k: nat)
    requires k < |TraceOf(setup, turns)|
    ensures var tr := TraceOf(setup, turns);
            !Dialogue(setup, tr[..k]).bad && !TalkStep(setup, Dialogue(setup, tr[..k]), tr[k]).bad
  {
    var tr := TraceOf(setup, turns);
    hide Run, Dialogue, TalkStep, Queued, Linked, Hears;
    RunHears(setup, turns);
    DialogueSticky(setup, tr, k);
    DialogueSticky(setup, tr, k + 1);
    DialogueAt(setup, tr, k);
  }

  // --- the grammar of the output ---------------------------------------------

  predicate IsTraffic(f: Frame) {
    f.ty == XR_RX || f.ty == XR_TX_RESULT || f == Frame(PING, 0, [])
  }

  const GREETING: Frame := Frame(HELLO_ACK, 0, [VERSION])
  const WELCOME: Frame := Frame(AUTH_RESULT, 0, [AUTH_OK])
  const REJECTION: Frame := Frame(AUTH_RESULT, 0, [AUTH_FAIL])

  // Position of the CONFIG_RESULT.
  function ConfigPos(mac: bool): nat {
    if mac then 3 else 2
  }

  // A prefix of: HELLO_ACK; AUTH_OK, or with a password CHALLENGE and then OK or
  // FAIL; CONFIG_RESULT; traffic. A FAIL or a failed CONFIG_RESULT is the last.
  predicate Speech(mac: bool, fs: seq<Frame>) {
    var c := ConfigPos(mac);
    && (|fs| > 0 ==> fs[0] == GREETING)
    && (mac && |fs| > 1 ==> fs[1].ty == AUTH_CHALLENGE && |fs[1].payload| == NONCE_SIZE)
    && (|fs| >= c ==> fs[c - 1] == WELCOME || (mac && |fs| == c && fs[c - 1] == REJECTION))
    && (|fs| > c ==> fs[c].ty == CONFIG_RESULT)
    && (|fs| > c + 1 ==> IsConfigOk(fs[c]))
    && forall i :: c < i < |fs| ==> IsTraffic(fs[i])
  }

  // How far the speech is at each stage.
  predicate SpeechAt(mac: bool, stage: Stage, fs: seq<Frame>) {
    var c := ConfigPos(mac);
    && Speech(mac, fs)
    && match stage
       case Fresh => |fs| == 0
       case Greeted => |fs| == 1
       case Challenged(nonce) => mac && |fs| == 2 && fs[1].payload == nonce
       case Proved => mac && |fs| == 2
       case Rejected => mac && |fs| == 3 && fs[2] == REJECTION
       case Authed => |fs| == c && fs[c - 1] == WELCOME
       case Running(_) => |fs| > c && IsConfigOk(fs[c])
       case Failing => |fs| == c + 1
       case _ => true
  }

  lemma SpeechStep(setup: Setup, m: Talk, e: Event)
    requires SpeechAt(setup.mac.Some?, m.stage, m.frames) && !TalkStep(setup, m, e).bad
    ensures var k := TalkStep(setup, m, e);
            SpeechAt(setup.mac.Some?, k.stage, k.frames)
  {
    hide WellFormed, IsConfigOk;
  }

  lemma {:induction false} SpeechHistory(setup: Setup, tr: seq<Event>)
    requires !Dialogue(setup, tr).bad
    ensures SpeechAt(setup.mac.Some?, Dialogue(setup, tr).stage, Dialogue(setup, tr).frames)
    decreases |tr|
  {
    if tr != [] {
      var past, e := tr[..|tr| - 1], tr[|tr| - 1];
      hide TalkStep, SpeechAt;
      QuietTalk(setup, Dialogue(setup, past), e);
      SpeechHistory(setup, past);
      SpeechStep(setup, Dialogue(setup, past), e);
    }
  }

  // In every run the frames of the current connection form such a speech, the
  // session's phase is where the speech is, and a closed session's reason is the
  // one it was first closed with.
  lemma OutputGrammar(setup: Setup, turns: seq<Turn>)
    ensures var n := Run(setup, turns);
            var t := Dialogue(setup, n.y.w.trace);
            && SpeechAt(setup.mac.Some?, t.stage, t.frames)
            && (if n.y.sink.None? then t.stage.NoPeer? else t.stage == StageOf(n.y.sink.value))
  {
    hide Run, Dialogue, SpeechAt, Queued, Linked, Hears;
    RunHears(setup, turns);
    SpeechHistory(setup, TraceOf(setup, turns));
  }

  // A session closes once, never for an internal error, and is silent from then on.
  lemma ClosedIsSilent(setup: Setup, turns: seq<Turn>, k: nat)
    requires k < |TraceOf(setup, turns)|
    ensures var tr := TraceOf(setup, turns);
            var stage := Dialogue(setup, tr[..k]).stage;
            && (stage.Shut? || stage.NoPeer? ==> !tr[k].XrOut? && !tr[k].XrClosed? && !tr[k].CfgBegin?)
            && (tr[k].XrClosed? ==> !tr[k].reason.InternalError?)
            && (tr[k].ConnOpen? ==> stage.NoPeer?)
  {
    hide Run, Dialogue, Reply;
    TalkUpTo(setup, turns, k);
  }

  // --- authentication --------------------------------------------------------

  // The challenge queued at i was not followed by the end of its session.
  predicate ChallengedAt(tr: seq<Event>, i: nat, nonce: seq<byte>) {
    && i < |tr| && tr[i].XrOut? && tr[i].frame.ty == AUTH_CHALLENGE && tr[i].frame.payload == nonce
    && forall x :: i < x < |tr| ==> !EndsSession(tr[x])
  }

  // The frame read at j is the MAC of that nonce.
  predicate ProvedAt(setup: Setup, tr: seq<Event>, i: nat, j: nat, nonce: seq<byte>) {
    && i < j < |tr| && ChallengedAt(tr, i, nonce) && setup.mac.Some?
    && tr[j].XrIn? && tr[j].frame.ty == AUTH_RESPONSE && tr[j].frame.payload == setup.mac.value(nonce)
  }

  predicate PastAuth(stage: Stage) {
    stage.Proved? || stage.Authed? || stage.Running? || stage.Failing?
  }

  // With a password, a stage past authentication was reached by a verified response.
  ghost predicate Proven(setup: Setup, tr: seq<Event>, stage: Stage) {
    && (stage.Challenged? ==> exists i: nat :: ChallengedAt(tr, i, stage.nonce))
    && (setup.mac.Some? && PastAuth(stage) ==>
          exists i: nat, j: nat, nonce :: ProvedAt(setup, tr, i, j, nonce))
  }

  lemma ProvenStep(setup: Setup, past: seq<Event>, m: Talk, e: Event)
    requires Proven(setup, past, m.stage) && !TalkStep(setup, m, e).bad
    ensures Proven(setup, past + [e], TalkStep(setup, m, e).stage)
  {
    var tr, stage := past + [e], TalkStep(setup, m, e).stage;
    hide WellFormed, IsConfigOk;
    if stage.Challenged? {
      if m.stage.Challenged? {
        var i: nat :| ChallengedAt(past, i, m.stage.nonce);
        assert ChallengedAt(tr, i, stage.nonce);
      } else {
        assert ChallengedAt(tr, |past|, stage.nonce);
      }
    } else if setup.mac.Some? && PastAuth(stage) {
      if m.stage.Challenged? {
        var i: nat :| ChallengedAt(past, i, m.stage.nonce);
        assert ProvedAt(setup, tr, i, |past|, m.stage.nonce);
      } else {
        var i: nat, j: nat, nonce :| ProvedAt(setup, past, i, j, nonce);
        assert ProvedAt(setup, tr, i, j, nonce);
      }
    }
  }

  lemma {:induction false} ProvenHistory(setup: Setup, tr: seq<Event>)
    requires !Dialogue(setup, tr).bad
    ensures Proven(setup, tr, Dialogue(setup, tr).stage)
    decreases |tr|
  {
    if tr != [] {
      var past, e := tr[..|tr| - 1], tr[|tr| - 1];
      assert tr == past + [e];
      hide TalkStep, Proven;
      QuietTalk(setup, Dialogue(setup, past), e);
      ProvenHistory(setup, past);
      ProvenStep(setup, past, Dialogue(setup, past), e);
    }
  }

  // With a password set, a configure begins only after the session's own challenge
  // was answered with the MAC of its nonce.
  lemma AuthenticatedFirst(setup: Setup, turns: seq<Turn>, k: nat)
    requires setup.mac.Some? && k < |TraceOf(setup, turns)| && TraceOf(setup, turns)[k].CfgBegin?
    ensures exists i: nat, j: nat, nonce :: ProvedAt(setup, TraceOf(setup, turns)[..k], i, j, nonce)
  {
    hide Run, Dialogue, ProvedAt;
    TalkUpTo(setup, turns, k);
    ProvenHistory(setup, TraceOf(setup, turns)[..k]);
  }

  // --- keepalive -------------------------------------------------------------

  predicate IsPing(e: Event) {
    e == XrOut(Frame(PING, 0, []))
  }

  predicate IsPong(e: Event) {
    e.XrIn? && e.frame.ty == PONG && WellFormed(e.frame)
  }

  lemma {:induction false} StillPinged(setup: Setup, tr: seq<Event>, i: nat, k: nat)
    requires i < k <= |tr| && IsPing(tr[i]) && !Dialogue(setup, tr).bad
    requires forall x :: i < x < k ==> !IsPong(tr[x]) && !EndsSession(tr[x])
    ensures Dialogue(setup, tr[..k]).stage == Running(true)
    decreases k
  {
    hide Dialogue, WellFormed, IsConfigOk;
    DialogueSticky(setup, tr, k - 1);
    DialogueSticky(setup, tr, k);
    DialogueAt(setup, tr, k - 1);
    if k > i + 1 {
      StillPinged(setup, tr, i, k - 1);
    }
  }

  // Between two PINGs of one session the firmware answered with a PONG.
  lemma PingsAnswered(setup: Setup, turns: seq<Turn>, i: nat, j: nat)
    requires i < j < |TraceOf(setup, turns)|
    requires IsPing(TraceOf(setup, turns)[i]) && IsPing(TraceOf(setup, turns)[j])
    requires forall x :: i < x < j ==> !EndsSession(TraceOf(setup, turns)[x])
    ensures exists p :: i < p < j && IsPong(TraceOf(setup, turns)[p])
  {
    var tr := TraceOf(setup, turns);
    hide Run, Dialogue, IsPong, EndsSession;
    TalkUpTo(setup, turns, j);
    DialogueAt(setup, tr, j);
    if forall x :: i < x < j ==> !IsPong(tr[x]) {
      RunTalks(setup, turns);
      StillPinged(setup, tr, i, j);
    }
  }

  lemma RunTalks(setup: Setup, turns: seq<Turn>)
    ensures !Dialogue(setup, TraceOf(setup, turns)).bad
  {
    hide Run, Dialogue, Queued, Linked, Hears;
    RunHears(setup, turns);
  }

  // --- delivery --------------------------------------------------------------

  // What was sent and what is still queued are the frames of the dialogue, encoded,
  // within the queue's bound; the firmware's parser gets exactly these frames.
  lemma OutputIntact(setup: Setup, turns: seq<Turn>)
    requires Run(setup, turns).y.sink.Some?
    ensures var n := Run(setup, turns);
            var t, outbox := Dialogue(setup, n.y.w.trace), n.y.sink.value.outbox;
            && t.sent + outbox == EncodeAll(Xr, t.frames) && |outbox| <= setup.maxOutbox
            && Parse(Xr, t.sent + outbox) == Parsed(t.frames, [], false)
  {
    hide Run, Dialogue, Linked, Hears, Parse, EncodeAll;
    RunHears(setup, turns);
    var t := Dialogue(setup, TraceOf(setup, turns));
    AllRead(t.frames);
  }

  lemma AllRead(fs: seq<Frame>)
    requires AllLegal(Xr, fs)
    ensures Parse(Xr, EncodeAll(Xr, fs)) == Parsed(fs, [], false)
  {
    hide Parse, EncodeAll, AllLegal;
    ParseComplete(Xr, fs, []);
    assert EncodeAll(Xr, fs) + [] == EncodeAll(Xr, fs);
  }

  // The server gives up a connection only when the socket failed, or the session
  // is closed and every byte of every frame has been sent.
  lemma DroppedComplete(n: Node)
    requires Good(n) && n.y.sink.Some? && Finished(n)
    ensures var t := Dialogue(n.y.w.setup, n.y.w.trace);
            n.broken || (t.stage.Shut? && t.sent == EncodeAll(Xr, t.frames))
  {
    hide Dialogue, Linked, Hears, EncodeAll, Inv, Owns, AllLegal;
    var t := TalkOf(n.y);
    assert t.sent + [] == t.sent;
  }

  // And it does give it up: after any turn whose poll() succeeded, the client socket of
  // the connection there is works, and a closed session still has something to send.
  lemma DroppedPromptly(n: Node, t: Turn)
    requires t.pollOk
    ensures var z := PollOnce(n, t);
            z.y.sink.Some? ==> !z.broken && (IsClosed(z.y) ==> z.y.sink.value.outbox != [])
  {
    hide AcceptAll, Service, PollNode, TickNode, FlushOut;
  }

  // Cutting the firmware's bytes into two reads changes nothing, unless the session
  // closes within the first.
  lemma {:induction false} ConsumeSplit(y: Sys, a: seq<byte>, b: seq<byte>, now: nat)
    requires y.sink.Some? && !IsClosed(y)
    ensures var (y1, held) := Consume(y, a, now);
            Consume(y, a + b, now) == if IsClosed(y1) then (y1, []) else Consume(y1, held + b, now)
    decreases |a|
  {
    hide HandleFrame, CloseSession, PopFrame;
    PopStable(Xr, a, b);
    var r := PopFrame(Xr, a);
    if r.Got? {
      XrShrinks(a);
      var y1 := HandleFrame(y, r.frame, now);
      if !IsClosed(y1) {
        ConsumeSplit(y1, r.rest, b, now);
      }
    }
  }

  lemma XrShrinks(s: seq<byte>)
    requires PopFrame(Xr, s).Got?
    ensures |PopFrame(Xr, s).rest| < |s|
  {
  }

  // --- input -----------------------------------------------------------------

  // The frame types a phase expects.
  predicate Expects(s: Session, ty: byte) {
    match s.phase
    case WaitHello => ty == HELLO
    case WaitAuth => ty == AUTH_RESPONSE
    case WaitConfigure => ty == CONFIGURE
    case Settling => false
    case Operational => (ty == PONG && s.awaitingPong) || (ty == TX_REQUEST && !s.txInFlight)
    case Closed => true
  }

  function ReasonFor(s: Session, f: Frame): Option<CloseReason> {
    if !WellFormed(f) then Some(MalformedFrame)
    else if f.ty == XR_ERROR then Some(RemoteError)
    else if !Expects(s, f.ty) then Some(BadState)
    else None
  }

  // If the session is closed, it is for none of these reasons.
  predicate Fair(y: Sys) {
    IsClosed(y) ==> var r := y.sink.value.closeReason; !r.MalformedFrame? && !r.RemoteError? && !r.BadState?
  }

  lemma RejectFair(y: Sys, f: Frame, r: CloseReason)
    requires y.sink.Some? && !IsClosed(y) && !r.MalformedFrame? && !r.RemoteError? && !r.BadState?
    ensures Fair(Reject(y, f, r))
  {
    hide Encode;
  }

  lemma WelcomeFair(y: Sys, now: nat)
    requires y.sink.Some? && !IsClosed(y)
    ensures Fair(Welcome(y, now)) && Fair(Challenge(y, now))
  {
    hide Encode;
  }

  lemma HelloFair(y: Sys, now: nat)
    requires y.sink.Some? && !IsClosed(y)
    ensures Fair(HandleHello(y, now))
  {
    hide Encode, Welcome, Challenge;
    var (y1, ok) := Emit(y, Byte1(HELLO_ACK, VERSION));
    if ok {
      WelcomeFair(y1, now);
    }
  }

  lemma AuthFair(y: Sys, f: Frame, now: nat)
    requires y.sink.Some? && !IsClosed(y)
    ensures Fair(HandleAuth(y, f, now))
  {
    hide Encode, Verified;
  }

  lemma ConfigureFair(y: Sys, f: Frame, now: nat)
    requires y.sink.Some? && !IsClosed(y)
    ensures Fair(HandleConfigure(y, f, now))
  {
    hide DecodeConfig, BeginConfigure, Reject;
    var c := DecodeConfig(f);
    if c.None? {
      RejectFair(y, Byte1(CONFIG_RESULT, CFG_INVALID), ConfigFailed);
    } else {
      BeginShape(y, c.value, now);
      RejectFair(BeginConfigure(y, c.value, now).0, Byte1(CONFIG_RESULT, CFG_UNSUPPORTED), ConfigFailed);
    }
  }

  lemma TxRequestFair(y: Sys, f: Frame, now: nat)
    requires y.sink.Some? && !IsClosed(y) && !y.sink.value.txInFlight
    ensures Fair(HandleTxRequest(y, f, now))
  {
    hide SubmitTx;
  }

  // A malformed or unexpected frame closes the session at once, with that reason
  // and without a word; any other frame never closes it for such a reason.
  lemma UnexpectedCloses(y: Sys, f: Frame, now: nat)
    requires y.sink.Some? && !IsClosed(y)
    ensures var z, v := HandleFrame(y, f, now), ReasonFor(y.sink.value, f);
            if v.Some? then
              && IsClosed(z) && z.sink.value.closeReason == v.value && z.b == y.b
              && z.w.trace == y.w.trace + [XrIn(f)] + [XrClosed(v.value)]
            else Fair(z)
  {
    hide WellFormed, HandleHello, HandleAuth, HandleConfigure;
    var y1 := Note(y, XrIn(f));
    HelloFair(y1, now);
    AuthFair(y1, f, now);
    ConfigureFair(y1, f, now);
    if !y.sink.value.txInFlight {
      TxRequestFair(y1, f, now);
      hide HandleTxRequest;
    }
  }

  // The response decides: the 32-byte MAC of the nonce is answered with AUTH_OK, any other
  // response with AUTH_FAIL and the end of the session, and neither touches the backend.
  lemma AuthDecides(y: Sys, f: Frame, now: nat)
    requires y.sink.Some? && y.sink.value.phase.WaitAuth? && y.w.setup.mac.Some?
    requires f.ty == 4 && WellFormed(f) && |y.sink.value.outbox| + 9 <= y.w.setup.maxOutbox
    ensures var z, right := HandleFrame(y, f, now), y.w.setup.mac.value(y.sink.value.nonce) == f.payload;
            && z.b == y.b
            && (if right then
                  && z.sink.value.phase.WaitConfigure?
                  && z.w.trace == y.w.trace + [XrIn(f)] + [XrOut(Frame(5, 0, [0]))]
                else
                  && IsClosed(z) && z.sink.value.closeReason.AuthFailed?
                  && z.w.trace == y.w.trace + [XrIn(f)] + [XrOut(Frame(5, 0, [1]))] + [XrClosed(AuthFailed)])
  {
    assert |Encode(Xr, Byte1(AUTH_RESULT, AUTH_OK))| == 9 && |Encode(Xr, Byte1(AUTH_RESULT, AUTH_FAIL))| == 9;
    hide Encode;
  }

  // Without entropy there is no challenge: the session ends for an authentication error.
  lemma NoEntropyCloses(y: Sys, f: Frame, now: nat)
    requires y.sink.Some? && y.sink.value.phase.WaitHello? && y.w.setup.mac.Some?
    requires f.ty == 1 && WellFormed(f) && |y.sink.value.outbox| + 9 <= y.w.setup.maxOutbox
    requires y.w.script.nonces == [] || y.w.script.nonces[0].None?
    ensures var z := HandleFrame(y, f, now);
            && IsClosed(z) && z.sink.value.closeReason.AuthError? && z.b == y.b
            && z.w.trace == y.w.trace + [XrIn(f)] + [XrOut(Frame(2, 0, [1]))] + [XrClosed(AuthError)]
  {
    assert |Encode(Xr, Byte1(HELLO_ACK, VERSION))| == 9;
    hide Encode;
  }
}
