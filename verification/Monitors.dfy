// Observers of the trace. Each reads only what crosses a boundary (socket bytes,
// log lines, frames) and flags a violation of one promise of the bridge; none
// looks at the bridge's own state.
module Monitors {
  import opened Bytes
  import opened Frames
  import opened Messages
  import opened ConfText
  import opened Radio
  import opened World
  import opened Protocol

  predicate IsConfigOk(f: Frame) {
    f.ty == CONFIG_RESULT && |f.payload| > 0 && f.payload[0] == CFG_OK
  }

  // --- the transmit ledger ---------------------------------------------------

  datatype Link = Down | Raw | Fit
  datatype How = Sent | Refused | Unknown
  datatype Resolution = Resolution(payload: seq<byte>, how: How)

  // The latest TX_REQUEST of an operational session. It stops being live when
  // its session ends, and is answered by the daemon at most once.
  datatype Req = Req(sn: nat, payload: seq<byte>, live: bool, written: bool, answer: Option<TxOutcome>)

  // `link`: the daemon link, and whether its configuration has succeeded;
  // `part`: bytes of an incomplete packet received on it;
  // `owned`: the complete packet whose fate the daemon has not reported;
  // `handed`: every packet ever received complete; `resolved`: their fates.
  datatype Ledger = Ledger(
    link: Link, part: seq<byte>, owned: Option<seq<byte>>, lost: bool,
    handed: seq<seq<byte>>, resolved: seq<Resolution>,
    okLog: seq<seq<byte>>, lostLog: seq<seq<byte>>,
    ready: bool, req: Option<Req>, bad: bool)

  const LEDGER: Ledger := Ledger(Down, [], None, false, [], [], [], [], false, None, false)

  function Payloads(rs: seq<Resolution>): seq<seq<byte>> {
    seq(|rs|, i requires 0 <= i < |rs| => rs[i].payload)
  }

  function Select(rs: seq<Resolution>, how: How): seq<seq<byte>> {
    if rs == [] then []
    else
      var last := rs[|rs| - 1];
      Select(rs[..|rs| - 1], how) + (if last.how == how then [last.payload] else [])
  }

  // Records the fate of a packet.
  function Resolve(rs: seq<Resolution>, payload: seq<byte>, how: How): (r: seq<Resolution>)
    ensures Payloads(r) == Payloads(rs) + [payload]
    ensures forall h :: Select(r, h) == Select(rs, h) + (if h == how then [payload] else [])
  {
    var r := rs + [Resolution(payload, how)];
    assert r[..|r| - 1] == rs;
    r
  }

  function Orphan(m: Ledger): Ledger {
    m.(ready := false, req := if m.req.None? then None else Some(m.req.value.(live := false)))
  }

  function HandOver(m: Ledger, bytes: seq<byte>): Ledger {
    var p := Parse(ToDaemon, m.part + bytes);
    if p.frames == [] then m.(part := p.rest, bad := m.bad || !m.link.Fit? || p.bad || m.owned.Some?)
    else
      var payload := p.frames[0].payload;
      m.(part := p.rest, owned := Some(payload), handed := m.handed + [payload],
         req := if m.req.None? then None else Some(m.req.value.(written := true)),
         bad := m.bad || !m.link.Fit? || p.bad || m.owned.Some? || |p.frames| > 1 ||
                p.frames[0] != TxPacketFrame(payload) ||
                m.req.None? || m.req.value.written || m.req.value.payload != payload)
  }

  function Answered(m: Ledger, o: TxOutcome): Ledger
    requires m.owned.Some?
  {
    m.(owned := None,
       resolved := Resolve(m.resolved, m.owned.value, if o.Success? then Sent else Refused),
       req := if m.req.None? then None else Some(m.req.value.(answer := Some(o))))
  }

  function LedgerStep(m: Ledger, e: Event): Ledger {
    match e
    case LinkUp(_) => m.(link := Raw, part := [], bad := m.bad || m.owned.Some? || !m.link.Down?)
    case LinkDown => m.(link := Down, part := [])
    case CfgBegin(_, _) => m.(bad := m.bad || m.owned.Some? || !m.link.Raw?)
    case CfgDone(_, applied) => if applied then m.(link := Fit, bad := m.bad || !m.link.Raw?) else m
    case DataTx(bytes) => HandOver(m, bytes)
    case Heard(f) =>
      if m.owned.Some? && !m.lost && Answer(f).Some? then Answered(m, Answer(f).value) else m
    case LogTx(ok, payload) =>
      if ok then m.(okLog := m.okLog + [payload])
      else m.(lostLog := m.lostLog + [payload], lost := true,
              resolved := Resolve(m.resolved, payload, Unknown),
              bad := m.bad || m.lost || m.owned != Some(payload))
    case XrIn(f) =>
      if m.ready && f.ty == TX_REQUEST && (m.req.None? || !m.req.value.live)
      then m.(req := Some(Req(f.sn, f.payload, true, false, None)), bad := m.bad || m.owned.Some?) else m
    case XrOut(f) =>
      if IsConfigOk(f) then m.(ready := true)
      else if f.ty == XR_TX_RESULT then
        m.(req := None,
           bad := m.bad || m.req.None? || !m.req.value.live || m.req.value.answer.None? ||
                  f != TxResultFrame(m.req.value.sn, m.req.value.answer.value))
      else m
    case XrClosed(_) => Orphan(m)
    case ConnOpen(_) => Orphan(m)
    case ConnDrop => Orphan(m)
    case _ => m
  }

  function Books(tr: seq<Event>): Ledger {
    if tr == [] then LEDGER else LedgerStep(Books(tr[..|tr| - 1]), tr[|tr| - 1])
  }

  lemma BooksAppend(tr: seq<Event>, e: Event)
    ensures Books(tr + [e]) == LedgerStep(Books(tr), e)
  {
    hide LedgerStep;
    assert (tr + [e])[..|tr|] == tr;
  }

  lemma BooksLog()
    ensures forall w: World, e: Event {:trigger Log(w, e)} :: Books(Log(w, e).trace) == LedgerStep(Books(w.trace), e)
  {
    forall w: World, e: Event ensures Books(Log(w, e).trace) == LedgerStep(Books(w.trace), e) {
      var tr := Log(w, e).trace;
      assert tr[..|tr| - 1] == w.trace;
    }
  }

  // --- the XR dialogue -------------------------------------------------------

  datatype Stage =
    | NoPeer | Fresh | Greeted | Challenged(nonce: seq<byte>) | Proved | Authed | Rejected
    | Running(pinged: bool) | Failing | Shut(reason: CloseReason)

  // `frames`/`sent`: what was queued and what left on this connection.
  datatype Talk = Talk(stage: Stage, openedAt: nat, frames: seq<Frame>, sent: seq<byte>, bad: bool)

  const TALK: Talk := Talk(NoPeer, 0, [], [], false)

  // Where the dialogue stands after an output frame; None if it may not be sent now.
  function Say(setup: Setup, stage: Stage, f: Frame): Option<Stage> {
    match stage
    case Fresh => if f == Frame(HELLO_ACK, 0, [VERSION]) then Some(Greeted) else None
    case Greeted =>
      if setup.mac.Some? then
        if f.ty == AUTH_CHALLENGE && |f.payload| == NONCE_SIZE then Some(Challenged(f.payload)) else None
      else if f == Frame(AUTH_RESULT, 0, [AUTH_OK]) then Some(Authed) else None
    case Challenged(_) => if f == Frame(AUTH_RESULT, 0, [AUTH_FAIL]) then Some(Rejected) else None
    case Proved => if f == Frame(AUTH_RESULT, 0, [AUTH_OK]) then Some(Authed) else None
    case Authed =>
      if f.ty != CONFIG_RESULT then None else if IsConfigOk(f) then Some(Running(false)) else Some(Failing)
    case Running(pinged) =>
      if f.ty == XR_RX || f.ty == XR_TX_RESULT then Some(stage)
      else if f == Frame(PING, 0, []) && !pinged then Some(Running(true))
      else None
    case _ => None
  }

  // What an input frame changes: a verified response, an expected PONG.
  function Reply(setup: Setup, stage: Stage, f: Frame): Stage {
    match stage
    case Challenged(nonce) =>
      if WellFormed(f) && f.ty == AUTH_RESPONSE && setup.mac.Some? && setup.mac.value(nonce) == f.payload
      then Proved else stage
    case Running(pinged) => if WellFormed(f) && f.ty == PONG then Running(false) else stage
    case _ => stage
  }

  function TalkStep(setup: Setup, m: Talk, e: Event): Talk {
    match e
    case ConnOpen(at) => Talk(Fresh, at, [], [], m.bad || !m.stage.NoPeer?)
    case ConnDrop => m.(stage := NoPeer)
    case XrIn(f) => m.(stage := Reply(setup, m.stage, f))
    case XrOut(f) =>
      var next := Say(setup, m.stage, f);
      m.(frames := m.frames + [f], stage := if next.Some? then next.value else m.stage, bad := m.bad || next.None?)
    case XrClosed(r) =>
      m.(stage := Shut(r), bad := m.bad || m.stage.NoPeer? || m.stage.Shut? || r.InternalError?)
    case XrSent(bytes) => m.(sent := m.sent + bytes)
    case CfgBegin(_, _) => m.(bad := m.bad || !m.stage.Authed?)
    case _ => m
  }

  function Dialogue(setup: Setup, tr: seq<Event>): Talk {
    if tr == [] then TALK else TalkStep(setup, Dialogue(setup, tr[..|tr| - 1]), tr[|tr| - 1])
  }

  lemma DialogueLog(setup: Setup)
    ensures forall w: World, e: Event {:trigger Log(w, e)} ::
              Dialogue(setup, Log(w, e).trace) == TalkStep(setup, Dialogue(setup, w.trace), e)
  {
    forall w: World, e: Event
      ensures Dialogue(setup, Log(w, e).trace) == TalkStep(setup, Dialogue(setup, w.trace), e)
    {
      var tr := Log(w, e).trace;
      assert tr[..|tr| - 1] == w.trace;
    }
  }

  // --- reception -------------------------------------------------------------

  // `raw`/`heard`: bytes received and frames dispatched on this link;
  // `decoded`/`logged`: every packet the radio heard, and the RF log's;
  // `due`/`out`: RX_PACKETs owed to and queued for the operational session.
  datatype Ear = Ear(
    raw: seq<byte>, heard: seq<Frame>, decoded: seq<Rx>, logged: seq<Rx>,
    due: seq<Frame>, out: seq<Frame>, bad: bool)

  const EAR: Ear := Ear([], [], [], [], [], [], false)

  function HearFrame(m: Ear, running: bool, f: Frame): Ear {
    var heard := m.heard + [f];
    var m1 := m.(heard := heard, bad := m.bad || !(heard <= Parse(FromDaemon, m.raw).frames));
    if DecodeRx(f).None? then m1
    else
      var rx := DecodeRx(f).value;
      m1.(decoded := m.decoded + [rx],
          due := if running && RxAcceptable(|rx.data|) then m.due + [XrRxFrame(rx)] else m.due)
  }

  // `running`: the dialogue is past a successful CONFIG_RESULT and not closed.
  function EarStep(m: Ear, running: bool, e: Event): Ear {
    match e
    case LinkUp(_) => m.(raw := [], heard := [])
    case DataRx(bytes) => m.(raw := m.raw + bytes)
    case Heard(f) => HearFrame(m, running, f)
    case LogRx(rx) => m.(logged := m.logged + [rx])
    case XrOut(f) =>
      if IsConfigOk(f) then m.(due := [], out := [])
      else if f.ty == XR_RX then m.(out := m.out + [f], bad := m.bad || !(m.out + [f] <= m.due))
      else m
    case _ => m
  }

  function Listen(setup: Setup, tr: seq<Event>): Ear {
    if tr == [] then EAR
    else
      var past := tr[..|tr| - 1];
      EarStep(Listen(setup, past), Dialogue(setup, past).stage.Running?, tr[|tr| - 1])
  }

  lemma ListenLog(setup: Setup)
    ensures forall w: World, e: Event {:trigger Log(w, e)} ::
              Listen(setup, Log(w, e).trace) == EarStep(Listen(setup, w.trace), Dialogue(setup, w.trace).stage.Running?, e)
  {
    forall w: World, e: Event
      ensures Listen(setup, Log(w, e).trace) == EarStep(Listen(setup, w.trace), Dialogue(setup, w.trace).stage.Running?, e)
    {
      var tr := Log(w, e).trace;
      assert tr[..|tr| - 1] == w.trace;
    }
  }

  // --- configuration ---------------------------------------------------------

  // `tx`/`rx`: CONF text written and read on this link; `band`: the radio it goes to;
  // `asked`: the last CONFIGURE; `cfg`/`token`: the operation in progress; `applied`: the
  // last success.
  datatype Desk = Desk(
    tx: string, rx: string, band: Option<Band>, asked: Option<RadioConfig>, cfg: Option<RadioConfig>,
    token: Option<nat>, applied: Option<RadioConfig>, bad: bool)

  const DESK: Desk := Desk("", "", None, None, None, None, None, false)

  // The link goes to the radio for this configuration, which is within its limits.
  predicate Suits(band: Option<Band>, c: RadioConfig) {
    band.Some? && Covers(band.value, c.freqHz) && WithinLimits(c)
  }

  // The five lines of one configure, each once and in order.
  predicate WholeScript(c: RadioConfig, tx: string) {
    SetCommand(c).Some? &&
    tx == "SET TXMODE=MANAGED\n" + "SET TXQUEUE=1\n" + "SET TXRESULT=1\n" + SetCommand(c).value + "GET STATUS\n"
  }

  function Done(m: Desk, token: nat, applied: bool): Desk {
    var justified := m.cfg.Some? && WholeScript(m.cfg.value, m.tx) &&
                     Scan(m.rx, true).GotStatus? && Scan(m.rx, true).ready;
    m.(token := None, applied := if applied then m.cfg else None,
       bad := m.bad || m.token != Some(token) || (applied && !justified))
  }

  function DeskStep(m: Desk, e: Event): Desk {
    match e
    case LinkUp(band) => m.(tx := "", rx := "", band := Some(band), cfg := None, token := None, applied := None)
    case ConfTx(text) => m.(tx := m.tx + text)
    case ConfRx(text) => m.(rx := m.rx + text)
    case XrIn(f) => if f.ty == CONFIGURE then m.(asked := DecodeConfig(f)) else m
    case CfgBegin(token, c) =>
      m.(cfg := Some(c), token := Some(token), applied := None, bad := m.bad || m.asked != Some(c) || !Suits(m.band, c))
    case CfgDone(token, applied) => Done(m, token, applied)
    case XrOut(f) =>
      if IsConfigOk(f) then
        m.(applied := None, bad := m.bad || m.applied.None? || f != ConfigOkFrame(m.applied.value))
      else m
    case _ => m
  }

  function Ask(tr: seq<Event>): Desk {
    if tr == [] then DESK else DeskStep(Ask(tr[..|tr| - 1]), tr[|tr| - 1])
  }

  lemma AskLog()
    ensures forall w: World, e: Event {:trigger Log(w, e)} :: Ask(Log(w, e).trace) == DeskStep(Ask(w.trace), e)
  {
    forall w: World, e: Event ensures Ask(Log(w, e).trace) == DeskStep(Ask(w.trace), e) {
      var tr := Log(w, e).trace;
      assert tr[..|tr| - 1] == w.trace;
    }
  }
}
