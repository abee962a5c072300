// The main laws in the peers' own terms: frame types, status bytes and lengths as
// numbers, texts as they are on the sockets.
module Spelled {
  import opened Bytes
  import opened Frames
  import opened Messages
  import opened ConfText
  import opened Radio
  import opened World
  import opened Monitors
  import opened Model
  import opened Joint
  import opened Ownership
  import opened Past
  import opened TxSafety
  import opened RxLaws
  import opened ConfigLaws
  import opened Exchange
  import opened Protocol
  import opened Dialect

  // --- transmit results ------------------------------------------------------

  // The bytes accepted at j complete the packet with this payload: the daemon, reading
  // the raw bytes of all links, has one packet more.
  predicate Arrives(tr: seq<Event>, j: nat, payload: seq<byte>) {
    && j < |tr| && tr[j].DataTx?
    && Received(tr[..j + 1]) == Received(tr[..j]) + [Frame(2, 0, payload)]
  }

  // TX_RESULT, TX_REQUEST and the ends of a session.
  predicate Interrupts(e: Event) {
    (e.XrOut? && e.frame.ty == 0x0A) || e.XrClosed? || e.ConnOpen? || e.ConnDrop?
  }

  // The result queued at k is the daemon's word on the request read at i: its packet
  // arrived at j, the first thing the daemon said about it was said at l, and the code is
  // 0 exactly for status byte 0, 1 exactly for status byte 2, and 3 otherwise.
  predicate Tells(tr: seq<Event>, i: nat, j: nat, l: nat, k: nat) {
    && i < j < l < k < |tr|
    && tr[i].XrIn? && tr[i].frame.ty == 9 && Arrives(tr, j, tr[i].frame.payload)
    && tr[l].Heard? && SaysAnything(tr[l].frame)
    && (forall x :: j < x < l && tr[x].Heard? ==> !SaysAnything(tr[x].frame))
    && (forall x :: i < x < k ==> !Interrupts(tr[x]))
    && tr[k] == XrOut(Frame(0x0A, tr[i].frame.sn,
                            [if SaysSent(tr[l].frame) then 0 else if SaysBusy(tr[l].frame) then 1 else 3]))
  }

  lemma CompletionArrives(tr: seq<Event>, j: nat, payload: seq<byte>)
    requires Completes(tr, j, payload) && !Books(tr).bad
    ensures Arrives(tr, j, payload)
  {
    hide Books, Received, WireAgrees;
    BooksSticky(tr, j);
    BooksSticky(tr, j + 1);
    WireHistory(tr[..j]);
    WireHistory(tr[..j + 1]);
    ArrivalOf(tr[..j], tr[..j + 1], payload);
  }

  lemma ArrivalOf(a: seq<Event>, b: seq<Event>, payload: seq<byte>)
    requires WireAgrees(a) && WireAgrees(b) && Books(b).handed == Books(a).handed + [payload]
    ensures Received(b) == Received(a) + [Frame(2, 0, payload)]
  {
    hide Books, CableOf, Parse;
  }

  // Every TX_RESULT of every run.
  lemma ResultCodes(setup: Setup, turns: seq<Turn>, k: nat)
    requires var tr := TraceOf(setup, turns); k < |tr| && tr[k].XrOut? && tr[k].frame.ty == 0x0A
    ensures exists i: nat, j: nat, l: nat :: Tells(TraceOf(setup, turns), i, j, l, k)
  {
    hide Run, Books, Serves, Accounts, Inv, Completes, Explains;
    var tr := TraceOf(setup, turns);
    RunOwns(setup, turns);
    ResultExplained(setup, turns, k);
    var i: nat, j: nat, l: nat, o :| Explains(tr, k, i, j, l, o);
    assert !Books(tr).bad by { NoAlarm(Books(tr), Run(setup, turns).y.b); }
    ExplainedCode(tr, k, i, j, l, o);
  }

  lemma NoAlarm(m: Ledger, b: Backend)
    requires Accounts(m, b)
    ensures !m.bad
  {
    hide Payloads, Select;
  }

  lemma ExplainedCode(tr: seq<Event>, k: nat, i: nat, j: nat, l: nat, o: TxOutcome)
    requires Explains(tr, k, i, j, l, o) && !Books(tr).bad
    ensures Tells(tr, i, j, l, k)
  {
    hide Books, Answer, TxResultFrame, Completes, Arrives, SaysSent, SaysBusy, SaysFailed, SaysAnything;
    assert tr[..k][l] == tr[l];
    CompletesEarlier(tr, k, j, tr[i].frame.payload);
    CompletionArrives(tr, j, tr[i].frame.payload);
    CodesRead(tr[l].frame, tr[i].frame.sn);
    AnswersRead(tr[l].frame);
    forall x | j < x < l && tr[x].Heard? ensures !SaysAnything(tr[x].frame) {
      assert tr[..k][x] == tr[x];
      AnswersRead(tr[x].frame);
    }
  }

  lemma CompletesEarlier(tr: seq<Event>, k: nat, j: nat, payload: seq<byte>)
    requires k <= |tr| && Completes(tr[..k], j, payload)
    ensures Completes(tr, j, payload)
  {
    hide Books;
    assert tr[..k][..j] == tr[..j] && tr[..k][..j + 1] == tr[..j + 1];
  }

  // --- received packets ------------------------------------------------------

  // The events since the session was told that its configuration is in force.
  function SinceReady(tr: seq<Event>): seq<Event> {
    if tr == [] then []
    else
      var e := tr[|tr| - 1];
      if e.XrOut? && e.frame.ty == 7 && |e.frame.payload| > 0 && e.frame.payload[0] == 0 then []
      else SinceReady(tr[..|tr| - 1]) + [e]
  }

  // The daemon frames that carry a packet.
  function Owed(tr: seq<Event>): (r: seq<Frame>)
    ensures forall i :: 0 <= i < |r| ==> CarriesPacket(r[i])
  {
    if tr == [] then []
    else
      var e := tr[|tr| - 1];
      Owed(tr[..|tr| - 1]) + (if e.Heard? && CarriesPacket(e.frame) then [e.frame] else [])
  }

  // The RX_PACKET frames queued for the firmware.
  function Passed(tr: seq<Event>): seq<Frame> {
    if tr == [] then []
    else
      var e := tr[|tr| - 1];
      Passed(tr[..|tr| - 1]) + (if e.XrOut? && e.frame.ty == 8 then [e.frame] else [])
  }

  lemma {:induction false} SinceRead(tr: seq<Event>)
    ensures SinceReady(tr) == Since(tr)
    decreases |tr|
  {
    if tr != [] { SinceRead(tr[..|tr| - 1]); }
  }

  lemma {:induction false} PassedRead(tr: seq<Event>)
    ensures Passed(tr) == Delivered(tr)
    decreases |tr|
  {
    if tr != [] { PassedRead(tr[..|tr| - 1]); }
  }

  // The packet the bridge sees in each of them.
  lemma {:induction false} OwedRead(tr: seq<Event>)
    ensures |Audible(tr)| == |Owed(tr)|
    ensures forall i :: 0 <= i < |Owed(tr)| ==> DecodeRx(Owed(tr)[i]) == Some(Audible(tr)[i])
    decreases |tr|
  {
    hide DecodeRx, RxAcceptable, CarriesPacket;
    if tr != [] {
      OwedRead(tr[..|tr| - 1]);
      if tr[|tr| - 1].Heard? { PacketsRead(tr[|tr| - 1].frame); }
    }
  }

  // Every packet of 1 to 255 bytes the daemon delivers while a session is operational is
  // queued for it, and nothing else is: in order, none lost or repeated, and the firmware
  // reads from each the RSSI, SNR and payload the radio reported. A closed session had
  // been sent the first of them.
  lemma PacketsDelivered(setup: Setup, turns: seq<Turn>)
    ensures var tr := TraceOf(setup, turns);
            var sent, owed := Passed(SinceReady(tr)), Owed(SinceReady(tr));
            && |sent| <= |owed| && (IsOperational(Run(setup, turns).y) ==> |sent| == |owed|)
            && forall i :: 0 <= i < |sent| ==> ReadRx(sent[i]) == Some(Reported(owed[i]))
  {
    hide Run, SinceReady, Since, Passed, Delivered, Owed, Audible;
    hide DecodeXrRx, ReadRx, Reported, DecodeRx, XrRxFrame, CarriesPacket;
    var tr := TraceOf(setup, turns);
    RxFaithful(setup, turns);
    SinceRead(tr);
    PassedRead(Since(tr));
    OwedRead(Since(tr));
    var sent, owed, heard := Passed(SinceReady(tr)), Owed(SinceReady(tr)), Audible(Since(tr));
    forall i | 0 <= i < |sent| ensures ReadRx(sent[i]) == Some(Reported(owed[i])) {
      assert sent[i] == RxFrames(heard)[i] == XrRxFrame(heard[i]);
      PacketsUnderstood(owed[i]);
    }
  }

  // Every packet of 0 to 255 bytes the radio reports is in the RF log, in order, with its
  // RSSI, SNR and payload.
  function Noted(tr: seq<Event>): seq<Rx> {
    if tr == [] then []
    else Noted(tr[..|tr| - 1]) + (if tr[|tr| - 1].LogRx? then [tr[|tr| - 1].rx] else [])
  }

  function Carriers(tr: seq<Event>): (r: seq<Frame>)
    ensures forall i :: 0 <= i < |r| ==> r[i].ty == 1 && 4 <= |r[i].payload| <= 259
  {
    if tr == [] then []
    else
      var e := tr[|tr| - 1];
      Carriers(tr[..|tr| - 1]) +
      (if e.Heard? && e.frame.ty == 1 && 4 <= |e.frame.payload| <= 259 then [e.frame] else [])
  }

  lemma {:induction false} NotedRead(setup: Setup, tr: seq<Event>)
    ensures Listen(setup, tr).logged == Noted(tr)
    ensures |Listen(setup, tr).decoded| == |Carriers(tr)|
    ensures forall i :: 0 <= i < |Carriers(tr)| ==> DecodeRx(Carriers(tr)[i]) == Some(Listen(setup, tr).decoded[i])
    decreases |tr|
  {
    hide Parse, Dialogue, DecodeRx, RxAcceptable, XrRxFrame;
    if tr != [] {
      NotedRead(setup, tr[..|tr| - 1]);
      if tr[|tr| - 1].Heard? { ReportRead(tr[|tr| - 1].frame); }
    }
  }

  lemma ReportRead(f: Frame)
    ensures DecodeRx(f).Some? <==> f.ty == 1 && 4 <= |f.payload| <= 259
    ensures DecodeRx(f).Some? ==>
              var rx, p := DecodeRx(f).value, f.payload;
              rx.rssi == Int16(p[1], p[0]) && rx.snr == Int16(p[3], p[2]) && rx.data == p[4..]
  {
  }

  lemma PacketsLogged(setup: Setup, turns: seq<Turn>)
    ensures var logged, heard := Noted(TraceOf(setup, turns)), Carriers(TraceOf(setup, turns));
            |logged| == |heard| &&
            forall i :: 0 <= i < |heard| ==>
              var p := heard[i].payload;
              logged[i].rssi == Int16(p[1], p[0]) && logged[i].snr == Int16(p[3], p[2]) && logged[i].data == p[4..]
  {
    hide Run, Listen, Noted, Carriers, DecodeRx;
    var tr := TraceOf(setup, turns);
    AllLogged(setup, turns);
    NotedRead(setup, tr);
    forall i | 0 <= i < |Carriers(tr)|
      ensures var p := Carriers(tr)[i].payload;
              Noted(tr)[i].rssi == Int16(p[1], p[0]) && Noted(tr)[i].snr == Int16(p[3], p[2]) && Noted(tr)[i].data == p[4..]
    {
      ReportRead(Carriers(tr)[i]);
    }
  }

  // --- configuration ---------------------------------------------------------

  // The text written to and read from the CONF socket of the current link, and the radio
  // the link goes to.
  function OrdersOf(tr: seq<Event>): string {
    if tr == [] then ""
    else
      match tr[|tr| - 1]
      case LinkUp(_) => ""
      case ConfTx(text) => OrdersOf(tr[..|tr| - 1]) + text
      case _ => OrdersOf(tr[..|tr| - 1])
  }

  function RepliesOf(tr: seq<Event>): string {
    if tr == [] then ""
    else
      match tr[|tr| - 1]
      case LinkUp(_) => ""
      case ConfRx(text) => RepliesOf(tr[..|tr| - 1]) + text
      case _ => RepliesOf(tr[..|tr| - 1])
  }

  function BandOf(tr: seq<Event>): Option<Band> {
    if tr == [] then None else if tr[|tr| - 1].LinkUp? then Some(tr[|tr| - 1].band) else BandOf(tr[..|tr| - 1])
  }

  lemma {:induction false} DeskRead(tr: seq<Event>)
    ensures Ask(tr).tx == OrdersOf(tr) && Ask(tr).rx == RepliesOf(tr) && Ask(tr).band == BandOf(tr)
    decreases |tr|
  {
    hide Done, DecodeConfig, Suits;
    if tr != [] {
      DeskRead(tr[..|tr| - 1]);
      if tr[|tr| - 1].CfgDone? { DoneKeeps(Ask(tr[..|tr| - 1]), tr[|tr| - 1]); }
    }
  }

  lemma DoneKeeps(m: Desk, e: Event)
    requires e.CfgDone?
    ensures var n := Done(m, e.token, e.applied); n.tx == m.tx && n.rx == m.rx && n.band == m.band
  {
    hide Scan, WholeScript;
  }

  // The five commands of one configure, and what the fourth demands.
  ghost predicate OrdersFor(text: string, c: RadioConfig) {
    exists line ::
      && text == "SET TXMODE=MANAGED\n" + "SET TXQUEUE=1\n" + "SET TXRESULT=1\n" + (line + "\n") + "GET STATUS\n"
      && IsSetFor(line, c)
  }

  // What earns a configuration: the commands for it were written, and the replies, after
  // lines that do not matter, say that the radio is ready.
  ghost predicate WonBy(tr: seq<Event>, c: RadioConfig) {
    OrdersFor(OrdersOf(tr), c) && Declares(RepliesOf(tr), true)
  }

  lemma EarnedRead(tr: seq<Event>, c: RadioConfig)
    requires Earned(Ask(tr)) && Ask(tr).cfg == Some(c)
    ensures WonBy(tr, c)
  {
    hide Ask, OrdersOf, RepliesOf, Scan, IsSetFor, Declares, SetCommand, WithinLimits, Validate;
    DeskRead(tr);
    VerdictExact(RepliesOf(tr), true);
    PrintsValid(c);
    LimitsExact(c);
    SetDemands(c);
    var line :| SetCommand(c).value == line + "\n" && IsSetFor(line, c);
  }

  lemma PrintsValid(c: RadioConfig)
    ensures SetCommand(c).Some? ==> Validate(c) == Ok
  {
  }

  predicate IsLinkEvent(e: Event) {
    e.LinkUp? || e.CfgBegin? || e.CfgDone?
  }

  // The success queued at k: c was asked for at a, begun at b on a link to the radio that
  // covers it, and won at d.
  ghost predicate Grounded(tr: seq<Event>, k: nat, a: nat, b: nat, d: nat, c: RadioConfig) {
    && a < b < d < k < |tr|
    && tr[a].XrIn? && tr[a].frame.ty == 6 && |tr[a].frame.payload| == 17 && ReadConfig(tr[a].frame.payload) == Some(c)
    && (forall x :: a < x < b ==> !(tr[x].XrIn? && tr[x].frame.ty == 6))
    && tr[b].CfgBegin? && tr[b].cfg == c && WithinLimits(c)
    && BandOf(tr[..b]).Some? && Covers(BandOf(tr[..b]).value, c.freqHz)
    && tr[d] == CfgDone(tr[b].token, true) && WonBy(tr[..d], c)
    && (forall x :: b < x < d || d < x < k ==> !IsLinkEvent(tr[x]))
    && tr[k].XrOut? && tr[k].frame.ty == 7 && |tr[k].frame.payload| == 18 && tr[k].frame.payload[0] == 0
    && ReadConfig(tr[k].frame.payload[1..]) == Some(c)
  }

  // Every CONFIG_RESULT success of every run.
  lemma SuccessGrounded(setup: Setup, turns: seq<Turn>, k: nat)
    requires var tr := TraceOf(setup, turns);
             k < |tr| && tr[k].XrOut? && tr[k].frame.ty == 7 && |tr[k].frame.payload| > 0 && tr[k].frame.payload[0] == 0
    ensures exists a: nat, b: nat, d: nat, c :: Grounded(TraceOf(setup, turns), k, a, b, d, c)
  {
    hide Run, Ask, Vouches, Grounded;
    var tr := TraceOf(setup, turns);
    RunAsks(setup, turns);
    ConfigSound(setup, turns, k);
    var a: nat, b: nat, d: nat, token: nat, c :| Vouches(tr, k, a, b, d, token, c);
    VouchesGround(tr, k, a, b, d, token, c);
  }

  lemma VouchesGround(tr: seq<Event>, k: nat, a: nat, b: nat, d: nat, token: nat, c: RadioConfig)
    requires Vouches(tr, k, a, b, d, token, c) && !Ask(tr).bad
    ensures Grounded(tr, k, a, b, d, c)
  {
    hide Ask, DeskStep, Earned, WonBy, DecodeConfig, ConfigOkFrame, ReadConfig, WithinLimits, Covers, BandOf;
    assert tr[..k][..d] == tr[..d] && tr[..k][d] == tr[d];
    assert tr[..d][..b] == tr[..b] && tr[..d][b] == tr[b];
    assert tr[..b][a] == tr[a];
    EarnedRead(tr[..d], c);
    ConfigsRead(tr[a].frame);
    AskSticky(tr, b + 1);
    AskAt(tr, b);
    QuietDesk(Ask(tr[..b]), tr[b]);
    DeskRead(tr[..b]);
    LimitsGive(c);
    ConfigsEchoed(c);
    forall x | b < x < d || d < x < k ensures !IsLinkEvent(tr[x]) {
      if x < d { assert tr[..d][x] == tr[x]; } else { assert tr[..k][x] == tr[x]; }
    }
    forall x | a < x < b ensures !(tr[x].XrIn? && tr[x].frame.ty == 6) {
      assert tr[..b][x] == tr[x];
    }
  }

  lemma LimitsGive(c: RadioConfig)
    requires WithinLimits(c)
    ensures c.crc <= 1 && c.ldro <= 1
  {
  }

  // Every byte written to the daemon's DATA socket lies behind a configuration won on the
  // same link.
  lemma BytesGrounded(setup: Setup, turns: seq<Turn>, k: nat)
    requires k < |TraceOf(setup, turns)| && TraceOf(setup, turns)[k].DataTx?
    ensures var tr := TraceOf(setup, turns);
            exists d: nat, c ::
              && d < k && tr[d].CfgDone? && tr[d].applied && WonBy(tr[..d], c)
              && forall x :: d < x < k ==> !tr[x].LinkUp? && !tr[x].LinkDown?
  {
    hide Run, Ask, Earned, WonBy;
    var tr := TraceOf(setup, turns);
    PacketsEarned(setup, turns, k);
    var d: nat :| FitFrom(tr[..k], d);
    assert tr[..k][..d] == tr[..d] && tr[..k][d] == tr[d];
    EarnedHas(Ask(tr[..d]));
    EarnedRead(tr[..d], Ask(tr[..d]).cfg.value);
    assert forall x :: d < x < k ==> tr[..k][x] == tr[x];
  }

  lemma EarnedHas(m: Desk)
    requires Earned(m)
    ensures m.cfg.Some?
  {
    hide Scan, WholeScript;
  }

  // --- replies decide --------------------------------------------------------

  // A configure waiting for its replies, whatever their split into reads and polls: it
  // succeeds exactly on a text that declares the radio ready, fails exactly on one that
  // declares it not ready or objects, and waits on exactly while no line matters.
  lemma ReplyDecides(y: Sys, held: seq<byte>, bursts: seq<Burst>)
    requires Awaits(y) && Timely(bursts, y.b.configDeadline) && y.b.confLine == ""
    requires Fits(Joined(AllChunks(bursts)), true)
    ensures var text, z := Joined(AllChunks(bursts)), Replies(y, held, bursts);
            && (Declares(text, true) ==> Applied(y, z))
            && (Declares(text, false) || Objects(text, true) ==> TurnedDown(z))
            && (forall rest :: Undecided(text, rest, true) ==> Awaits(z) && z.b.confLine == rest && z.sink == y.sink)
            && (|| Declares(text, true) || Declares(text, false) || Objects(text, true)
                || exists rest :: Undecided(text, rest, true))
  {
    hide Scan, Fits, Joined, AllChunks, Replies, Awaits, Applied, TurnedDown, Declares, Objects, Undecided;
    var text := Joined(AllChunks(bursts));
    TextDecides(y, held, bursts);
    VerdictExact(text, true);
    match Scan(text, true)
    case Pending(rest) => assert Undecided(text, rest, true);
    case GotStatus(ready, _) => assert Declares(text, ready);
    case Failed(_) =>
  }

  // With no configure in progress any line that is not chatter ends the link.
  lemma IdleLineEnds(y: Sys, held: seq<byte>, text: ConfChunk, now: nat)
    requires Live(y.b) && !y.b.state.Draining?
    requires y.w.script.confIn != [] && y.w.script.confIn[0] == Chunk(text)
    requires |y.b.confLine| + |text| <= 1024 && Objects(y.b.confLine + text, false)
    ensures var z := Poll(y, held, now).0;
            && (if y.b.state.TxPending? then z.b.state.Faulted? else z.b.state.Disconnected?)
            && (y.sink.Some? ==> IsClosed(z))
  {
    hide Scan, Objects;
    VerdictExact(y.b.confLine + text, false);
    assert PumpConf(y, false).1.ConfFailed?;
  }

  // And one that is chatter does not.
  lemma ChatterPasses(y: Sys, text: ConfChunk, rest: string)
    requires y.w.script.confIn == [Chunk(text)] && |y.b.confLine| + |text| <= 1024
    requires Undecided(y.b.confLine + text, rest, false)
    ensures var (z, r) := PumpConf(y, false); r.ConfQuiet? && z.b == y.b.(confLine := rest) && z.sink == y.sink
  {
    hide Scan, Undecided;
    VerdictExact(y.b.confLine + text, false);
    NothingLeft(y, text, rest);
  }

  lemma NothingLeft(y: Sys, text: ConfChunk, rest: string)
    requires y.w.script.confIn == [Chunk(text)] && |y.b.confLine| + |text| <= 1024
    requires Scan(y.b.confLine + text, false) == Pending(rest)
    ensures PumpConf(y, false).1.ConfQuiet? && PumpConf(y, false).0.b.confLine == rest
  {
    hide Scan;
    var y1 := y.(w := y.w.(script := y.w.script.(confIn := [])));
    var y2 := Note(y1, ConfRx(text));
    var y3 := y2.(b := y2.b.(confLine := rest));
    assert y.w.script.confIn[1..] == [];
    assert PumpConf(y3, false) == (y3, ConfQuiet);
  }
}
