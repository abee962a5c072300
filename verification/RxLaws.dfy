// Reception over every run: the daemon's byte stream is read as one stream, and
// the firmware gets exactly what the radio heard.
module RxLaws {
  import opened Bytes
  import opened Frames
  import opened Messages
  import opened World
  import opened Monitors
  import opened Model
  import opened Joint
  import opened Ownership
  import opened Reception
  import opened Conversation
  import opened Settlement
  import opened Invariance
  import opened Past

  function EarAt(setup: Setup, tr: seq<Event>, k: nat): Ear
    requires k <= |tr|
  {
    Listen(setup, tr[..k])
  }

  lemma RunHears(setup: Setup, turns: seq<Turn>)
    ensures var n := Run(setup, turns);
            && Hears(n.y) && Talks(n.y) && Linked(n.y, n.held) && n.y.w.setup == setup
            && (!Live(n.y.b) ==> n.held == [])
  {
    RunGood(setup, turns);
    hide Run, Inv, Owns, Talks, Asks, Hears, Linked;
  }

  // --- one stream ------------------------------------------------------------

  // However the link's bytes were cut into reads, and through a hand-over from
  // transmitting to draining: the frames dispatched are those of the whole stream,
  // none is malformed, and the parser holds the incomplete rest.
  lemma StreamRefined(setup: Setup, turns: seq<Turn>)
    ensures var n := Run(setup, turns);
            var m := Listen(setup, n.y.w.trace);
            Live(n.y.b) ==> Parse(FromDaemon, m.raw) == Parsed(m.heard, n.held, false)
  {
    var n := Run(setup, turns);
    hide Run, Listen, Hears, Talks, PopFrame;
    RunHears(setup, turns);
    if Live(n.y.b) {
      HeldParse(n.held);
      var m := Listen(setup, n.y.w.trace);
      assert m.heard + [] == m.heard;
    }
  }

  lemma HeldParse(held: seq<byte>)
    requires PopFrame(FromDaemon, held).NeedMore?
    ensures Parse(FromDaemon, held) == Parsed([], held, false)
  {
  }

  // Cutting the input into two reads changes nothing: the frames dispatched, the
  // point where the loop leaves, and the incomplete rest are those of one read.
  lemma {:induction false} DigestSplit(y: Sys, a: seq<byte>, b: seq<byte>, draining: bool)
    ensures var (y1, held) := Digest(y, a, draining);
            Digest(y, a + b, draining) ==
            if LeftEarly(y, a, draining) then (y1, []) else Digest(y1, held + b, draining)
    decreases |a|
  {
    hide Dispatch, HandleDisconnect, PopFrame;
    PopStable(FromDaemon, a, b);
    var r := PopFrame(FromDaemon, a);
    if r.Got? {
      PopSmaller(a);
      var y1 := Dispatch(y, r.frame);
      if !LeftLoop(y1.b, draining) {
        DigestSplit(y1, r.rest, b, draining);
      }
    }
  }

  // The loop leaves before the end of the input.
  predicate LeftEarly(y: Sys, stream: seq<byte>, draining: bool)
    decreases |stream|
  {
    match PopFrame(FromDaemon, stream)
    case NeedMore => false
    case Bad => true
    case Got(f, rest) =>
      var y1 := Dispatch(y, f);
      LeftLoop(y1.b, draining) || LeftEarly(y1, rest, draining)
  }

  lemma ListenAt(setup: Setup, tr: seq<Event>, k: nat)
    requires k < |tr|
    ensures EarAt(setup, tr, k + 1) ==
            EarStep(EarAt(setup, tr, k), Dialogue(setup, tr[..k]).stage.Running?, tr[k])
  {
    hide EarStep, Dialogue;
    assert tr[..k + 1][..k] == tr[..k];
  }

  lemma QuietEar(m: Ear, running: bool, e: Event)
    requires !EarStep(m, running, e).bad
    ensures !m.bad
    ensures e.Heard? ==> m.heard + [e.frame] <= Parse(FromDaemon, m.raw).frames
    ensures e.XrOut? && e.frame.ty == XR_RX ==> m.out + [e.frame] <= m.due
  {
    hide Parse, DecodeRx;
  }

  lemma {:induction false} ListenSticky(setup: Setup, tr: seq<Event>, k: nat)
    requires k <= |tr| && !Listen(setup, tr).bad
    ensures !EarAt(setup, tr, k).bad
    decreases |tr| - k
  {
    hide Listen, EarStep, Dialogue;
    if k < |tr| {
      ListenSticky(setup, tr, k + 1);
      ListenAt(setup, tr, k);
      QuietEar(EarAt(setup, tr, k), Dialogue(setup, tr[..k]).stage.Running?, tr[k]);
    } else {
      assert tr[..k] == tr;
    }
  }

  // At any point of any run the next frame dispatched is the next frame of the
  // link's byte stream.
  lemma FramesInOrder(setup: Setup, turns: seq<Turn>, k: nat)
    requires k < |TraceOf(setup, turns)| && TraceOf(setup, turns)[k].Heard?
    ensures var tr := TraceOf(setup, turns);
            var m := EarAt(setup, tr, k);
            m.heard + [tr[k].frame] <= Parse(FromDaemon, m.raw).frames
  {
    var tr := TraceOf(setup, turns);
    hide Run, Listen, EarStep, Dialogue, Talks, Linked;
    RunHears(setup, turns);
    ListenSticky(setup, tr, k + 1);
    ListenAt(setup, tr, k);
    QuietEar(EarAt(setup, tr, k), Dialogue(setup, tr[..k]).stage.Running?, tr[k]);
  }

  // --- faithful delivery -----------------------------------------------------

  // The events since the last CONFIG_RESULT success.
  function Since(tr: seq<Event>): seq<Event> {
    if tr == [] then []
    else
      var e := tr[|tr| - 1];
      if e.XrOut? && IsConfigOk(e.frame) then [] else Since(tr[..|tr| - 1]) + [e]
  }

  // The RX_PACKETs queued for the firmware.
  function Delivered(tr: seq<Event>): seq<Frame> {
    if tr == [] then []
    else
      var e := tr[|tr| - 1];
      Delivered(tr[..|tr| - 1]) + (if e.XrOut? && e.frame.ty == XR_RX then [e.frame] else [])
  }

  // The packet a dispatched daemon frame carries for the firmware, if any.
  function Packet(e: Event): Option<Rx> {
    if e.Heard? && DecodeRx(e.frame).Some? && RxAcceptable(|DecodeRx(e.frame).value.data|)
    then DecodeRx(e.frame) else None
  }

  // The packets the radio heard.
  function Audible(tr: seq<Event>): seq<Rx> {
    if tr == [] then []
    else
      var p := Packet(tr[|tr| - 1]);
      Audible(tr[..|tr| - 1]) + (if p.Some? then [p.value] else [])
  }

  function RxFrames(packets: seq<Rx>): seq<Frame> {
    seq(|packets|, i requires 0 <= i < |packets| => XrRxFrame(packets[i]))
  }

  lemma SnocSince(past: seq<Event>, e: Event)
    requires !(e.XrOut? && IsConfigOk(e.frame))
    ensures Since(past + [e]) == Since(past) + [e]
    ensures Delivered(Since(past) + [e]) ==
            Delivered(Since(past)) + (if e.XrOut? && e.frame.ty == XR_RX then [e.frame] else [])
    ensures Audible(Since(past) + [e]) ==
            Audible(Since(past)) + (if Packet(e).Some? then [Packet(e).value] else [])
  {
    assert (past + [e])[..|past|] == past;
    assert (Since(past) + [e])[..|Since(past)|] == Since(past);
    hide Packet;
  }

  lemma {:induction false} OutIsDelivered(setup: Setup, tr: seq<Event>)
    ensures Listen(setup, tr).out == Delivered(Since(tr))
    decreases |tr|
  {
    hide Since, Delivered, Parse, DecodeRx, Dialogue;
    if tr == [] {
      NothingYet();
    } else {
      var past, e := tr[..|tr| - 1], tr[|tr| - 1];
      assert tr == past + [e];
      OutIsDelivered(setup, past);
      if e.XrOut? && IsConfigOk(e.frame) {
        FreshSince(past, e);
      } else {
        SnocSince(past, e);
      }
    }
  }

  lemma NothingYet()
    ensures Delivered(Since([])) == []
  {
  }

  lemma FreshSince(past: seq<Event>, e: Event)
    requires e.XrOut? && IsConfigOk(e.frame)
    ensures Since(past + [e]) == [] && Delivered([]) == [] && Audible([]) == []
  {
  }

  // Operation begins with a CONFIG_RESULT success and nothing else.
  lemma RunningBefore(setup: Setup, m: Talk, e: Event)
    requires TalkStep(setup, m, e).stage.Running? && !TalkStep(setup, m, e).bad
    ensures !m.bad && (m.stage.Running? || (e.XrOut? && IsConfigOk(e.frame)))
  {
    hide WellFormed;
  }

  lemma QuietTalk(setup: Setup, m: Talk, e: Event)
    requires !TalkStep(setup, m, e).bad
    ensures !m.bad
  {
    hide Say, Reply;
  }

  lemma DueStep(m: Ear, running: bool, e: Event, packets: seq<Rx>)
    requires !(e.XrOut? && IsConfigOk(e.frame))
    requires m.due <= RxFrames(packets) && (running ==> m.due == RxFrames(packets))
    ensures var k := EarStep(m, running, e);
            var more := packets + if Packet(e).Some? then [Packet(e).value] else [];
            k.due <= RxFrames(more) && (running ==> k.due == RxFrames(more))
  {
    hide Parse, DecodeRx, XrRxFrame;
    if Packet(e).Some? {
      assert RxFrames(packets + [Packet(e).value]) == RxFrames(packets) + [XrRxFrame(Packet(e).value)];
    } else {
      assert packets + [] == packets;
    }
  }

  // What is owed to the session is what the radio heard while it ran.
  lemma {:induction false} DueIsAudible(setup: Setup, tr: seq<Event>)
    requires !Dialogue(setup, tr).bad
    ensures var due, all := Listen(setup, tr).due, RxFrames(Audible(Since(tr)));
            due <= all && (Dialogue(setup, tr).stage.Running? ==> due == all)
    decreases |tr|
  {
    if tr != [] {
      var past, e := tr[..|tr| - 1], tr[|tr| - 1];
      assert tr == past + [e];
      QuietTalk(setup, Dialogue(setup, past), e);
      DueIsAudible(setup, past);
      hide Since, Audible, HearFrame, RxFrames, TalkStep, Packet;
      if e.XrOut? && IsConfigOk(e.frame) {
        FreshSince(past, e);
        NoFrames();
      } else {
        SnocSince(past, e);
        var m, running := Listen(setup, past), Dialogue(setup, past).stage.Running?;
        DueStep(m, running, e, Audible(Since(past)));
        if TalkStep(setup, Dialogue(setup, past), e).stage.Running? {
          RunningBefore(setup, Dialogue(setup, past), e);
        }
      }
    }
  }

  lemma NoFrames()
    ensures RxFrames([]) == []
  {
  }

  predicate AllAcceptable(packets: seq<Rx>) {
    forall i :: 0 <= i < |packets| ==> RxAcceptable(|packets[i].data|)
  }

  lemma {:induction false} AudibleAcceptable(tr: seq<Event>)
    ensures AllAcceptable(Audible(tr))
    decreases |tr|
  {
    if tr != [] {
      AudibleAcceptable(tr[..|tr| - 1]);
    }
  }

  // The firmware's decoder reads the packets back, metadata and payload.
  lemma FirmwareReads(packets: seq<Rx>, i: nat)
    requires AllAcceptable(packets) && i < |packets|
    ensures DecodeXrRx(RxFrames(packets)[i]) == Some(packets[i])
  {
    hide XrRxFrame, DecodeXrRx;
    XrRxRoundTrip(packets[i]);
  }

  // While a session is operational it has been sent exactly the packets the radio
  // heard since its configuration succeeded, in order; none is lost or repeated.
  // After it closed, it had been sent the first of them. The firmware reads from
  // each frame what the radio reported.
  lemma RxFaithful(setup: Setup, turns: seq<Turn>)
    ensures var n, tr := Run(setup, turns), TraceOf(setup, turns);
            var sent, heard := Delivered(Since(tr)), Audible(Since(tr));
            && sent <= RxFrames(heard) && (IsOperational(n.y) ==> sent == RxFrames(heard))
            && forall i :: 0 <= i < |sent| ==> DecodeXrRx(sent[i]) == Some(heard[i])
  {
    var tr := TraceOf(setup, turns);
    hide Run, Listen, Dialogue, Since, Delivered, Audible, Queued, Linked, DecodeXrRx, XrRxFrame;
    RunHears(setup, turns);
    OutIsDelivered(setup, tr);
    DueIsAudible(setup, tr);
    OutWithinDue(setup, tr);
    AudibleAcceptable(Since(tr));
    var sent, heard := Delivered(Since(tr)), Audible(Since(tr));
    forall i | 0 <= i < |sent| ensures DecodeXrRx(sent[i]) == Some(heard[i]) {
      FirmwareReads(heard, i);
    }
  }

  lemma {:induction false} OutWithinDue(setup: Setup, tr: seq<Event>)
    requires !Listen(setup, tr).bad
    ensures Listen(setup, tr).out <= Listen(setup, tr).due
    decreases |tr|
  {
    if tr != [] {
      var past, e := tr[..|tr| - 1], tr[|tr| - 1];
      hide Parse, Dialogue, DecodeRx;
      OutWithinDue(setup, past);
    }
  }

  // Every packet heard is in the RF log, once and in order.
  lemma AllLogged(setup: Setup, turns: seq<Turn>)
    ensures var m := Listen(setup, TraceOf(setup, turns)); m.logged == m.decoded
  {
    hide Run, Listen, Talks, Linked;
    RunHears(setup, turns);
  }
}
