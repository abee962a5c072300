// What does happen: packets get through any partial writes, and configurations through
// any split of the replies.
module Exchange {
  import opened Bytes
  import opened Frames
  import opened Messages
  import opened ConfText
  import opened World
  import opened Model
  import opened Ownership
  import opened TxSafety

  // --- a packet through partial writes ---------------------------------------

  // What a write loop can put out before it has to wait.
  function Capacity(rooms: seq<int>): nat {
    if rooms == [] || rooms[0] <= 0 then 0 else rooms[0] + Capacity(rooms[1..])
  }

  // No send fails.
  predicate Sound(rooms: seq<int>) {
    forall i :: 0 <= i < |rooms| ==> rooms[i] >= 0
  }

  // The bytes received on the current link.
  function Wire(y: Sys): seq<byte> {
    CableOf(y.w.trace).wire
  }

  lemma WireLog(w: World, bytes: seq<byte>)
    ensures CableOf(Log(w, DataTx(bytes)).trace).wire == CableOf(w.trace).wire + bytes
  {
    var tr := Log(w, DataTx(bytes)).trace;
    assert tr[..|tr| - 1] == w.trace;
    hide Parse;
  }

  lemma WroteAll(y: Sys, n: nat)
    requires y.b.txOff + n <= |y.b.txOut|
    ensures var z := Wrote(y, n);
            && Wire(z) == Wire(y) + y.b.txOut[y.b.txOff..y.b.txOff + n]
            && z.b == y.b.(txOff := y.b.txOff + n) && z.sink == y.sink && z.w.setup == y.w.setup
            && z.w.script.dataRoom == Tail(y.w.script.dataRoom)
  {
    hide CableOf;
    var y1 := y.(w := y.w.(script := y.w.script.(dataRoom := Tail(y.w.script.dataRoom))));
    WireLog(y1.w, y.b.txOut[y.b.txOff..y.b.txOff + n]);
  }

  // The write loop puts out as much as it can, and nothing else.
  lemma {:induction false} PumpTxAmount(y: Sys)
    requires y.b.txOff <= |y.b.txOut| && Sound(y.w.script.dataRoom)
    ensures var (z, r) := PumpTx(y);
            var end := Min(|y.b.txOut|, y.b.txOff + Capacity(y.w.script.dataRoom));
            && z.b == y.b.(txOff := end) && z.sink == y.sink && z.w.setup == y.w.setup
            && r == (if end == |y.b.txOut| then Complete else Partial)
            && Wire(z) == Wire(y) + y.b.txOut[y.b.txOff..end]
    decreases |y.b.txOut| - y.b.txOff
  {
    hide PumpTx, CableOf, Wrote;
    PumpTxStep(y);
    var left, rooms := |y.b.txOut| - y.b.txOff, y.w.script.dataRoom;
    if left > 0 && Room(rooms) > 0 {
      var n := Min(rooms[0], left);
      WroteAll(y, n);
      PumpTxAmount(Wrote(y, n));
      var end := Min(|y.b.txOut|, y.b.txOff + n + Capacity(rooms[1..]));
      assert y.b.txOut[y.b.txOff..y.b.txOff + n] + y.b.txOut[y.b.txOff + n..end] == y.b.txOut[y.b.txOff..end];
    }
  }

  // The packet of the firmware's request is written as far as `off`.
  predicate Sending(y: Sys, rf: seq<byte>, sn: nat, off: nat) {
    && IsOperational(y) && y.sink.value.txInFlight && y.sink.value.txSeq == sn
    && y.b.txOut == Encode(ToDaemon, TxPacketFrame(rf)) && y.b.txOff == off
    && y.b.pendingEpoch == y.b.txEpoch
    && (if off < |y.b.txOut| then y.b.state.TxWriting? else y.b.state.TxPending?)
  }

  // The daemon has it all and owes the answer.
  predicate OnAir(y: Sys, rf: seq<byte>, sn: nat) {
    Sending(y, rf, sn, |Encode(ToDaemon, TxPacketFrame(rf))|)
  }

  lemma Submits(y: Sys, rf: seq<byte>)
    requires y.b.started && y.b.state.Ready? && 0 < |rf| <= MAX_RF && Sound(y.w.script.dataRoom)
    ensures var (z, ok) := SubmitTx(y, rf);
            var out := Encode(ToDaemon, TxPacketFrame(rf));
            var off := Min(|out|, Capacity(y.w.script.dataRoom));
            && ok && z.b.txOut == out && z.b.txOff == off && z.b.pendingEpoch == z.b.txEpoch
            && (if off < |out| then z.b.state.TxWriting? else z.b.state.TxPending?)
            && Wire(z) == Wire(y) + out[..off] && z.w.setup == y.w.setup && z.sink == y.sink
  {
    hide Encode, PumpTx, CableOf, Capacity, Sound;
    PumpTxAmount(y.(b := StartTx(y.b, rf)));
  }

  lemma RequestAccepted(y: Sys, f: Frame, now: nat)
    requires IsOperational(y) && y.b.started && y.b.state.Ready? && !y.sink.value.txInFlight
    requires f.ty == TX_REQUEST && WellFormed(f) && f.payload != [] && Sound(y.w.script.dataRoom)
    ensures var z, out := HandleFrame(y, f, now), Encode(ToDaemon, TxPacketFrame(f.payload));
            var off := Min(|out|, Capacity(y.w.script.dataRoom));
            && Sending(z, f.payload, f.sn, off) && Wire(z) == Wire(y) + out[..off]
            && z.w.setup == y.w.setup && z.w.script == y.w.script.(dataRoom := z.w.script.dataRoom)
            && z.sink.value == y.sink.value.(txSeq := f.sn, txInFlight := true, txDeadlineAt := now + y.w.setup.to.tx)
  {
    var y1 := Note(y, XrIn(f));
    assert y1.w.trace[..|y1.w.trace| - 1] == y.w.trace;
    assert Wire(y1) == Wire(y);
    hide Encode, SubmitTx, CableOf, Capacity, Sound;
    Submits(y1.(sink := Some(y1.sink.value.(txSeq := f.sn))), f.payload);
  }

  // The write continues where it stopped.
  lemma SendingContinues(y: Sys, rf: seq<byte>, sn: nat, off: nat)
    requires Sending(y, rf, sn, off) && off <= |y.b.txOut| && Sound(y.w.script.dataRoom)
    ensures var z := ResumeTx(y);
            var end := Min(|y.b.txOut|, off + Capacity(y.w.script.dataRoom));
            && Sending(z, rf, sn, end) && Wire(z) == Wire(y) + y.b.txOut[off..end]
            && z.w.setup == y.w.setup && z.sink == y.sink && z.w.script.dataIn == y.w.script.dataIn
  {
    hide Encode, PumpTx, CableOf, Capacity, Sound;
    PumpTxAmount(y);
    assert Wire(y) + [] == Wire(y);
  }

  // The DATA socket takes bytes; nothing else happens.
  function Willing(y: Sys, rooms: seq<int>): Sys {
    y.(w := y.w.(script := SILENT.(dataRoom := rooms)))
  }

  lemma WritePollResumes(y: Sys, held: seq<byte>, now: nat)
    requires y.b.state.TxWriting? || y.b.state.TxPending?
    requires y.w.script.confIn == [] && ResumeTx(y).w.script.dataIn == [] && Live(ResumeTx(y).b)
    ensures Poll(y, held, now) == (ResumeTx(y), held)
  {
    hide ResumeTx;
  }

  lemma SendingPolled(y: Sys, held: seq<byte>, rf: seq<byte>, sn: nat, off: nat, rooms: seq<int>, now: nat)
    requires Sending(y, rf, sn, off) && off <= |y.b.txOut| && Sound(rooms)
    ensures var z := Poll(Willing(y, rooms), held, now).0;
            var end := Min(|y.b.txOut|, off + Capacity(rooms));
            && Sending(z, rf, sn, end) && Wire(z) == Wire(y) + y.b.txOut[off..end]
            && z.w.setup == y.w.setup && z.sink == y.sink
  {
    hide Encode, CableOf, Capacity, Sound, Poll, ResumeTx;
    SendingContinues(Willing(y, rooms), rf, sn, off);
    WritePollResumes(Willing(y, rooms), held, now);
  }

  // Successive polls, the last one last.
  function WritePolls(y: Sys, held: seq<byte>, polls: seq<seq<int>>, now: nat): Sys {
    if polls == [] then y
    else Poll(Willing(WritePolls(y, held, polls[..|polls| - 1], now), polls[|polls| - 1]), held, now).0
  }

  function Total(polls: seq<seq<int>>): nat {
    if polls == [] then 0 else Total(polls[..|polls| - 1]) + Capacity(polls[|polls| - 1])
  }

  predicate AllSound(polls: seq<seq<int>>) {
    forall i :: 0 <= i < |polls| ==> Sound(polls[i])
  }

  lemma {:induction false} SendingResumed(
    y: Sys, held: seq<byte>, rf: seq<byte>, sn: nat, off: nat, polls: seq<seq<int>>, now: nat)
    requires Sending(y, rf, sn, off) && off <= |y.b.txOut| && AllSound(polls)
    ensures var z := WritePolls(y, held, polls, now);
            var end := Min(|y.b.txOut|, off + Total(polls));
            && Sending(z, rf, sn, end) && Wire(z) == Wire(y) + y.b.txOut[off..end]
            && z.w.setup == y.w.setup && z.sink == y.sink
    decreases |polls|
  {
    hide Poll, Willing, Wire, Encode, Capacity, Sound;
    if polls == [] {
      assert Wire(y) + [] == Wire(y);
    } else {
      var k := |polls| - 1;
      SendingResumed(y, held, rf, sn, off, polls[..k], now);
      var y1 := WritePolls(y, held, polls[..k], now);
      var mid := Min(|y.b.txOut|, off + Total(polls[..k]));
      SendingPolled(y1, held, rf, sn, mid, polls[k], now);
      var end := Min(|y.b.txOut|, off + Total(polls));
      assert y.b.txOut[off..mid] + y.b.txOut[mid..end] == y.b.txOut[off..end];
    }
  }

  // A request reaches the daemon through any sequence of partial writes: after the first
  // write and any number of polls the daemon has received exactly as much of the encoded
  // packet as its socket took, and owns it as soon as that is all of it.
  lemma RequestReachesDaemon(y: Sys, held: seq<byte>, f: Frame, polls: seq<seq<int>>, now: nat)
    requires IsOperational(y) && y.b.started && y.b.state.Ready? && !y.sink.value.txInFlight
    requires f.ty == TX_REQUEST && WellFormed(f) && f.payload != []
    requires Sound(y.w.script.dataRoom) && AllSound(polls)
    ensures var z, out := WritePolls(HandleFrame(y, f, now), held, polls, now), Encode(ToDaemon, TxPacketFrame(f.payload));
            var taken := Capacity(y.w.script.dataRoom) + Total(polls);
            && Wire(z) == Wire(y) + out[..Min(|out|, taken)]
            && (if taken >= |out| then OnAir(z, f.payload, f.sn) else z.b.state.TxWriting? && z.b.txOff == taken)
  {
    hide Encode, HandleFrame, WritePolls, Wire, Capacity, Total, Sound;
    var y1, out := HandleFrame(y, f, now), Encode(ToDaemon, TxPacketFrame(f.payload));
    var off := Min(|out|, Capacity(y.w.script.dataRoom));
    RequestAccepted(y, f, now);
    SendingResumed(y1, held, f.payload, f.sn, off, polls, now);
    var end := Min(|out|, off + Total(polls));
    assert out[..off] + out[off..end] == out[..end];
  }

  // A request that cannot be sent closes the session for a backend failure, without a
  // result: an empty one leaves the backend as it was, a failing socket costs the link.
  lemma RequestFails(y: Sys, f: Frame, now: nat)
    requires IsOperational(y) && y.b.started && y.b.state.Ready? && !y.sink.value.txInFlight
    requires f.ty == TX_REQUEST && WellFormed(f)
    requires f.payload == [] || (y.w.script.dataRoom != [] && y.w.script.dataRoom[0] < 0)
    ensures var z := HandleFrame(y, f, now);
            && IsClosed(z) && z.sink.value.closeReason.BackendFailure? && z.sink.value.outbox == y.sink.value.outbox
            && (if f.payload == [] then z.b == y.b && z.w.trace == y.w.trace + [XrIn(f)] + [XrClosed(BackendFailure)]
                else
                  && z.b.state.Disconnected?
                  && z.w.trace == y.w.trace + [XrIn(f)] + [LinkDown] + [XrClosed(BackendFailure)])
  {
    hide Encode;
    EncodedSize(ToDaemon, TxPacketFrame(f.payload));
  }

  // Its answer reaches the firmware, when the queue has room.
  lemma AnswerReachesFirmware(y: Sys, rf: seq<byte>, sn: nat, g: Frame)
    requires OnAir(y, rf, sn) && Answer(g).Some?
    requires |y.sink.value.outbox| + |Encode(Xr, TxResultFrame(sn, Answer(g).value))| <= y.w.setup.maxOutbox
    ensures var z := Dispatch(y, g);
            && z.b == y.b.(state := Ready, txOut := [], txOff := 0) && z.w.setup == y.w.setup
            && z.sink == Some(y.sink.value.(txInFlight := false,
                                            outbox := y.sink.value.outbox + Encode(Xr, TxResultFrame(sn, Answer(g).value))))
            && |z.w.trace| > 0 && z.w.trace[|z.w.trace| - 1] == XrOut(TxResultFrame(sn, Answer(g).value))
  {
    hide Encode, Dispatch, Answer;
    DispatchSettles(y, g);
    SettledShape(y, g);
    SettledSetup(y, g);
  }

  lemma SettledSetup(y: Sys, f: Frame)
    ensures Settled(y, f).w.setup == y.w.setup
  {
    hide Answer;
  }

  // --- a configuration through split replies ---------------------------------

  // What the CONF socket answers in one poll, and when: every read but the last fills
  // the buffer, else the poll would have ended there.
  datatype Burst = Burst(chunks: seq<ConfChunk>, now: nat)

  predicate Proper(b: Burst) {
    forall i :: 0 <= i < |b.chunks| - 1 ==> |b.chunks[i]| == READ_CHUNK
  }

  function Arriving(chunks: seq<ConfChunk>): seq<Recv<ConfChunk>> {
    seq(|chunks|, i requires 0 <= i < |chunks| => Chunk(chunks[i]))
  }

  // The verdict of one poll's reads is that of reassembling its chunks.
  lemma {:induction false} PumpConfReads(y: Sys, burst: Burst)
    requires Proper(burst) && y.w.script.confIn == Arriving(burst.chunks)
    ensures var (z, r) := PumpConf(y, true);
            match FeedChunks(y.b.confLine, burst.chunks, true)
            case Overrun => r == ConfFailed
            case Read(Failed(_)) => r == ConfFailed
            case Read(GotStatus(ready, _)) => r == ConfStatus(ready)
            case Read(Pending(rest)) => r == ConfQuiet && z.b.confLine == rest
    ensures PumpConf(y, true).0.w.script.clientRoom == y.w.script.clientRoom
    decreases |burst.chunks|
  {
    hide Scan;
    var chunks := burst.chunks;
    if chunks != [] {
      assert y.w.script.confIn[1..] == Arriving(chunks[1..]);
      var chunk := chunks[0];
      var r := FeedChunk(y.b.confLine, chunk, true);
      if r.Read? && r.verdict.Pending? {
        var y1 := y.(w := y.w.(script := y.w.script.(confIn := y.w.script.confIn[1..])));
        var y2 := Note(y1, ConfRx(chunk));
        var y3 := y2.(b := y2.b.(confLine := r.verdict.rest));
        if |chunk| == READ_CHUNK {
          assert PumpConf(y, true) == PumpConf(y3, true);
          PumpConfReads(y3, burst.(chunks := chunks[1..]));
        } else {
          assert FeedChunks(r.verdict.rest, chunks[1..], true) == Read(Pending(r.verdict.rest));
        }
      }
    }
  }

  // A session waits for the operation in progress: the commands are written, the queue
  // has room for the answer.
  predicate Awaits(y: Sys) {
    && y.b.state.Configuring? && y.b.confOff == |y.b.confOut|
    && y.sink.Some? && y.sink.value.phase.Settling?
    && y.sink.value.opToken == y.b.configToken && y.sink.value.requested == y.b.pendingCfg
    && |y.sink.value.outbox| + MaxFrame(Xr) <= y.w.setup.maxOutbox
  }

  // The waiting session becomes operational, with an echo of the configuration and
  // nothing else changed.
  ghost predicate Applied(y: Sys, z: Sys) {
    && z.b.state.Ready? && z.b.started == y.b.started && z.b.nextToken == y.b.nextToken && z.w.setup == y.w.setup
    && z.sink.Some? && y.sink.Some?
    && z.sink.value.nextPingAt >= z.w.setup.to.pingInterval
    && z.sink.value == y.sink.value.(
         phase := Operational, armed := false, awaitingPong := false, nextPingAt := z.sink.value.nextPingAt,
         outbox := y.sink.value.outbox + Encode(Xr, ConfigOkFrame(y.b.pendingCfg)))
    && |z.w.trace| > 0 && z.w.trace[|z.w.trace| - 1] == XrOut(ConfigOkFrame(y.b.pendingCfg))
  }

  // It is closed, with a failure.
  predicate TurnedDown(z: Sys) {
    && z.b.state.Disconnected? && IsClosed(z) && z.sink.value.closeReason.ConfigFailed?
    && XrOut(Byte1(CONFIG_RESULT, CFG_UNSUPPORTED)) in z.w.trace
  }

  lemma EncodedSize(k: Codec, f: Frame)
    ensures |Encode(k, f)| == HeaderLen(k) + |f.payload|
  {
  }

  lemma Succeeds(y: Sys, now: nat)
    requires Awaits(y)
    ensures Applied(y, ConfigSucceed(y, now)) && ConfigSucceed(y, now).w.script == y.w.script
  {
    hide PackConfig, Encode;
    EncodedSize(Xr, ConfigOkFrame(y.b.pendingCfg));
  }

  lemma Fails(y: Sys, now: nat)
    requires Awaits(y)
    ensures TurnedDown(ConfigFail(y, now)) && ConfigFail(y, now).w.script == y.w.script
  {
  }

  // What the replies read so far make of a waiting session.
  ghost predicate Decided(y: Sys, r: Reassembly, z: Sys) {
    match r
    case Read(Pending(rest)) =>
      Awaits(z) && z.b == y.b.(awaiting := z.b.awaiting, confLine := rest) && z.sink == y.sink && z.w.setup == y.w.setup
    case Read(GotStatus(ready, _)) => if ready then Applied(y, z) else TurnedDown(z)
    case _ => TurnedDown(z)
  }

  function Heeding(y: Sys, burst: Burst): Sys {
    y.(w := y.w.(script := SILENT.(confIn := Arriving(burst.chunks))))
  }

  lemma BurstDecides(y: Sys, held: seq<byte>, burst: Burst)
    requires Awaits(y) && Proper(burst) && burst.now < y.b.configDeadline
    ensures Decided(y, FeedChunks(y.b.confLine, burst.chunks, true), Poll(Heeding(y, burst), held, burst.now).0)
    ensures Poll(Heeding(y, burst), held, burst.now).0.w.script.clientRoom == []
  {
    hide FeedChunks, PumpConf, ConfigSucceed, ConfigFail, Arriving;
    var y1 := Heeding(y, burst);
    var y2 := y1.(b := y1.b.(awaiting := true));
    assert Poll(y1, held, burst.now).0 == ReadStatus(y2, burst.now);
    PumpConfReads(y2, burst);
    var z := PumpConf(y2, true).0;
    Succeeds(z, burst.now);
    Fails(z, burst.now);
  }

  // Successive polls, as long as the operation lasts.
  function Replies(y: Sys, held: seq<byte>, bursts: seq<Burst>): Sys
    decreases |bursts|
  {
    if bursts == [] || !y.b.state.Configuring? then y
    else Replies(Poll(Heeding(y, bursts[0]), held, bursts[0].now).0, held, bursts[1..])
  }

  function AllChunks(bursts: seq<Burst>): seq<string> {
    if bursts == [] then [] else bursts[0].chunks + AllChunks(bursts[1..])
  }

  predicate Timely(bursts: seq<Burst>, deadline: nat) {
    forall i :: 0 <= i < |bursts| ==> Proper(bursts[i]) && bursts[i].now < deadline
  }

  // The replies decide, however they are split into reads and polls: nothing changes
  // while no STATUS line is complete; a ready one makes the session operational with an
  // echo of the configuration; any other, an error or an overlong line end the link and
  // the session with a failure.
  lemma {:induction false} StatusDecides(y: Sys, held: seq<byte>, bursts: seq<Burst>)
    requires Awaits(y) && Timely(bursts, y.b.configDeadline)
    ensures Decided(y, FeedChunks(y.b.confLine, AllChunks(bursts), true), Replies(y, held, bursts))
    decreases |bursts|
  {
    hide FeedChunks, Poll, Heeding, Proper;
    if bursts == [] {
      FeedAppend(y.b.confLine, [], [], true);
    } else {
      BurstDecides(y, held, bursts[0]);
      FeedAppend(y.b.confLine, bursts[0].chunks, AllChunks(bursts[1..]), true);
      var z := Poll(Heeding(y, bursts[0]), held, bursts[0].now).0;
      if FeedChunks(y.b.confLine, bursts[0].chunks, true).Read? && z.b.state.Configuring? {
        StatusDecides(z, held, bursts[1..]);
      }
    }
  }

  lemma {:induction false} AllReadSizes(bursts: seq<Burst>)
    ensures ReadSizes(AllChunks(bursts))
    decreases |bursts|
  {
    if bursts != [] {
      AllReadSizes(bursts[1..]);
    }
  }

  // So a reply text that fits has one outcome, the scanner's verdict on the whole of it.
  lemma TextDecides(y: Sys, held: seq<byte>, bursts: seq<Burst>)
    requires Awaits(y) && Timely(bursts, y.b.configDeadline) && y.b.confLine == ""
    requires Fits(Joined(AllChunks(bursts)), true)
    ensures Decided(y, Read(Scan(Joined(AllChunks(bursts)), true)), Replies(y, held, bursts))
  {
    hide Scan, Fits, FeedChunks, Joined, AllChunks, Replies, Awaits, Applied, TurnedDown;
    AllReadSizes(bursts);
    StatusDecides(y, held, bursts);
    ChunkingIrrelevant(Joined(AllChunks(bursts)), AllChunks(bursts), true);
  }
}
