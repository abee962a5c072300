// What the backend's own steps leave alone in the session.
module Passive {
  import opened Bytes
  import opened Frames
  import opened Messages
  import opened World
  import opened Model

  // Not operational yet and not closed.
  predicate IsOpening(s: Session) {
    !s.phase.Operational? && !s.phase.Closed?
  }

  // The timers of an operational session.
  predicate SameTimers(s: Session, z: Session) {
    && (z.txInFlight ==> s.txInFlight && z.txDeadlineAt == s.txDeadlineAt)
    && z.awaitingPong == s.awaitingPong && z.pongDeadlineAt == s.pongDeadlineAt && z.nextPingAt == s.nextPingAt
  }

  // The session became operational, with its first PING due at `ping`.
  predicate Starts(ping: nat, s: Session, z: Session) {
    IsOpening(s) && (z.txInFlight ==> s.txInFlight) && !z.awaitingPong && z.nextPingAt == ping
  }

  // A step of the backend: it keeps the session attached, leaves a handshake that it
  // does not end as it is, leaves the timers of an operational session alone, and
  // never reopens a closed session.
  predicate Spares(ping: nat, y: Sys, z: Sys) {
    && (z.sink.Some? <==> y.sink.Some?) && (IsClosed(y) ==> IsClosed(z))
    && (z.sink.Some? ==>
          var s, t := y.sink.value, z.sink.value;
          && (IsOpening(t) ==>
                && t.phase == s.phase && t.deadlineAt == s.deadlineAt && t.deadlineReason == s.deadlineReason
                && (t.txInFlight ==> s.txInFlight))
          && (t.phase.Operational? ==> (s.phase.Operational? && SameTimers(s, t)) || Starts(ping, s, t)))
  }

  lemma DispatchPassive(ping: nat, y: Sys, f: Frame)
    ensures Spares(ping, y, Dispatch(y, f))
  {
    hide Encode, DecodeRx, DecodeTxResult, MapTxStatus, XrRxFrame, TxResultFrame;
  }

  lemma DisconnectPassive(ping: nat, y: Sys)
    ensures Spares(ping, y, HandleDisconnect(y))
  {
  }

  lemma {:induction false} DigestPassive(ping: nat, y: Sys, stream: seq<byte>, draining: bool)
    ensures Spares(ping, y, Digest(y, stream, draining).0)
    decreases |stream|
  {
    hide Dispatch, HandleDisconnect;
    DisconnectPassive(ping, y);
    var r := PopFrame(FromDaemon, stream);
    if r.Got? {
      DispatchPassive(ping, y, r.frame);
      DigestPassive(ping, Dispatch(y, r.frame), r.rest, draining);
    }
  }

  lemma {:induction false} ReadPassive(ping: nat, y: Sys, held: seq<byte>, draining: bool)
    ensures Spares(ping, y, ReadData(y, held, draining).0)
    decreases |y.w.script.dataIn|
  {
    hide Digest, HandleDisconnect;
    var input := y.w.script.dataIn;
    if input != [] {
      var y1 := y.(w := y.w.(script := y.w.script.(dataIn := input[1..])));
      DisconnectPassive(ping, y1);
      if input[0].Chunk? {
        var y2 := Note(y1, DataRx(input[0].bytes));
        DigestPassive(ping, y2, held + input[0].bytes, draining);
        var (y3, h) := Digest(y2, held + input[0].bytes, draining);
        ReadPassive(ping, y3, h, draining);
      }
    }
  }

  lemma ResumePassive(ping: nat, y: Sys)
    ensures Spares(ping, y, ResumeTx(y))
  {
    hide PumpTx;
  }

  function FirstPing(y: Sys, now: nat): nat {
    now + y.w.setup.to.pingInterval
  }

  lemma FinishConfigPassive(y: Sys, now: nat)
    ensures Spares(FirstPing(y, now), y, ConfigFail(y, now)) && Spares(FirstPing(y, now), y, ConfigSucceed(y, now))
  {
    hide Encode, PackConfig;
  }

  lemma ConfigurePassive(y: Sys, now: nat)
    ensures Spares(FirstPing(y, now), y, AdvanceConfigure(y, now))
  {
    hide PumpConfOut, PumpConf, ConfigFail, ConfigSucceed;
    var y1 := PumpConfOut(y).0;
    FinishConfigPassive(y1, now);
    var y2 := y1.(b := y1.b.(awaiting := true));
    FinishConfigPassive(PumpConf(y1, true).0, now);
    FinishConfigPassive(PumpConf(y2, true).0, now);
  }

  lemma ConnectPassive(y: Sys, now: nat)
    ensures Spares(FirstPing(y, now), y, AdvanceConnect(y, now))
  {
    hide AdvanceConfigure, ConfigFail;
    var y1 := y.(w := y.w.(script := y.w.script.(connects := Tail(y.w.script.connects))));
    FinishConfigPassive(y1, now);
    ConfigurePassive(y1.(b := y1.b.(state := Configuring)), now);
  }

  lemma PollPassive(y: Sys, held: seq<byte>, now: nat)
    ensures Spares(FirstPing(y, now), y, Poll(y, held, now).0)
  {
    hide AdvanceConnect, AdvanceConfigure, ConfigFail, ReadData, PumpConf, ResumeTx, HandleDisconnect, DrainConf;
    var ping := FirstPing(y, now);
    match y.b.state
    case Connecting => ConnectPassive(y, now); FinishConfigPassive(y, now);
    case Configuring => ConfigurePassive(y, now); FinishConfigPassive(y, now);
    case Draining => ReadPassive(ping, DrainConf(y), held, true);
    case Disconnected =>
    case Faulted =>
    case _ =>
      var y1 := PumpConf(y, false).0;
      DisconnectPassive(ping, y1);
      ResumePassive(ping, y1);
      ReadPassive(ping, ResumeTx(y1), held, false);
  }
}
