// Configuration: a configure succeeds only after all its commands were written
// once and in order and the daemon's replies were acceptable up to a ready STATUS.
module Settlement {
  import opened Bytes
  import opened Frames
  import opened Messages
  import opened ConfText
  import opened Radio
  import opened World
  import opened Protocol
  import opened Monitors
  import opened Model
  import opened Joint
  import opened Growth

  // The observer's desk during a configure.
  predicate Underway(d: Desk, b: Backend) {
    && d.cfg == Some(b.pendingCfg) && d.token == Some(b.configToken)
    && WholeScript(b.pendingCfg, b.confOut)
    && b.confOff <= |b.confOut| && d.tx == b.confOut[..b.confOff]
    && (if b.awaiting then b.confOff == |b.confOut| && Scan(d.rx, true) == Pending(b.confLine)
        else d.rx == "" && b.confLine == "")
  }

  predicate Asks(y: Sys) {
    var d := Ask(y.w.trace);
    !d.bad && (Applying(y.b) ==> Underway(d, y.b))
  }

  // The fields a configure works on.
  predicate SameJob(b: Backend, c: Backend) {
    && c.pendingCfg == b.pendingCfg && c.configToken == b.configToken
    && c.confOut == b.confOut && c.confOff == b.confOff
    && c.awaiting == b.awaiting && c.confLine == b.confLine
  }

  lemma SameAsks(y: Sys, z: Sys)
    requires Asks(y) && Ask(z.w.trace) == Ask(y.w.trace)
    requires Applying(z.b) ==> Applying(y.b) && SameJob(y.b, z.b)
    ensures Asks(z)
  {
    hide Ask, Scan, WholeScript;
  }

  lemma KeepAsks(y: Sys, z: Sys)
    requires Asks(y) && Grew(y, z) && (Applying(z.b) ==> Applying(y.b) && SameJob(y.b, z.b))
    ensures Asks(z)
  {
    GrewAsk(y, z);
    SameAsks(y, z);
  }

  lemma HeardAsks(y: Sys, e: Event)
    requires Asks(y) && (e.XrIn? || e.Heard? || e.LogRx? || e.DataRx? || e.ConnOpen? || e.ConnDrop?)
    ensures Asks(Note(y, e))
  {
    AskLog();
    hide Ask, Scan, WholeScript, DecodeConfig;
  }

  // --- beginning -------------------------------------------------------------

  lemma BeginAsks(y: Sys, c: RadioConfig, now: nat)
    requires Asks(y) && Ask(y.w.trace).asked == Some(c) && !Applying(y.b)
    ensures Asks(BeginConfigure(y, c, now).0)
  {
    AskLog();
    LimitsExact(c);
    hide Ask, Scan, SetCommand, WithinLimits, Covers;
    if MayConfigure(y.b) && Validate(c) == Ok && SetCommand(c).Some? {
      BandExact(c.freqHz, SelectBand(c.freqHz).value);
      assert WholeScript(c, Commands(c));
      hide WholeScript, Commands;
      assert Commands(c)[..0] == "";
    }
  }

  lemma RejectAsks(y: Sys, f: Frame, r: CloseReason)
    requires Asks(y) && y.sink.Some? && Is(Minor, XrOut(f))
    ensures Asks(Reject(y, f, r))
  {
    hide Asks, Emit, CloseSession, Grew;
    RejectGrew(y, f, r);
    KeepAsks(y, Reject(y, f, r));
  }

  lemma ConfigureAsked(y: Sys, f: Frame)
    requires f.ty == CONFIGURE
    ensures Ask(Note(y, XrIn(f)).w.trace).asked == DecodeConfig(f)
  {
    AskLog();
    hide Ask, DecodeConfig;
  }

  lemma RequestAsks(y: Sys, f: Frame, now: nat)
    requires Inv(y) && Asks(y) && y.sink.Some? && y.sink.value.phase.WaitConfigure? && f.ty == CONFIGURE
    ensures Asks(HandleConfigure(Note(y, XrIn(f)), f, now))
  {
    var y1 := Note(y, XrIn(f));
    var c := DecodeConfig(f);
    HeardAsks(y, XrIn(f));
    hide Ask, BackendOk, Reject, Grew, BeginConfigure, DecodeConfig, Underway;
    ConfigureAsked(y, f);
    if c.None? {
      RejectAsks(y1, Byte1(CONFIG_RESULT, CFG_INVALID), ConfigFailed);
    } else {
      BeginAsks(y1, c.value, now);
      var (y2, token) := BeginConfigure(y1, c.value, now);
      BeginSink(y1, c.value, now);
      if token == 0 {
        RejectAsks(y2, Byte1(CONFIG_RESULT, CFG_UNSUPPORTED), ConfigFailed);
      } else {
        SameAsks(y2, HandleConfigure(y1, f, now));
      }
    }
  }

  lemma BeginSink(y: Sys, c: RadioConfig, now: nat)
    ensures BeginConfigure(y, c, now).0.sink == y.sink
  {
    hide Commands, SetCommand;
  }

  // --- writing the commands --------------------------------------------------

  lemma {:induction false} PumpOutAsks(y: Sys)
    requires Asks(y) && Applying(y.b) && !y.b.awaiting
    ensures Asks(PumpConfOut(y).0)
    decreases |y.b.confOut| - y.b.confOff
  {
    var left := |y.b.confOut| - y.b.confOff;
    var room := Room(y.w.script.confRoom);
    var y1 := y.(w := y.w.(script := y.w.script.(confRoom := Tail(y.w.script.confRoom))));
    hide Asks;
    SameAsks(y, y1);
    if left > 0 && room > 0 {
      var n := Min(room, left);
      var y2 := Note(y1.(b := y1.b.(confOff := y.b.confOff + n)), ConfTx(y.b.confOut[y.b.confOff..y.b.confOff + n]));
      WroteAsks(y1, n);
      PumpOutAsks(y2);
    }
  }

  lemma WroteAsks(y: Sys, n: nat)
    requires Asks(y) && Applying(y.b) && !y.b.awaiting && y.b.confOff + n <= |y.b.confOut|
    ensures Asks(Note(y.(b := y.b.(confOff := y.b.confOff + n)), ConfTx(y.b.confOut[y.b.confOff..y.b.confOff + n])))
  {
    AskLog();
    hide Ask, Scan, WholeScript;
    var o, k := y.b.confOut, y.b.confOff;
    assert o[..k] + o[k..k + n] == o[..k + n];
  }

  // --- reading the replies ---------------------------------------------------

  // The verdict so far, however the replies were cut into reads.
  predicate Replied(d: Desk, b: Backend, v: Verdict) {
    && d.cfg == Some(b.pendingCfg) && d.token == Some(b.configToken) && !d.bad
    && WholeScript(b.pendingCfg, d.tx) && Scan(d.rx, true) == v
  }

  lemma ReadAsks(y: Sys, chunk: string)
    requires Replied(Ask(y.w.trace), y.b, Pending(y.b.confLine))
    ensures Replied(Ask(Note(y, ConfRx(chunk)).w.trace), y.b, Scan(y.b.confLine + chunk, true))
  {
    AskLog();
    hide Ask, WholeScript;
    ScanAppend(Ask(y.w.trace).rx, chunk, true);
    hide Scan;
  }

  lemma {:induction false} PumpConfAsks(y: Sys)
    requires Replied(Ask(y.w.trace), y.b, Pending(y.b.confLine))
    ensures var (z, r) := PumpConf(y, true);
            var d := Ask(z.w.trace);
            && (r.ConfQuiet? ==> Replied(d, y.b, Pending(z.b.confLine)))
            && (r.ConfStatus? ==> Replied(d, y.b, GotStatus(r.ready, z.b.confLine)))
            && d.token == Some(y.b.configToken) && !d.bad
    decreases |y.w.script.confIn|
  {
    hide Ask, Scan, WholeScript;
    var input := y.w.script.confIn;
    if input != [] && input[0].Chunk? {
      var chunk := input[0].bytes;
      var y1 := y.(w := y.w.(script := y.w.script.(confIn := input[1..])));
      ReadAsks(y1, chunk);
      var r := FeedChunk(y.b.confLine, chunk, true);
      if r.Read? && r.verdict.Pending? {
        PumpConfAsks(Note(y1, ConfRx(chunk)).(b := y.b.(confLine := r.verdict.rest)));
      }
    }
  }

  // --- completion ------------------------------------------------------------

  // A completion is reported once, and as applied only if it was earned.
  lemma CompleteAsks(y: Sys, token: nat, effective: Option<RadioConfig>, now: nat)
    requires y.sink.Some? && !Applying(y.b)
    requires var d := Ask(y.w.trace);
             && !d.bad && d.token == Some(token)
             && (effective.Some? ==> d.cfg == effective && WholeScript(effective.value, d.tx) &&
                                     Scan(d.rx, true).GotStatus? && Scan(d.rx, true).ready)
    ensures Asks(OnConfigureComplete(y, token, effective, now))
  {
    AskLog();
    var y1 := Note(y, CfgDone(token, effective.Some?));
    var s := y.sink.value;
    hide Ask, Scan, WholeScript, PackConfig, Encode;
    assert Asks(y1) && (effective.Some? ==> Ask(y1.w.trace).applied == effective);
    if s.phase.Settling? && token == s.opToken {
      if effective != Some(s.requested) {
        RejectGrew(y1, Byte1(CONFIG_RESULT, CFG_UNSUPPORTED), ConfigFailed);
        KeepAsks(y1, Reject(y1, Byte1(CONFIG_RESULT, CFG_UNSUPPORTED), ConfigFailed));
      } else {
        EchoAsks(y1, effective.value);
      }
    }
  }

  // The echo is the configuration that was applied.
  lemma EchoAsks(y: Sys, c: RadioConfig)
    requires y.sink.Some? && Asks(y) && !Applying(y.b) && Ask(y.w.trace).applied == Some(c)
    ensures Asks(Emit(y, ConfigOkFrame(c)).0)
  {
    AskLog();
    hide Ask, Scan, WholeScript, PackConfig, Encode;
  }

  lemma FailAsks(y: Sys, now: nat)
    requires !Ask(y.w.trace).bad && Ask(y.w.trace).token == Some(y.b.configToken)
    ensures Asks(ConfigFail(y, now))
  {
    AskLog();
    var z := ResetLink(y);
    hide Ask, Scan, WholeScript, OnConfigureComplete;
    assert Ask(z.w.trace) == Ask(y.w.trace);
    if z.sink.Some? {
      CompleteAsks(z, z.b.configToken, None, now);
    }
  }

  lemma SucceedAsks(y: Sys, now: nat)
    requires exists rest :: Replied(Ask(y.w.trace), y.b, GotStatus(true, rest))
    ensures Asks(ConfigSucceed(y, now))
  {
    var b := y.b.(state := Ready, txEpoch := NextU32(y.b.txEpoch), confOut := "", confOff := 0, awaiting := false);
    hide Ask, Scan, WholeScript, OnConfigureComplete;
    if y.sink.Some? {
      CompleteAsks(y.(b := b), b.configToken, Some(b.pendingCfg), now);
    }
  }

  lemma ReadStatusAsks(y: Sys, now: nat)
    requires Replied(Ask(y.w.trace), y.b, Pending(y.b.confLine)) && y.b.awaiting && y.b.confOff == |y.b.confOut|
    requires Underway(Ask(y.w.trace), y.b)
    ensures Asks(ReadStatus(y, now))
  {
    PumpConfAsks(y);
    var (z, r) := PumpConf(y, true);
    hide Ask, Scan, WholeScript, PumpConf, ConfigFail, ConfigSucceed;
    match r
    case ConfFailed => FailAsks(z, now);
    case ConfStatus(ready) => if ready { SucceedAsks(z, now); } else { FailAsks(z, now); }
    case ConfQuiet =>
  }
}
