// Configuration over every run: a success is always earned, a configure completes
// at most once, and always in time.
module ConfigLaws {
  import opened Bytes
  import opened Frames
  import opened Messages
  import opened ConfText
  import opened Radio
  import opened World
  import opened Monitors
  import opened Model
  import opened Joint
  import opened Growth
  import opened Ownership
  import opened Invariance
  import opened Past
  import opened TxSafety

  lemma AskAt(tr: seq<Event>, k: nat)
    requires k < |tr|
    ensures Ask(tr[..k + 1]) == DeskStep(Ask(tr[..k]), tr[k])
  {
    hide DeskStep;
    assert tr[..k + 1][..k] == tr[..k];
  }

  lemma QuietDesk(m: Desk, e: Event)
    requires !DeskStep(m, e).bad
    ensures !m.bad
    ensures e.CfgDone? ==> m.token == Some(e.token) && (e.applied ==> Earned(m))
    ensures e.CfgBegin? ==> m.asked == Some(e.cfg) && Suits(m.band, e.cfg)
    ensures IsSuccess(e) ==> m.applied.Some? && e.frame == ConfigOkFrame(m.applied.value)
  {
    hide WholeScript, Scan, DecodeConfig;
  }

  lemma {:induction false} AskSticky(tr: seq<Event>, k: nat)
    requires k <= |tr| && !Ask(tr).bad
    ensures !Ask(tr[..k]).bad
    decreases |tr| - k
  {
    if k < |tr| {
      hide Ask, DeskStep;
      AskSticky(tr, k + 1);
      AskAt(tr, k);
      QuietDesk(Ask(tr[..k]), tr[k]);
    } else {
      assert tr[..k] == tr;
    }
  }

  lemma RunAsks(setup: Setup, turns: seq<Turn>)
    ensures !Ask(TraceOf(setup, turns)).bad
  {
    RunGood(setup, turns);
    hide Run, Inv, Owns, Ask;
  }

  // --- a success is earned ---------------------------------------------------

  // A CONFIG_RESULT success.
  predicate IsSuccess(e: Event) {
    e.XrOut? && IsConfigOk(e.frame)
  }

  // On this link the five commands were written, once each and in order, and the
  // replies were skippable lines up to a STATUS line that says RADIO=READY.
  predicate Earned(m: Desk) {
    && m.cfg.Some? && WholeScript(m.cfg.value, m.tx)
    && Scan(m.rx, true).GotStatus? && Scan(m.rx, true).ready
  }

  // Events that begin or end a configure, or the link it runs on.
  predicate Interferes(e: Event) {
    e.LinkUp? || e.CfgBegin? || e.CfgDone?
  }

  // The last CONFIGURE frame was read at a and asked for c.
  predicate AskedAt(tr: seq<Event>, a: nat, c: RadioConfig) {
    && a < |tr| && tr[a].XrIn? && tr[a].frame.ty == CONFIGURE && DecodeConfig(tr[a].frame) == Some(c)
    && forall x :: a < x < |tr| ==> !(tr[x].XrIn? && tr[x].frame.ty == CONFIGURE)
  }

  // The operation in progress began at b.
  predicate BegunAt(tr: seq<Event>, b: nat, token: nat, c: RadioConfig) {
    && b < |tr| && tr[b] == CfgBegin(token, c) && Ask(tr[..b]).asked == Some(c)
    && forall x :: b < x < |tr| ==> !Interferes(tr[x])
  }

  // The last operation succeeded at d and its success has not been reported yet.
  predicate DoneAt(tr: seq<Event>, d: nat, c: RadioConfig) {
    && d < |tr| && tr[d].CfgDone? && tr[d].applied
    && Ask(tr[..d]).token == Some(tr[d].token) && Ask(tr[..d]).cfg == Some(c) && Earned(Ask(tr[..d]))
    && forall x :: d < x < |tr| ==> !Interferes(tr[x]) && !IsSuccess(tr[x])
  }

  // What the desk remembers really happened.
  ghost predicate Recalls(tr: seq<Event>) {
    var m := Ask(tr);
    && (m.asked.Some? ==> exists a: nat :: AskedAt(tr, a, m.asked.value))
    && (m.token.Some? ==> m.cfg.Some? && exists b: nat :: BegunAt(tr, b, m.token.value, m.cfg.value))
    && (m.applied.Some? ==> exists d: nat :: DoneAt(tr, d, m.applied.value))
  }

  lemma AskedLater(past: seq<Event>, e: Event, m: Desk, k: Desk)
    requires m.asked.Some? ==> exists a: nat :: AskedAt(past, a, m.asked.value)
    requires k == DeskStep(m, e) && k.asked.Some?
    ensures exists a: nat :: AskedAt(past + [e], a, k.asked.value)
  {
    hide WholeScript, Scan, DecodeConfig;
    if e.XrIn? && e.frame.ty == CONFIGURE {
      assert AskedAt(past + [e], |past|, k.asked.value);
    } else {
      var a: nat :| AskedAt(past, a, m.asked.value);
      assert AskedAt(past + [e], a, k.asked.value);
    }
  }

  lemma BegunLater(past: seq<Event>, e: Event, m: Desk, k: Desk)
    requires m == Ask(past) && k == DeskStep(m, e) && !k.bad && k.token.Some?
    requires m.token.Some? ==> m.cfg.Some? && exists b: nat :: BegunAt(past, b, m.token.value, m.cfg.value)
    ensures k.cfg.Some? && exists b: nat :: BegunAt(past + [e], b, k.token.value, k.cfg.value)
  {
    var tr := past + [e];
    hide Ask, Earned, WholeScript, Scan, DecodeConfig;
    if e.CfgBegin? {
      assert tr[..|past|] == past;
      assert BegunAt(tr, |past|, k.token.value, k.cfg.value);
    } else {
      var b: nat :| BegunAt(past, b, m.token.value, m.cfg.value);
      assert tr[..b] == past[..b];
      assert BegunAt(tr, b, k.token.value, k.cfg.value);
    }
  }

  lemma DoneLater(past: seq<Event>, e: Event, m: Desk, k: Desk)
    requires m == Ask(past) && k == DeskStep(m, e) && !k.bad && k.applied.Some?
    requires m.applied.Some? ==> exists d: nat :: DoneAt(past, d, m.applied.value)
    ensures exists d: nat :: DoneAt(past + [e], d, k.applied.value)
  {
    var tr := past + [e];
    hide Ask, WholeScript, Scan, DecodeConfig;
    if e.CfgDone? {
      assert tr[..|past|] == past;
      assert DoneAt(tr, |past|, k.applied.value);
    } else {
      var d: nat :| DoneAt(past, d, m.applied.value);
      assert tr[..d] == past[..d];
      assert DoneAt(tr, d, k.applied.value);
    }
  }

  lemma RecallStep(past: seq<Event>, e: Event)
    requires Recalls(past) && !DeskStep(Ask(past), e).bad && Ask(past + [e]) == DeskStep(Ask(past), e)
    ensures Recalls(past + [e])
  {
    var m := Ask(past);
    var k := DeskStep(m, e);
    hide Ask, DeskStep, AskedAt, BegunAt, DoneAt;
    if k.asked.Some? { AskedLater(past, e, m, k); }
    if k.token.Some? { BegunLater(past, e, m, k); }
    if k.applied.Some? { DoneLater(past, e, m, k); }
  }

  lemma StartRecalls()
    ensures Recalls([])
  {
  }

  lemma {:induction false} DeskHistory(tr: seq<Event>)
    requires !Ask(tr).bad
    ensures Recalls(tr)
    decreases |tr|
  {
    hide Ask, DeskStep, Recalls;
    if tr == [] {
      StartRecalls();
    } else {
      var k := |tr| - 1;
      AskSticky(tr, k);
      AskAt(tr, k);
      DeskHistory(tr[..k]);
      assert tr[..k] + [tr[k]] == tr && tr[..k + 1] == tr;
      RecallStep(tr[..k], tr[k]);
    }
  }

  // The history at k of a trace without alarms.
  lemma DeskUpTo(tr: seq<Event>, k: nat)
    requires k < |tr| && !Ask(tr).bad
    ensures Recalls(tr[..k]) && !DeskStep(Ask(tr[..k]), tr[k]).bad
  {
    hide Ask, DeskStep, Recalls;
    AskSticky(tr, k + 1);
    AskSticky(tr, k);
    AskAt(tr, k);
    DeskHistory(tr[..k]);
  }

  // The success queued at k reports the operation begun at b and done at d, which
  // was asked for by the CONFIGURE frame read at a.
  predicate Vouches(tr: seq<Event>, k: nat, a: nat, b: nat, d: nat, token: nat, c: RadioConfig) {
    && a < b < d < k < |tr|
    && AskedAt(tr[..b], a, c) && BegunAt(tr[..d], b, token, c) && DoneAt(tr[..k], d, c)
    && tr[d] == CfgDone(token, true) && tr[k] == XrOut(ConfigOkFrame(c))
  }

  // Every CONFIG_RESULT success, in every run, echoes a configuration the firmware
  // asked for and whose commands and replies on the CONF link earned it.
  lemma ConfigSound(setup: Setup, turns: seq<Turn>, k: nat)
    requires k < |TraceOf(setup, turns)| && IsSuccess(TraceOf(setup, turns)[k])
    ensures exists a: nat, b: nat, d: nat, token: nat, c :: Vouches(TraceOf(setup, turns), k, a, b, d, token, c)
  {
    hide Run, Ask, Vouches;
    RunAsks(setup, turns);
    SuccessEarned(TraceOf(setup, turns), k);
  }

  // Where the operation completed at j began.
  lemma Began(tr: seq<Event>, j: nat) returns (b: nat, c: RadioConfig)
    requires j < |tr| && tr[j].CfgDone? && !Ask(tr).bad
    ensures b < j && BegunAt(tr[..j], b, tr[j].token, c) && Ask(tr[..j]).cfg == Some(c)
  {
    hide Ask, DeskStep, Interferes, Earned;
    DeskUpTo(tr, j);
    QuietDesk(Ask(tr[..j]), tr[j]);
    c := Ask(tr[..j]).cfg.value;
    b :| BegunAt(tr[..j], b, tr[j].token, c);
  }

  // Where the operation begun at b was asked for.
  lemma WasAsked(tr: seq<Event>, b: nat) returns (a: nat)
    requires b < |tr| && tr[b].CfgBegin? && !Ask(tr).bad
    ensures a < b && AskedAt(tr[..b], a, tr[b].cfg)
  {
    hide Ask, DeskStep, Earned, DecodeConfig;
    DeskUpTo(tr, b);
    QuietDesk(Ask(tr[..b]), tr[b]);
    a :| AskedAt(tr[..b], a, tr[b].cfg);
  }

  // Where the success reported at k was earned.
  lemma WasDone(tr: seq<Event>, k: nat) returns (d: nat, c: RadioConfig)
    requires k < |tr| && IsSuccess(tr[k]) && !Ask(tr).bad
    ensures d < k && DoneAt(tr[..k], d, c) && tr[d].CfgDone? && tr[d].applied
    ensures tr[k].frame == ConfigOkFrame(c) && Ask(tr[..d]).cfg == Some(c)
  {
    hide Ask, DeskStep, Earned, Interferes, DecodeConfig;
    DeskUpTo(tr, k);
    QuietDesk(Ask(tr[..k]), tr[k]);
    c := Ask(tr[..k]).applied.value;
    d :| DoneAt(tr[..k], d, c);
    assert tr[..k][..d] == tr[..d];
  }

  lemma SuccessEarned(tr: seq<Event>, k: nat)
    requires k < |tr| && IsSuccess(tr[k]) && !Ask(tr).bad
    ensures exists a: nat, b: nat, d: nat, token: nat, c :: Vouches(tr, k, a, b, d, token, c)
  {
    hide Ask, AskedAt, DoneAt, IsConfigOk, Interferes;
    var d, c := WasDone(tr, k);
    var b, c' := Began(tr, d);
    var a := WasAsked(tr, b);
    assert tr[..d][b] == tr[b];
    assert Vouches(tr, k, a, b, d, tr[d].token, c);
  }

  // --- no packet before it ---------------------------------------------------

  // The success at d was earned, and the link has been the same one since.
  predicate FitFrom(tr: seq<Event>, d: nat) {
    && d < |tr| && tr[d].CfgDone? && tr[d].applied && Earned(Ask(tr[..d]))
    && forall x :: d < x < |tr| ==> !tr[x].LinkUp? && !tr[x].LinkDown?
  }

  lemma FitStep(m: Ledger, e: Event)
    requires LedgerStep(m, e).link.Fit?
    ensures (e.CfgDone? && e.applied) || (m.link.Fit? && !e.LinkUp? && !e.LinkDown?)
  {
    hide Parse;
  }

  // A success that completes an operation was earned.
  lemma SuccessAt(tr: seq<Event>, k: nat)
    requires k < |tr| && tr[k].CfgDone? && tr[k].applied && !Ask(tr).bad
    ensures Earned(Ask(tr[..k]))
  {
    hide Ask, DeskStep, Earned, Recalls;
    DeskUpTo(tr, k);
    QuietDesk(Ask(tr[..k]), tr[k]);
  }

  lemma {:induction false} FitSince(tr: seq<Event>)
    requires !Ask(tr).bad && Books(tr).link.Fit?
    ensures exists d: nat :: FitFrom(tr, d)
    decreases |tr|
  {
    hide LedgerStep, Ask, Earned;
    if tr != [] {
      var k := |tr| - 1;
      var past := tr[..k];
      FitStep(Books(past), tr[k]);
      if tr[k].CfgDone? && tr[k].applied {
        SuccessAt(tr, k);
        assert FitFrom(tr, k);
      } else {
        AskSticky(tr, k);
        FitSince(past);
        var d: nat :| FitFrom(past, d);
        assert past[..d] == tr[..d];
        assert FitFrom(tr, d);
      }
    }
  }

  // The backend can transmit, and the daemon gets a packet, only on a link whose
  // configuration was earned and is still in force.
  lemma ReadyEarned(setup: Setup, turns: seq<Turn>)
    requires Live(Run(setup, turns).y.b)
    ensures exists d: nat :: FitFrom(TraceOf(setup, turns), d)
  {
    hide Run, Books, Ask, Inv, Serves, Payloads, Select, Earned;
    RunOwns(setup, turns);
    RunAsks(setup, turns);
    FitSince(TraceOf(setup, turns));
  }

  lemma PacketsEarned(setup: Setup, turns: seq<Turn>, k: nat)
    requires k < |TraceOf(setup, turns)| && TraceOf(setup, turns)[k].DataTx?
    ensures exists d: nat :: FitFrom(TraceOf(setup, turns)[..k], d)
  {
    var tr := TraceOf(setup, turns);
    hide Run, Books, Ask, Earned, LedgerStep;
    WireClosed(setup, turns, k);
    RunAsks(setup, turns);
    AskSticky(tr, k);
    FitSince(tr[..k]);
  }

  // Every completion reported as applied was earned, with or without a session that
  // still listens.
  lemma AppliedEarned(setup: Setup, turns: seq<Turn>, k: nat)
    requires k < |TraceOf(setup, turns)| && TraceOf(setup, turns)[k].CfgDone? && TraceOf(setup, turns)[k].applied
    ensures Earned(Ask(TraceOf(setup, turns)[..k]))
  {
    hide Run, Ask, Earned;
    RunAsks(setup, turns);
    SuccessAt(TraceOf(setup, turns), k);
  }

  // --- at most one completion ------------------------------------------------

  // Between two completions there is a beginning, with the token of the second: no
  // operation completes twice, and none completes that did not begin.
  lemma CompletesOnce(setup: Setup, turns: seq<Turn>, i: nat, j: nat)
    requires i < j < |TraceOf(setup, turns)|
    requires TraceOf(setup, turns)[i].CfgDone? && TraceOf(setup, turns)[j].CfgDone?
    ensures var tr := TraceOf(setup, turns);
            exists b: nat, c :: i < b < j && tr[b] == CfgBegin(tr[j].token, c)
  {
    hide Run, Ask;
    RunAsks(setup, turns);
    BegunBetween(TraceOf(setup, turns), i, j);
  }

  lemma BegunBetween(tr: seq<Event>, i: nat, j: nat)
    requires i < j < |tr| && tr[i].CfgDone? && tr[j].CfgDone? && !Ask(tr).bad
    ensures exists b: nat, c :: i < b < j && tr[b] == CfgBegin(tr[j].token, c)
  {
    hide Ask;
    var b, c := Began(tr, j);
    assert tr[..j][i] == tr[i] && tr[..j][b] == tr[b];
  }

  // --- and always in time ----------------------------------------------------

  // The operation with this token and deadline is in progress.
  predicate Applies(y: Sys, token: nat, deadline: nat) {
    Applying(y.b) && y.b.configToken == token && y.b.configDeadline == deadline
  }

  // The event that completes the operation, or the end of the connection.
  predicate IsEnd(e: Event, token: nat) {
    e.ConnDrop? || (e.CfgDone? && e.token == token)
  }

  ghost predicate EndsIn(tr: seq<Event>, start: nat, token: nat) {
    exists i :: start <= i < |tr| && IsEnd(tr[i], token)
  }

  lemma EndsLater(tr: seq<Event>, more: seq<Event>, start: nat, begin: nat, token: nat)
    requires EndsIn(tr, start, token) && tr <= more && begin <= start
    ensures EndsIn(more, begin, token)
  {
    var i :| start <= i < |tr| && IsEnd(tr[i], token);
    assert IsEnd(more[i], token);
  }

  // A completion is recorded at once, whatever the session makes of it.
  lemma CompletionMarked(y: Sys, token: nat, effective: Option<RadioConfig>, now: nat)
    requires y.sink.Some?
    ensures EndsIn(OnConfigureComplete(y, token, effective, now).w.trace, |y.w.trace|, token)
  {
    hide Continues, Emit, Reject;
    var y1, z := Note(y, CfgDone(token, effective.Some?)), OnConfigureComplete(y, token, effective, now);
    SameContinues(y1, y1);
    RejectContinues(y1, Byte1(CONFIG_RESULT, CFG_UNSUPPORTED), ConfigFailed);
    if effective.Some? {
      var y2 := Emit(y1, ConfigOkFrame(effective.value)).0;
      EmitContinues(y1, ConfigOkFrame(effective.value));
      MovedContinues(y1, y2, EnterOperational(y2, now));
    }
    MarkKept(y1, z, |y.w.trace|, token);
  }

  lemma MarkKept(y: Sys, z: Sys, i: nat, token: nat)
    requires Continues(y, z) && i < |y.w.trace| && IsEnd(y.w.trace[i], token)
    ensures EndsIn(z.w.trace, i, token)
  {
    assert z.w.trace[i] == y.w.trace[i];
  }

  lemma EndMarked(y: Sys, now: nat)
    requires y.sink.Some?
    ensures EndsIn(ConfigFail(y, now).w.trace, |y.w.trace|, y.b.configToken)
    ensures EndsIn(ConfigSucceed(y, now).w.trace, |y.w.trace|, y.b.configToken)
  {
    hide EndsIn, OnConfigureComplete;
    var y1 := ResetLink(y);
    CompletionMarked(y1, y1.b.configToken, None, now);
    EndsLater(ConfigFail(y, now).w.trace, ConfigFail(y, now).w.trace, |y1.w.trace|, |y.w.trace|, y.b.configToken);
    var y2 := y.(b := y.b.(state := Ready, txEpoch := NextU32(y.b.txEpoch), confOut := "", confOff := 0, awaiting := false));
    CompletionMarked(y2, y2.b.configToken, Some(y2.b.pendingCfg), now);
  }

  // A step of the configuration: it goes on, or its end is recorded.
  ghost predicate Proceeds(y: Sys, z: Sys) {
    Applies(z, y.b.configToken, y.b.configDeadline) || EndsIn(z.w.trace, |y.w.trace|, y.b.configToken)
  }

  lemma ProceedsFrom(x: Sys, y: Sys, z: Sys)
    requires Proceeds(y, z) && Continues(x, y)
    requires y.b.configToken == x.b.configToken && y.b.configDeadline == x.b.configDeadline
    ensures Proceeds(x, z)
  {
    if EndsIn(z.w.trace, |y.w.trace|, y.b.configToken) {
      EndsLater(z.w.trace, z.w.trace, |y.w.trace|, |x.w.trace|, y.b.configToken);
    }
  }

  lemma StatusProceeds(y: Sys, now: nat)
    requires y.sink.Some? && Applying(y.b)
    ensures Proceeds(y, ReadStatus(y, now))
  {
    hide EndsIn, Continues, Grows, PumpConf, ConfigFail, ConfigSucceed;
    var y1 := PumpConf(y, true).0;
    PumpConfGrows(y, true);
    GrewContinues(Conf, y, y1);
    EndMarked(y1, now);
    ProceedsFrom(y, y1, ReadStatus(y, now));
  }

  lemma AdvanceProceeds(y: Sys, now: nat)
    requires y.sink.Some? && Applying(y.b)
    ensures Proceeds(y, AdvanceConfigure(y, now))
  {
    hide EndsIn, Continues, Grows, PumpConfOut, ReadStatus, ConfigFail;
    var y1 := PumpConfOut(y).0;
    var y2 := y1.(b := y1.b.(awaiting := true));
    PumpConfOutGrows(y);
    GrewContinues(Conf, y, y1);
    MovedContinues(y, y1, y2);
    EndMarked(y1, now);
    StatusProceeds(y1, now);
    StatusProceeds(y2, now);
    ProceedsFrom(y, y1, AdvanceConfigure(y, now));
  }

  lemma ConnectProceeds(y: Sys, now: nat)
    requires y.sink.Some? && Applying(y.b)
    ensures Proceeds(y, AdvanceConnect(y, now))
  {
    hide EndsIn, Continues, AdvanceConfigure, ConfigFail;
    var y1 := y.(w := y.w.(script := y.w.script.(connects := Tail(y.w.script.connects))));
    var y2 := y1.(b := y1.b.(state := Configuring));
    SameContinues(y, y1);
    EndMarked(y1, now);
    AdvanceProceeds(y2, now);
    ProceedsFrom(y, y1, AdvanceConnect(y, now));
  }

  // A poll goes on before the deadline only, or the end is recorded.
  lemma PollProceeds(y: Sys, held: seq<byte>, now: nat)
    requires y.sink.Some? && Applying(y.b)
    ensures var z := Poll(y, held, now).0;
            && Proceeds(y, z)
            && (now >= y.b.configDeadline ==> EndsIn(z.w.trace, |y.w.trace|, y.b.configToken))
  {
    hide EndsIn, AdvanceConnect, AdvanceConfigure, ConfigFail;
    EndMarked(y, now);
    ConnectProceeds(y, now);
    AdvanceProceeds(y, now);
  }

  lemma TurnProceeds(n: Node, t: Turn)
    requires Good(n) && Applying(n.y.b)
    ensures var z := PollOnce(n, t).y;
            && Proceeds(n.y, z)
            && (t.pollOk && t.tPoll >= n.y.b.configDeadline ==> EndsIn(z.w.trace, |n.y.w.trace|, n.y.b.configToken))
  {
    hide Good, AcceptAll, Service, Poll, Finish, EndsIn, Continues;
    ScriptGood(n, t.script);
    GoodInv(n);
    ApplyingAttached(n.y);
    var n0 := n.(y := n.y.(w := n.y.w.(script := t.script)));
    if t.pollOk {
      AcceptExtends(n0, t.arrivals, t.tRead);
      ServiceGood(n0, t);
      ServiceAloof(n0, t);
      ServiceContinues(n0, t);
      var n2 := Service(n0, t);
      GoodInv(n2);
      ApplyingAttached(n2.y);
      PollProceeds(n2.y, n2.held, t.tPoll);
      PollGood(n2, t.tPoll);
      var n3 := PollNode(n2, t.tPoll);
      LongerTrace(n0.y, n2.y);
      PollContinues(n2.y, n2.held, t.tPoll);
      LongerTrace(n2.y, n3.y);
      EndProceeds(n2.y, n3, t);
      ServedProceeds(n.y, n2.y, PollOnce(n, t).y);
    }
  }

  lemma ApplyingAttached(y: Sys)
    requires Inv(y) && Applying(y.b)
    ensures y.sink.Some?
  {
    hide BackendOk, SessionOk;
  }

  // The end of the turn changes nothing about that, or ends the connection.
  lemma EndProceeds(y: Sys, n: Node, t: Turn)
    requires Good(n) && Proceeds(y, n.y) && |y.w.trace| <= |n.y.w.trace|
    ensures var z := if n.y.sink.None? then n.y else Finish(n, t).y;
            && Proceeds(y, z)
            && (EndsIn(n.y.w.trace, |y.w.trace|, y.b.configToken) ==>
                  EndsIn(z.w.trace, |y.w.trace|, y.b.configToken))
  {
    hide Good, Finish, Continues;
    if n.y.sink.Some? {
      var z := Finish(n, t).y;
      FinishContinues(n, t);
      if EndsIn(n.y.w.trace, |y.w.trace|, y.b.configToken) {
        ContinuesPrefix(n.y, z);
        EndsLater(n.y.w.trace, z.w.trace, |y.w.trace|, |y.w.trace|, y.b.configToken);
      } else {
        GoodInv(n);
        FinishAloof(n, t);
        if z.sink.None? {
          assert IsEnd(z.w.trace[|z.w.trace| - 1], y.b.configToken);
        }
      }
    }
  }

  lemma ContinuesPrefix(y: Sys, z: Sys)
    requires Continues(y, z)
    ensures y.w.trace <= z.w.trace
  {
  }

  lemma ServedProceeds(x: Sys, y: Sys, z: Sys)
    requires Proceeds(y, z) && y.b == x.b && |x.w.trace| <= |y.w.trace|
    ensures Proceeds(x, z)
    ensures EndsIn(z.w.trace, |y.w.trace|, y.b.configToken) ==> EndsIn(z.w.trace, |x.w.trace|, x.b.configToken)
  {
    if EndsIn(z.w.trace, |y.w.trace|, y.b.configToken) {
      EndsLater(z.w.trace, z.w.trace, |y.w.trace|, |x.w.trace|, y.b.configToken);
    }
  }

  // Every configure ends in time, in every run: if one is in progress before turn k,
  // and turn j polls at or after its deadline, then between the two its completion is
  // recorded, or the connection was dropped.
  lemma {:induction false} ConfigureCompletes(setup: Setup, turns: seq<Turn>, k: nat, j: nat)
    requires k <= j < |turns| && Applying(Run(setup, turns[..k]).y.b)
    requires turns[j].pollOk && turns[j].tPoll >= Run(setup, turns[..k]).y.b.configDeadline
    ensures EndsIn(TraceOf(setup, turns[..j + 1]), |TraceOf(setup, turns[..k])|,
                   Run(setup, turns[..k]).y.b.configToken)
    decreases j - k
  {
    hide PollOnce, Good, EndsIn;
    var n, t := Run(setup, turns[..k]), turns[k];
    var n1 := Run(setup, turns[..k + 1]);
    assert turns[..k + 1][..k] == turns[..k];
    RunGood(setup, turns[..k]);
    TurnProceeds(n, t);
    TurnExtends(n, t);
    assert turns[..j + 1][..k + 1] == turns[..k + 1];
    RunExtends(setup, turns[..j + 1], k + 1);
    if EndsIn(n1.y.w.trace, |n.y.w.trace|, n.y.b.configToken) {
      EndsLater(n1.y.w.trace, TraceOf(setup, turns[..j + 1]), |n.y.w.trace|, |n.y.w.trace|, n.y.b.configToken);
    } else {
      ConfigureCompletes(setup, turns, k + 1, j);
      EndsLater(TraceOf(setup, turns[..j + 1]), TraceOf(setup, turns[..j + 1]),
                |n1.y.w.trace|, |n.y.w.trace|, n.y.b.configToken);
    }
  }

  // What the session would notice.
  predicate ReachesSink(e: Event) {
    e.XrOut? || e.XrClosed? || e.CfgDone?
  }

  // A step that the session, whichever it is, does not notice.
  ghost predicate Unnoticed(y: Sys, z: Sys) {
    var a, b := y.w.trace, z.w.trace;
    && z.sink == y.sink && |a| <= |b| && b[..|a|] == a
    && forall i :: |a| <= i < |b| ==> !ReachesSink(b[i])
  }

  lemma UnnoticedThen(x: Sys, y: Sys, z: Sys)
    requires Unnoticed(x, y) && Unnoticed(y, z)
    ensures Unnoticed(x, z)
  {
    var a, b, c := x.w.trace, y.w.trace, z.w.trace;
    hide ReachesSink;
    assert c[..|a|] == b[..|a|];
    forall i | |a| <= i < |c| ensures !ReachesSink(c[i]) {
      if i < |b| { assert c[i] == b[i]; }
    }
  }

  predicate StillDrains(b: Backend, c: Backend) {
    c.state.Draining? && c.drainDeadline == b.drainDeadline
  }

  lemma DispatchUnnoticed(y: Sys, f: Frame)
    requires y.b.state.Draining?
    ensures var z := Dispatch(y, f);
            Unnoticed(y, z) && (StillDrains(y.b, z.b) || z.b.state.Disconnected?)
  {
    hide DecodeRx, DecodeTxResult, MapTxStatus;
  }

  lemma FaultUnnoticed(y: Sys)
    ensures Unnoticed(y, EnterFault(y))
  {
  }

  lemma {:induction false} DigestUnnoticed(y: Sys, stream: seq<byte>)
    requires y.b.state.Draining?
    ensures var z := Digest(y, stream, true).0;
            Unnoticed(y, z) && (StillDrains(y.b, z.b) || z.b.state.Disconnected? || z.b.state.Faulted?)
    decreases |stream|
  {
    hide Dispatch, EnterFault, Unnoticed;
    FaultUnnoticed(y);
    SelfUnnoticed(y);
    var r := PopFrame(FromDaemon, stream);
    if r.Got? {
      var y1 := Dispatch(y, r.frame);
      DispatchUnnoticed(y, r.frame);
      if y1.b.state.Draining? {
        DigestUnnoticed(y1, r.rest);
        UnnoticedThen(y, y1, Digest(y1, r.rest, true).0);
      }
    } else if r.Bad? {
      assert HandleDisconnect(y) == EnterFault(y);
      FaultState(y);
    }
  }

  lemma FaultState(y: Sys)
    ensures EnterFault(y).b.state.Faulted?
  {
  }

  lemma SelfUnnoticed(y: Sys)
    ensures Unnoticed(y, y)
  {
  }

  lemma ChunkUnnoticed(y: Sys, s: Script, chunk: seq<byte>)
    ensures Unnoticed(y, y.(w := y.w.(script := s)))
    ensures Unnoticed(y, Note(y.(w := y.w.(script := s)), DataRx(chunk)))
  {
  }

  lemma {:induction false} ReadUnnoticed(y: Sys, held: seq<byte>)
    requires y.b.state.Draining?
    ensures var z := ReadData(y, held, true).0;
            Unnoticed(y, z) && (StillDrains(y.b, z.b) || z.b.state.Disconnected? || z.b.state.Faulted?)
    decreases |y.w.script.dataIn|
  {
    hide Digest, EnterFault, Unnoticed;
    SelfUnnoticed(y);
    var input := y.w.script.dataIn;
    if input != [] {
      var s := y.w.script.(dataIn := input[1..]);
      var y1 := y.(w := y.w.(script := s));
      if input[0].Gone? {
        ChunkUnnoticed(y, s, []);
        FaultUnnoticed(y1);
        FaultState(y1);
        UnnoticedThen(y, y1, EnterFault(y1));
      } else {
        var chunk := input[0].bytes;
        var y2 := Note(y1, DataRx(chunk));
        ChunkUnnoticed(y, s, chunk);
        DigestUnnoticed(y2, held + chunk);
        var (y3, h) := Digest(y2, held + chunk, true);
        UnnoticedThen(y, y2, y3);
        if y3.b.state.Draining? && |chunk| >= READ_CHUNK {
          ReadUnnoticed(y3, h);
          UnnoticedThen(y, y3, ReadData(y3, h, true).0);
        }
      }
    }
  }

  lemma {:induction false} ConfUnnoticed(y: Sys)
    ensures Unnoticed(y, DrainConf(y))
    decreases |y.w.script.confIn|
  {
    var input := y.w.script.confIn;
    if input != [] && input[0].Chunk? && |input[0].bytes| >= READ_CHUNK {
      var y1 := y.(w := y.w.(script := y.w.script.(confIn := input[1..])));
      var y2 := Note(y1, ConfRx(input[0].bytes));
      ConfUnnoticed(y2);
      UnnoticedThen(y, y2, DrainConf(y2));
    }
  }

  // Draining tells no session anything, whatever the daemon sends. It ends in
  // Disconnected or Faulted, and never outlives its deadline.
  lemma DrainSilent(y: Sys, held: seq<byte>, now: nat)
    requires y.b.state.Draining?
    ensures var z := Poll(y, held, now).0;
            && Unnoticed(y, z)
            && (StillDrains(y.b, z.b) || z.b.state.Disconnected? || z.b.state.Faulted?)
            && (now >= y.b.drainDeadline ==> z.b.state.Faulted?)
  {
    hide EnterFault, DrainConf, ReadData, Unnoticed;
    if now >= y.b.drainDeadline {
      FaultUnnoticed(y);
      FaultState(y);
    } else {
      ConfUnnoticed(y);
      ReadUnnoticed(DrainConf(y), held);
      UnnoticedThen(y, DrainConf(y), Poll(y, held, now).0);
    }
  }

  // --- so does draining ------------------------------------------------------

  // A link that is gone was closed.
  lemma {:induction false} LinkLost(tr: seq<Event>, k: nat)
    requires k <= |tr| && !Books(tr[..k]).link.Down? && Books(tr).link.Down?
    ensures exists i :: k <= i < |tr| && tr[i].LinkDown?
    decreases |tr|
  {
    hide HandOver, Answered, Orphan, Resolve;
    assert tr[..|tr|] == tr;
    if k < |tr| {
      var past := tr[..|tr| - 1];
      assert past[..k] == tr[..k];
      if Books(past).link.Down? {
        LinkLost(past, k);
        var i :| k <= i < |past| && past[i].LinkDown?;
        assert tr[i].LinkDown?;
      } else {
        OnlyDownCloses(Books(past), tr[|tr| - 1]);
      }
    }
  }

  lemma OnlyDownCloses(m: Ledger, e: Event)
    requires !m.link.Down? && LedgerStep(m, e).link.Down?
    ensures e.LinkDown?
  {
    hide Parse;
  }

  // The end of a turn neither begins nor prolongs draining, unless a packet is pending.
  lemma FinishDrains(n: Node, t: Turn)
    requires n.y.sink.Some? && (n.y.b.state.Draining? || n.y.b.state.Disconnected? || n.y.b.state.Faulted?)
    ensures var z := Finish(n, t).y;
            z.b.state == n.y.b.state && z.b.drainDeadline == n.y.b.drainDeadline
  {
    hide FlushOut, Encode;
  }

  // A turn goes on draining to the same deadline, and only if it polls before it; or
  // it ends with the link closed.
  lemma TurnDrains(n: Node, t: Turn)
    requires Good(n) && n.y.b.state.Draining?
    ensures var z := PollOnce(n, t).y;
            if z.b.state.Draining? then
              z.b.drainDeadline == n.y.b.drainDeadline && (t.pollOk ==> t.tPoll < n.y.b.drainDeadline)
            else z.b.state.Disconnected? || z.b.state.Faulted?
  {
    hide Good, AcceptAll, Service, Poll, Finish, Unnoticed;
    ScriptGood(n, t.script);
    var n0 := n.(y := n.y.(w := n.y.w.(script := t.script)));
    if t.pollOk {
      AcceptGood(n0, t.arrivals, t.tRead);
      AcceptAloof(n0, t.arrivals, t.tRead);
      var n1 := AcceptAll(n0, t.arrivals, t.tRead);
      ServiceAloof(n1, t);
      var n2 := if n0.y.sink.Some? then Service(n1, t) else n1;
      DrainSilent(n2.y, n2.held, t.tPoll);
      var n3 := PollNode(n2, t.tPoll);
      if n3.y.sink.Some? {
        FinishDrains(n3, t);
      }
    }
  }

  lemma DrainedLink(y: Sys, z: Sys)
    requires Owns(y) && Owns(z) && y.w.trace <= z.w.trace
    requires y.b.state.Draining? && (z.b.state.Disconnected? || z.b.state.Faulted?)
    ensures exists i :: |y.w.trace| <= i < |z.w.trace| && z.w.trace[i].LinkDown?
  {
    hide Books, Payloads, Select;
    assert z.w.trace[..|y.w.trace|] == y.w.trace;
    LinkLost(z.w.trace, |y.w.trace|);
  }

  // Draining ends in time, in every run: if the backend drains before turn k, and turn
  // j polls at or after the drain deadline, then between the two the link is closed.
  lemma {:induction false} DrainEnds(setup: Setup, turns: seq<Turn>, k: nat, j: nat)
    requires k <= j < |turns| && Run(setup, turns[..k]).y.b.state.Draining?
    requires turns[j].pollOk && turns[j].tPoll >= Run(setup, turns[..k]).y.b.drainDeadline
    ensures var tr, start := TraceOf(setup, turns[..j + 1]), |TraceOf(setup, turns[..k])|;
            exists i :: start <= i < |tr| && tr[i].LinkDown?
    decreases j - k
  {
    hide PollOnce, Good, Inv, Owns;
    var n, n1 := Run(setup, turns[..k]), Run(setup, turns[..k + 1]);
    assert turns[..k + 1][..k] == turns[..k];
    RunGood(setup, turns[..k]);
    TurnDrains(n, turns[k]);
    TurnExtends(n, turns[k]);
    assert turns[..j + 1][..k + 1] == turns[..k + 1];
    RunExtends(setup, turns[..j + 1], k + 1);
    if n1.y.b.state.Draining? {
      DrainEnds(setup, turns, k + 1, j);
    } else {
      RunOwns(setup, turns[..k]);
      RunOwns(setup, turns[..k + 1]);
      DrainedLink(n.y, n1.y);
    }
  }

  // --- the token -------------------------------------------------------------

  // The sockets of a new link can be opened.
  predicate DialOpens(y: Sys) {
    y.w.script.dials != [] && y.w.script.dials[0]
  }

  // The backend goes as far as dialling: right state, valid parameters.
  predicate DialsFor(y: Sys, c: RadioConfig) {
    MayConfigure(y.b) && Validate(c) == Ok
  }

  // The backend takes the request.
  predicate Accepts(y: Sys, c: RadioConfig) {
    DialsFor(y, c) && DialOpens(y)
  }

  // Beginning closes the link there is, opens one and starts one operation, without
  // completing any. A request refused before dialling changes nothing. One whose dial
  // fails leaves the backend as it was, but its link, if there was one, is closed.
  lemma BeginEffect(y: Sys, c: RadioConfig, now: nat)
    ensures var (z, token) := BeginConfigure(y, c, now);
            if Accepts(y, c) then
              && z.b.state.Connecting? && z.b.configToken == token && z.b.pendingCfg == c
              && exists band :: z.w.trace == y.w.trace + Hangup(y.b) + [LinkUp(band)] + [CfgBegin(token, c)]
            else
              && token == 0 && z.b == y.b && z.sink == y.sink
              && z.w.trace == y.w.trace + (if DialsFor(y, c) then Hangup(y.b) else [])
  {
    if Validate(c) == Ok { SetCommandIsLine(c); }
    hide Commands, SetCommand, Dial, Hangup, Validate;
    assert y.w.trace + [] == y.w.trace;
    if Accepts(y, c) {
      var band := SelectBand(c.freqHz).value;
      var (z, token) := BeginConfigure(y, c, now);
      assert z.w.trace == y.w.trace + Hangup(y.b) + [LinkUp(band)] + [CfgBegin(token, c)];
    }
  }

  // --- a link lost unnoticed -------------------------------------------------

  // The backend's state agrees with the link the trace shows.
  predicate LinkKnown(y: Sys) {
    Books(y.w.trace).link == LinkOf(y.b)
  }

  // The backend says that it can transmit, and has no link.
  predicate Stranded(y: Sys) {
    y.b.state.Ready? && Books(y.w.trace).link.Down?
  }

  // A configure leaves the backend Ready without a link exactly when it was Ready, the
  // request was valid and the dial failed; in every other case state and link agree.
  lemma StrandsIff(y: Sys, c: RadioConfig, now: nat)
    requires LinkKnown(y)
    ensures var z := BeginConfigure(y, c, now).0;
            && (Stranded(z) <==> y.b.state.Ready? && Validate(c) == Ok && !DialOpens(y))
            && (LinkKnown(z) <==> !Stranded(z))
  {
    hide BeginConfigure, Books, Validate;
    BeginEffect(y, c, now);
    var (z, token) := BeginConfigure(y, c, now);
    if Accepts(y, c) {
      var band :| z.w.trace == y.w.trace + Hangup(y.b) + [LinkUp(band)] + [CfgBegin(token, c)];
      LinkRaised(y.w.trace + Hangup(y.b), band, token, c);
    } else {
      LinkHungUp(y.w.trace, y.b);
    }
  }

  lemma LinkRaised(tr: seq<Event>, band: Band, token: nat, c: RadioConfig)
    ensures Books(tr + [LinkUp(band)] + [CfgBegin(token, c)]).link.Raw?
  {
    hide Books;
    BooksAppend(tr, LinkUp(band));
    BooksAppend(tr + [LinkUp(band)], CfgBegin(token, c));
  }

  lemma LinkHungUp(tr: seq<Event>, b: Backend)
    ensures tr + [] == tr
    ensures b.state.Ready? ==> Books(tr + Hangup(b)) == Books(tr).(link := Down, part := [])
    ensures !b.state.Ready? ==> tr + Hangup(b) == tr
  {
    hide Books;
    BooksAppend(tr, LinkDown);
  }

  // It lasts until the next poll: the closed socket answers Gone, and backend and
  // session end as for any lost link.
  lemma StrandedEnds(y: Sys, held: seq<byte>, now: nat)
    requires y.b.state.Ready? && y.w.script.confIn != [] && y.w.script.confIn[0].Gone?
    ensures var z := Poll(y, held, now).0;
            && z.b.state.Disconnected? && LinkKnown(z)
            && (y.sink.Some? && !IsClosed(y) ==> IsClosed(z) && z.sink.value.closeReason.BackendFailure?)
  {
    BooksLog();
    hide Books;
  }

  // The token of an accepted request is nonzero, unless the 32-bit counter wraps.
  lemma TokenNonzeroIff(y: Sys, c: RadioConfig, now: nat)
    requires Accepts(y, c)
    ensures BeginConfigure(y, c, now).1 != 0 <==> (y.b.nextToken + 1) % 0x1_0000_0000 != 0
  {
    SetCommandIsLine(c);
    hide Commands, SetCommand;
  }

  const SAMPLE: RadioConfig := RadioConfig(433175000, 250000, 11, 6, 0x2B, 8, 17, 1, 0)

  // It does wrap: with the counter at its maximum, a request is accepted, the
  // backend starts to connect, and the caller is told that it was refused.
  lemma TokenWraps(w: World)
    requires w.script.dials != [] && w.script.dials[0]
    ensures var y := Sys(COLD.(nextToken := 0xFFFF_FFFF), None, w);
            var (z, token) := BeginConfigure(y, SAMPLE, 0);
            Accepts(y, SAMPLE) && token == 0 && z.b.state.Connecting?
  {
    var y := Sys(COLD.(nextToken := 0xFFFF_FFFF), None, w);
    assert Accepts(y, SAMPLE);
    hide Commands, SetCommand;
    BeginEffect(y, SAMPLE, 0);
    TokenNonzeroIff(y, SAMPLE, 0);
  }
}
