// The platform's pause flags under calls of many admins, and the report of one
// such call (front/components/pause-flags-panel.tsx, front/lib/pause-flags.ts,
// program/programs/asset_registry/src/instructions/set_pause.rs).
module PauseFlags {
  import opened Journal

  type Flags = bv8

  const PAUSE_ONBOARDING: Flags := 0x01
  const PAUSE_PAYOUT_MODULES: Flags := 0x40
  const PAUSE_FLAGS_ALL: Flags := 0x7F
  const EMERGENCY_PAUSE_BITS: Flags := 0x3F
  const PLATFORM_BOOTSTRAP_OPEN: Flags := 0x80

  // ---- the calls --------------------------------------------------------------------

  datatype Caller = Super | Admin | Nobody

  datatype Call = SetFlags(caller: Caller, setMask: Flags, clearMask: Flags)
                | SetPause(caller: Caller, paused: bool)

  predicate Allowed(c: Call) {
    match c
    case SetFlags(caller, setMask, clearMask) =>
      && !caller.Nobody?
      && setMask & !PAUSE_FLAGS_ALL == 0 && setMask & clearMask == 0
      && (clearMask == 0 || caller.Super?)
      && (clearMask & PAUSE_PAYOUT_MODULES == 0 || clearMask == PAUSE_PAYOUT_MODULES)
    case SetPause(caller, _) => caller.Super?
  }

  function Apply(was: Flags, c: Call): Flags {
    if !Allowed(c) then was
    else match c
      case SetFlags(_, setMask, clearMask) =>
        var next := (was | setMask) & !clearMask;
        if clearMask != 0 then next & !PLATFORM_BOOTSTRAP_OPEN else next
      case SetPause(_, paused) =>
        if paused then was | PAUSE_ONBOARDING else was & !(PAUSE_ONBOARDING | PLATFORM_BOOTSTRAP_OPEN)
  }

  function Run(flags: Flags, calls: seq<Call>): Flags {
    if calls == [] then flags else Apply(Run(flags, calls[..|calls| - 1]), calls[|calls| - 1])
  }

  /** The masks the panel sends; None is the mixed resume it refuses before the wallet is asked. */
  function PauseMasks(caller: Caller, pause: bool, bits: Flags): Option<Call> {
    if pause then Some(SetFlags(caller, bits & PAUSE_FLAGS_ALL, 0))
    else if bits & PAUSE_PAYOUT_MODULES != 0 && bits != PAUSE_PAYOUT_MODULES then None
    else Some(SetFlags(caller, 0, bits))
  }

  /** What the panel sends the program takes, from any admin for a pause and from the super admin for a resume. */
  lemma MasksAllowed(caller: Caller, pause: bool, bits: Flags)
    requires !caller.Nobody? && (caller.Super? || pause)
    ensures PauseMasks(caller, pause, bits).Some? ==> Allowed(PauseMasks(caller, pause, bits).value)
    ensures PauseMasks(caller, pause, bits).None? <==> !Allowed(SetFlags(caller, 0, bits)) && !pause
  {
  }

  // ---- pauses --------------------------------------------------------------------------

  predicate IsPause(c: Call) {
    Allowed(c) && match c
                  case SetFlags(_, _, clearMask) => clearMask == 0
                  case SetPause(_, paused) => paused
  }

  /** The bits a pause sets. */
  function SetBits(c: Call): Flags {
    match c
    case SetFlags(_, setMask, _) => setMask
    case SetPause(_, _) => PAUSE_ONBOARDING
  }

  /** One bit of the byte. */
  predicate Bit(m: Flags) {
    m == 0x01 || m == 0x02 || m == 0x04 || m == 0x08 || m == 0x10 || m == 0x20 || m == 0x40 || m == 0x80
  }

  predicate Has(flags: Flags, m: Flags) {
    flags & m != 0
  }

  lemma SameBits(a: Flags, b: Flags)
    requires forall m | Bit(m) :: Has(a, m) <==> Has(b, m)
    ensures a == b
  {
    assert Bit(0x01) && Bit(0x02) && Bit(0x04) && Bit(0x08) && Bit(0x10) && Bit(0x20) && Bit(0x40) && Bit(0x80);
    assert (Has(a, 0x01) <==> Has(b, 0x01)) && (Has(a, 0x02) <==> Has(b, 0x02));
    assert (Has(a, 0x04) <==> Has(b, 0x04)) && (Has(a, 0x08) <==> Has(b, 0x08));
    assert (Has(a, 0x10) <==> Has(b, 0x10)) && (Has(a, 0x20) <==> Has(b, 0x20));
    assert (Has(a, 0x40) <==> Has(b, 0x40)) && (Has(a, 0x80) <==> Has(b, 0x80));
  }

  lemma PauseSets(was: Flags, c: Call, m: Flags)
    requires IsPause(c) && Bit(m)
    ensures Has(Apply(was, c), m) <==> Has(was, m) || Has(SetBits(c), m)
  {
  }

  /** After any pauses a bit is set exactly when it was, or one of them set it. */
  lemma {:induction false} PausesExactly(flags: Flags, calls: seq<Call>, m: Flags)
    requires (forall c | c in calls :: IsPause(c)) && Bit(m)
    ensures Has(Run(flags, calls), m) <==> Has(flags, m) || exists c :: c in multiset(calls) && Has(SetBits(c), m)
  {
    if calls != [] {
      var init, last := calls[..|calls| - 1], calls[|calls| - 1];
      assert calls == init + [last];
      assert forall c | c in init :: c in calls;
      PausesExactly(flags, init, m);
      PauseSets(Run(flags, init), last, m);
      assert multiset(calls) == multiset(init) + multiset{last};
    }
  }

  /** Pauses of any admins, on whatever stale views, give the same flags in any order. */
  lemma PausesCommute(flags: Flags, calls: seq<Call>, other: seq<Call>)
    requires (forall c | c in calls :: IsPause(c)) && multiset(calls) == multiset(other)
    ensures Run(flags, calls) == Run(flags, other)
  {
    forall c | c in other ensures IsPause(c) {
      assert c in multiset(other);
    }
    forall m | Bit(m) ensures Has(Run(flags, calls), m) <==> Has(Run(flags, other), m) {
      PausesExactly(flags, calls, m);
      PausesExactly(flags, other, m);
    }
    SameBits(Run(flags, calls), Run(flags, other));
  }

  /** And never clear a bit. */
  lemma PausesClearNothing(flags: Flags, calls: seq<Call>, m: Flags)
    requires (forall c | c in calls :: IsPause(c)) && Bit(m) && Has(flags, m)
    ensures Has(Run(flags, calls), m)
  {
    PausesExactly(flags, calls, m);
  }

  // ---- every call ------------------------------------------------------------------------

  /** The call names the bit to be cleared. */
  predicate Names(c: Call, m: Flags) {
    match c
    case SetFlags(_, _, clearMask) => Has(clearMask, m)
    case SetPause(_, paused) => !paused && m == PAUSE_ONBOARDING
  }

  predicate IsClear(c: Call) {
    Allowed(c) && match c
                  case SetFlags(_, _, clearMask) => clearMask != 0
                  case SetPause(_, paused) => !paused
  }

  /** A bit goes off exactly when an allowed call names it, and then by the super admin; bit 7 also with any other. */
  lemma ClearedExactly(was: Flags, c: Call, m: Flags)
    requires Bit(m) && Has(was, m)
    ensures !Has(Apply(was, c), m) <==> IsClear(c) && (Names(c, m) || m == PLATFORM_BOOTSTRAP_OPEN)
    ensures !Has(Apply(was, c), m) ==> c.caller.Super?
  {
  }

  /** The bootstrap window, once closed, stays closed; and any clear closes it. */
  lemma {:induction false} BootstrapStaysClosed(flags: Flags, calls: seq<Call>)
    requires !Has(flags, PLATFORM_BOOTSTRAP_OPEN)
    ensures !Has(Run(flags, calls), PLATFORM_BOOTSTRAP_OPEN)
  {
    if calls != [] {
      BootstrapStaysClosed(flags, calls[..|calls| - 1]);
      NeverReopens(Run(flags, calls[..|calls| - 1]), calls[|calls| - 1]);
    }
  }

  lemma NeverReopens(was: Flags, c: Call)
    requires !Has(was, PLATFORM_BOOTSTRAP_OPEN)
    ensures !Has(Apply(was, c), PLATFORM_BOOTSTRAP_OPEN)
  {
  }

  /** So the window is open after a run exactly if it was and no call of the run cleared anything. */
  lemma {:induction false} BootstrapExactly(flags: Flags, calls: seq<Call>)
    ensures Has(Run(flags, calls), PLATFORM_BOOTSTRAP_OPEN)
       <==> Has(flags, PLATFORM_BOOTSTRAP_OPEN) && forall c | c in calls :: !IsClear(c)
  {
    if calls != [] {
      var init, last := calls[..|calls| - 1], calls[|calls| - 1];
      assert calls == init + [last];
      BootstrapExactly(flags, init);
      if Has(Run(flags, init), PLATFORM_BOOTSTRAP_OPEN) {
        ClearedExactly(Run(flags, init), last, PLATFORM_BOOTSTRAP_OPEN);
      } else {
        NeverReopens(Run(flags, init), last);
      }
    }
  }

  /** The payout modules are switched on only by a super admin's call that clears nothing else of the pauses. */
  lemma PayoutModulesAlone(was: Flags, c: Call)
    requires Has(was, PAUSE_PAYOUT_MODULES) && !Has(Apply(was, c), PAUSE_PAYOUT_MODULES)
    ensures c.SetFlags? && c.caller.Super? && c.clearMask == PAUSE_PAYOUT_MODULES
    ensures Apply(was, c) & EMERGENCY_PAUSE_BITS == (was | c.setMask) & EMERGENCY_PAUSE_BITS
  {
  }

  /** A bit once set is still set at the end unless a later call of the super admin names it. */
  lemma {:induction false} SetUntilNamed(flags: Flags, calls: seq<Call>, m: Flags)
    requires Bit(m) && m != PLATFORM_BOOTSTRAP_OPEN && Has(flags, m)
    ensures Has(Run(flags, calls), m) || exists c :: c in calls && c.caller.Super? && IsClear(c) && Names(c, m)
  {
    if calls != [] {
      var init, last := calls[..|calls| - 1], calls[|calls| - 1];
      assert calls == init + [last];
      SetUntilNamed(flags, init, m);
      if Has(Run(flags, init), m) {
        ClearedExactly(Run(flags, init), last, m);
        assert last in calls;
      } else {
        var c :| c in init && c.caller.Super? && IsClear(c) && Names(c, m);
        assert c in calls;
      }
    }
  }

  // ---- the report of one call ---------------------------------------------------------------

  datatype Outcome = Confirmed | Failed | Unsettled

  datatype Row = Success(observed: Option<Flags>) | Refusal | Undecided

  datatype Effect =
    | Waited(outcome: Outcome)
    | Reported(outcome: Outcome)
    | Observed(flags: Option<Flags>)
    | Audited(row: Row)
    | CacheCleared
    | Refreshed
    | RefreshFailed
    | Returned(outcome: Outcome)

  datatype MainStage = Waiting | Reporting | Clearing | Refreshing | Telling | Returning | Over

  datatype BackStage = NotYet | Reading | Writing | Written

  /** The two threads of a settled send: the awaited one, and the audit row written in the background. */
  datatype Settle = Settle(outcome: Outcome, refreshOk: bool, main: MainStage, back: BackStage, seen: Option<Flags>,
                           log: seq<Effect>)

  datatype Turn =
    | Main
    | Observe(flags: Option<Flags>)
    | Audit

  function Logged(s: Settle, e: Effect): Settle {
    s.(log := s.log + [e])
  }

  function RowOf(s: Settle): Row {
    match s.outcome
    case Confirmed => Success(s.seen)
    case Failed => Refusal
    case Unsettled => Undecided
  }

  /** One turn of either thread; a rejected observation is observed as None, a rejected audit ends its thread. */
  function Take(s: Settle, t: Turn): Settle {
    match t
    case Main =>
      (match s.main
       case Waiting => Logged(s, Waited(s.outcome)).(main := Reporting)
       case Reporting =>
         Logged(s, Reported(s.outcome)).(main := Clearing, back := if s.outcome.Confirmed? then Reading else Writing)
       case Clearing => Logged(s, CacheCleared).(main := Refreshing)
       case Refreshing => Logged(s, Refreshed).(main := if s.refreshOk then Returning else Telling)
       case Telling => Logged(s, RefreshFailed).(main := Returning)
       case Returning => Logged(s, Returned(s.outcome)).(main := Over)
       case Over => s)
    case Observe(flags) =>
      if s.back.Reading? then Logged(s, Observed(flags)).(back := Writing, seen := flags) else s
    case Audit =>
      if s.back.Writing? then Logged(s, Audited(RowOf(s))).(back := Written) else s
  }

  function Turns(s: Settle, ts: seq<Turn>): Settle {
    if ts == [] then s else Take(Turns(s, ts[..|ts| - 1]), ts[|ts| - 1])
  }

  function Start(outcome: Outcome, refreshOk: bool): Settle {
    Settle(outcome, refreshOk, MainStage.Waiting, NotYet, None, [])
  }

  predicate OfMain(e: Effect) {
    !e.Observed? && !e.Audited?
  }

  function Part(log: seq<Effect>, main: bool): seq<Effect> {
    if log == [] then []
    else Part(log[..|log| - 1], main) + if OfMain(log[|log| - 1]) == main then [log[|log| - 1]] else []
  }

  /** All the awaited thread ever does, in its order. */
  function MainPlan(outcome: Outcome, refreshOk: bool): seq<Effect> {
    [Waited(outcome), Reported(outcome), CacheCleared, Refreshed]
    + (if refreshOk then [] else [RefreshFailed]) + [Returned(outcome)]
  }

  /** All the background thread ever does. */
  function BackPlan(outcome: Outcome, seen: Option<Flags>): seq<Effect> {
    match outcome
    case Confirmed => [Observed(seen), Audited(Success(seen))]
    case Failed => [Audited(Refusal)]
    case Unsettled => [Audited(Undecided)]
  }

  function MainSoFar(s: Settle): seq<Effect> {
    match s.main
    case Waiting => []
    case Reporting => [Waited(s.outcome)]
    case Clearing => [Waited(s.outcome), Reported(s.outcome)]
    case Refreshing => [Waited(s.outcome), Reported(s.outcome), CacheCleared]
    case Telling => [Waited(s.outcome), Reported(s.outcome), CacheCleared, Refreshed]
    case Returning =>
      [Waited(s.outcome), Reported(s.outcome), CacheCleared, Refreshed] + if s.refreshOk then [] else [RefreshFailed]
    case Over => MainPlan(s.outcome, s.refreshOk)
  }

  function BackSoFar(s: Settle): seq<Effect> {
    match s.back
    case NotYet => []
    case Reading => []
    case Writing => if s.outcome.Confirmed? then [Observed(s.seen)] else []
    case Written => BackPlan(s.outcome, s.seen)
  }

  /** Nothing of the background comes before the report. */
  ghost predicate AfterReport(log: seq<Effect>, outcome: Outcome) {
    forall i | 0 <= i < |log| && !OfMain(log[i]) :: Reported(outcome) in log[..i]
  }

  ghost predicate SettleOk(s: Settle) {
    && (s.main.Telling? ==> !s.refreshOk)
    && (s.back.Reading? ==> s.outcome.Confirmed?)
    && (s.back.NotYet? <==> s.main.Waiting? || s.main.Reporting?)
    && Part(s.log, true) == MainSoFar(s)
    && Part(s.log, false) == BackSoFar(s)
    && AfterReport(s.log, s.outcome)
    && (!s.back.NotYet? ==> Reported(s.outcome) in s.log)
  }

  lemma LogGrows(log: seq<Effect>, e: Effect)
    ensures Part(log + [e], true) == Part(log, true) + if OfMain(e) then [e] else []
    ensures Part(log + [e], false) == Part(log, false) + if OfMain(e) then [] else [e]
  {
    assert (log + [e])[..|log|] == log;
  }

  lemma LaterEffect(log: seq<Effect>, e: Effect, outcome: Outcome)
    requires AfterReport(log, outcome) && (OfMain(e) || Reported(outcome) in log)
    ensures AfterReport(log + [e], outcome)
  {
    var more := log + [e];
    forall i | 0 <= i < |more| && !OfMain(more[i]) ensures Reported(outcome) in more[..i] {
      assert more[..i] == log[..i];
      assert log[..|log|] == log;
    }
  }

  lemma MainTurn(s: Settle)
    requires SettleOk(s) && !s.main.Over?
    ensures SettleOk(Take(s, Main))
  {
    hide Part, AfterReport, BackPlan;
    var s' := Take(s, Main);
    var e := s'.log[|s.log|];
    assert s'.log == s.log + [e] && OfMain(e);
    LogGrows(s.log, e);
    LaterEffect(s.log, e, s.outcome);
    assert MainSoFar(s') == MainSoFar(s) + [e];
    assert BackSoFar(s') == BackSoFar(s) + [];
  }

  lemma ObserveTurn(s: Settle, flags: Option<Flags>)
    requires SettleOk(s) && s.back.Reading?
    ensures SettleOk(Take(s, Observe(flags)))
  {
    hide Part, AfterReport, MainPlan, BackPlan;
    var s' := Take(s, Observe(flags));
    LogGrows(s.log, Observed(flags));
    LaterEffect(s.log, Observed(flags), s.outcome);
    assert BackSoFar(s') == BackSoFar(s) + [Observed(flags)];
    assert MainSoFar(s') == MainSoFar(s) + [];
  }

  lemma AuditTurn(s: Settle)
    requires SettleOk(s) && s.back.Writing?
    ensures SettleOk(Take(s, Audit))
  {
    hide Part, AfterReport, MainPlan;
    var s' := Take(s, Audit);
    LogGrows(s.log, Audited(RowOf(s)));
    LaterEffect(s.log, Audited(RowOf(s)), s.outcome);
    assert BackSoFar(s') == BackSoFar(s) + [Audited(RowOf(s))];
    assert MainSoFar(s') == MainSoFar(s) + [];
  }

  lemma TurnOk(s: Settle, t: Turn)
    requires SettleOk(s)
    ensures SettleOk(Take(s, t))
  {
    hide SettleOk;
    if t.Main? && !s.main.Over? {
      MainTurn(s);
    } else if t.Observe? && s.back.Reading? {
      ObserveTurn(s, t.flags);
    } else if t.Audit? && s.back.Writing? {
      AuditTurn(s);
    }
  }

  /**
   * However the two threads take turns, and whichever of the observation, the
   * audit and the refresh is rejected: one report of the awaited outcome, then
   * the cache cleared once, then one refresh, then the outcome returned
   * unchanged; a success row only for a confirmed send and only with the flags
   * observed after its report.
   */
  lemma {:induction false} SettledInOrder(outcome: Outcome, refreshOk: bool, ts: seq<Turn>)
    ensures
      var s := Turns(Start(outcome, refreshOk), ts);
      && SettleOk(s) && s.outcome == outcome && s.refreshOk == refreshOk
      && Part(s.log, true) <= MainPlan(outcome, refreshOk)
      && Part(s.log, false) <= BackPlan(outcome, s.seen)
      && AfterReport(s.log, outcome)
      && (s.main.Over? ==> Part(s.log, true) == MainPlan(outcome, refreshOk))
  {
    hide Part, Take, AfterReport;
    if ts != [] {
      SettledInOrder(outcome, refreshOk, ts[..|ts| - 1]);
      var before := Turns(Start(outcome, refreshOk), ts[..|ts| - 1]);
      TurnOk(before, ts[|ts| - 1]);
      SameOutcome(before, ts[|ts| - 1]);
    } else {
      NothingLogged(outcome, refreshOk);
    }
  }

  lemma SameOutcome(s: Settle, t: Turn)
    ensures Take(s, t).outcome == s.outcome && Take(s, t).refreshOk == s.refreshOk
  {
  }

  lemma NothingLogged(outcome: Outcome, refreshOk: bool)
    ensures SettleOk(Start(outcome, refreshOk))
  {
  }
}
