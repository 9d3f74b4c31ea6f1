// The screening evidence a row needs before the wallet is asked to sign for it
// (front/lib/distribution-screening.ts, front/components/send-to-wallets-panel.tsx).
module Screening {
  import opened Journal

  const SCREENING_FRESH_MS: int := 900_000
  const SCREENING_RECAPTURE_MS: int := 600_000

  datatype Verdict = Clear | Hit | Unscreened

  /** `at` is None where the stored time cannot be read. */
  datatype Evidence = Evidence(at: Option<int>, result: Verdict)

  predicate Stale(evidence: map<Wallet, Evidence>, w: Wallet, now: int) {
    || w !in evidence
    || evidence[w].result.Hit?
    || evidence[w].at.None?
    || now - evidence[w].at.value > SCREENING_FRESH_MS
  }

  method StaleScreenings(evidence: map<Wallet, Evidence>, wallets: seq<Wallet>, now: int) returns (stale: seq<Wallet>)
    ensures forall w :: w in stale <==> w in wallets && Stale(evidence, w, now)
  {
    stale := [];
    for i := 0 to |wallets|
      invariant forall w :: w in stale <==> w in wallets[..i] && Stale(evidence, w, now)
    {
      assert wallets[..i + 1] == wallets[..i] + [wallets[i]];
      if Stale(evidence, wallets[i], now) {
        stale := stale + [wallets[i]];
      }
    }
    assert wallets[..|wallets|] == wallets;
  }

  predicate Due(takenAt: int, now: int) {
    now - takenAt > SCREENING_RECAPTURE_MS
  }

  /** A group given to the batch sender, and when. */
  datatype Handed = Handed(rows: seq<Wallet>, at: int)

  /** `screens` records every answer of the evidence route in this send, oldest first. */
  datatype Send = Send(
    toSend: seq<Wallet>,
    now: int,
    evidence: map<Wallet, Evidence>,
    evidenceAt: int,
    screens: seq<map<Wallet, Evidence>>,
    planned: Option<int>,
    stopped: bool,
    handed: seq<Handed>)

  datatype Event =
    | Wait(ms: nat)
    | Screen(answer: map<Wallet, Evidence>)
    | Plan
    | Group(rows: seq<Wallet>)

  /** The send's steps around its evidence: screened first, again at plan time when due, checked for each group. */
  function Step(s: Send, e: Event): Send {
    match e
    case Wait(ms) => s.(now := s.now + ms)
    case Screen(answer) =>
      if s.planned.Some? then s
      else s.(evidence := s.evidence + answer, evidenceAt := s.now, screens := s.screens + [answer])
    case Plan =>
      if s.screens == [] || Due(s.evidenceAt, s.now) then s else s.(planned := Some(s.now))
    case Group(rows) =>
      if s.planned.None? || s.stopped then s
      else if exists w | w in rows :: Stale(s.evidence, w, s.now) then s.(stopped := true)
      else s.(handed := s.handed + [Handed(rows, s.now)])
  }

  function Steps(s: Send, es: seq<Event>): Send {
    if es == [] then s else Step(Steps(s, es[..|es| - 1]), es[|es| - 1])
  }

  function Begin(toSend: seq<Wallet>, now: int): Send {
    Send(toSend, now, map[], 0, [], None, false, [])
  }

  /** Answer `k` vouches for `w` at `at`: no hit, and screened no longer ago than allowed. */
  ghost predicate Vouches(screens: seq<map<Wallet, Evidence>>, k: int, w: Wallet, at: int) {
    && 0 <= k < |screens| && w in screens[k]
    && !screens[k][w].result.Hit? && screens[k][w].at.Some? && at - screens[k][w].at.value <= SCREENING_FRESH_MS
    && forall j | k < j < |screens| :: w !in screens[j]
  }

  ghost predicate Vouched(screens: seq<map<Wallet, Evidence>>, h: Handed) {
    forall w | w in h.rows :: exists k :: Vouches(screens, k, w, h.at)
  }

  /** The merged map holds each wallet's newest answer. */
  ghost predicate Merged(evidence: map<Wallet, Evidence>, screens: seq<map<Wallet, Evidence>>) {
    forall w | w in evidence :: exists k :: NewestAnswer(screens, k, w, evidence[w])
  }

  ghost predicate NewestAnswer(screens: seq<map<Wallet, Evidence>>, k: int, w: Wallet, e: Evidence) {
    0 <= k < |screens| && w in screens[k] && screens[k][w] == e && forall j | k < j < |screens| :: w !in screens[j]
  }

  ghost predicate SendOk(s: Send) {
    && Merged(s.evidence, s.screens)
    && (s.handed != [] ==> s.planned.Some?)
    && (s.planned.Some? ==> s.screens != [] && s.planned.value - s.evidenceAt <= SCREENING_RECAPTURE_MS)
    && (forall h | h in s.handed :: h.at <= s.now && Vouched(s.screens, h))
  }

  lemma MergedMore(evidence: map<Wallet, Evidence>, screens: seq<map<Wallet, Evidence>>, answer: map<Wallet, Evidence>)
    requires Merged(evidence, screens)
    ensures Merged(evidence + answer, screens + [answer])
  {
    var all := screens + [answer];
    assert all[|screens|] == answer && forall k | 0 <= k < |screens| :: all[k] == screens[k];
    forall w | w in evidence + answer ensures exists k :: NewestAnswer(all, k, w, (evidence + answer)[w]) {
      if w in answer {
        assert NewestAnswer(all, |screens|, w, (evidence + answer)[w]);
      } else {
        var k :| NewestAnswer(screens, k, w, evidence[w]);
        assert NewestAnswer(all, k, w, (evidence + answer)[w]);
      }
    }
  }

  lemma StepOk(s: Send, e: Event)
    requires SendOk(s)
    ensures SendOk(Step(s, e))
  {
    match e
    case Screen(answer) => MergedMore(s.evidence, s.screens, answer);
    case Group(rows) =>
      if Step(s, e).handed != s.handed {
        forall w | w in rows ensures exists k :: Vouches(s.screens, k, w, s.now) {
          assert !Stale(s.evidence, w, s.now);
          var k :| NewestAnswer(s.screens, k, w, s.evidence[w]);
          assert Vouches(s.screens, k, w, s.now);
        }
        assert Vouched(s.screens, Handed(rows, s.now));
      }
    case _ =>
  }

  /**
   * However long the mint, the planning and each wallet prompt take, every
   * group given to the batch sender holds only rows whose newest screening
   * answer in this send is no hit and at most fifteen minutes old then, and
   * the plan was made on evidence taken at most ten minutes before it.
   */
  lemma {:induction false} HandedIsFresh(toSend: seq<Wallet>, now: int, es: seq<Event>)
    ensures SendOk(Steps(Begin(toSend, now), es))
    ensures
      var s := Steps(Begin(toSend, now), es);
      && (forall h | h in s.handed :: Vouched(s.screens, h))
      && (s.handed != [] ==> s.planned.Some? && s.planned.value - s.evidenceAt <= SCREENING_RECAPTURE_MS)
  {
    if es != [] {
      HandedIsFresh(toSend, now, es[..|es| - 1]);
      StepOk(Steps(Begin(toSend, now), es[..|es| - 1]), es[|es| - 1]);
    }
  }

  /** The oldest screening of a group's rows. */
  function Oldest(evidence: map<Wallet, Evidence>, rows: seq<Wallet>): (at: int)
    requires rows != [] && forall w | w in rows :: w in evidence && evidence[w].at.Some?
    ensures exists w :: w in rows && evidence[w].at.value == at
    ensures forall w | w in rows :: at <= evidence[w].at.value
  {
    var last := evidence[rows[|rows| - 1]].at.value;
    if |rows| == 1 then last
    else
      var init := Oldest(evidence, rows[..|rows| - 1]);
      assert rows == rows[..|rows| - 1] + [rows[|rows| - 1]];
      if init < last then init else last
  }

  /**
   * The check is made when the group is given over, not when the wallet is
   * asked: at a later prompt of the group every row is still fresh exactly
   * when that prompt comes within fifteen minutes of the oldest screening.
   */
  lemma FreshAtPromptExactly(evidence: map<Wallet, Evidence>, rows: seq<Wallet>, checked: int, prompted: int)
    requires rows != [] && checked <= prompted
    requires forall w | w in rows :: w in evidence && evidence[w].at.Some? && !Stale(evidence, w, checked)
    ensures (forall w | w in rows :: !Stale(evidence, w, prompted))
       <==> prompted <= Oldest(evidence, rows) + SCREENING_FRESH_MS
  {
  }

  function Cleared(w: Wallet): map<Wallet, Evidence> {
    map[w := Evidence(Some(0), Clear)]
  }

  /** The send after its screening and plan, `ms` later. */
  function Planned(w: Wallet, ms: nat, handed: seq<Handed>): Send {
    Send([w], ms, Cleared(w), 0, [Cleared(w)], Some(0), false, handed)
  }

  lemma PlansAndWaits(w: Wallet)
    ensures Steps(Begin([w], 0), [Screen(Cleared(w)), Plan] + [Wait(SCREENING_FRESH_MS)]) == Planned(w, SCREENING_FRESH_MS, [])
  {
    var es := [Screen(Cleared(w)), Plan] + [Wait(SCREENING_FRESH_MS)];
    assert es[..2] == [Screen(Cleared(w)), Plan] && [Screen(Cleared(w)), Plan][..1] == [Screen(Cleared(w))];
    assert [Screen(Cleared(w))][..0] == [];
    assert map[] + Cleared(w) == Cleared(w) && [] + [Cleared(w)] == [Cleared(w)];
    assert Steps(Begin([w], 0), [Screen(Cleared(w))]) == Planned(w, 0, []).(planned := None);
    assert Steps(Begin([w], 0), [Screen(Cleared(w)), Plan]) == Planned(w, 0, []);
  }

  /**
   * A send that hands its group over at the last moment the check allows; a
   * prompt one millisecond later is for stale evidence.
   */
  lemma StaleAtPrompt(w: Wallet)
    ensures
      var es := [Screen(Cleared(w)), Plan] + [Wait(SCREENING_FRESH_MS)] + [Group([w])];
      var s := Steps(Begin([w], 0), es);
      && s.handed == [Handed([w], SCREENING_FRESH_MS)]
      && !Stale(s.evidence, w, SCREENING_FRESH_MS) && Stale(s.evidence, w, SCREENING_FRESH_MS + 1)
  {
    var before := [Screen(Cleared(w)), Plan] + [Wait(SCREENING_FRESH_MS)];
    PlansAndWaits(w);
    assert (before + [Group([w])])[..|before|] == before;
    assert [] + [Handed([w], SCREENING_FRESH_MS)] == [Handed([w], SCREENING_FRESH_MS)];
  }
}
