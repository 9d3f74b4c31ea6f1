// What the send pays, against the paid-before reading it went through: step 2b
// of `send` (front/components/send-to-wallets-panel.tsx) over every run of the
// protocol, admissible or not.
module Repaid {
  import opened Journal
  import opened Distribution
  import Consent

  /** `es` from `s` on, every event possible; nothing is assumed of the environment. */
  ghost predicate Happens(s: State, es: seq<Event>, end: State)
    decreases |es|
  {
    if es == [] then end == s else Next(s, es[0]).Some? && Happens(Next(s, es[0]).value, es[1..], end)
  }

  /** The pages of a run are pages the panel can show. */
  ghost predicate PagesOk(es: seq<Event>) {
    forall e | e in es && e.ReadPaidBefore? :: Consent.PageOk(e.page)
  }

  /** What the issuer confirmed for that wallet: this page's run, with the wallet before them. */
  ghost predicate ConsentedTo(page: Consent.Page, w: Wallet) {
    page.tick.Some? && page.tick.value.runId == page.runId && w in page.tick.value.shown
  }

  /** The reading shows no trace of a payment, or the issuer confirmed paying again. */
  ghost predicate Justified(p: Pass, w: Wallet) {
    w in p.todo && (Consent.Found(p.reading, w) == [] || ConsentedTo(p.page, w))
  }

  ghost predicate PassOk(p: Pass) {
    forall w | w in p.todo :: Justified(p, w)
  }

  predicate Within(txs: seq<seq<Wallet>>, todo: set<Wallet>) {
    forall k, w | 0 <= k < |txs| && w in txs[k] :: w in todo
  }

  /** The rows the tab still works on are those its last reading let through. */
  ghost predicate TabPassed(s: State) {
    match s.tab
    case Idle => true
    case Checking(_) => true
    case Ready(_) => true
    case Cleared(todo, _) => s.passes != [] && Last(s).todo == todo
    case Opened(_, todo, _) => s.passes != [] && Last(s).todo == todo
    case Minting(_, todo, _) => s.passes != [] && Last(s).todo == todo
    case MintWait(_, todo) => s.passes != [] && Last(s).todo == todo
    case Planning(_, todo) => s.passes != [] && Last(s).todo == todo
    case Signing(_, rest) => s.passes != [] && Within(rest, Last(s).todo)
    case Held(_, batch, rest) => s.passes != [] && Within(RowsOf(batch) + rest, Last(s).todo)
    case Sending(_, _, rest) => s.passes != [] && Within(rest, Last(s).todo)
  }

  function Last(s: State): Pass
    requires s.passes != []
  {
    s.passes[|s.passes| - 1]
  }

  /** One reading let every row of the order through. */
  ghost predicate OrderPassed(s: State, order: Order) {
    order.Pay? ==> exists p :: p in s.passes && AsSet(order.rows) <= p.todo
  }

  ghost predicate Passed(s: State) {
    && TabPassed(s)
    && (forall p | p in s.passes :: PassOk(p))
    && (forall sig | sig in s.made :: OrderPassed(s, s.made[sig]))
  }

  /** A step that makes no order and records no reading. */
  predicate Quiet(e: Event) {
    !e.WriteJournal? && !e.ReadPaidBefore? && !e.SubmitMint? && !e.Sign? && !e.Discard?
  }

  lemma QuietKeeps(s: State, e: Event)
    requires Next(s, e).Some? && Quiet(e)
    ensures Next(s, e).value.made == s.made && Next(s, e).value.passes == s.passes
  {
    hide Evaluate, Landing, MarkAll, Separate, MayLand, Undecided;
  }

  lemma QuietTab(s: State, e: Event)
    requires TabPassed(s) && Next(s, e).Some? && Quiet(e) && Next(s, e).value.passes == s.passes
    ensures TabPassed(Next(s, e).value)
  {
    hide Evaluate, Landing, MarkAll, Separate, MayLand, Undecided, WritesBack, OnlyOwn;
  }

  lemma QuietStep(s: State, e: Event)
    requires Passed(s) && Next(s, e).Some? && Quiet(e)
    ensures Passed(Next(s, e).value)
  {
    hide PassOk, Next, TabPassed;
    QuietKeeps(s, e);
    QuietTab(s, e);
    var s' := Next(s, e).value;
    forall sig | sig in s'.made ensures OrderPassed(s', s'.made[sig]) {
      assert OrderPassed(s, s.made[sig]);
    }
  }

  /** A mint is no payment. */
  lemma MintStep(s: State, e: Event)
    requires Passed(s) && Next(s, e).Some? && e.SubmitMint?
    ensures Passed(Next(s, e).value)
  {
    hide PassOk;
    var s' := Next(s, e).value;
    forall sig | sig in s'.made ensures OrderPassed(s', s'.made[sig]) {
      if sig != e.sig {
        assert OrderPassed(s, s.made[sig]);
      }
    }
  }

  /** The wallet's signed copies pay the planned rows. */
  lemma SignStep(s: State, e: Event)
    requires Passed(s) && Next(s, e).Some? && (e.Sign? || e.Discard?)
    ensures Passed(Next(s, e).value)
  {
    hide PassOk, UniqueSignatures;
    var s' := Next(s, e).value;
    if e.Sign? {
      var rest := s.tab.rest;
      assert RowsOf(e.batch) + rest[|e.batch|..] == rest;
    }
    forall sig | sig in s'.made ensures OrderPassed(s', s'.made[sig]) {
      assert OrderPassed(s, s.made[sig]);
    }
  }

  lemma ReadStep(s: State, reading: Consent.Reading, page: Consent.Page)
    requires Passed(s) && Next(s, ReadPaidBefore(reading, page)).Some? && Consent.PageOk(page)
    ensures Passed(Next(s, ReadPaidBefore(reading, page)).value)
  {
    hide Consent.PageOk, Consent.Found;
    var s' := Next(s, ReadPaidBefore(reading, page)).value;
    if s'.tab.Cleared? {
      ClearedIsJustified(s.tab.todo, reading, page);
    }
    forall sig | sig in s'.made ensures OrderPassed(s', s'.made[sig]) {
      MorePasses(s, s', s.made[sig]);
    }
  }

  lemma ClearedIsJustified(todo: set<Wallet>, reading: Consent.Reading, page: Consent.Page)
    requires Clears(todo, reading, page) && Consent.PageOk(page)
    ensures PassOk(Pass(reading, page, todo))
  {
    hide Consent.Found;
    Consent.SendAgainExactly(page);
    forall w | w in todo && Consent.Found(reading, w) != [] ensures ConsentedTo(page, w) {
      assert w in multiset(page.shown);
    }
  }

  lemma MorePasses(s: State, s': State, order: Order)
    requires OrderPassed(s, order) && (s'.passes == s.passes || (s'.passes != [] && s'.passes[..|s'.passes| - 1] == s.passes))
    ensures OrderPassed(s', order)
  {
    if order.Pay? {
      var p :| p in s.passes && AsSet(order.rows) <= p.todo;
      assert p in s'.passes;
    }
  }

  lemma {:induction false} OrdersOf(batch: seq<JournalTx>)
    ensures forall sig | sig in Orders(batch) :: Orders(batch)[sig].Pay? && exists k :: 0 <= k < |batch| && batch[k].rows == Orders(batch)[sig].rows
  {
    if batch != [] {
      var n := |batch| - 1;
      OrdersOf(batch[..n]);
      forall sig | sig in Orders(batch)
        ensures Orders(batch)[sig].Pay? && exists k :: 0 <= k < |batch| && batch[k].rows == Orders(batch)[sig].rows {
        if sig == batch[n].signature {
          assert batch[n].rows == Orders(batch)[sig].rows;
        } else {
          var k :| 0 <= k < n && batch[..n][k].rows == Orders(batch[..n])[sig].rows;
          assert batch[k].rows == Orders(batch)[sig].rows;
        }
      }
    }
  }

  lemma WriteStep(s: State)
    requires Passed(s) && Next(s, WriteJournal).Some?
    ensures Passed(Next(s, WriteJournal).value)
  {
    hide PassOk, AddAll, Orders;
    var s' := Next(s, WriteJournal).value;
    var batch, rest := s.tab.batch, s.tab.rest;
    var rows := RowsOf(batch) + rest;
    OrdersOf(batch);
    forall k | 0 <= k < |rest| ensures rows[|batch| + k] == rest[k] {
    }
    forall sig | sig in s'.made ensures OrderPassed(s', s'.made[sig]) {
      if sig in Orders(batch) {
        var k :| 0 <= k < |batch| && batch[k].rows == Orders(batch)[sig].rows;
        assert rows[k] == batch[k].rows;
        assert AsSet(batch[k].rows) <= Last(s').todo;
      } else {
        assert OrderPassed(s, s.made[sig]);
      }
    }
  }

  lemma StepPassed(s: State, e: Event)
    requires Passed(s) && Next(s, e).Some? && (e.ReadPaidBefore? ==> Consent.PageOk(e.page))
    ensures Passed(Next(s, e).value)
  {
    hide Passed, Next, Consent.PageOk;
    match e
    case WriteJournal => WriteStep(s);
    case ReadPaidBefore(reading, page) => ReadStep(s, reading, page);
    case SubmitMint(_, _) => MintStep(s, e);
    case Sign(_) => SignStep(s, e);
    case Discard => SignStep(s, e);
    case _ => QuietStep(s, e);
  }

  lemma {:induction false} RunsPassed(s: State, es: seq<Event>, end: State)
    requires Passed(s) && Happens(s, es, end) && PagesOk(es)
    ensures Passed(end)
    decreases |es|
  {
    hide Passed, Next, Consent.PageOk;
    if es != [] {
      assert es[0] in es && forall e | e in es[1..] :: e in es;
      StepPassed(s, es[0]);
      RunsPassed(Next(s, es[0]).value, es[1..], end);
    }
  }

  /**
   * Whatever the network, the storage and the other tabs do: every transfer
   * that is journalled went through one paid-before reading, and each wallet
   * it pays either left no trace there or is one the issuer confirmed paying
   * again, for the very run and with that wallet before them.
   */
  lemma RepaidOnlyWithConsent(list: seq<Row>, initial: nat, destinations: map<Wallet, Address>, es: seq<Event>, end: State,
                              sig: Signature)
    requires Happens(Start(list, initial, destinations), es, end) && PagesOk(es)
    requires sig in end.made && end.made[sig].Pay?
    ensures exists p :: p in end.passes && forall w | w in end.made[sig].rows :: Justified(p, w)
  {
    hide Next, Happens, Justified;
    RunsPassed(Start(list, initial, destinations), es, end);
    assert OrderPassed(end, end.made[sig]);
    var p :| p in end.passes && AsSet(end.made[sig].rows) <= p.todo;
    assert forall w | w in end.made[sig].rows :: w in AsSet(end.made[sig].rows);
    assert PassOk(p);
  }
}
