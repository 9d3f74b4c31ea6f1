// Where the list's tokens are: paid, in flight or to do; and how many the run creates.
module Conservation {
  import Consent
  import opened Journal
  import opened Distribution
  import opened Safety
  import opened Guarantees

  // ---- amounts of disjoint sets of rows ------------------------------------------

  lemma {:induction false} SumSplits(list: seq<Row>, a: set<Wallet>, b: set<Wallet>)
    requires a !! b
    ensures Sum(list, a + b) == Sum(list, a) + Sum(list, b)
  {
    if list != [] {
      SumSplits(list[..|list| - 1], a, b);
    }
  }

  lemma {:induction false} SumSame(list: seq<Row>, a: set<Wallet>, b: set<Wallet>)
    requires forall r | r in list :: r.wallet in a <==> r.wallet in b
    ensures Sum(list, a) == Sum(list, b)
  {
    if list != [] {
      assert list[|list| - 1] in list;
      SumSame(list[..|list| - 1], a, b);
    }
  }

  /** Every amount of the list. */
  function Total(list: seq<Row>): nat {
    if list == [] then 0 else Total(list[..|list| - 1]) + list[|list| - 1].amount
  }

  lemma {:induction false} SumIsTotal(list: seq<Row>, all: set<Wallet>)
    requires forall r | r in list :: r.wallet in all
    ensures Sum(list, all) == Total(list)
  {
    if list != [] {
      assert list[|list| - 1] in list;
      SumIsTotal(list[..|list| - 1], all);
    }
  }

  // ---- where each row is ------------------------------------------------------------

  ghost predicate IsInFlight(s: State, w: Wallet) {
    exists sig :: sig in s.made && s.made[sig].Pay? && w in s.made[sig].rows && !Decided(s, sig)
  }

  ghost function Paid(s: State): set<Wallet> {
    set w | w in Wallets(s.list) && IsPaid(s, w)
  }

  ghost function InFlight(s: State): set<Wallet> {
    set w | w in Wallets(s.list) && IsInFlight(s, w)
  }

  ghost function Remaining(s: State): set<Wallet> {
    set w | w in Wallets(s.list) && Unpaid(s, w)
  }

  lemma OneOfThree(s: State, w: Wallet)
    requires OrdersOk(s) && Exclusive(s) && w in Wallets(s.list)
    ensures !(IsPaid(s, w) && IsInFlight(s, w))
    ensures Unpaid(s, w) <==> !IsPaid(s, w) && !IsInFlight(s, w)
  {
    if IsPaid(s, w) && IsInFlight(s, w) {
      var a :| a in s.made && PaidBy(s, a, w);
      var b :| b in s.made && s.made[b].Pay? && w in s.made[b].rows && !Decided(s, b);
      assert Alive(s, a) && Alive(s, b);
    }
    if !IsPaid(s, w) && !IsInFlight(s, w) {
      forall sig | sig in s.made && s.made[sig].Pay? && w in s.made[sig].rows ensures !Alive(s, sig) {
        assert !PaidBy(s, sig, w);
      }
    }
  }

  /** The three sets are a partition of the list and their amounts add up to its total. */
  lemma Partition(s: State)
    requires OrdersOk(s) && Exclusive(s)
    ensures Paid(s) !! InFlight(s) && Paid(s) + InFlight(s) !! Remaining(s)
    ensures Paid(s) + InFlight(s) + Remaining(s) == Wallets(s.list)
    ensures Sum(s.list, Paid(s)) + Sum(s.list, InFlight(s)) + Sum(s.list, Remaining(s)) == Total(s.list)
  {
    forall w | w in Wallets(s.list)
      ensures !(IsPaid(s, w) && IsInFlight(s, w))
      ensures Unpaid(s, w) <==> !IsPaid(s, w) && !IsInFlight(s, w)
    {
      OneOfThree(s, w);
    }
    SumSplits(s.list, Paid(s), InFlight(s));
    SumSplits(s.list, Paid(s) + InFlight(s), Remaining(s));
    SumIsTotal(s.list, Wallets(s.list));
  }

  // ---- the run's own account ----------------------------------------------------------

  /** What the run has to create, given what the treasury held at first. */
  function Short(s: State): nat {
    if Total(s.list) > s.initial then Total(s.list) - s.initial else 0
  }

  ghost predicate MintLanded(s: State) {
    exists sig :: sig in s.made && s.made[sig].Create? && LandedOk(s, sig)
  }

  ghost predicate Left(s: State, todo: set<Wallet>) {
    todo == Wallets(s.list) - Paid(s)
  }

  /** The mints of a run nobody else interferes with. */
  ghost predicate MintsOk(s: State) {
    && s.chain.balance + s.chain.paidOut == s.initial + s.chain.created
    && (forall sig | sig in s.made && s.made[sig].Create? :: 0 < s.made[sig].amount == Short(s))
    && (forall a, b | a in s.made && b in s.made && a != b && s.made[a].Create? && s.made[b].Create? ::
          !Alive(s, a) || !Alive(s, b))
    && (MintLanded(s) ==> s.chain.created == Short(s))
    && (!MintLanded(s) ==> s.chain.created == 0)
  }

  ghost predicate TodoOk(s: State) {
    match s.tab
    case Ready(todo) => Wallets(s.list) - Paid(s) <= todo
    case Cleared(todo, have) => Left(s, todo) && have == s.chain.balance
    case Opened(_, todo, have) => Left(s, todo) && have == s.chain.balance
    case Minting(_, todo, _) => Left(s, todo)
    case MintWait(_, todo) => Left(s, todo)
    case Planning(_, todo) => Left(s, todo) && Sum(s.list, todo) <= s.chain.balance
    case _ => true
  }

  ghost predicate Balanced(s: State) {
    && s.chain.paidOut == Sum(s.list, Paid(s))
    && (s.quiet ==> MintsOk(s) && TodoOk(s))
  }

  // ---- the steps that land nothing -----------------------------------------------------

  /** The orders and what landed of them is the same, but for new transfers that have not landed. */
  ghost predicate SameLandings(s: State, s': State) {
    && s'.list == s.list && s'.initial == s.initial
    && s'.chain.landed == s.chain.landed
    && (forall sig | sig in s.made :: sig in s'.made && s'.made[sig] == s.made[sig])
    && (forall sig | sig in s'.made && sig !in s.made :: sig !in s.chain.landed)
  }

  lemma SamePaid(s: State, s': State)
    requires SameLandings(s, s')
    ensures Paid(s') == Paid(s) && (MintLanded(s') <==> MintLanded(s))
  {
    forall w | IsPaid(s, w) ensures IsPaid(s', w) {
      var sig :| sig in s.made && PaidBy(s, sig, w);
      assert PaidBy(s', sig, w);
    }
    forall w | IsPaid(s', w) ensures IsPaid(s, w) {
      var sig :| sig in s'.made && PaidBy(s', sig, w);
      assert PaidBy(s, sig, w);
    }
    if MintLanded(s) {
      var sig :| sig in s.made && s.made[sig].Create? && LandedOk(s, sig);
      assert sig in s'.made && s'.made[sig].Create? && LandedOk(s', sig);
    }
  }

  /** No old order may arrive that could not before. */
  ghost predicate ArrivesNoMore(s: State, s': State) {
    forall sig | sig in s.made && MayArrive(s', sig) :: MayArrive(s, sig)
  }

  lemma WriteLandsNothing(s: State)
    requires Sound(s) && Next(s, WriteJournal).Some?
    ensures SameLandings(s, Next(s, WriteJournal).value) && ArrivesNoMore(s, Next(s, WriteJournal).value)
  {
    hide StoreOk, Exclusive, CopyOk, RestOk, AddAll, Orders;
    var batch := s.tab.batch;
    OrdersAt(batch);
    assert forall t | t in batch :: t.signature !in s.made;
    assert forall sig | sig in Signatures(batch) :: sig !in s.made;
  }

  lemma SubmitLandsNothing(s: State, e: Event)
    requires OrdersOk(s) && e.SubmitMint? && Next(s, e).Some?
    ensures SameLandings(s, Next(s, e).value) && ArrivesNoMore(s, Next(s, e).value)
  {
  }

  lemma ArrivesSame(s: State, s': State)
    requires s'.chain.received == s.chain.received && (s'.tab.Sending? ==> s'.tab == s.tab)
    ensures ArrivesNoMore(s, s')
  {
  }

  lemma SendingLandsNothing(s: State, e: Event)
    requires (e.Broadcast? || e.Skip?) && Next(s, e).Some?
    ensures SameLandings(s, Next(s, e).value) && ArrivesNoMore(s, Next(s, e).value)
  {
    var queue := s.tab.queue;
    assert queue[0] in queue && forall t | t in queue[1..] :: t in queue;
  }

  /** Only `Land` lands anything; a written batch and a submitted mint are new orders. */
  lemma NothingLands(s: State, e: Event)
    requires Sound(s) && Next(s, e).Some? && !e.Land?
    ensures SameLandings(s, Next(s, e).value) && ArrivesNoMore(s, Next(s, e).value)
    ensures Next(s, e).value.chain.paidOut == s.chain.paidOut && Next(s, e).value.chain.created == s.chain.created
    ensures s.chain.height <= Next(s, e).value.chain.height
  {
    hide Sound, AddAll, MarkAll, Evaluate, Orders, Undecided, Clears, ArrivesNoMore, Separate, SignedCopies;
    var s' := Next(s, e).value;
    if e.WriteJournal? {
      WriteLandsNothing(s);
    } else if e.SubmitMint? {
      assert OrdersOk(s) by { SoundOrders(s); }
      SubmitLandsNothing(s, e);
    } else if e.Broadcast? || e.Skip? {
      SendingLandsNothing(s, e);
    } else {
      ArrivesSame(s, s');
    }
  }

  lemma SoundParts(s: State)
    requires Sound(s)
    ensures StoreOk(s) && TabOk(s)
  {
  }

  lemma SoundOrders(s: State)
    requires Sound(s)
    ensures OrdersOk(s) && Exclusive(s)
  {
  }

  /** No new mint, nothing landed, the balance untouched: the mints' account is the same. */
  lemma SameMints(s: State, s': State)
    requires SameLandings(s, s') && ArrivesNoMore(s, s') && MintsOk(s) && s.chain.height <= s'.chain.height
    requires s'.chain.balance == s.chain.balance && s'.chain.created == s.chain.created
    requires s'.chain.paidOut == s.chain.paidOut
    requires forall sig | sig in s'.made && s'.made[sig].Create? :: sig in s.made
    ensures MintsOk(s')
  {
    hide Paid;
    SamePaid(s, s');
    forall sig | sig in s.made && Alive(s', sig) ensures Alive(s, sig) {
    }
  }

  lemma MintsKept(s: State, e: Event)
    requires Sound(s) && Next(s, e).Some? && !e.Land? && !e.SubmitMint? && !e.Foreign? && MintsOk(s)
    ensures MintsOk(Next(s, e).value)
  {
    hide Sound, MintsOk, AddAll, MarkAll, Evaluate, SameLandings, ArrivesNoMore;
    NothingLands(s, e);
    if e.WriteJournal? {
      assert UniqueSignatures(s.tab.batch) by { HeldUnique(s); }
      OrdersAt(s.tab.batch);
      BatchPays(s.tab.batch);
    }
    SameMints(s, Next(s, e).value);
  }

  lemma HeldUnique(s: State)
    requires Sound(s) && s.tab.Held?
    ensures UniqueSignatures(s.tab.batch)
  {
  }

  lemma {:induction false} BatchPays(batch: seq<JournalTx>)
    ensures forall sig | sig in Orders(batch) :: Orders(batch)[sig].Pay?
  {
    if batch != [] {
      BatchPays(batch[..|batch| - 1]);
    }
  }

  /** A run creates tokens only when no earlier mint of it landed, and then exactly the first shortfall. */
  lemma SubmitKept(s: State, e: Event)
    requires Sound(s) && Next(s, e).Some? && e.SubmitMint? && Balanced(s) && s.quiet
    ensures MintsOk(Next(s, e).value)
  {
    hide StoreOk, JournalOk, Complete, MintKnown, RestOk, AllUnpaid, Exclusive;
    var s' := Next(s, e).value;
    NothingLands(s, e);
    SamePaid(s, s');
    LeftIsUnpaidTotal(s, s.tab.todo);
    assert s'.made[e.sig].amount == Total(s.list) - s.initial - s.chain.created;
    assert !MintLanded(s);
    forall a | a in s.made && s.made[a].Create? ensures !Alive(s', a) {
      assert Decided(s, a) && !LandedOk(s, a);
    }
  }

  lemma LeftIsUnpaidTotal(s: State, todo: set<Wallet>)
    requires Left(s, todo)
    ensures Sum(s.list, todo) + Sum(s.list, Paid(s)) == Total(s.list)
  {
    SumSplits(s.list, todo, Paid(s));
    assert todo + Paid(s) == Wallets(s.list);
    SumIsTotal(s.list, Wallets(s.list));
  }

  // ---- landings -----------------------------------------------------------------------

  lemma PayLands(s: State, sig: Signature)
    requires Sound(s) && MayLand(s, sig, true) && s.made[sig].Pay?
    ensures
      var s' := s.(chain := Landing(s, sig, true));
      && Paid(s') == Paid(s) + AsSet(s.made[sig].rows)
      && Paid(s) !! AsSet(s.made[sig].rows)
      && (MintLanded(s') <==> MintLanded(s))
  {
    var s' := s.(chain := Landing(s, sig, true));
    var rows := s.made[sig].rows;
    forall w | w in rows ensures !IsPaid(s, w) && IsPaid(s', w) && w in Wallets(s.list) {
      assert w in AsSet(rows);
      assert PaidBy(s', sig, w);
      if IsPaid(s, w) {
        var a :| a in s.made && PaidBy(s, a, w);
        assert Alive(s, a) && Alive(s, sig);
      }
    }
    forall w | IsPaid(s, w) ensures IsPaid(s', w) {
      var a :| a in s.made && PaidBy(s, a, w);
      assert PaidBy(s', a, w);
    }
    forall w | IsPaid(s', w) ensures w in rows || IsPaid(s, w) {
      var a :| a in s'.made && PaidBy(s', a, w);
      if a != sig {
        assert PaidBy(s, a, w);
      }
    }
    if MintLanded(s) {
      var a :| a in s.made && s.made[a].Create? && LandedOk(s, a);
      assert a in s'.made && s'.made[a].Create? && LandedOk(s', a);
    }
  }

  /** A mint, or any transaction that fails, pays no row. */
  lemma OtherLands(s: State, sig: Signature, ok: bool)
    requires MayLand(s, sig, ok) && (!ok || s.made[sig].Create?)
    ensures
      var s' := s.(chain := Landing(s, sig, ok));
      && Paid(s') == Paid(s)
      && (MintLanded(s') <==> MintLanded(s) || ok)
  {
    var s' := s.(chain := Landing(s, sig, ok));
    forall w | w in Wallets(s.list) ensures IsPaid(s', w) <==> IsPaid(s, w) {
      if IsPaid(s, w) {
        var a :| a in s.made && PaidBy(s, a, w);
        assert PaidBy(s', a, w);
      }
      if IsPaid(s', w) {
        var a :| a in s'.made && PaidBy(s', a, w);
        assert PaidBy(s, a, w);
      }
    }
    if MintLanded(s) {
      var a :| a in s.made && s.made[a].Create? && LandedOk(s, a);
      assert a in s'.made && s'.made[a].Create? && LandedOk(s', a);
    }
    if ok {
      assert sig in s'.made && s'.made[sig].Create? && LandedOk(s', sig);
    }
  }

  lemma MintsLand(s: State, sig: Signature, ok: bool)
    requires OrdersOk(s) && MintsOk(s) && MayLand(s, sig, ok)
    requires ok && s.made[sig].Pay? ==> (MintLanded(s.(chain := Landing(s, sig, ok))) <==> MintLanded(s))
    requires !ok || s.made[sig].Create? ==> (MintLanded(s.(chain := Landing(s, sig, ok))) <==> MintLanded(s) || ok)
    ensures MintsOk(s.(chain := Landing(s, sig, ok)))
  {
    var s' := s.(chain := Landing(s, sig, ok));
    forall a | a in s.made && Alive(s', a) ensures Alive(s, a) {
    }
    if ok && s.made[sig].Create? {
      assert !MintLanded(s) by {
        forall a | a in s.made && a != sig && s.made[a].Create? ensures !LandedOk(s, a) {
          assert !Alive(s, a) || !Alive(s, sig);
        }
      }
    }
  }

  lemma LandKept(s: State, sig: Signature, ok: bool)
    requires Sound(s) && Balanced(s) && Next(s, Land(sig, ok)).Some?
    ensures Balanced(Next(s, Land(sig, ok)).value)
  {
    hide Exclusive, StoreOk, Complete, MintKnown, RestOk, AllUnpaid, MintsOk;
    var s' := Next(s, Land(sig, ok)).value;
    if ok && s.made[sig].Pay? {
      PayLands(s, sig);
      SumSplits(s.list, Paid(s), AsSet(s.made[sig].rows));
    } else {
      OtherLands(s, sig, ok);
    }
    if s.quiet {
      MintsLand(s, sig, ok);
      assert !Decided(s, sig);
    }
  }

  // ---- the rows to do ------------------------------------------------------------------

  lemma OwnAreExplained(s: State, a: Answers)
    requires Sound(s) && s.tab.Checking? && OnlyOwn(s, a.transfers)
    ensures forall t | t in a.transfers :: t.signature in Signatures(s.tab.snapshot.txs)
  {
  }

  lemma CheckedRow(s: State, j: RunJournal, a: Answers, w: Wallet)
    requires Sound(s) && CopyOk(s, j) && Truthful(s.chain, a)
    requires !Undecided(Evaluate(j, a, s.destinations)) && w in Wallets(s.list) && !IsPaid(s, w)
    requires forall t | t in a.transfers :: t.signature in Signatures(j.txs)
    ensures w in TodoRows(Evaluate(j, a, s.destinations))
  {
    hide Sound, Outcomes, Sweeps, StatesOf, Exclusive;
    var outcomes := Outcomes(j.txs, a, Sweeps(j, a));
    var e := Evaluate(j, a, s.destinations);
    StatesBase(j, outcomes, s.destinations, if Sweeps(j, a) then a.transfers else []);
    StatesTrue(s, j, a, w);
    JournalStateMeaning(j.txs, outcomes, w);
    assert !e.states[w].Pending?;
    assert forall sig :: !PaidBy(s, sig, w);
  }

  /** With nobody else's transfers in the history, step 0 leaves to send every row not paid. */
  lemma CheckedTodo(s: State, a: Answers, stored: bool)
    requires Sound(s) && s.tab.Checking? && Admissible(s, Check(a, stored)) && OnlyOwn(s, a.transfers)
    requires !Undecided(Evaluate(s.tab.snapshot, a, s.destinations))
    ensures Wallets(s.list) - Paid(s) <= TodoRows(Evaluate(s.tab.snapshot, a, s.destinations))
  {
    hide Evaluate, Undecided, IsPaid, TodoRows;
    var j := s.tab.snapshot;
    OwnAreExplained(s, a);
    forall w | w in Wallets(s.list) - Paid(s) ensures w in TodoRows(Evaluate(j, a, s.destinations)) {
      CheckedRow(s, j, a, w);
    }
  }

  /** A confirmed mint leaves the treasury with enough for every row to send. */
  lemma MintCovers(s: State, outcome: Outcome)
    requires TabOk(s) && Next(s, MintAnswer(outcome)).Some? && Admissible(s, MintAnswer(outcome)) && outcome.Landed?
    requires s.chain.paidOut == Sum(s.list, Paid(s)) && MintsOk(s) && Left(s, s.tab.todo)
    ensures Sum(s.list, s.tab.todo) <= s.chain.balance
  {
    var sig := s.tab.j.mint.value.signature;
    assert s.made[sig].Create? && LandedOk(s, sig);
    LeftIsUnpaidTotal(s, s.tab.todo);
  }

  /** What step 2b lets through is exactly what is not paid. */
  lemma ReadKeepsTodo(s: State, reading: Consent.Reading, page: Consent.Page)
    requires Sound(s) && Next(s, ReadPaidBefore(reading, page)).Some? && Admissible(s, ReadPaidBefore(reading, page))
    requires TodoOk(s)
    ensures TodoOk(Next(s, ReadPaidBefore(reading, page)).value)
  {
    hide Sound, IsPaid;
    SamePaid(s, Next(s, ReadPaidBefore(reading, page)).value);
    assert TabOk(s) by { SoundParts(s); }
    if Clears(s.tab.todo, reading, page) {
      assert forall w | w in s.tab.todo :: !IsPaid(s, w);
    }
  }

  lemma CheckKeepsTodo(s: State, a: Answers, stored: bool)
    requires Sound(s) && Next(s, Check(a, stored)).Some? && Admissible(s, Check(a, stored))
    requires Next(s, Check(a, stored)).value.quiet
    ensures TodoOk(Next(s, Check(a, stored)).value)
  {
    hide Sound, Evaluate, Paid;
    SamePaid(s, Next(s, Check(a, stored)).value);
    if !Undecided(Evaluate(s.tab.snapshot, a, s.destinations)) {
      CheckedTodo(s, a, stored);
    }
  }

  lemma AnswerKeepsTodo(s: State, outcome: Outcome)
    requires Sound(s) && Next(s, MintAnswer(outcome)).Some? && Admissible(s, MintAnswer(outcome))
    requires s.chain.paidOut == Sum(s.list, Paid(s)) && MintsOk(s) && TodoOk(s)
    ensures TodoOk(Next(s, MintAnswer(outcome)).value)
  {
    hide Sound, Paid, MintsOk;
    assert TabOk(s) by { SoundParts(s); }
    SamePaid(s, Next(s, MintAnswer(outcome)).value);
    if outcome.Landed? {
      MintCovers(s, outcome);
    }
  }

  lemma TodoKept(s: State, e: Event)
    requires Sound(s) && Balanced(s) && Next(s, e).Some? && Admissible(s, e) && !e.Land?
    requires Next(s, e).value.quiet
    ensures TodoOk(Next(s, e).value)
  {
    hide Sound, AddAll, MarkAll, Evaluate, MintsOk, Paid;
    if e.ReadPaidBefore? {
      ReadKeepsTodo(s, e.reading, e.page);
    } else if e.Check? {
      CheckKeepsTodo(s, e.answers, e.stored);
    } else if e.MintAnswer? {
      AnswerKeepsTodo(s, e.outcome);
    } else {
      NothingLands(s, e);
      SamePaid(s, Next(s, e).value);
    }
  }

  /** Every event keeps the account. */
  lemma StepBalanced(s: State, e: Event)
    requires Sound(s) && Balanced(s) && Next(s, e).Some? && Admissible(s, e)
    ensures Balanced(Next(s, e).value)
    ensures Next(s, e).value.list == s.list && Next(s, e).value.initial == s.initial
  {
    hide Sound, MintsOk, TodoOk, Admissible;
    var s' := Next(s, e).value;
    if e.Land? {
      LandKept(s, e.sig, e.ok);
    } else {
      NothingLands(s, e);
      SamePaid(s, s');
      if s'.quiet {
        TodoKept(s, e);
        if e.SubmitMint? {
          SubmitKept(s, e);
        } else {
          MintsKept(s, e);
        }
      }
    }
  }

  lemma {:induction false} RunBalanced(s: State, es: seq<Event>, end: State)
    requires Sound(s) && Balanced(s) && Runs(s, es, end)
    ensures Sound(end) && Balanced(end) && end.list == s.list && end.initial == s.initial
    decreases |es|
  {
    hide Sound, Balanced, Next, Admissible;
    if es != [] {
      StepSound(s, es[0]);
      StepBalanced(s, es[0]);
      RunBalanced(Next(s, es[0]).value, es[1..], end);
    }
  }

  // ---- the theorems --------------------------------------------------------------------

  lemma StartBalanced(list: seq<Row>, initial: nat, destinations: map<Wallet, Address>)
    ensures Sound(Start(list, initial, destinations)) && Balanced(Start(list, initial, destinations))
  {
    var s := Start(list, initial, destinations);
    assert Paid(s) == {};
    SumNone(list);
  }

  lemma {:induction false} SumNone(list: seq<Row>)
    ensures Sum(list, {}) == 0
  {
    if list != [] {
      SumNone(list[..|list| - 1]);
    }
  }

  /**
   * At every step each row is in exactly one of paid, in flight and to do, the
   * three amounts add up to the list's total, and the tokens that left the
   * treasury through the run are exactly those of the paid rows.
   */
  lemma Conserved(list: seq<Row>, initial: nat, destinations: map<Wallet, Address>, es: seq<Event>, end: State)
    requires Runs(Start(list, initial, destinations), es, end)
    ensures Paid(end) !! InFlight(end) && Paid(end) + InFlight(end) !! Remaining(end)
    ensures Paid(end) + InFlight(end) + Remaining(end) == Wallets(list)
    ensures Sum(list, Paid(end)) + Sum(list, InFlight(end)) + Sum(list, Remaining(end)) == Total(list)
    ensures end.chain.paidOut == Sum(list, Paid(end))
  {
    StartBalanced(list, initial, destinations);
    RunBalanced(Start(list, initial, destinations), es, end);
    Partition(end);
  }

  /**
   * With no other treasury activity, all the mints of a run, over all its
   * resumes, create at most the first shortfall, and once one is confirmed
   * the treasury covers every row not paid.
   */
  lemma CreatedAtMostTheShortfall(list: seq<Row>, initial: nat, destinations: map<Wallet, Address>, es: seq<Event>,
                                  end: State)
    requires Runs(Start(list, initial, destinations), es, end) && end.quiet
    ensures
      var short := if Total(list) > initial then Total(list) - initial else 0;
      && end.chain.created <= short
      && (forall sig | sig in end.made && end.made[sig].Create? :: end.made[sig].amount == short)
      && (MintLanded(end) ==> end.chain.created == short
                              && Sum(list, Wallets(list) - Paid(end)) <= end.chain.balance)
  {
    StartBalanced(list, initial, destinations);
    RunBalanced(Start(list, initial, destinations), es, end);
    LeftIsUnpaidTotal(end, Wallets(list) - Paid(end));
  }

  /** Whenever the send comes to planning, the treasury covers the rows it is about to plan. */
  lemma PlannedIsCovered(list: seq<Row>, initial: nat, destinations: map<Wallet, Address>, es: seq<Event>, end: State)
    requires Runs(Start(list, initial, destinations), es, end) && end.quiet && end.tab.Planning?
    ensures end.tab.todo == Wallets(list) - Paid(end) && Sum(list, end.tab.todo) <= end.chain.balance
  {
    StartBalanced(list, initial, destinations);
    RunBalanced(Start(list, initial, destinations), es, end);
  }

  /**
   * A send started again once every transaction of the run is over, with the
   * network answering in full and the history showing nobody else's
   * transfers: it goes on to the rows not paid, all of them and no other, or
   * stops when there are none.
   */
  lemma ResumeGoesOn(s: State, a: Answers, stored: bool)
    requires Sound(s) && s.tab.Checking? && Truthful(s.chain, a) && Full(s.chain, a) && AllOver(s, s.tab.snapshot)
    requires OnlyOwn(s, a.transfers)
    ensures
      var left := Wallets(s.list) - Paid(s);
      Next(s, Check(a, stored)).value.tab == if left == {} then Idle else Ready(left)
  {
    hide Evaluate, Undecided, Sound, Full, AllOver, IsPaid;
    var todo := TodoRows(Evaluate(s.tab.snapshot, a, s.destinations));
    NothingWaits(s, a);
    CheckedTodo(s, a, stored);
    TodoInList(s, a);
    forall w | w in todo ensures w !in Paid(s) {
      if IsPaid(s, w) {
        PaidRowIsDone(s, a, w);
      }
    }
    assert todo == Wallets(s.list) - Paid(s);
  }

  lemma TodoInList(s: State, a: Answers)
    requires Sound(s) && s.tab.Checking?
    ensures TodoRows(Evaluate(s.tab.snapshot, a, s.destinations)) <= Wallets(s.list)
  {
    StateKeys(s.tab.snapshot, a, s.destinations);
  }
}
