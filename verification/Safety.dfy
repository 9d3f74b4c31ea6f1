// What every step of the distribution protocol keeps.
module Safety {
  import Consent
  import opened Journal
  import opened Distribution

  // ---- the invariant -----------------------------------------------------------

  ghost predicate StatusOk(s: State, sig: Signature, status: TxStatus)
    requires sig in s.made
  {
    && (status.Confirmed? ==> LandedOk(s, sig))
    && (status.Failed? ==> !Alive(s, sig))
    && (status.Expired? ==> Decided(s, sig))
  }

  ghost predicate TxOk(s: State, t: JournalTx) {
    && t.signature in s.made && s.made[t.signature] == Pay(t.rows, t.lastValid)
    && StatusOk(s, t.signature, t.status)
  }

  ghost predicate MintOk(s: State, m: JournalMint) {
    && m.signature in s.made && s.made[m.signature] == Create(m.amount, m.lastValid)
    && !m.status.Signed?
    && StatusOk(s, m.signature, m.status)
  }

  /** Whatever a copy of the journal holds is so. */
  ghost predicate JournalOk(s: State, j: RunJournal) {
    && j.rows == s.list
    && UniqueSignatures(j.txs)
    && (forall t | t in j.txs :: TxOk(s, t))
    && (j.mint.Some? ==> MintOk(s, j.mint.value))
  }

  ghost predicate OrdersOk(s: State) {
    && s.chain.landed.Keys <= s.chain.received <= s.made.Keys
    && (forall sig | sig in s.made && s.made[sig].Pay? ::
          && s.made[sig].rows != [] && NoRepeats(s.made[sig].rows)
          && AsSet(s.made[sig].rows) <= Wallets(s.list))
  }

  /** Of two transfers that share a wallet, at most one has moved its tokens or still can. */
  ghost predicate Exclusive(s: State) {
    forall a, b, w | a in s.made && b in s.made && a != b && s.made[a].Pay? && s.made[b].Pay?
                     && w in s.made[a].rows && w in s.made[b].rows ::
      !Alive(s, a) || !Alive(s, b)
  }

  /** No transfer that moved or still can move tokens pays `w`. */
  ghost predicate Unpaid(s: State, w: Wallet) {
    && w in Wallets(s.list)
    && forall sig | sig in s.made && s.made[sig].Pay? && w in s.made[sig].rows :: !Alive(s, sig)
  }

  ghost predicate AllUnpaid(s: State, todo: set<Wallet>) {
    forall w | w in todo :: Unpaid(s, w)
  }

  ghost predicate RestOk(s: State, rest: seq<seq<Wallet>>) {
    && Separate(rest)
    && forall k, w | 0 <= k < |rest| && w in rest[k] :: Unpaid(s, w)
  }

  ghost predicate AllDecided(s: State) {
    forall sig | sig in s.made :: Decided(s, sig)
  }

  ghost predicate DecidedBut(s: State, mint: Signature) {
    forall sig | sig in s.made && sig != mint :: Decided(s, sig)
  }

  ghost predicate CopyOk(s: State, j: RunJournal) {
    JournalOk(s, j) && Complete(s, j) && MintKnown(s, j)
  }

  ghost predicate TabOk(s: State) {
    match s.tab
    case Idle => true
    case Checking(snapshot) => CopyOk(s, snapshot)
    case Ready(todo) => todo <= Wallets(s.list) && AllDecided(s)
    case Cleared(todo, _) => AllUnpaid(s, todo) && AllDecided(s)
    case Opened(j, todo, _) => CopyOk(s, j) && AllUnpaid(s, todo) && AllDecided(s)
    case Minting(j, todo, m) =>
      && CopyOk(s, j) && AllUnpaid(s, todo) && MintOk(s, m) && m.status.Sent? && DecidedBut(s, m.signature)
    case MintWait(j, todo) =>
      && CopyOk(s, j) && AllUnpaid(s, todo) && j.mint.Some? && DecidedBut(s, j.mint.value.signature)
    case Planning(j, todo) => CopyOk(s, j) && AllUnpaid(s, todo) && AllDecided(s)
    case Signing(j, rest) => CopyOk(s, j) && RestOk(s, rest)
    case Held(j, batch, rest) =>
      && CopyOk(s, j) && RestOk(s, RowsOf(batch) + rest) && UniqueSignatures(batch)
      && forall k | 0 <= k < |batch| :: batch[k].status == Signed && batch[k].signature !in s.made
    case Sending(j, queue, rest) =>
      && CopyOk(s, j) && RestOk(s, rest)
      && forall t | t in queue :: t.signature in s.made && s.made[t.signature] == Pay(t.rows, t.lastValid)
  }

  ghost predicate StoreOk(s: State) {
    && (s.disk.Some? ==> CopyOk(s, s.disk.value))
    && (s.disk.None? ==> s.made == map[] && s.view.None? && s.readers == [] && (s.tab.Idle? || s.tab.Ready? || s.tab.Cleared?))
    && (s.view.Some? ==> JournalOk(s, s.view.value))
    && (forall j | j in s.readers :: JournalOk(s, j))
  }

  ghost predicate Sound(s: State) {
    OrdersOk(s) && Exclusive(s) && StoreOk(s) && TabOk(s)
  }

  // ---- time only decides more -----------------------------------------------------

  /** The list is the same, no order is forgotten, and what has been decided stays so. */
  ghost predicate Later(s: State, s': State) {
    && s'.list == s.list
    && s.chain.height <= s'.chain.height
    && (forall sig | sig in s.made ::
          && sig in s'.made && s'.made[sig] == s.made[sig]
          && (MayArrive(s', sig) ==> MayArrive(s, sig)))
    && (forall sig | sig in s.chain.landed :: sig in s'.chain.landed && s'.chain.landed[sig] == s.chain.landed[sig])
    && (forall sig | sig in s.made && sig in s'.chain.landed && sig !in s.chain.landed :: !Decided(s, sig))
  }

  /** No new order either. */
  ghost predicate Aged(s: State, s': State) {
    Later(s, s') && s'.made == s.made && s'.chain.landed.Keys <= s'.chain.received <= s.made.Keys
  }

  lemma LaterOrder(s: State, s': State, sig: Signature)
    requires Later(s, s') && sig in s.made
    ensures Alive(s', sig) ==> Alive(s, sig)
    ensures Decided(s, sig) ==> Decided(s', sig)
    ensures LandedOk(s, sig) ==> LandedOk(s', sig)
  {
  }

  lemma LaterJournal(s: State, s': State, j: RunJournal)
    requires Later(s, s') && JournalOk(s, j)
    ensures JournalOk(s', j)
  {
    forall t | t in j.txs ensures TxOk(s', t) {
      LaterOrder(s, s', t.signature);
    }
    if j.mint.Some? {
      LaterOrder(s, s', j.mint.value.signature);
    }
  }

  lemma AgedUnpaid(s: State, s': State, w: Wallet)
    requires Aged(s, s') && Unpaid(s, w)
    ensures Unpaid(s', w)
  {
  }

  /** Every part of the invariant but the tab's survives the passing of time. */
  lemma AgedCopies(s: State, s': State)
    requires Aged(s, s') && OrdersOk(s) && Exclusive(s)
    ensures OrdersOk(s') && Exclusive(s')
    ensures forall j | JournalOk(s, j) :: JournalOk(s', j)
    ensures forall j | Complete(s, j) :: Complete(s', j)
    ensures forall j | MintKnown(s, j) && (s.tab.Minting? ==> s'.tab == s.tab) :: MintKnown(s', j)
    ensures forall todo | AllUnpaid(s, todo) :: AllUnpaid(s', todo)
    ensures forall rest | RestOk(s, rest) :: RestOk(s', rest)
  {
    forall j | JournalOk(s, j) ensures JournalOk(s', j) {
      LaterJournal(s, s', j);
    }
    forall todo | AllUnpaid(s, todo) ensures AllUnpaid(s', todo) {
      forall w | w in todo ensures Unpaid(s', w) { AgedUnpaid(s, s', w); }
    }
    forall rest | RestOk(s, rest) ensures RestOk(s', rest) {
      forall k, w | 0 <= k < |rest| && w in rest[k] ensures Unpaid(s', w) { AgedUnpaid(s, s', w); }
    }
    forall j | MintKnown(s, j) && (s.tab.Minting? ==> s'.tab == s.tab) ensures MintKnown(s', j) {
      forall sig | sig in s.made && s.made[sig].Create? && Decided(s, sig) ensures Decided(s', sig) {
        LaterOrder(s, s', sig);
      }
    }
  }

  lemma AgedTab(s: State, s': State)
    requires Aged(s, s') && Sound(s) && s'.tab == s.tab
    ensures TabOk(s')
  {
    AgedCopies(s, s');
    forall sig | sig in s.made && Decided(s, sig) ensures Decided(s', sig) {
      LaterOrder(s, s', sig);
    }
    if s.tab.Minting? {
      LaterOrder(s, s', s.tab.mint.signature);
    }
  }

  /** The network's own events, and everything else that leaves the tab and the stored journals alone. */
  lemma AgedSound(s: State, s': State)
    requires Aged(s, s') && Sound(s)
    requires s'.tab == s.tab && s'.disk == s.disk && s'.view == s.view && s'.readers == s.readers
    ensures Sound(s')
  {
    AgedCopies(s, s');
    AgedTab(s, s');
  }

  // ---- reading a journal back -------------------------------------------------------

  /** A journalled transaction is decided as the chain decided it. */
  lemma VerdictTrue(s: State, j: RunJournal, a: Answers, t: JournalTx)
    requires Truthful(s.chain, a) && JournalOk(s, j) && t in j.txs
    ensures
      var o := OutcomeOf(t, Outcomes(j.txs, a, Sweeps(j, a)));
      && (o.Landed? ==> LandedOk(s, t.signature))
      && (o.Refused? ==> !Alive(s, t.signature))
      && (o.Lapsed? ==> Decided(s, t.signature))
  {
    OutcomesAt(j.txs, a, Sweeps(j, a), t);
    assert TxOk(s, t);
  }

  lemma MintVerdictTrue(s: State, j: RunJournal, a: Answers)
    requires Truthful(s.chain, a) && JournalOk(s, j) && j.mint.Some?
    ensures
      var o := MintVerdict(j.mint.value, a, Sweeps(j, a));
      && (o.Landed? ==> LandedOk(s, j.mint.value.signature))
      && (o.Refused? ==> !Alive(s, j.mint.value.signature))
      && (o.Lapsed? ==> Decided(s, j.mint.value.signature))
  {
  }

  lemma SameSignatures(txs: seq<JournalTx>, outcomes: map<Signature, Outcome>)
    ensures Signatures(WithOutcomes(txs, outcomes)) == Signatures(txs)
    ensures UniqueSignatures(txs) ==> UniqueSignatures(WithOutcomes(txs, outcomes))
  {
    var out := WithOutcomes(txs, outcomes);
    forall sig | sig in Signatures(txs) ensures sig in Signatures(out) {
      var i :| 0 <= i < |txs| && txs[i].signature == sig;
      assert out[i] in out;
    }
    forall sig | sig in Signatures(out) ensures sig in Signatures(txs) {
      var i :| 0 <= i < |out| && out[i].signature == sig;
      assert txs[i] in txs;
    }
  }

  /** Reading a true copy back gives a true copy of the same transactions and the same mint. */
  lemma EvaluatedOk(s: State, j: RunJournal, a: Answers)
    requires Truthful(s.chain, a) && JournalOk(s, j)
    ensures
      var k := Evaluate(j, a, s.destinations).journal;
      && JournalOk(s, k)
      && (Complete(s, j) ==> Complete(s, k))
      && (MintKnown(s, j) ==> MintKnown(s, k))
  {
    hide Truthful, Sweeps, Outcomes, StatesOf, MintVerdict;
    var swept := Sweeps(j, a);
    var outcomes := Outcomes(j.txs, a, swept);
    var k := Evaluate(j, a, s.destinations).journal;
    SameSignatures(j.txs, outcomes);
    forall t | t in k.txs ensures TxOk(s, t) {
      var i :| 0 <= i < |k.txs| && k.txs[i] == t;
      assert TxOk(s, j.txs[i]);
      VerdictTrue(s, j, a, j.txs[i]);
      OutcomesAt(j.txs, a, swept, j.txs[i]);
    }
    if j.mint.Some? {
      MintVerdictTrue(s, j, a);
    }
  }

  /** Step 0 cannot find it: the status lookup lost it after its last block, and neither later lookup shows it. */
  predicate Lost(j: RunJournal, a: Answers, t: JournalTx) {
    && (t.status.Signed? || t.status.Sent? || t.status.Expired?)
    && StatusOf(a, t.signature).NoStatus? && a.height > t.lastValid
    && !((t.status.Signed? || t.status.Sent?) && t.signature in a.found)
    && !(Sweeps(j, a) && t.signature in a.landed)
  }

  lemma LapsedIsLost(s: State, j: RunJournal, a: Answers, t: JournalTx)
    requires Truthful(s.chain, a) && JournalOk(s, j) && t in j.txs && LandedOk(s, t.signature)
    ensures OutcomeOf(t, Outcomes(j.txs, a, Sweeps(j, a))).Lapsed? <==> Lost(j, a, t)
    ensures !OutcomeOf(t, Outcomes(j.txs, a, Sweeps(j, a))).Refused?
  {
    hide Sweeps;
    OutcomesAt(j.txs, a, Sweeps(j, a), t);
    assert TxOk(s, t);
  }

  ghost predicate LostPayment(s: State, j: RunJournal, a: Answers, w: Wallet, t: JournalTx) {
    t in j.txs && w in t.rows && LandedOk(s, t.signature) && Lost(j, a, t)
  }

  /** A row that step 0 leaves to send was paid by the run exactly when the transfer that paid it is lost to every lookup. */
  lemma TodoPaidExactly(s: State, j: RunJournal, a: Answers, w: Wallet)
    requires Truthful(s.chain, a) && CopyOk(s, j) && OrdersOk(s) && w in TodoRows(Evaluate(j, a, s.destinations))
    ensures IsPaid(s, w) <==> exists t :: LostPayment(s, j, a, w, t)
  {
    hide Sweeps, StatesOf, Truthful, Lost;
    var outcomes := Outcomes(j.txs, a, Sweeps(j, a));
    StatesBase(j, outcomes, s.destinations, if Sweeps(j, a) then a.transfers else []);
    JournalStateMeaning(j.txs, outcomes, w);
    if IsPaid(s, w) {
      var sig :| sig in s.made && PaidBy(s, sig, w);
      assert sig in Signatures(j.txs);
      var t :| t in j.txs && t.signature == sig;
      assert TxOk(s, t);
      NotCovered(j.txs, outcomes, w, t);
      LapsedIsLost(s, j, a, t);
      assert LostPayment(s, j, a, w, t);
    }
    if exists t :: LostPayment(s, j, a, w, t) {
      var t :| LostPayment(s, j, a, w, t);
      assert TxOk(s, t);
      assert PaidBy(s, t.signature, w);
    }
  }

  lemma NotCovered(txs: seq<JournalTx>, outcomes: map<Signature, Outcome>, w: Wallet, t: JournalTx)
    requires t in txs && w in t.rows
    requires !Covered(txs, outcomes, w, Landed) && !Covered(txs, outcomes, w, Waiting)
    ensures OutcomeOf(t, outcomes).Refused? || OutcomeOf(t, outcomes).Lapsed?
  {
    var i :| 0 <= i < |txs| && txs[i] == t;
    assert !Pays(txs[i], outcomes, w, Landed) && !Pays(txs[i], outcomes, w, Waiting);
  }

  /** What the backstop leaves alone comes from the journal. */
  lemma StatesBase(j: RunJournal, outcomes: map<Signature, Outcome>, destinations: map<Wallet, Address>,
                   transfers: seq<Transfer>)
    ensures
      var states := StatesOf(j, outcomes, destinations, transfers);
      && states.Keys == Wallets(j.rows)
      && (forall w | w in states :: states[w] == JournalState(j.txs, outcomes, w)
                                   || (ByTransfer(states[w]) && JournalState(j.txs, outcomes, w).Todo?))
      && ((forall t | t in transfers :: t.signature in Signatures(j.txs)) ==> forall w | w in states :: states[w] == JournalState(j.txs, outcomes, w))
  {
    var base := JournalStates(j, outcomes);
    forall w | w in base ensures !ByTransfer(base[w]) {
      JournalStateMeaning(j.txs, outcomes, w);
    }
    BackstopCountsOnce(base, j.rows, Signatures(j.txs), destinations, transfers);
    if forall t | t in transfers :: t.signature in Signatures(j.txs) {
      NothingToSweep(Sweep(base, {}), j.rows, Signatures(j.txs), destinations, transfers);
    }
  }

  /** Once step 0 lets the send go on, every order of the run is decided. */
  lemma NothingUndecided(s: State, j: RunJournal, a: Answers)
    requires Truthful(s.chain, a)
    requires CopyOk(s, j) && OrdersOk(s) && Exclusive(s) && !s.tab.Minting?
    requires !Undecided(Evaluate(j, a, s.destinations))
    ensures AllDecided(s)
  {
    var swept := Sweeps(j, a);
    var outcomes := Outcomes(j.txs, a, swept);
    var e := Evaluate(j, a, s.destinations);
    StatesBase(j, outcomes, s.destinations, if swept then a.transfers else []);
    forall sig | sig in s.made ensures Decided(s, sig) {
      if s.made[sig].Pay? && MayArrive(s, sig) {
        assert sig in Signatures(j.txs);
        var t :| t in j.txs && t.signature == sig;
        assert TxOk(s, t);
        VerdictTrue(s, j, a, t);
        if OutcomeOf(t, outcomes).Waiting? && Alive(s, sig) {
          PaidTwice(s, j, a, t, e);
        }
      } else if j.mint.Some? && j.mint.value.signature == sig {
        MintVerdictTrue(s, j, a);
      }
    }
  }

  lemma OnlyPayer(s: State, j: RunJournal, a: Answers, t: JournalTx, w: Wallet, u: JournalTx)
    requires Truthful(s.chain, a) && JournalOk(s, j) && Exclusive(s)
    requires t in j.txs && u in j.txs && w in t.rows && TxOk(s, t) && Alive(s, t.signature)
    requires OutcomeOf(t, Outcomes(j.txs, a, Sweeps(j, a))).Waiting?
    ensures !Pays(u, Outcomes(j.txs, a, Sweeps(j, a)), w, Landed)
  {
    assert TxOk(s, u);
    VerdictTrue(s, j, a, u);
    OutcomesAt(j.txs, a, Sweeps(j, a), t);
    OutcomesAt(j.txs, a, Sweeps(j, a), u);
  }

  /** A waiting transaction shows as a pending row unless another one already paid that row. */
  lemma PaidTwice(s: State, j: RunJournal, a: Answers, t: JournalTx, e: Evaluation)
    requires Truthful(s.chain, a) && JournalOk(s, j) && OrdersOk(s) && Exclusive(s)
    requires e == Evaluate(j, a, s.destinations) && t in j.txs && TxOk(s, t)
    requires OutcomeOf(t, Outcomes(j.txs, a, Sweeps(j, a))).Waiting? && Alive(s, t.signature)
    ensures Undecided(e)
  {
    var swept := Sweeps(j, a);
    var outcomes := Outcomes(j.txs, a, swept);
    StatesBase(j, outcomes, s.destinations, if swept then a.transfers else []);
    var w := t.rows[0];
    assert w in AsSet(t.rows);
    JournalStateMeaning(j.txs, outcomes, w);
    var i :| 0 <= i < |j.txs| && j.txs[i] == t;
    assert Pays(j.txs[i], outcomes, w, Waiting);
    forall k | 0 <= k < |j.txs| ensures !Pays(j.txs[k], outcomes, w, Landed) {
      OnlyPayer(s, j, a, t, w, j.txs[k]);
    }
    assert !Covered(j.txs, outcomes, w, Landed);
    assert e.states[w].Pending?;
  }

  lemma ReadingSound(s: State, i: nat, a: Answers, dismiss: bool)
    requires Sound(s) && Next(s, FinishReading(i, a, dismiss)).Some? && Admissible(s, FinishReading(i, a, dismiss))
    ensures Sound(Next(s, FinishReading(i, a, dismiss)).value)
  {
    hide Evaluate, Complete, Exclusive, Undecided;
    var s' := AfterReading(s, i, a, dismiss);
    AgedCopies(s, s');
    AgedTab(s, s');
    ReadersKept(s, i);
    if WritesBack(s, i, a, dismiss) {
      EvaluatedOk(s, s.readers[i], a);
      SameButDismissed(s', Evaluate(s.readers[i], a, s.destinations).journal);
    }
  }

  lemma SameButDismissed(s: State, j: RunJournal)
    ensures CopyOk(s, j) <==> CopyOk(s, j.(dismissed := true))
  {
  }

  lemma ReadersKept(s: State, i: nat)
    requires i < |s.readers|
    ensures forall j | j in s.readers[..i] + s.readers[i + 1..] :: j in s.readers
  {
  }

  lemma StateKeys(j: RunJournal, a: Answers, destinations: map<Wallet, Address>)
    ensures Evaluate(j, a, destinations).states.Keys == Wallets(j.rows)
  {
    StatesBase(j, Outcomes(j.txs, a, Sweeps(j, a)), destinations, if Sweeps(j, a) then a.transfers else []);
  }

  lemma CheckSound(s: State, a: Answers, stored: bool)
    requires Sound(s) && Next(s, Check(a, stored)).Some? && Admissible(s, Check(a, stored))
    ensures Sound(Next(s, Check(a, stored)).value)
  {
    hide Evaluate, Complete, Exclusive;
    var s' := AfterCheck(s, a, stored);
    var j := s.tab.snapshot;
    EvaluatedOk(s, j, a);
    StateKeys(j, a, s.destinations);
    if !Undecided(Evaluate(j, a, s.destinations)) {
      NothingUndecided(s, j, a);
    }
    AgedCopies(s, s');
  }

  // ---- the steps of the send -----------------------------------------------------------

  lemma WithTxCopy(s: State, j: RunJournal, t: JournalTx)
    requires CopyOk(s, j) && TxOk(s, t)
    ensures CopyOk(s, WithTx(j, t))
  {
    var k := WithTx(j, t);
    forall sig | sig in s.made && s.made[sig].Pay? && MayArrive(s, sig) ensures sig in Signatures(k.txs) {
      var u :| u in j.txs && u.signature == sig;
      assert (if sig == t.signature then t else u) in k.txs;
    }
  }

  lemma {:induction false} MarkAllCopy(s: State, j: RunJournal, marks: seq<(Signature, TxStatus)>)
    requires CopyOk(s, j)
    requires forall k | 0 <= k < |marks| :: marks[k].0 in s.made ==> StatusOk(s, marks[k].0, marks[k].1)
    ensures CopyOk(s, MarkAll(j, marks))
  {
    if marks != [] {
      var init, last := marks[..|marks| - 1], marks[|marks| - 1];
      MarkAllCopy(s, j, init);
      var k := MarkAll(j, init);
      var found := Find(k.txs, last.0);
      if found.Some? {
        assert TxOk(s, found.value);
        WithTxCopy(s, k, found.value.(status := last.1));
      }
    }
  }

  lemma {:induction false} OrdersAt(batch: seq<JournalTx>)
    requires UniqueSignatures(batch)
    ensures Orders(batch).Keys == Signatures(batch)
    ensures forall t | t in batch :: Orders(batch)[t.signature] == Pay(t.rows, t.lastValid)
  {
    if batch != [] {
      var init, last := batch[..|batch| - 1], batch[|batch| - 1];
      assert batch == init + [last];
      OrdersAt(init);
    }
  }

  lemma {:induction false} AddAllHolds(j: RunJournal, batch: seq<JournalTx>)
    requires UniqueSignatures(batch) && UniqueSignatures(j.txs)
    requires Signatures(batch) !! Signatures(j.txs)
    ensures
      var k := AddAll(j, batch);
      && (forall t :: t in k.txs <==> t in j.txs || t in batch)
      && UniqueSignatures(k.txs) && k.rows == j.rows && k.mint == j.mint
  {
    if batch != [] {
      var init, last := batch[..|batch| - 1], batch[|batch| - 1];
      assert batch == init + [last];
      AddAllHolds(j, init);
      assert last.signature in Signatures(batch);
      assert forall t | t in j.txs :: t.signature in Signatures(j.txs);
    }
  }

  /** A mint order does not touch what the copies of the journal say, nor which rows are unpaid. */
  lemma SubmittedCopies(s: State, s': State, sig: Signature, order: Order)
    requires sig !in s.made && order.Create? && s'.made == s.made[sig := order]
    requires s'.list == s.list && s'.chain == s.chain.(received := s.chain.received + {sig})
    requires Exclusive(s) && !s.tab.Sending? && !s'.tab.Sending?
    ensures Later(s, s') && Exclusive(s')
    ensures forall j | JournalOk(s, j) :: JournalOk(s', j)
    ensures forall j | Complete(s, j) :: Complete(s', j)
    ensures forall todo | AllUnpaid(s, todo) :: AllUnpaid(s', todo)
  {
    forall j | JournalOk(s, j) ensures JournalOk(s', j) {
      LaterJournal(s, s', j);
    }
    forall x | x in s.made ensures Alive(s', x) == Alive(s, x) {
    }
    forall todo, w | AllUnpaid(s, todo) && w in todo ensures Unpaid(s', w) {
    }
  }

  lemma SubmitMintSound(s: State, sig: Signature, lastValid: nat)
    requires Sound(s) && Next(s, SubmitMint(sig, lastValid)).Some?
    ensures Sound(Next(s, SubmitMint(sig, lastValid)).value)
  {
    hide JournalOk, Unpaid, Complete, Exclusive, AllUnpaid;
    var s' := Next(s, SubmitMint(sig, lastValid)).value;
    SubmittedCopies(s, s', sig, s'.made[sig]);
    forall x | x in s.made ensures Decided(s', x) {
      LaterOrder(s, s', x);
    }
  }

  lemma JournalMintSound(s: State)
    requires Sound(s) && Next(s, JournalTheMint).Some?
    ensures Sound(Next(s, JournalTheMint).value)
  {
    hide Exclusive, AllUnpaid;
    var s' := Next(s, JournalTheMint).value;
    AgedCopies(s, s');
    assert MintKnown(s', s'.tab.j);
  }

  lemma MintMarked(s: State, j: RunJournal, status: TxStatus)
    requires CopyOk(s, j) && j.mint.Some? && !status.Signed? && StatusOk(s, j.mint.value.signature, status)
    ensures CopyOk(s, j.(mint := Some(j.mint.value.(status := status))))
  {
  }

  lemma MintAnswerSound(s: State, outcome: Outcome)
    requires Sound(s) && Next(s, MintAnswer(outcome)).Some? && Admissible(s, MintAnswer(outcome))
    ensures Sound(Next(s, MintAnswer(outcome)).value)
  {
    hide Complete, MintKnown, Exclusive, AllUnpaid;
    var s' := Next(s, MintAnswer(outcome)).value;
    var status := s'.disk.value.mint.value.status;
    MintMarked(s, s.tab.j, status);
    AgedCopies(s, s');
  }

  /** `s'` has the orders of `batch` besides those of `s`, and the chain has not moved. */
  ghost predicate Writes(s: State, s': State, batch: seq<JournalTx>) {
    && s'.made == s.made + Orders(batch) && s'.chain == s.chain && s'.list == s.list
    && s.tab.Held? && s'.tab.Sending? && s'.tab.queue == batch
    && UniqueSignatures(batch)
    && (forall k | 0 <= k < |batch| :: batch[k].status == Signed && batch[k].signature !in s.made)
  }

  /** Every order after the write is an old one, untouched, or one of the batch. */
  lemma NewOrders(s: State, s': State, batch: seq<JournalTx>)
    requires Writes(s, s', batch)
    ensures Later(s, s')
    ensures forall sig | sig in s.made :: Alive(s', sig) == Alive(s, sig) && s'.made[sig] == s.made[sig]
    ensures forall sig | sig in s'.made && sig !in s.made :: exists k :: FromBatch(s', batch, sig, k)
    ensures forall k | 0 <= k < |batch| :: FromBatch(s', batch, batch[k].signature, k) && batch[k].signature !in s.made
  {
    OrdersAt(batch);
    forall k | 0 <= k < |batch| ensures FromBatch(s', batch, batch[k].signature, k) {
      assert batch[k] in batch;
    }
    forall sig | sig in s'.made && sig !in s.made ensures exists k :: FromBatch(s', batch, sig, k) {
      assert sig in Signatures(batch);
      var k :| 0 <= k < |batch| && batch[k].signature == sig;
      assert FromBatch(s', batch, batch[k].signature, k);
    }
  }

  ghost predicate FromBatch(s': State, batch: seq<JournalTx>, sig: Signature, k: int) {
    0 <= k < |batch| && batch[k].signature == sig && sig in s'.made && s'.made[sig] == Pay(batch[k].rows, batch[k].lastValid)
  }

  lemma WrittenUnpaid(s: State, s': State, batch: seq<JournalTx>, rest: seq<seq<Wallet>>)
    requires Writes(s, s', batch) && RestOk(s, RowsOf(batch) + rest)
    ensures RestOk(s', rest)
  {
    var all := RowsOf(batch) + rest;
    NewOrders(s, s', batch);
    assert forall k | 0 <= k < |rest| :: rest[k] == all[|batch| + k];
    forall k, w | 0 <= k < |rest| && w in rest[k] ensures Unpaid(s', w) {
      assert w in all[|batch| + k] && Unpaid(s, w);
      assert forall i | 0 <= i < |batch| :: all[i] == batch[i].rows && w !in all[i];
      assert forall i | 0 <= i < |batch| :: w !in batch[i].rows;
      assert forall sig, i | FromBatch(s', batch, sig, i) :: w !in s'.made[sig].rows;
    }
  }

  lemma WrittenExclusive(s: State, s': State, batch: seq<JournalTx>, a: Signature, b: Signature, w: Wallet)
    requires Writes(s, s', batch) && RestOk(s, RowsOf(batch)) && Exclusive(s)
    requires a in s'.made && b in s'.made && a != b && s'.made[a].Pay? && s'.made[b].Pay?
    requires w in s'.made[a].rows && w in s'.made[b].rows
    ensures !Alive(s', a) || !Alive(s', b)
  {
    NewOrders(s, s', batch);
    var all := RowsOf(batch);
    if a !in s.made {
      var i :| FromBatch(s', batch, a, i);
      assert w in all[i] && Unpaid(s, w);
      assert forall k | 0 <= k < |batch| :: all[k] == batch[k].rows;
      assert forall k | 0 <= k < |batch| && w in batch[k].rows :: k == i;
    } else if b !in s.made {
      var k :| FromBatch(s', batch, b, k);
      assert w in all[k] && Unpaid(s, w);
    }
  }

  lemma WrittenOrders(s: State, s': State, batch: seq<JournalTx>)
    requires Writes(s, s', batch) && RestOk(s, RowsOf(batch)) && OrdersOk(s) && Exclusive(s)
    ensures OrdersOk(s') && Exclusive(s')
  {
    NewOrders(s, s', batch);
    var all := RowsOf(batch);
    forall sig | sig in s'.made && s'.made[sig].Pay?
      ensures s'.made[sig].rows != [] && NoRepeats(s'.made[sig].rows) && AsSet(s'.made[sig].rows) <= Wallets(s'.list)
    {
      if sig !in s.made {
        var i :| FromBatch(s', batch, sig, i);
        assert forall w | w in all[i] :: Unpaid(s, w);
      }
    }
    forall a, b, w | a in s'.made && b in s'.made && a != b && s'.made[a].Pay? && s'.made[b].Pay?
                     && w in s'.made[a].rows && w in s'.made[b].rows
      ensures !Alive(s', a) || !Alive(s', b)
    {
      WrittenExclusive(s, s', batch, a, b, w);
    }
  }

  lemma WrittenTxs(s: State, s': State, j: RunJournal, batch: seq<JournalTx>)
    requires Writes(s, s', batch) && JournalOk(s, j)
    ensures JournalOk(s', AddAll(j, batch)) && AddAll(j, batch).mint == j.mint
    ensures forall t :: t in AddAll(j, batch).txs <==> t in j.txs || t in batch
  {
    NewOrders(s, s', batch);
    LaterJournal(s, s', j);
    forall sig | sig in Signatures(batch) ensures sig !in Signatures(j.txs) {
      var i :| 0 <= i < |batch| && batch[i].signature == sig;
    }
    AddAllHolds(j, batch);
    forall t | t in batch ensures TxOk(s', t) {
      var i :| 0 <= i < |batch| && batch[i] == t;
    }
  }

  lemma WrittenCopy(s: State, s': State, j: RunJournal, batch: seq<JournalTx>)
    requires Writes(s, s', batch) && CopyOk(s, j) && !s.tab.Minting?
    ensures CopyOk(s', AddAll(j, batch))
  {
    NewOrders(s, s', batch);
    WrittenTxs(s, s', j, batch);
    var k := AddAll(j, batch);
    forall sig | sig in s'.made && s'.made[sig].Pay? && MayArrive(s', sig) ensures sig in Signatures(k.txs) {
      if sig in s.made {
        var t :| t in j.txs && t.signature == sig;
        assert t in k.txs;
      } else {
        var i :| FromBatch(s', batch, sig, i);
        assert batch[i] in k.txs;
      }
    }
    forall sig | sig in s'.made && s'.made[sig].Create? ensures Decided(s', sig) || (k.mint.Some? && k.mint.value.signature == sig) {
      assert sig in s.made;
    }
  }

  lemma WrittenCopies(s: State, s': State, batch: seq<JournalTx>)
    requires Writes(s, s', batch)
    ensures forall k | JournalOk(s, k) :: JournalOk(s', k)
    ensures forall t | t in batch :: t.signature in s'.made && s'.made[t.signature] == Pay(t.rows, t.lastValid)
  {
    NewOrders(s, s', batch);
    forall k | JournalOk(s, k) ensures JournalOk(s', k) {
      LaterJournal(s, s', k);
    }
    forall t | t in batch ensures t.signature in s'.made && s'.made[t.signature] == Pay(t.rows, t.lastValid) {
      var i :| 0 <= i < |batch| && batch[i] == t;
      assert FromBatch(s', batch, t.signature, i);
    }
  }

  lemma WriteSound(s: State)
    requires Sound(s) && Next(s, WriteJournal).Some?
    ensures Sound(Next(s, WriteJournal).value)
  {
    hide AddAll, Orders, JournalOk, RestOk, OrdersOk, Exclusive, CopyOk;
    var s' := Next(s, WriteJournal).value;
    var j, batch, rest := s.tab.j, s.tab.batch, s.tab.rest;
    assert Writes(s, s', batch);
    FirstPart(s, RowsOf(batch), rest);
    WrittenOrders(s, s', batch);
    WrittenCopy(s, s', j, batch);
    WrittenUnpaid(s, s', batch, rest);
    WrittenCopies(s, s', batch);
  }

  lemma FirstPart(s: State, first: seq<seq<Wallet>>, rest: seq<seq<Wallet>>)
    requires RestOk(s, first + rest)
    ensures RestOk(s, first)
  {
    assert forall k | 0 <= k < |first| :: first[k] == (first + rest)[k];
  }

  lemma MarkSentSound(s: State, signatures: seq<Signature>)
    requires Sound(s) && Next(s, MarkSent(signatures)).Some?
    ensures Sound(Next(s, MarkSent(signatures)).value)
  {
    hide MarkAll, JournalOk, Complete, Exclusive, RestOk;
    MarkAllCopy(s, s.tab.j, SentMarks(signatures));
    AgedCopies(s, Next(s, MarkSent(signatures)).value);
  }

  lemma ReportSound(s: State, marks: seq<(Signature, TxStatus)>)
    requires Sound(s) && Next(s, Report(marks)).Some? && Admissible(s, Report(marks))
    ensures Sound(Next(s, Report(marks)).value)
  {
    hide MarkAll, JournalOk, Complete, Exclusive, RestOk;
    MarkAllCopy(s, s.tab.j, marks);
    AgedCopies(s, Next(s, Report(marks)).value);
  }

  lemma SignSound(s: State, batch: seq<JournalTx>)
    requires Sound(s) && Next(s, Sign(batch)).Some?
    ensures Sound(Next(s, Sign(batch)).value)
  {
    var s' := Next(s, Sign(batch)).value;
    assert RowsOf(batch) + s.tab.rest[|batch|..] == s.tab.rest;
    AgedCopies(s, s');
  }

  /** A batch signed too slowly is given up before it is journalled: its rows are signed for again. */
  lemma DiscardSound(s: State)
    requires Sound(s) && Next(s, Discard).Some?
    ensures Sound(Next(s, Discard).value)
  {
    hide JournalOk, Complete, Exclusive, RestOk;
    AgedCopies(s, Next(s, Discard).value);
  }

  lemma BroadcastSound(s: State, e: Event)
    requires Sound(s) && (e.Broadcast? || e.Skip? || e.NextPrompt?) && Next(s, e).Some?
    ensures Sound(Next(s, e).value)
  {
    hide JournalOk, Complete, MintKnown, Exclusive, RestOk;
    var s' := Next(s, e).value;
    var queue := s.tab.queue;
    if queue != [] {
      assert forall t | t in queue[1..] :: t in queue;
      assert queue[0] in queue;
    }
    AgedCopies(s, s');
  }

  lemma NetworkSound(s: State, e: Event)
    requires Sound(s) && Next(s, e).Some? && (e.Advance? || e.Land? || e.Foreign?)
    ensures Sound(Next(s, e).value)
  {
    AgedSound(s, Next(s, e).value);
  }

  /** The page's view and the reads started from it. */
  lemma ViewSound(s: State, e: Event)
    requires Sound(s) && Next(s, e).Some? && (e.LoadView? || e.StartReading?)
    ensures Sound(Next(s, e).value)
  {
    var s' := Next(s, e).value;
    AgedTab(s, s');
    AgedCopies(s, s');
  }

  /** The send stops, with its tab or alone: nothing written is lost. */
  lemma StopSound(s: State, e: Event)
    requires Sound(s) && Next(s, e).Some? && Admissible(s, e) && (e.CloseTab? || e.Abort?)
    ensures Sound(Next(s, e).value)
  {
    AgedCopies(s, Next(s, e).value);
  }

  lemma BeginSound(s: State)
    requires Sound(s) && Next(s, Begin).Some?
    ensures Sound(Next(s, Begin).value)
  {
    AgedCopies(s, Next(s, Begin).value);
  }

  /** Every row let through is unpaid: nothing is undecided, and what the run paid shows and is not confirmed. */
  lemma ClearedUnpaid(s: State, todo: set<Wallet>, reading: Consent.Reading, page: Consent.Page)
    requires todo <= Wallets(s.list) && AllDecided(s) && Clears(todo, reading, page) && ShowsPaid(s, todo, reading, page)
    ensures AllUnpaid(s, todo)
  {
    forall w | w in todo ensures Unpaid(s, w) {
      assert !IsPaid(s, w);
      forall sig | sig in s.made && s.made[sig].Pay? && w in s.made[sig].rows ensures !Alive(s, sig) {
        assert LandedOk(s, sig) ==> PaidBy(s, sig, w);
      }
    }
  }

  lemma ReadPaidSound(s: State, reading: Consent.Reading, page: Consent.Page)
    requires Sound(s) && Next(s, ReadPaidBefore(reading, page)).Some? && Admissible(s, ReadPaidBefore(reading, page))
    ensures Sound(Next(s, ReadPaidBefore(reading, page)).value)
  {
    hide Complete, JournalOk, Exclusive, Clears, ShowsPaid, MintKnown, Unpaid;
    var s' := Next(s, ReadPaidBefore(reading, page)).value;
    AgedCopies(s, s');
    if s'.tab.Cleared? {
      ClearedUnpaid(s, s.tab.todo, reading, page);
    }
  }

  lemma OpenJournalSound(s: State)
    requires Sound(s) && Next(s, OpenJournal).Some?
    ensures Sound(Next(s, OpenJournal).value)
  {
    var s' := Next(s, OpenJournal).value;
    AgedCopies(s, s');
    assert CopyOk(s', s'.disk.value);
  }

  lemma PlanSound(s: State, e: Event)
    requires Sound(s) && Next(s, e).Some? && (e.NothingToCreate? || e.SaveEvidence? || e.Plan?)
    ensures Sound(Next(s, e).value)
  {
    hide MintKnown;
    hide JournalOk, Complete, Exclusive;
    AgedCopies(s, Next(s, e).value);
  }

  predicate Prepares(e: Event) {
    || e.Begin? || e.Check? || e.ReadPaidBefore? || e.OpenJournal? || e.NothingToCreate? || e.SubmitMint? || e.JournalTheMint?
    || e.MintAnswer? || e.SaveEvidence? || e.Plan?
  }

  predicate Sends(e: Event) {
    || e.Sign? || e.WriteJournal? || e.Discard? || e.Broadcast? || e.Skip? || e.NextPrompt? || e.MarkSent? || e.Report?
  }

  /** The events beside the send. */
  lemma OutsideSound(s: State, e: Event)
    requires Sound(s) && Next(s, e).Some? && Admissible(s, e)
    requires !Prepares(e) && !Sends(e)
    ensures Sound(Next(s, e).value)
  {
    hide Next, Sound, Admissible;
    if e.FinishReading? {
      ReadingSound(s, e.i, e.answers, e.dismiss);
    } else if e.LoadView? || e.StartReading? {
      ViewSound(s, e);
    } else if e.CloseTab? || e.Abort? {
      StopSound(s, e);
    } else {
      NetworkSound(s, e);
    }
  }

  /** The send's steps up to the plan. */
  lemma PrepareSound(s: State, e: Event)
    requires Sound(s) && Next(s, e).Some? && Admissible(s, e)
    requires Prepares(e)
    ensures Sound(Next(s, e).value)
  {
    hide Next, Sound, Admissible;
    match e
    case Begin => BeginSound(s);
    case Check(a, stored) => CheckSound(s, a, stored);
    case ReadPaidBefore(reading, page) => ReadPaidSound(s, reading, page);
    case OpenJournal => OpenJournalSound(s);
    case SubmitMint(sig, lastValid) => SubmitMintSound(s, sig, lastValid);
    case JournalTheMint => JournalMintSound(s);
    case MintAnswer(outcome) => MintAnswerSound(s, outcome);
    case _ => PlanSound(s, e);
  }

  /** The send's steps from the first prompt on. */
  lemma SendSound(s: State, e: Event)
    requires Sound(s) && Next(s, e).Some? && Admissible(s, e)
    requires Sends(e)
    ensures Sound(Next(s, e).value)
  {
    hide Next, Sound, Admissible;
    match e
    case Sign(batch) => SignSound(s, batch);
    case Discard => DiscardSound(s);
    case WriteJournal => WriteSound(s);
    case MarkSent(signatures) => MarkSentSound(s, signatures);
    case Report(marks) => ReportSound(s, marks);
    case _ => BroadcastSound(s, e);
  }

  /** Every event that can happen keeps the invariant. */
  lemma StepSound(s: State, e: Event)
    requires Sound(s) && Next(s, e).Some? && Admissible(s, e)
    ensures Sound(Next(s, e).value)
  {
    hide Next, Sound, Admissible;
    if Prepares(e) {
      PrepareSound(s, e);
    } else if Sends(e) {
      SendSound(s, e);
    } else {
      OutsideSound(s, e);
    }
  }
}
