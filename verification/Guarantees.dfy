// What holds in every reachable state of the distribution protocol.
module Guarantees {
  import opened Journal
  import opened Distribution
  import opened Safety

  lemma {:induction false} RunSound(s: State, es: seq<Event>, end: State)
    requires Sound(s) && Runs(s, es, end)
    ensures Sound(end)
    decreases |es|
  {
    hide Sound, Next, Admissible;
    if es != [] {
      StepSound(s, es[0]);
      RunSound(Next(s, es[0]).value, es[1..], end);
    }
  }

  lemma ReachedSound(list: seq<Row>, initial: nat, destinations: map<Wallet, Address>, es: seq<Event>, end: State)
    requires Runs(Start(list, initial, destinations), es, end)
    ensures Sound(end)
  {
    RunSound(Start(list, initial, destinations), es, end);
  }

  /**
   * Over every run, however its signs, broadcasts, late landings, failures,
   * expiries, closed tabs, reloads and resumes interleave, a row is paid by
   * one transaction only, and once in it.
   */
  lemma AtMostOnce(list: seq<Row>, initial: nat, destinations: map<Wallet, Address>, es: seq<Event>, end: State,
                   w: Wallet, a: Signature, b: Signature)
    requires Runs(Start(list, initial, destinations), es, end)
    requires PaidBy(end, a, w) && PaidBy(end, b, w)
    ensures a == b && NoRepeats(end.made[a].rows) && w in Wallets(end.list)
  {
    ReachedSound(list, initial, destinations, es, end);
    assert w in AsSet(end.made[a].rows);
  }

  /** The journal on disk holds the transfer `sig` with exactly its rows and expiry height. */
  ghost predicate OnDisk(s: State, sig: Signature) {
    && sig in s.made && s.made[sig].Pay?
    && s.disk.Some?
    && exists t :: t in s.disk.value.txs && t.signature == sig && s.made[sig] == Pay(t.rows, t.lastValid)
  }

  /** A copy of the journal that names a transfer names it with its rows and its expiry height. */
  lemma NamedOnDisk(s: State, sig: Signature)
    requires s.disk.Some? && JournalOk(s, s.disk.value) && sig in Signatures(s.disk.value.txs)
    ensures OnDisk(s, sig)
  {
    var t :| t in s.disk.value.txs && t.signature == sig;
    assert TxOk(s, t);
  }

  /** Write-ahead: in every reachable state, whatever the network received is on disk. */
  lemma WriteAhead(list: seq<Row>, initial: nat, destinations: map<Wallet, Address>, es: seq<Event>, end: State,
                   sig: Signature)
    requires Runs(Start(list, initial, destinations), es, end)
    requires sig in end.chain.received
    ensures sig in end.made && (end.made[sig].Pay? ==> OnDisk(end, sig))
  {
    ReachedSound(list, initial, destinations, es, end);
    if end.made[sig].Pay? {
      NamedOnDisk(end, sig);
    }
  }

  /** While a transfer of the run may still land, a send started again stops at its first step. */
  lemma NothingSentMeanwhile(s: State, a: Answers, stored: bool, sig: Signature)
    requires Sound(s) && s.tab.Checking? && Admissible(s, Check(a, stored))
    requires sig in s.made && !Decided(s, sig)
    ensures Next(s, Check(a, stored)).value.tab == Idle
  {
    if !Undecided(Evaluate(s.tab.snapshot, a, s.destinations)) {
      NothingUndecided(s, s.tab.snapshot, a);
    }
  }

  /**
   * What step 0 tells the send about each row: one done by the journal was
   * paid by that transaction, and one to send was not paid by the run unless
   * every lookup lost the transfer that paid it.
   */
  lemma StatesTrue(s: State, j: RunJournal, a: Answers, w: Wallet)
    requires Sound(s) && CopyOk(s, j) && Truthful(s.chain, a) && w in Wallets(s.list)
    ensures
      var states := Evaluate(j, a, s.destinations).states;
      && w in states
      && (states[w].Todo? ==> (IsPaid(s, w) <==> exists t :: LostPayment(s, j, a, w, t)))
      && (states[w].Done? && states[w].via.ByJournal? ==> PaidBy(s, states[w].signature, w))
  {
    hide Exclusive, Truthful, Lost;
    var outcomes := Outcomes(j.txs, a, Sweeps(j, a));
    StatesBase(j, outcomes, s.destinations, if Sweeps(j, a) then a.transfers else []);
    var state := Evaluate(j, a, s.destinations).states[w];
    if state.Todo? {
      TodoPaidExactly(s, j, a, w);
    } else if state.Done? && state.via.ByJournal? {
      var t := PaidByJournal(j.txs, outcomes, w);
      VerdictTrue(s, j, a, t);
      assert TxOk(s, t);
    }
  }

  /** The transaction a row done by the journal is done by. */
  lemma {:induction false} PaidByJournal(txs: seq<JournalTx>, outcomes: map<Signature, Outcome>, w: Wallet)
    returns (t: JournalTx)
    requires JournalState(txs, outcomes, w).Done?
    ensures t in txs && Pays(t, outcomes, w, Landed) && t.signature == JournalState(txs, outcomes, w).signature
  {
    var init, last := txs[..|txs| - 1], txs[|txs| - 1];
    if JournalState(init, outcomes, w).Done? {
      t := PaidByJournal(init, outcomes, w);
    } else {
      t := last;
    }
  }

  /** The status lookup holds every landed transaction, at the height the chain is at. */
  ghost predicate Full(c: Chain, a: Answers) {
    && a.height == c.height
    && (forall sig | sig in c.landed ::
          sig in a.status && (if c.landed[sig] then a.status[sig].Settled? else a.status[sig].Errored?))
    && (forall sig | sig in a.status && !a.status[sig].NoStatus? :: sig in c.landed)
  }

  /** Executed, or its blocks are over. */
  predicate Over(c: Chain, sig: Signature, lastValid: nat) {
    sig in c.landed || c.height > lastValid
  }

  /** Every transaction the journal names is over. */
  ghost predicate AllOver(s: State, j: RunJournal) {
    && (forall t | t in j.txs :: Over(s.chain, t.signature, t.lastValid))
    && (j.mint.Some? ==> Over(s.chain, j.mint.value.signature, j.mint.value.lastValid))
  }

  lemma OverIsSeen(s: State, j: RunJournal, a: Answers, t: JournalTx)
    requires JournalOk(s, j) && t in j.txs && Full(s.chain, a) && AllOver(s, j)
    ensures
      var o := OutcomeOf(t, Outcomes(j.txs, a, Sweeps(j, a)));
      !o.Waiting? && (LandedOk(s, t.signature) ==> o.Landed?)
  {
    hide Sweeps;
    assert TxOk(s, t);
    OutcomesAt(j.txs, a, Sweeps(j, a), t);
    VerdictExactly(t, a, Sweeps(j, a));
  }

  lemma MintIsSeen(s: State, j: RunJournal, a: Answers)
    requires JournalOk(s, j) && j.mint.Some? && Full(s.chain, a) && AllOver(s, j)
    ensures !MintVerdict(j.mint.value, a, Sweeps(j, a)).Waiting?
  {
    hide Sweeps;
    assert MintOk(s, j.mint.value);
  }

  lemma NoRowWaits(s: State, j: RunJournal, a: Answers, w: Wallet)
    requires JournalOk(s, j) && Full(s.chain, a) && AllOver(s, j)
    ensures !JournalState(j.txs, Outcomes(j.txs, a, Sweeps(j, a)), w).Pending?
  {
    hide JournalOk, Full, AllOver, Outcomes, Sweeps;
    var outcomes := Outcomes(j.txs, a, Sweeps(j, a));
    forall i | 0 <= i < |j.txs| ensures !Pays(j.txs[i], outcomes, w, Waiting) {
      OverIsSeen(s, j, a, j.txs[i]);
    }
    assert !Covered(j.txs, outcomes, w, Waiting);
    JournalStateMeaning(j.txs, outcomes, w);
  }

  /** Once every transaction of the run is over and the network answers in full, nothing holds a send back. */
  lemma NothingWaits(s: State, a: Answers)
    requires Sound(s) && s.tab.Checking? && Full(s.chain, a) && AllOver(s, s.tab.snapshot)
    ensures !Undecided(Evaluate(s.tab.snapshot, a, s.destinations))
  {
    hide JournalOk, Full, AllOver, Outcomes, Sweeps, StatesOf, MintVerdict;
    var j := s.tab.snapshot;
    var outcomes := Outcomes(j.txs, a, Sweeps(j, a));
    var e := Evaluate(j, a, s.destinations);
    StatesBase(j, outcomes, s.destinations, if Sweeps(j, a) then a.transfers else []);
    forall w | w in e.states ensures !e.states[w].Pending? {
      NoRowWaits(s, j, a, w);
    }
    if j.mint.Some? {
      MintIsSeen(s, j, a);
    }
  }

  lemma SnapshotOk(s: State)
    requires Sound(s) && s.tab.Checking?
    ensures OrdersOk(s) && CopyOk(s, s.tab.snapshot)
  {
  }

  lemma PaidRowIsDone(s: State, a: Answers, w: Wallet)
    requires Sound(s) && s.tab.Checking? && Full(s.chain, a) && AllOver(s, s.tab.snapshot) && IsPaid(s, w)
    ensures w in Wallets(s.list) && w !in TodoRows(Evaluate(s.tab.snapshot, a, s.destinations))
  {
    hide Sound, Full, AllOver, Outcomes, Sweeps, StatesOf, MintKnown;
    var j := s.tab.snapshot;
    assert OrdersOk(s) && CopyOk(s, j) by { SnapshotOk(s); }
    var outcomes := Outcomes(j.txs, a, Sweeps(j, a));
    StatesBase(j, outcomes, s.destinations, if Sweeps(j, a) then a.transfers else []);
    var sig :| sig in s.made && PaidBy(s, sig, w);
    assert w in AsSet(s.made[sig].rows) && sig in Signatures(j.txs);
    var t :| t in j.txs && t.signature == sig;
    assert TxOk(s, t);
    OverIsSeen(s, j, a, t);
    var i :| 0 <= i < |j.txs| && j.txs[i] == t;
    assert Pays(j.txs[i], outcomes, w, Landed);
    assert Covered(j.txs, outcomes, w, Landed);
    JournalStateMeaning(j.txs, outcomes, w);
  }
}
