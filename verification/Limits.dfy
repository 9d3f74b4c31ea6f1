// Where the protocol's promises end: for each condition of `Admissible` that
// the code does not secure, when exactly a step breaks it, and a run that then
// breaks the promise.
module Limits {
  import Consent
  import opened Journal
  import opened Distribution
  import opened Safety
  import opened Guarantees
  import opened Conservation

  // ---- a read that writes an old copy ------------------------------------------------

  ghost predicate WriteAheadHolds(s: State) {
    forall sig | sig in s.chain.received && sig in s.made && s.made[sig].Pay? :: OnDisk(s, sig)
  }

  /** Every transfer the network has received is in this copy. */
  ghost predicate HoldsReceived(s: State, j: RunJournal) {
    forall sig | sig in s.chain.received && sig in s.made && s.made[sig].Pay? :: sig in Signatures(j.txs)
  }

  lemma EvaluatedNames(j: RunJournal, a: Answers, destinations: map<Wallet, Address>)
    ensures
      var k := Evaluate(j, a, destinations).journal;
      && Signatures(k.txs) == Signatures(j.txs)
      && (k.mint.Some? <==> j.mint.Some?)
      && (k.mint.Some? ==> k.mint.value.signature == j.mint.value.signature)
  {
    hide Sweeps, Outcomes, StatesOf, MintVerdict;
    SameSignatures(j.txs, Outcomes(j.txs, a, Sweeps(j, a)));
  }

  /** What is true of a copy does not depend on what the page has open. */
  lemma SameOrders(s: State, s': State, j: RunJournal)
    requires s'.list == s.list && s'.made == s.made && s'.chain == s.chain && s'.tab == s.tab
    ensures JournalOk(s', j) <==> JournalOk(s, j)
    ensures JournalOk(s', j.(dismissed := true)) <==> JournalOk(s, j)
  {
  }

  lemma WrittenBack(s: State, i: nat, a: Answers, dismiss: bool)
    requires i < |s.readers| && JournalOk(s, s.readers[i]) && Truthful(s.chain, a) && WritesBack(s, i, a, dismiss)
    ensures
      var s' := AfterReading(s, i, a, dismiss);
      && s'.disk.Some? && JournalOk(s', s'.disk.value)
      && Signatures(s'.disk.value.txs) == Signatures(s.readers[i].txs)
      && (s'.disk.value.mint.Some? <==> s.readers[i].mint.Some?)
      && (s'.disk.value.mint.Some? ==> s'.disk.value.mint.value.signature == s.readers[i].mint.value.signature)
  {
    hide Truthful, Undecided, Evaluate, JournalOk, Signatures;
    var j := s.readers[i];
    EvaluatedOk(s, j, a);
    EvaluatedNames(j, a, s.destinations);
    SameOrders(s, AfterReading(s, i, a, dismiss), Evaluate(j, a, s.destinations).journal);
  }

  /**
   * A background read ("Check again", "Read again", the resume effect) or a
   * dismissal writes the copy it started from: right after it writes, the
   * journal still holds all the network received if and only if that copy did.
   */
  lemma StaleReadExactly(s: State, i: nat, a: Answers, dismiss: bool)
    requires Sound(s) && i < |s.readers| && Truthful(s.chain, a) && WritesBack(s, i, a, dismiss)
    ensures WriteAheadHolds(AfterReading(s, i, a, dismiss)) <==> HoldsReceived(s, s.readers[i])
  {
    hide JournalOk, Evaluate, Undecided, Exclusive, TabOk;
    var s' := AfterReading(s, i, a, dismiss);
    WrittenBack(s, i, a, dismiss);
    forall sig | sig in s.chain.received && sig in s.made && s.made[sig].Pay?
      ensures OnDisk(s', sig) <==> sig in Signatures(s.readers[i].txs)
    {
      if sig in Signatures(s'.disk.value.txs) {
        NamedOnDisk(s', sig);
      }
    }
  }

  /** The tab goes on sending what it has signed, and nothing else happens. */
  ghost predicate SendsOn(s: State, es: seq<Event>, end: State)
    decreases |es|
  {
    if es == [] then end == s
    else (es[0].Broadcast? || es[0].Skip?) && Next(s, es[0]).Some? && SendsOn(Next(s, es[0]).value, es[1..], end)
  }

  lemma {:induction false} QueuedIsSent(s: State, sig: Signature) returns (es: seq<Event>, end: State)
    requires Queued(s, sig)
    ensures SendsOn(s, es, end) && sig in end.chain.received && end.made == s.made && end.disk == s.disk
    decreases |s.tab.queue|
  {
    if s.tab.queue[0].signature == sig {
      end := Next(s, Broadcast).value;
      es := [Broadcast];
      assert SendsOn(end, [], end);
    } else {
      var next := Next(s, Skip).value;
      var t :| t in s.tab.queue && t.signature == sig;
      assert t in s.tab.queue[1..];
      es, end := QueuedIsSent(next, sig);
      es := [Skip] + es;
      assert SendsOn(s, es, end);
    }
  }

  lemma {:induction false} SendingKeepsComplete(s: State, es: seq<Event>, end: State)
    requires SendsOn(s, es, end) && s.disk.Some? && JournalOk(s, s.disk.value) && Complete(s, s.disk.value)
    ensures end.disk == s.disk && JournalOk(end, end.disk.value) && Complete(end, end.disk.value)
    decreases |es|
  {
    if es != [] {
      var next := Next(s, es[0]).value;
      var queue := s.tab.queue;
      assert queue[0] in queue && forall t | t in queue[1..] :: t in queue;
      LaterJournal(s, next, s.disk.value);
      SendingKeepsComplete(next, es[1..], end);
    }
  }

  /**
   * And write-ahead survives all that the tab still sends after such a write
   * exactly when the copy held every transfer the network has or may still be
   * given: one that is missing is sent with nothing on disk to tell of it.
   */
  lemma StaleWriteExactly(s: State, i: nat, a: Answers, dismiss: bool)
    requires Sound(s) && i < |s.readers| && Truthful(s.chain, a) && WritesBack(s, i, a, dismiss)
    ensures (forall es, end | SendsOn(AfterReading(s, i, a, dismiss), es, end) :: WriteAheadHolds(end))
       <==> Complete(s, s.readers[i])
  {
    hide JournalOk, Evaluate, Undecided, Exclusive, TabOk, SendsOn;
    var s' := AfterReading(s, i, a, dismiss);
    WrittenBack(s, i, a, dismiss);
    if Complete(s, s.readers[i]) {
      forall es, end | SendsOn(s', es, end) ensures WriteAheadHolds(end) {
        SendingKeepsComplete(s', es, end);
        forall sig | sig in end.chain.received && sig in end.made && end.made[sig].Pay? ensures OnDisk(end, sig) {
          NamedOnDisk(end, sig);
        }
      }
    } else {
      var sig :| sig in s.made && s.made[sig].Pay? && MayArrive(s, sig) && sig !in Signatures(s.readers[i].txs);
      assert MayArrive(s', sig) && sig !in Signatures(s'.disk.value.txs);
      var es, end := MissingIsSent(s', sig);
      assert !OnDisk(end, sig);
      assert SendsOn(s', es, end) && !WriteAheadHolds(end);
    }
  }

  lemma MissingIsSent(s: State, sig: Signature) returns (es: seq<Event>, end: State)
    requires MayArrive(s, sig)
    ensures SendsOn(s, es, end) && sig in end.chain.received && end.made == s.made && end.disk == s.disk
  {
    if sig in s.chain.received {
      es, end := [], s;
    } else {
      es, end := QueuedIsSent(s, sig);
    }
  }

  /** The same write forgets a mint that may still land exactly when the copy did not know it. */
  lemma StaleMintExactly(s: State, i: nat, a: Answers, dismiss: bool)
    requires Sound(s) && i < |s.readers| && Truthful(s.chain, a) && WritesBack(s, i, a, dismiss)
    ensures
      var s' := AfterReading(s, i, a, dismiss);
      s'.disk.Some? && (MintKnown(s', s'.disk.value) <==> MintKnown(s, s.readers[i]))
  {
    hide JournalOk, Evaluate, Undecided, Exclusive, TabOk, Complete;
    WrittenBack(s, i, a, dismiss);
  }

  // ---- a landed transaction that nothing finds ----------------------------------------

  /**
   * A transfer that landed is taken for expired exactly when the status
   * lookup lost it after its last block and neither the transaction lookup
   * nor the treasury's history shows it.
   */
  lemma LostExactly(s: State, j: RunJournal, a: Answers, t: JournalTx)
    requires JournalOk(s, j) && t in j.txs && LandedOk(s, t.signature) && Truthful(s.chain, a)
    ensures OutcomeOf(t, Outcomes(j.txs, a, Sweeps(j, a))).Lapsed? <==> Lost(j, a, t)
  {
    LapsedIsLost(s, j, a, t);
  }

  /** And a mint that landed, likewise: its tokens are in the balance the shortfall is counted from, so none is made again. */
  lemma LostMintExactly(s: State, j: RunJournal, a: Answers)
    requires JournalOk(s, j) && j.mint.Some? && LandedOk(s, j.mint.value.signature) && Truthful(s.chain, a)
    ensures
      var m := j.mint.value;
      MintVerdict(m, a, Sweeps(j, a)).Lapsed?
      <==> && !m.status.Confirmed? && StatusOf(a, m.signature).NoStatus? && a.height > m.lastValid
           && !(m.status.Sent? && m.signature in a.found) && !(Sweeps(j, a) && m.signature in a.landed)
  {
    hide Sweeps;
    assert MintOk(s, j.mint.value);
  }

  /**
   * The rows of a lost transfer meet step 2b next. Its own transfer never
   * counts there, being in this run's journal; so a row that no other run and
   * no other transfer paid passes exactly when its balance is read as zero.
   */
  lemma LostRowPassesExactly(reading: Consent.Reading, w: Wallet)
    requires forall run | run in reading.runs :: run.runId != "" && !Consent.PaidIn(run, reading.runId, w)
    requires w in reading.destinations ==>
               forall t | t in reading.history && t.destination == reading.destinations[w] ::
                 t.signature in Consent.Own(reading.runs, reading.runId)
    ensures Consent.Found(reading, w) == [] <==> !(w in reading.balances && reading.balances[w] > 0)
  {
    Consent.PaidBeforeExactly(reading, w);
  }

  // ---- a mint that never reaches the journal ------------------------------------------

  /**
   * The tab stops (closed, or the send throws) after the mint was submitted
   * and before it was journalled: no copy names it any more, so the next
   * send waits for it exactly when the network has decided it already.
   */
  lemma MintForgottenExactly(s: State, e: Event)
    requires Sound(s) && s.tab.Minting? && (e.CloseTab? || e.Abort?)
    requires s.disk.Some? && (s.disk.value.mint.Some? ==> s.disk.value.mint.value.signature != s.tab.mint.signature)
    ensures Next(s, e).Some?
    ensures MintKnown(Next(s, e).value, s.disk.value) <==> Decided(s, s.tab.mint.signature)
  {
    var s' := Next(s, e).value;
    var sig := s.tab.mint.signature;
    assert sig in s'.made && s'.made[sig].Create?;
    forall x | x in s.made && x != sig ensures Decided(s', x) {
      assert Decided(s, x);
    }
  }

  // ---- the four runs ------------------------------------------------------------------

  /** `end` comes `es` after `s`; `slips` of the events are ones `Admissible` excludes. */
  ghost predicate Follows(s: State, es: seq<Event>, end: State, slips: nat)
    decreases |es|
  {
    if es == [] then end == s && slips == 0
    else
      && Next(s, es[0]).Some?
      && (!Admissible(s, es[0]) ==> slips > 0)
      && Follows(Next(s, es[0]).value, es[1..], end, if Admissible(s, es[0]) then slips else slips - 1)
  }

  lemma {:induction false} Extend(first: State, es: seq<Event>, s: State, slips: nat, e: Event)
    requires Follows(first, es, s, slips) && Next(s, e).Some?
    ensures Follows(first, es + [e], Next(s, e).value, if Admissible(s, e) then slips else slips + 1)
    decreases |es|
  {
    hide Next, Admissible;
    if es == [] {
      var end := Next(s, e).value;
      assert Follows(end, [], end, 0);
    } else {
      Extend(Next(first, es[0]).value, es[1..], s, if Admissible(first, es[0]) then slips else slips - 1, e);
      assert (es + [e])[1..] == es[1..] + [e];
    }
  }

  ghost predicate Reaches(first: State, end: State, slips: nat) {
    exists es :: Follows(first, es, end, slips)
  }

  lemma Then(first: State, s: State, slips: nat, e: Event, next: State)
    requires Reaches(first, s, slips) && Next(s, e) == Some(next)
    ensures Reaches(first, next, if Admissible(s, e) then slips else slips + 1)
  {
    hide Next, Admissible;
    var es :| Follows(first, es, s, slips);
    Extend(first, es, s, slips, e);
  }

  lemma Nowhere(first: State)
    ensures Reaches(first, first, 0)
  {
    assert Follows(first, [], first, 0);
  }

  const W: Wallet := "w"

  function OneRow(): seq<Row> {
    [Row(W, 1)]
  }

  function Fresh(): RunJournal {
    NewJournal(OneRow())
  }

  function Tx(sig: Signature, lastValid: nat): JournalTx {
    JournalTx(sig, lastValid, [W], Signed)
  }

  /** The one wallet's token account. */
  function Accounts(): map<Wallet, Address> {
    map[W := "d"]
  }

  /** The network answers nothing but its block height. */
  function NoAnswers(height: nat): Answers {
    Answers(map[], height, map[], {}, [])
  }

  /** Read back with no answers, an untouched journal leaves its row to send. */
  lemma FreshTodo(height: nat)
    ensures
      var e := Evaluate(Fresh(), NoAnswers(height), Accounts());
      e.journal == Fresh() && !Undecided(e) && TodoRows(e) == {W}
  {
    var e := Evaluate(Fresh(), NoAnswers(height), Accounts());
    assert Row(W, 1) in OneRow() && Wallets(OneRow()) == {W};
    assert !Sweeps(Fresh(), NoAnswers(height));
    StatesBase(Fresh(), map[], Accounts(), []);
    assert e.states[W] == Todo;
    assert e.journal.txs == [];
  }

  lemma OneLapsed(t: JournalTx, a: Answers, swept: bool)
    requires t == Tx(t.signature, t.lastValid) && a == NoAnswers(a.height) && a.height > t.lastValid
    ensures Outcomes([t], a, swept) == map[t.signature := Lapsed]
    ensures JournalState([t], map[t.signature := Lapsed], W).Todo?
    ensures WithOutcomes([t], map[t.signature := Lapsed]) == [t.(status := Expired)]
  {
    assert [t][..0] == [];
  }

  /** And so does a journal whose only transfer's blocks are over. */
  lemma ExpiredTodo(sig: Signature, lastValid: nat, height: nat)
    requires height > lastValid
    ensures
      var e := Evaluate(WithTx(Fresh(), Tx(sig, lastValid)), NoAnswers(height), Accounts());
      && e.journal == WithTx(Fresh(), Tx(sig, lastValid).(status := Expired))
      && !Undecided(e) && TodoRows(e) == {W}
  {
    hide Outcomes, JournalState, WithOutcomes, StatesOf, Sweeps;
    var t := Tx(sig, lastValid);
    var j := WithTx(Fresh(), t);
    var a := NoAnswers(height);
    assert j.txs == [t];
    OneLapsed(t, a, Sweeps(j, a));
    assert Row(W, 1) in OneRow() && Wallets(OneRow()) == {W};
    StatesBase(j, map[sig := Lapsed], Accounts(), []);
    var e := Evaluate(j, a, Accounts());
    assert e.states[W] == Todo;
    assert e.journal.txs == [t.(status := Expired)];
  }

  /** A reading that finds the wallet's account empty, and nothing in the treasury's history but `history`. */
  function EmptyAccount(txs: seq<JournalTx>, history: seq<Transfer>): Consent.Reading {
    Consent.Reading(Some("r"), [Consent.Run("r", txs)], history, Accounts(), map[W := 0])
  }

  /** A page that shows nobody as paid before. */
  function NobodyShown(): Consent.Page {
    Consent.Page("r", [], None, None, [])
  }

  lemma NoReceipt(txs: seq<JournalTx>, history: seq<Transfer>)
    requires forall t | t in history :: t.signature in Signatures(txs)
    ensures Consent.Found(EmptyAccount(txs, history), W) == []
  {
    var runs := [Consent.Run("r", txs)];
    assert runs[0] in runs && runs[..0] == [];
    assert Consent.Own(runs, Some("r")) == Signatures(txs);
  }

  /** Step 2b lets the one row through; it slips when the row was paid already. */
  lemma LetThrough(first: State, s: State, slips: nat, txs: seq<JournalTx>, history: seq<Transfer>) returns (next: State)
    requires Reaches(first, s, slips) && s.tab == Ready({W}) && forall t | t in history :: t.signature in Signatures(txs)
    ensures next == s.(tab := Cleared({W}, s.chain.balance), passes := next.passes)
    ensures Reaches(first, next, if IsPaid(s, W) then slips + 1 else slips)
  {
    hide Reaches, Consent.Found, IsPaid;
    NoReceipt(txs, history);
    var e := ReadPaidBefore(EmptyAccount(txs, history), NobodyShown());
    next := Next(s, e).value;
    assert Admissible(s, e) <==> !IsPaid(s, W) by {
      assert W in {W};
    }
    Then(first, s, slips, e, next);
  }

  /** The send of the one row, past step 2b, to the first prompt. */
  lemma Planned(first: State, s: State, slips: nat, j: RunJournal)
    requires Reaches(first, s, slips) && j == (if s.disk.Some? then s.disk.value else Fresh()).(dismissed := false)
    requires s.list == OneRow() && s.tab.Cleared? && s.tab.todo == {W} && s.tab.have >= 1
    ensures Reaches(first, s.(disk := Some(j), tab := Signing(j, [[W]])), slips)
  {
    hide Reaches;
    assert Sum(s.list[..0], {W}) == 0 && Sum(s.list, {W}) == 1;
    var s1 := s.(disk := Some(j), tab := Opened(j, {W}, s.tab.have));
    Then(first, s, slips, OpenJournal, s1);
    var s2 := s1.(tab := Planning(j, {W}));
    Then(first, s1, slips, NothingToCreate, s2);
    assert Separate([[W]]);
    Then(first, s2, slips, Plan([[W]]), s2.(tab := Signing(j, [[W]])));
  }

  /** The one row's transfer signed, journalled and broadcast. */
  ghost function Sent(s: State, j: RunJournal, t: JournalTx): State {
    s.(disk := Some(WithTx(j, t)), tab := Sending(WithTx(j, t), [], []),
       made := s.made[t.signature := Pay(t.rows, t.lastValid)],
       chain := s.chain.(received := s.chain.received + {t.signature}))
  }

  lemma BatchOfOne(j: RunJournal, t: JournalTx)
    ensures AddAll(j, [t]) == WithTx(j, t) && Orders([t]) == map[t.signature := Pay(t.rows, t.lastValid)]
  {
    assert [t][..0] == [];
    assert AddAll(j, [t][..0]) == j && Orders([t][..0]) == map[];
  }

  lemma SignedNow(first: State, s: State, slips: nat, j: RunJournal, t: JournalTx)
    requires Reaches(first, s, slips)
    requires s.tab == Signing(j, [[W]]) && t == Tx(t.signature, t.lastValid) && t.signature !in s.made
    ensures Reaches(first, s.(tab := Held(j, [t], [])), slips)
  {
    hide Reaches;
    assert [t][0].rows == [[W]][0];
    assert [[W]][|[t]|..] == [];
    Then(first, s, slips, Sign([t]), s.(tab := Held(j, [t], [])));
  }

  lemma WrittenNow(first: State, s: State, slips: nat, j: RunJournal, t: JournalTx)
    requires Reaches(first, s, slips) && s.tab == Held(j, [t], [])
    ensures
      var made := s.made[t.signature := Pay(t.rows, t.lastValid)];
      Reaches(first, s.(disk := Some(WithTx(j, t)), made := made, tab := Sending(WithTx(j, t), [t], [])), slips)
  {
    hide Reaches, AddAll, Orders, WithTx;
    BatchOfOne(j, t);
    var made := s.made[t.signature := Pay(t.rows, t.lastValid)];
    assert s.made + Orders([t]) == made;
    Then(first, s, slips, WriteJournal, s.(disk := Some(WithTx(j, t)), made := made, tab := Sending(WithTx(j, t), [t], [])));
  }

  lemma SentNow(first: State, s: State, slips: nat, j: RunJournal, t: JournalTx)
    requires Reaches(first, s, slips)
    requires s.tab == Signing(j, [[W]]) && t == Tx(t.signature, t.lastValid) && t.signature !in s.made
    ensures Reaches(first, Sent(s, j, t), slips)
  {
    hide Reaches, WithTx;
    SignedNow(first, s, slips, j, t);
    WrittenNow(first, s.(tab := Held(j, [t], [])), slips, j, t);
    var made := s.made[t.signature := Pay(t.rows, t.lastValid)];
    assert [t][1..] == [];
    Then(first, s.(disk := Some(WithTx(j, t)), made := made, tab := Sending(WithTx(j, t), [t], [])), slips, Broadcast,
         Sent(s, j, t));
  }

  /** A payment of the one row still on its way lands. */
  lemma LandsNow(first: State, s: State, slips: nat, sig: Signature) returns (next: State)
    requires Reaches(first, s, slips) && s.list == OneRow() && s.chain.balance >= 1
    requires sig in s.made && s.made[sig] == Pay([W], s.made[sig].lastValid)
    requires sig in s.chain.received && sig !in s.chain.landed && s.chain.height <= s.made[sig].lastValid
    ensures Reaches(first, next, slips) && next == s.(chain := next.chain)
    ensures next.chain == s.chain.(landed := s.chain.landed[sig := true], balance := s.chain.balance - 1,
                                   paidOut := s.chain.paidOut + 1)
  {
    hide Reaches;
    assert Sum(s.list[..0], AsSet([W])) == 0 && Sum(s.list, AsSet([W])) == 1;
    next := s.(chain := Landing(s, sig, true));
    Then(first, s, slips, Land(sig, true), next);
  }

  lemma Closed(first: State, s: State, slips: nat) returns (next: State)
    requires Reaches(first, s, slips) && !s.tab.Minting?
    ensures Reaches(first, next, slips) && next == s.(tab := Idle, view := None, readers := [])
  {
    hide Reaches;
    next := s.(tab := Idle, view := None, readers := []);
    Then(first, s, slips, CloseTab, next);
  }

  /** Started again, the send reads its journal back and finds the row to send. */
  lemma ReadyAgain(first: State, s: State, slips: nat, a: Answers)
    requires Reaches(first, s, slips) && s.tab.Idle? && s.disk.Some? && s.quiet
    requires a == NoAnswers(a.height) && a.height <= s.chain.height
    requires
      var e := Evaluate(s.disk.value, a, s.destinations);
      !Undecided(e) && TodoRows(e) == {W}
    ensures
      var next := s.(disk := Some(Evaluate(s.disk.value, a, s.destinations).journal), tab := Ready({W}));
      Reaches(first, next, slips)
  {
    hide Reaches, Evaluate;
    var s1 := s.(tab := Checking(s.disk.value));
    Then(first, s, slips, Begin, s1);
    var s2 := s1.(disk := Some(Evaluate(s.disk.value, a, s.destinations).journal), tab := Ready({W}));
    assert AfterCheck(s1, a, true) == s2;
    Then(first, s1, slips, Check(a, true), s2);
  }

  /** One wallet paid by two transactions of the run. */
  ghost predicate DoublePaid(s: State) {
    exists a, b :: a != b && PaidBy(s, a, W) && PaidBy(s, b, W)
  }

  lemma PaidAgain(first: State, s: State, slips: nat, j: RunJournal, a: Signature, b: Signature, lastValid: nat)
    returns (end: State)
    requires Reaches(first, s, slips) && s.tab == Signing(j, [[W]]) && s.list == OneRow()
    requires PaidBy(s, a, W) && b !in s.made && b !in s.chain.landed
    requires s.chain.balance >= 1 && s.chain.height <= lastValid
    ensures Reaches(first, end, slips) && DoublePaid(end)
  {
    hide Reaches;
    var t := Tx(b, lastValid);
    SentNow(first, s, slips, j, t);
    end := LandsNow(first, Sent(s, j, t), slips, b);
    assert PaidBy(end, a, W) && PaidBy(end, b, W);
  }

  /** A send of the one row stopped before its first prompt, and a read of its empty journal still out. */
  lemma StaleReader(s0: State) returns (s: State)
    requires s0 == Start(OneRow(), 2, Accounts())
    ensures s == s0.(disk := Some(Fresh()), view := Some(Fresh()), readers := [Fresh()], passes := s.passes)
    ensures Reaches(s0, s, 0)
  {
    hide Reaches;
    var s2 := OpenedFirst(s0);
    var s3 := s2.(view := Some(Fresh()));
    Then(s0, s2, 0, LoadView, s3);
    var s4 := s3.(readers := [Fresh()]);
    assert s3.readers + [Fresh()] == [Fresh()];
    Then(s0, s3, 0, StartReading, s4);
    s := s4.(tab := Idle);
    Then(s0, s4, 0, Abort, s);
  }

  lemma OpenedFirst(s0: State) returns (s: State)
    requires s0 == Start(OneRow(), s0.initial, Accounts())
    ensures s == s0.(disk := Some(Fresh()), tab := Opened(Fresh(), {W}, s0.initial), passes := s.passes)
    ensures Reaches(s0, s, 0)
  {
    hide Reaches;
    Nowhere(s0);
    assert Row(W, 1) in OneRow() && Wallets(OneRow()) == {W};
    var s1 := s0.(tab := Ready({W}));
    Then(s0, s0, 0, Begin, s1);
    var s2 := LetThrough(s0, s1, 0, [], []);
    s := s2.(disk := Some(Fresh()), tab := Opened(Fresh(), {W}, s0.initial));
    Then(s0, s2, 0, OpenJournal, s);
  }

  /** The read's answer, written after the send journalled and broadcast a transfer. */
  lemma StaleWrite(s0: State, s: State) returns (next: State)
    requires Reaches(s0, s, 0) && s.readers == [Fresh()] && s.quiet && s.destinations == Accounts()
    requires "a" in s.made && s.made["a"].Pay? && "a" in s.chain.received
    ensures next == s.(readers := [], disk := Some(Fresh())) && Reaches(s0, next, 1)
  {
    hide Reaches, Evaluate;
    FreshTodo(0);
    next := s.(readers := [], disk := Some(Fresh()));
    assert s.readers[..0] + s.readers[1..] == [];
    assert AfterReading(s, 0, NoAnswers(0), false) == next;
    assert !Complete(s, Fresh()) by {
      assert MayArrive(s, "a");
    }
    Then(s0, s, 0, FinishReading(0, NoAnswers(0), false), next);
  }

  /** The row sent a first time, its journal lost to the stale write, and the tab closed before it lands. */
  lemma SentAndForgotten(s0: State) returns (s: State)
    requires s0 == Start(OneRow(), 2, Accounts())
    ensures Reaches(s0, s, 1) && s.disk == Some(Fresh()) && s.tab.Idle? && s.list == OneRow() && s.quiet
    ensures s.destinations == Accounts() && s.chain == s0.chain.(received := {"a"}) && s.made == map["a" := Pay([W], 10)]
  {
    hide Reaches, Evaluate, IsPaid;
    s := StaleReader(s0);
    FreshTodo(0);
    ReadyAgain(s0, s, 0, NoAnswers(0));
    s := s.(tab := Ready({W}));
    assert !IsPaid(s, W) by { NothingMade(s); }
    s := LetThrough(s0, s, 0, [], []);
    Planned(s0, s, 0, Fresh());
    s := s.(tab := Signing(Fresh(), [[W]]));
    SentNow(s0, s, 0, Fresh(), Tx("a", 10));
    s := Sent(s, Fresh(), Tx("a", 10));
    s := StaleWrite(s0, s);
    s := Closed(s0, s, 1);
  }

  lemma NothingMade(s: State)
    requires s.chain.landed == map[]
    ensures !IsPaid(s, W)
  {
  }

  /**
   * A background read that writes the journal it started from loses a
   * transfer journalled meanwhile. The tab is closed; the send started again
   * finds the row to send and reads that nobody was paid before; then the
   * first transfer lands, and the row is paid again.
   */
  lemma StaleReadPaysTwice() returns (end: State)
    ensures Reaches(Start(OneRow(), 2, Accounts()), end, 1) && DoublePaid(end)
  {
    hide Reaches, Evaluate, IsPaid;
    var s0 := Start(OneRow(), 2, Accounts());
    var s := SentAndForgotten(s0);
    FreshTodo(0);
    ReadyAgain(s0, s, 1, NoAnswers(0));
    s := s.(tab := Ready({W}));
    assert !IsPaid(s, W) by { NothingMade(s); }
    s := LetThrough(s0, s, 1, [], []);
    s := LandsNow(s0, s, 1, "a");
    Planned(s0, s, 1, Fresh());
    s := s.(tab := Signing(Fresh(), [[W]]));
    end := PaidAgain(s0, s, 1, Fresh(), "a", "b", 10);
  }

  /** The row paid, the tab closed, and the transfer's blocks over. */
  lemma PaidAndClosed(s0: State) returns (s: State)
    requires s0 == Start(OneRow(), 2, Accounts())
    ensures Reaches(s0, s, 0) && s.disk == Some(WithTx(Fresh(), Tx("a", 10))) && s.tab.Idle? && s.list == OneRow()
    ensures s.quiet && s.destinations == Accounts() && s.made == map["a" := Pay([W], 10)]
    ensures s.chain == Chain(11, {"a"}, map["a" := true], 1, 0, 1)
  {
    hide Reaches, IsPaid;
    Nowhere(s0);
    assert Row(W, 1) in OneRow() && Wallets(OneRow()) == {W};
    s := s0.(tab := Ready({W}));
    Then(s0, s0, 0, Begin, s);
    assert !IsPaid(s, W) by { NothingMade(s); }
    s := LetThrough(s0, s, 0, [], []);
    Planned(s0, s, 0, Fresh());
    s := s.(disk := Some(Fresh()), tab := Signing(Fresh(), [[W]]));
    SentNow(s0, s, 0, Fresh(), Tx("a", 10));
    s := Sent(s, Fresh(), Tx("a", 10));
    s := LandsNow(s0, s, 0, "a");
    s := Closed(s0, s, 0);
    Then(s0, s, 0, Advance(11), s.(chain := s.chain.(height := 11)));
    s := s.(chain := s.chain.(height := 11));
  }

  /**
   * A landed transfer that the three lookups all miss after its last block is
   * judged expired. Step 2b's history shows it and does not count it, being
   * the run's own; with the wallet's account read as empty (it moved the token
   * on, or the node is behind) the row is paid again.
   */
  lemma LostTransferPaidTwice() returns (end: State)
    ensures Reaches(Start(OneRow(), 2, Accounts()), end, 1) && DoublePaid(end)
  {
    hide Reaches, Evaluate, IsPaid;
    var s0 := Start(OneRow(), 2, Accounts());
    var s := PaidAndClosed(s0);
    ExpiredTodo("a", 10, 11);
    ReadyAgain(s0, s, 0, NoAnswers(11));
    var j := WithTx(Fresh(), Tx("a", 10).(status := Expired));
    s := s.(disk := Some(j), tab := Ready({W}));
    assert PaidBy(s, "a", W);
    assert IsPaid(s, W) by { PaidOnce(s, "a"); }
    var history := [Transfer("a", "d", 1)];
    assert Tx("a", 10).(status := Expired) in j.txs;
    s := LetThrough(s0, s, 0, j.txs, history);
    Planned(s0, s, 1, j);
    s := s.(tab := Signing(j, [[W]]));
    end := PaidAgain(s0, s, 1, j, "a", "b", 20);
  }

  lemma PaidOnce(s: State, sig: Signature)
    requires PaidBy(s, sig, W)
    ensures IsPaid(s, W)
  {
  }

  // ---- mints made twice ---------------------------------------------------------------------

  lemma Submitted(s0: State, s: State, slips: nat, sig: Signature) returns (next: State)
    requires Reaches(s0, s, slips) && s.tab == Opened(Fresh(), {W}, 0) && s.list == OneRow() && sig !in s.made
    ensures Reaches(s0, next, slips)
    ensures next == s.(made := s.made[sig := Create(1, 10)],
                       chain := s.chain.(received := s.chain.received + {sig}),
                       tab := Minting(Fresh(), {W}, JournalMint(sig, 10, 1, TxStatus.Sent)))
  {
    hide Reaches;
    assert Sum(s.list[..0], {W}) == 0 && Sum(s.list, {W}) == 1;
    next := s.(made := s.made[sig := Create(1, 10)], chain := s.chain.(received := s.chain.received + {sig}),
               tab := Minting(Fresh(), {W}, JournalMint(sig, 10, 1, TxStatus.Sent)));
    Then(s0, s, slips, SubmitMint(sig, 10), next);
  }

  /** The mint "a" on its way and forgotten: the send started again makes another, and both land. */
  lemma MadeAgain(s0: State, s: State, slips: nat) returns (end: State)
    requires Reaches(s0, s, slips) && s.disk == Some(Fresh()) && s.tab.Idle? && s.list == OneRow() && s.quiet
    requires s.destinations == Accounts() && s.initial == 0 && s.made == map["a" := Create(1, 10)]
    requires s.chain == Chain(0, {"a"}, map[], 0, 0, 0)
    ensures Reaches(s0, end, slips)
    ensures end.quiet && Short(end) == 1 && end.chain.created == 2
  {
    hide Reaches, Evaluate, IsPaid;
    FreshTodo(0);
    ReadyAgain(s0, s, slips, NoAnswers(0));
    var s1 := s.(tab := Ready({W}));
    assert !IsPaid(s1, W) by { NothingMade(s1); }
    var s2 := LetThrough(s0, s1, slips, [], []);
    var s3 := s2.(tab := Opened(Fresh(), {W}, 0));
    Then(s0, s2, slips, OpenJournal, s3);
    var s4 := Submitted(s0, s3, slips, "b");
    var s5 := s4.(chain := Landing(s4, "a", true));
    Then(s0, s4, slips, Land("a", true), s5);
    end := s5.(chain := Landing(s5, "b", true));
    Then(s0, s5, slips, Land("b", true), end);
    assert Total(OneRow()[..0]) == 0 && Total(OneRow()) == 1;
  }

  /** A mint submitted and not journalled when the tab closes is made again: twice the shortfall, nobody else involved. */
  lemma ForgottenMintMadeTwice() returns (end: State)
    ensures Reaches(Start(OneRow(), 0, Accounts()), end, 1)
    ensures end.quiet && Short(end) == 1 && end.chain.created == 2
  {
    hide Reaches, Evaluate;
    var s0 := Start(OneRow(), 0, Accounts());
    var s := OpenedFirst(s0);
    s := Submitted(s0, s, 0, "a");
    var next := s.(tab := Idle);
    Then(s0, s, 0, CloseTab, next);
    end := MadeAgain(s0, next, 1);
  }

  /** So is a journalled one that a background read overwrites with the copy it started from. */
  lemma StaleReadMintsTwice() returns (end: State)
    ensures Reaches(Start(OneRow(), 0, Accounts()), end, 1)
    ensures end.quiet && Short(end) == 1 && end.chain.created == 2
  {
    hide Reaches, Evaluate;
    var s0 := Start(OneRow(), 0, Accounts());
    var s := OpenedFirst(s0);
    Then(s0, s, 0, LoadView, s.(view := Some(Fresh())));
    s := s.(view := Some(Fresh()));
    assert s.readers + [Fresh()] == [Fresh()];
    Then(s0, s, 0, StartReading, s.(readers := [Fresh()]));
    s := s.(readers := [Fresh()]);
    s := Submitted(s0, s, 0, "a");
    s := MintOverwritten(s0, s);
    s := Closed(s0, s, 1);
    end := MadeAgain(s0, s, 1);
  }

  lemma MintOverwritten(s0: State, s: State) returns (next: State)
    requires Reaches(s0, s, 0) && s.tab == Minting(Fresh(), {W}, JournalMint("a", 10, 1, TxStatus.Sent))
    requires s.readers == [Fresh()] && s.quiet && s.destinations == Accounts() && s.chain.height == 0
    requires s.made == map["a" := Create(1, 10)] && s.chain.landed == map[] && "a" in s.chain.received
    ensures Reaches(s0, next, 1)
    ensures next == s.(readers := [], disk := Some(Fresh()), tab := next.tab) && next.tab.MintWait?
  {
    hide Reaches, Evaluate;
    var j := Fresh().(mint := Some(s.tab.mint));
    var s1 := s.(disk := Some(j), tab := MintWait(j, {W}));
    Then(s0, s, 0, JournalTheMint, s1);
    FreshTodo(0);
    next := s1.(readers := [], disk := Some(Fresh()));
    assert s1.readers[..0] + s1.readers[1..] == [];
    assert AfterReading(s1, 0, NoAnswers(0), false) == next;
    assert !MintKnown(s1, Fresh()) by {
      assert MayArrive(s1, "a") && s1.made["a"].Create? && !Decided(s1, "a");
    }
    Then(s0, s1, 0, FinishReading(0, NoAnswers(0), false), next);
  }
}
