// "Send to wallets" as a protocol (front/components/send-to-wallets-panel.tsx,
// with the batch sender's order of steps from front/lib/verified-solana-client.ts).
//
// One run id, one browser. The journal on disk and the chain survive a closed
// tab; the tab's own copy of the journal, its plan and the reads in flight do
// not. Every event below is one stretch of code between two awaits, or one
// thing the network does by itself, and any event may come next.
module Distribution {
  import opened Journal
  import Consent

  /** A transaction the wallet signed: it pays `rows`, or it creates tokens in the treasury. */
  datatype Order = Pay(rows: seq<Wallet>, lastValid: nat) | Create(amount: nat, lastValid: nat)

  /**
   * What the network holds. `landed` maps a transaction that was executed to
   * whether it succeeded; `created` and `paidOut` are what the run's landed
   * mints and transfers moved.
   */
  datatype Chain = Chain(
    height: nat,
    received: set<Signature>,
    landed: map<Signature, bool>,
    balance: nat,
    created: nat,
    paidOut: nat)

  /** Where `send` stands between two awaits; `j` is its copy of the journal, `have` the treasury balance it read. */
  datatype Tab =
    | Idle
    | Checking(snapshot: RunJournal)
    | Ready(todo: set<Wallet>)
    | Cleared(todo: set<Wallet>, have: nat)
    | Opened(j: RunJournal, todo: set<Wallet>, have: nat)
    | Minting(j: RunJournal, todo: set<Wallet>, mint: JournalMint)
    | MintWait(j: RunJournal, todo: set<Wallet>)
    | Planning(j: RunJournal, todo: set<Wallet>)
    | Signing(j: RunJournal, rest: seq<seq<Wallet>>)
    | Held(j: RunJournal, batch: seq<JournalTx>, rest: seq<seq<Wallet>>)
    | Sending(j: RunJournal, queue: seq<JournalTx>, rest: seq<seq<Wallet>>)

  /**
   * `made` is every order that was journalled (or, for a mint, submitted): a
   * record of the past, never read by the code. `view` is the page's list of
   * journals, `readers` the reads started from it (the resume effect, "Check
   * again", "Read again", Dismiss) that have not written their answer yet.
   * `passes` records the readings of step 2b that let the send go on.
   * `quiet` says that no one else used the treasury.
   */
  datatype State = State(
    list: seq<Row>,
    initial: nat,
    destinations: map<Wallet, Address>,
    chain: Chain,
    made: map<Signature, Order>,
    disk: Option<RunJournal>,
    view: Option<RunJournal>,
    readers: seq<RunJournal>,
    tab: Tab,
    passes: seq<Pass>,
    quiet: bool)

  /** What step 2b read, the page it was read for, and the rows it let through. */
  datatype Pass = Pass(reading: Consent.Reading, page: Consent.Page, todo: set<Wallet>)

  datatype Event =
    // the network and other wallets
    | Advance(height: nat)
    | Land(sig: Signature, ok: bool)
    | Foreign(balance: nat)
    // the page beside the send
    | LoadView
    | StartReading
    | FinishReading(i: nat, answers: Answers, dismiss: bool)
    | CloseTab
    // the send
    | Begin
    | Check(answers: Answers, stored: bool)
    | ReadPaidBefore(reading: Consent.Reading, page: Consent.Page)
    | Abort
    | OpenJournal
    | NothingToCreate
    | SubmitMint(sig: Signature, lastValid: nat)
    | JournalTheMint
    | MintAnswer(outcome: Outcome)
    | SaveEvidence
    | Plan(txs: seq<seq<Wallet>>)
    | Sign(batch: seq<JournalTx>)
    | Discard
    | WriteJournal
    | Broadcast
    | Skip
    | NextPrompt
    | MarkSent(signatures: seq<Signature>)
    | Report(marks: seq<(Signature, TxStatus)>)

  // ---- amounts -------------------------------------------------------------

  function Sum(list: seq<Row>, keep: set<Wallet>): nat {
    if list == [] then 0
    else Sum(list[..|list| - 1], keep) + if list[|list| - 1].wallet in keep then list[|list| - 1].amount else 0
  }

  // ---- orders on the chain ---------------------------------------------------

  predicate LandedOk(s: State, sig: Signature) {
    sig in s.chain.landed && s.chain.landed[sig]
  }

  /** The tab still holds it signed and will broadcast it. */
  predicate Queued(s: State, sig: Signature) {
    s.tab.Sending? && exists t | t in s.tab.queue :: t.signature == sig
  }

  /** The network has it, or may still be given it. */
  predicate MayArrive(s: State, sig: Signature) {
    sig in s.chain.received || Queued(s, sig)
  }

  /** It can no longer land: it landed already, its blocks are over, or nobody holds it any more. */
  predicate Decided(s: State, sig: Signature)
    requires sig in s.made
  {
    sig in s.chain.landed || s.chain.height > s.made[sig].lastValid || !MayArrive(s, sig)
  }

  /** It moved its tokens, or it still may. */
  predicate Alive(s: State, sig: Signature)
    requires sig in s.made
  {
    LandedOk(s, sig) || !Decided(s, sig)
  }

  /** `sig` moved `w`'s tokens. */
  predicate PaidBy(s: State, sig: Signature, w: Wallet) {
    sig in s.made && s.made[sig].Pay? && w in s.made[sig].rows && LandedOk(s, sig)
  }

  ghost predicate IsPaid(s: State, w: Wallet) {
    exists sig :: sig in s.made && PaidBy(s, sig, w)
  }

  predicate MayLand(s: State, sig: Signature, ok: bool) {
    && sig in s.chain.received && sig in s.made && sig !in s.chain.landed
    && s.chain.height <= s.made[sig].lastValid
    && (ok && s.made[sig].Pay? ==> Sum(s.list, AsSet(s.made[sig].rows)) <= s.chain.balance)
  }

  function Landing(s: State, sig: Signature, ok: bool): Chain
    requires MayLand(s, sig, ok)
  {
    var c := s.chain.(landed := s.chain.landed[sig := ok]);
    if !ok then c
    else match s.made[sig]
      case Pay(rows, _) =>
        var amount := Sum(s.list, AsSet(rows));
        c.(balance := c.balance - amount, paidOut := c.paidOut + amount)
      case Create(amount, _) =>
        c.(balance := c.balance + amount, created := c.created + amount)
  }

  // ---- what the tab computes -------------------------------------------------

  /** `onSigned`: every transaction of the prompt added to the journal. */
  function AddAll(j: RunJournal, batch: seq<JournalTx>): RunJournal {
    if batch == [] then j else WithTx(AddAll(j, batch[..|batch| - 1]), batch[|batch| - 1])
  }

  /** The first transaction of that signature, as `find` returns it. */
  function Find(txs: seq<JournalTx>, sig: Signature): (t: Option<JournalTx>)
    ensures t.Some? ==> t.value in txs && t.value.signature == sig
    ensures t.None? ==> sig !in Signatures(txs)
  {
    if txs == [] then None
    else if txs[0].signature == sig then Some(txs[0])
    else
      assert txs == [txs[0]] + txs[1..];
      Find(txs[1..], sig)
  }

  function Mark(j: RunJournal, sig: Signature, status: TxStatus): RunJournal {
    match Find(j.txs, sig)
    case None => j
    case Some(t) => WithTx(j, t.(status := status))
  }

  function MarkAll(j: RunJournal, marks: seq<(Signature, TxStatus)>): RunJournal {
    if marks == [] then j
    else
      var last := marks[|marks| - 1];
      Mark(MarkAll(j, marks[..|marks| - 1]), last.0, last.1)
  }

  function SentMarks(signatures: seq<Signature>): (marks: seq<(Signature, TxStatus)>)
    ensures |marks| == |signatures|
    ensures forall i | 0 <= i < |marks| :: marks[i] == (signatures[i], Sent)
  {
    seq(|signatures|, i requires 0 <= i < |signatures| => (signatures[i], Sent))
  }

  function Orders(batch: seq<JournalTx>): map<Signature, Order> {
    if batch == [] then map[]
    else
      var t := batch[|batch| - 1];
      Orders(batch[..|batch| - 1])[t.signature := Pay(t.rows, t.lastValid)]
  }

  function RowsOf(batch: seq<JournalTx>): (out: seq<seq<Wallet>>)
    ensures |out| == |batch| && forall k | 0 <= k < |batch| :: out[k] == batch[k].rows
  {
    seq(|batch|, k requires 0 <= k < |batch| => batch[k].rows)
  }

  /** No wallet is in two transactions, nor twice in one. */
  ghost predicate Separate(txs: seq<seq<Wallet>>) {
    && (forall i | 0 <= i < |txs| :: txs[i] != [] && NoRepeats(txs[i]))
    && (forall i, j, w | 0 <= i < j < |txs| && w in txs[i] :: w !in txs[j])
  }

  ghost predicate NoRepeats(rows: seq<Wallet>) {
    forall i, j | 0 <= i < j < |rows| :: rows[i] != rows[j]
  }

  /** The signed copies of the first transactions left: fresh signatures, the planned rows. */
  ghost predicate SignedCopies(s: State, batch: seq<JournalTx>, rest: seq<seq<Wallet>>) {
    && 0 < |batch| <= |rest|
    && UniqueSignatures(batch)
    && (forall k | 0 <= k < |batch| ::
          batch[k].rows == rest[k] && batch[k].status == Signed && batch[k].signature !in s.made)
  }

  /** Step 2b: every row paid before, by whatever trace the reading finds, is one the issuer confirmed. */
  ghost predicate Clears(todo: set<Wallet>, reading: Consent.Reading, page: Consent.Page) {
    forall w | w in todo && Consent.Found(reading, w) != [] :: Consent.SendAgain(page) && w in page.shown
  }

  // ---- one event -------------------------------------------------------------

  /** The state after `e`, or None where `e` cannot happen. */
  ghost function Next(s: State, e: Event): Option<State> {
    match e
    case Advance(height) =>
      if height < s.chain.height then None else Some(s.(chain := s.chain.(height := height)))
    case Land(sig, ok) =>
      if !MayLand(s, sig, ok) then None else Some(s.(chain := Landing(s, sig, ok)))
    case Foreign(balance) =>
      Some(s.(chain := s.chain.(balance := balance), quiet := false))
    case LoadView =>
      Some(s.(view := s.disk))
    case StartReading =>
      if s.view.None? then None else Some(s.(readers := s.readers + [s.view.value]))
    case FinishReading(i, answers, dismiss) =>
      if i >= |s.readers| then None else Some(AfterReading(s, i, answers, dismiss))
    case CloseTab =>
      Some(s.(view := None, readers := [], tab := Idle))
    case Begin =>
      if !s.tab.Idle? then None
      else Some(s.(tab := if s.disk.None? then Ready(Wallets(s.list)) else Checking(s.disk.value)))
    case Check(answers, stored) =>
      if !s.tab.Checking? then None else Some(AfterCheck(s, answers, stored))
    case ReadPaidBefore(reading, page) =>
      if !s.tab.Ready? then None
      else if !Clears(s.tab.todo, reading, page) then Some(s.(tab := Idle))
      else Some(s.(tab := Cleared(s.tab.todo, s.chain.balance), passes := s.passes + [Pass(reading, page, s.tab.todo)]))
    case Abort =>
      if s.tab.Idle? then None else Some(s.(tab := Idle))
    case OpenJournal =>
      if !s.tab.Cleared? then None
      else
        var j := (if s.disk.Some? then s.disk.value else NewJournal(s.list)).(dismissed := false);
        Some(s.(disk := Some(j), tab := Opened(j, s.tab.todo, s.tab.have)))
    case NothingToCreate =>
      if !s.tab.Opened? || Sum(s.list, s.tab.todo) > s.tab.have then None
      else Some(s.(tab := Planning(s.tab.j, s.tab.todo)))
    case SubmitMint(sig, lastValid) =>
      if !s.tab.Opened? || Sum(s.list, s.tab.todo) <= s.tab.have || sig in s.made then None
      else
        var amount := Sum(s.list, s.tab.todo) - s.tab.have;
        Some(s.(made := s.made[sig := Create(amount, lastValid)],
                chain := s.chain.(received := s.chain.received + {sig}),
                tab := Minting(s.tab.j, s.tab.todo, JournalMint(sig, lastValid, amount, Sent))))
    case JournalTheMint =>
      if !s.tab.Minting? then None
      else
        var j := s.tab.j.(mint := Some(s.tab.mint));
        Some(s.(disk := Some(j), tab := MintWait(j, s.tab.todo)))
    case MintAnswer(outcome) =>
      if !s.tab.MintWait? || s.tab.j.mint.None? || outcome.Lapsed? then None
      else
        var status := if outcome.Landed? then Confirmed else if outcome.Refused? then Failed else Sent;
        var j := s.tab.j.(mint := Some(s.tab.j.mint.value.(status := status)));
        Some(s.(disk := Some(j), tab := if outcome.Landed? then Planning(j, s.tab.todo) else Idle))
    case SaveEvidence =>
      if !s.tab.Planning? then None else Some(s.(disk := Some(s.tab.j)))
    case Plan(txs) =>
      if !s.tab.Planning? || !Separate(txs) || exists k, w :: 0 <= k < |txs| && w in txs[k] && w !in s.tab.todo then None
      else Some(s.(tab := Signing(s.tab.j, txs)))
    case Sign(batch) =>
      if !s.tab.Signing? || !SignedCopies(s, batch, s.tab.rest) then None
      else Some(s.(tab := Held(s.tab.j, batch, s.tab.rest[|batch|..])))
    case Discard =>
      if !s.tab.Held? then None else Some(s.(tab := Signing(s.tab.j, RowsOf(s.tab.batch) + s.tab.rest)))
    case WriteJournal =>
      if !s.tab.Held? then None
      else
        var j := AddAll(s.tab.j, s.tab.batch);
        Some(s.(disk := Some(j), made := s.made + Orders(s.tab.batch), tab := Sending(j, s.tab.batch, s.tab.rest)))
    case Broadcast =>
      if !s.tab.Sending? || s.tab.queue == [] then None
      else
        Some(s.(chain := s.chain.(received := s.chain.received + {s.tab.queue[0].signature}),
                tab := Sending(s.tab.j, s.tab.queue[1..], s.tab.rest)))
    case Skip =>
      if !s.tab.Sending? || s.tab.queue == [] then None
      else Some(s.(tab := Sending(s.tab.j, s.tab.queue[1..], s.tab.rest)))
    case NextPrompt =>
      if !s.tab.Sending? || s.tab.queue != [] then None
      else Some(s.(tab := Signing(s.tab.j, s.tab.rest)))
    case MarkSent(signatures) =>
      if !s.tab.Signing? then None
      else
        var j := MarkAll(s.tab.j, SentMarks(signatures));
        Some(s.(disk := Some(j), tab := Signing(j, s.tab.rest)))
    case Report(marks) =>
      if !s.tab.Signing? then None
      else Some(s.(disk := Some(MarkAll(s.tab.j, marks)), tab := Idle))
  }

  /** The treasury's history shows this run's transfers and nobody else's. */
  ghost predicate OnlyOwn(s: State, transfers: seq<Transfer>) {
    forall t | t in transfers :: t.signature in s.made && s.made[t.signature].Pay? && LandedOk(s, t.signature)
  }

  /** A read writes what it computed, except a dismissal of a run that is still waiting for the network. */
  predicate WritesBack(s: State, i: nat, answers: Answers, dismiss: bool)
    requires i < |s.readers|
  {
    !dismiss || !Undecided(Evaluate(s.readers[i], answers, s.destinations))
  }

  /** A read writes the journal it computed from the journal it started from. */
  ghost function AfterReading(s: State, i: nat, answers: Answers, dismiss: bool): State
    requires i < |s.readers|
  {
    var e := Evaluate(s.readers[i], answers, s.destinations);
    s.(readers := s.readers[..i] + s.readers[i + 1..],
       quiet := s.quiet && OnlyOwn(s, answers.transfers),
       disk := if !WritesBack(s, i, answers, dismiss) then s.disk
               else if dismiss then Some(e.journal.(dismissed := true))
               else Some(e.journal))
  }

  /** Step 0 of the send: nothing goes on while a transaction of the run may still land. Storage may refuse the write. */
  ghost function AfterCheck(s: State, answers: Answers, stored: bool): State
    requires s.tab.Checking?
  {
    var e := Evaluate(s.tab.snapshot, answers, s.destinations);
    s.(disk := if stored then Some(e.journal) else s.disk,
       quiet := s.quiet && OnlyOwn(s, answers.transfers),
       tab := if Undecided(e) || TodoRows(e) == {} then Idle else Ready(TodoRows(e)))
  }

  function Start(list: seq<Row>, initial: nat, destinations: map<Wallet, Address>): State {
    State(list, initial, destinations, Chain(0, {}, map[], initial, 0, 0), map[], None, None, [], Idle, [], true)
  }

  // ---- what is assumed of the environment ------------------------------------

  /** What an answer says of a signature is so; saying nothing is always allowed. */
  ghost predicate Truthful(c: Chain, a: Answers) {
    && a.height <= c.height
    && (forall sig | sig in a.status && a.status[sig].Settled? :: sig in c.landed && c.landed[sig])
    && (forall sig | sig in a.status && a.status[sig].Errored? :: sig in c.landed && !c.landed[sig])
    && (forall sig | sig in a.found :: sig in c.landed && c.landed[sig] == a.found[sig])
    && (forall sig | sig in a.landed :: sig in c.landed && c.landed[sig])
  }

  /** Every transfer the network has, or may still be given, is in this copy of the journal. */
  ghost predicate Complete(s: State, j: RunJournal) {
    forall sig | sig in s.made && s.made[sig].Pay? && MayArrive(s, sig) :: sig in Signatures(j.txs)
  }

  /** A mint that is not decided yet is in this copy, or is the one being submitted right now. */
  ghost predicate MintKnown(s: State, j: RunJournal) {
    forall sig | sig in s.made && s.made[sig].Create? ::
      || Decided(s, sig)
      || (j.mint.Some? && j.mint.value.signature == sig)
      || (s.tab.Minting? && s.tab.mint.signature == sig)
  }

  /** A row of the send that the run paid already shows in the reading, and the issuer did not choose to pay it again. */
  ghost predicate ShowsPaid(s: State, todo: set<Wallet>, reading: Consent.Reading, page: Consent.Page) {
    forall w | w in todo && IsPaid(s, w) :: Consent.Found(reading, w) != [] && !(Consent.SendAgain(page) && w in page.shown)
  }

  /**
   * The events under which the run is safe. Besides true answers there are
   * three conditions the code does not secure (module Limits): a read must
   * not write a journal that misses a transfer or a mint that may still land,
   * a row already paid must show in the paid-before reading when step 0 has
   * not found it, and the mint's submission must reach the journal.
   */
  ghost predicate Admissible(s: State, e: Event) {
    match e
    case FinishReading(i, a, dismiss) =>
      i < |s.readers| && WritesBack(s, i, a, dismiss) ==>
        Truthful(s.chain, a) && Complete(s, s.readers[i]) && MintKnown(s, s.readers[i])
    case Check(a, _) => Truthful(s.chain, a)
    case ReadPaidBefore(reading, page) => s.tab.Ready? ==> ShowsPaid(s, s.tab.todo, reading, page)
    case CloseTab => !s.tab.Minting?
    case Abort => !s.tab.Minting?
    case MintAnswer(outcome) =>
      s.tab.MintWait? && s.tab.j.mint.Some? ==>
        var sig := s.tab.j.mint.value.signature;
        && (outcome.Landed? ==> LandedOk(s, sig))
        && (outcome.Refused? ==> sig in s.chain.landed && !s.chain.landed[sig])
    case Report(marks) =>
      forall k | 0 <= k < |marks| ::
        || (marks[k].1 == Confirmed && LandedOk(s, marks[k].0))
        || (marks[k].1 == Failed && marks[k].0 in s.chain.landed && !s.chain.landed[marks[k].0])
    case _ => true
  }

  /** `es` from `s` on: every event possible and admissible; `end` is where it leads. */
  ghost predicate Runs(s: State, es: seq<Event>, end: State)
    decreases |es|
  {
    if es == [] then end == s
    else
      && Next(s, es[0]).Some?
      && Admissible(s, es[0])
      && Runs(Next(s, es[0]).value, es[1..], end)
  }
}
