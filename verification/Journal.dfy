// The run journal of "Send to wallets" and its reading back against the
// network (front/lib/distribution-journal.ts, front/lib/distribution-run.ts).
module Journal {

  type Wallet = string
  type Address = string
  type Signature = string

  datatype Option<+T> = None | Some(value: T)

  datatype Row = Row(wallet: Wallet, amount: nat)

  datatype TxStatus = Signed | Sent | Confirmed | Failed | Expired

  datatype JournalTx = JournalTx(signature: Signature, lastValid: nat, rows: seq<Wallet>, status: TxStatus)

  datatype JournalMint = JournalMint(signature: Signature, lastValid: nat, amount: nat, status: TxStatus)

  datatype RunJournal = RunJournal(
    rows: seq<Row>,
    mint: Option<JournalMint>,
    txs: seq<JournalTx>,
    finished: bool,
    dismissed: bool)

  /** A transaction decided: confirmed, failed, expired, or still able to land. */
  datatype Outcome = Landed | Refused | Lapsed | Waiting

  /** One answer of the signature status lookup; `Settled` is confirmed or finalized. */
  datatype StatusAnswer = NoStatus | Processed | Settled | Errored

  datatype Via = ByJournal | ByBackstop

  datatype RowState = Todo | Pending(signature: Signature) | Done(signature: Signature, via: Via)

  /** A transfer out of the treasury that no journalled signature explains. */
  datatype Transfer = Transfer(signature: Signature, destination: Address, amount: nat)

  /** What the network answers while one journal is read back. */
  datatype Answers = Answers(
    status: map<Signature, StatusAnswer>,
    height: nat,
    found: map<Signature, bool>,
    landed: set<Signature>,
    transfers: seq<Transfer>)

  function NewJournal(rows: seq<Row>): RunJournal {
    RunJournal(rows, None, [], false, false)
  }

  function Wallets(rows: seq<Row>): set<Wallet> {
    set r | r in rows :: r.wallet
  }

  function AsSet(rows: seq<Wallet>): set<Wallet> {
    set w | w in rows
  }

  function Signatures(txs: seq<JournalTx>): set<Signature> {
    set t | t in txs :: t.signature
  }

  ghost predicate UniqueSignatures(txs: seq<JournalTx>) {
    forall i, j | 0 <= i < j < |txs| :: txs[i].signature != txs[j].signature
  }

  // ---- adding and replacing a transaction ---------------------------------

  function Without(txs: seq<JournalTx>, signature: Signature): (out: seq<JournalTx>)
    ensures forall t :: t in out <==> t in txs && t.signature != signature
    ensures UniqueSignatures(txs) ==> UniqueSignatures(out)
  {
    if txs == [] then []
    else
      var init := Without(txs[..|txs| - 1], signature);
      var last := txs[|txs| - 1];
      if last.signature == signature then init else init + [last]
  }

  /** The journal with one transaction added or replaced, by signature. */
  function WithTx(journal: RunJournal, tx: JournalTx): (out: RunJournal)
    ensures forall t :: t in out.txs <==> t == tx || (t in journal.txs && t.signature != tx.signature)
    ensures UniqueSignatures(journal.txs) ==> UniqueSignatures(out.txs)
    ensures out.rows == journal.rows && out.mint == journal.mint
  {
    journal.(txs := Without(journal.txs, tx.signature) + [tx])
  }

  // ---- deciding one transaction -------------------------------------------

  function StatusOf(a: Answers, signature: Signature): StatusAnswer {
    if signature in a.status then a.status[signature] else NoStatus
  }

  function TxOutcome(status: StatusAnswer, lastValid: nat, height: nat): Outcome {
    match status
    case Errored => Refused
    case Settled => Landed
    case Processed => Waiting
    case NoStatus => if height > lastValid then Lapsed else Waiting
  }

  /** An "expired" answer is asked about once more with the transaction itself. */
  function Recheck(outcome: Outcome, status: TxStatus, signature: Signature, a: Answers): Outcome {
    if outcome.Lapsed? && (status.Signed? || status.Sent?) && signature in a.found then
      if a.found[signature] then Landed else Refused
    else
      outcome
  }

  function Asked(t: JournalTx, a: Answers): Outcome {
    Recheck(TxOutcome(StatusOf(a, t.signature), t.lastValid, a.height), t.status, t.signature, a)
  }

  /** A signature the treasury's own history holds without an error landed. */
  function Swept(outcome: Outcome, signature: Signature, a: Answers): Outcome {
    if signature in a.landed && !outcome.Refused? then Landed else outcome
  }

  function Verdict(t: JournalTx, a: Answers, swept: bool): Outcome {
    if swept then Swept(Asked(t, a), t.signature, a) else Asked(t, a)
  }

  /** The transaction lookup is asked at all: the status lookup lost a signed or sent one after its last block. */
  predicate Rechecked(t: JournalTx, a: Answers) {
    && (t.status.Signed? || t.status.Sent?) && StatusOf(a, t.signature).NoStatus? && a.height > t.lastValid
    && t.signature in a.found
  }

  /** What the three lookups together make of one transaction. */
  lemma VerdictExactly(t: JournalTx, a: Answers, swept: bool)
    ensures
      var status := StatusOf(a, t.signature);
      var shown := swept && t.signature in a.landed;
      var o := Verdict(t, a, swept);
      && (o.Refused? <==> status.Errored? || (Rechecked(t, a) && !a.found[t.signature]))
      && (o.Landed? <==> status.Settled? || (Rechecked(t, a) && a.found[t.signature]) || (shown && !o.Refused?))
      && (o.Lapsed? <==> status.NoStatus? && a.height > t.lastValid && !Rechecked(t, a) && !shown)
      && (o.Waiting? <==> !shown && (status.Processed? || (status.NoStatus? && a.height <= t.lastValid)))
  {
  }

  function Outcomes(txs: seq<JournalTx>, a: Answers, swept: bool): (out: map<Signature, Outcome>)
    ensures out.Keys == Signatures(txs)
  {
    if txs == [] then map[]
    else
      var t := txs[|txs| - 1];
      assert txs == txs[..|txs| - 1] + [t];
      Outcomes(txs[..|txs| - 1], a, swept)[t.signature := Verdict(t, a, swept)]
  }

  lemma {:induction false} OutcomesAt(txs: seq<JournalTx>, a: Answers, swept: bool, t: JournalTx)
    requires UniqueSignatures(txs) && t in txs
    ensures Outcomes(txs, a, swept)[t.signature] == Verdict(t, a, swept)
  {
    var init, last := txs[..|txs| - 1], txs[|txs| - 1];
    if t != last {
      assert t in init;
      OutcomesAt(init, a, swept, t);
    }
  }

  /** A status stored as confirmed is final, whatever a later lookup says. */
  function OutcomeOf(t: JournalTx, outcomes: map<Signature, Outcome>): Outcome {
    if t.status.Confirmed? then Landed
    else if t.signature in outcomes then outcomes[t.signature]
    else if t.status.Failed? then Refused
    else if t.status.Expired? then Lapsed
    else Waiting
  }

  function StatusAfter(status: TxStatus, outcome: Outcome): TxStatus {
    if status.Confirmed? then status
    else match outcome
      case Landed => Confirmed
      case Refused => Failed
      case Lapsed => Expired
      case Waiting => status
  }

  function WithOutcomes(txs: seq<JournalTx>, outcomes: map<Signature, Outcome>): (out: seq<JournalTx>)
    ensures |out| == |txs|
    ensures forall i | 0 <= i < |txs| ::
              && out[i].signature == txs[i].signature
              && out[i].rows == txs[i].rows
              && out[i].lastValid == txs[i].lastValid
  {
    seq(|txs|, i requires 0 <= i < |txs| =>
      var t := txs[i];
      if t.signature in outcomes then t.(status := StatusAfter(t.status, outcomes[t.signature])) else t)
  }

  // ---- row states ----------------------------------------------------------

  function Visit(state: RowState, t: JournalTx, outcome: Outcome): RowState {
    if state.Done? then state
    else match outcome
      case Landed => Done(t.signature, ByJournal)
      case Waiting => Pending(t.signature)
      case _ => state
  }

  /** What the journal's transactions, in order, say of one wallet. */
  function JournalState(txs: seq<JournalTx>, outcomes: map<Signature, Outcome>, w: Wallet): RowState {
    if txs == [] then Todo
    else
      var t := txs[|txs| - 1];
      var state := JournalState(txs[..|txs| - 1], outcomes, w);
      if w in t.rows then Visit(state, t, OutcomeOf(t, outcomes)) else state
  }

  ghost predicate Pays(t: JournalTx, outcomes: map<Signature, Outcome>, w: Wallet, o: Outcome) {
    w in t.rows && OutcomeOf(t, outcomes) == o
  }

  ghost predicate Covered(txs: seq<JournalTx>, outcomes: map<Signature, Outcome>, w: Wallet, o: Outcome) {
    exists i :: 0 <= i < |txs| && Pays(txs[i], outcomes, w, o)
  }

  lemma CoveredLast(txs: seq<JournalTx>, outcomes: map<Signature, Outcome>, w: Wallet, o: Outcome)
    requires txs != []
    ensures Covered(txs, outcomes, w, o)
       <==> Covered(txs[..|txs| - 1], outcomes, w, o) || Pays(txs[|txs| - 1], outcomes, w, o)
  {
    var init := txs[..|txs| - 1];
    assert forall i | 0 <= i < |init| :: init[i] == txs[i];
  }

  /** Done exactly when a confirmed transaction paid it; pending exactly when only an undecided one may. */
  lemma {:induction false} JournalStateMeaning(txs: seq<JournalTx>, outcomes: map<Signature, Outcome>, w: Wallet)
    ensures
      var s := JournalState(txs, outcomes, w);
      && (s.Done? <==> Covered(txs, outcomes, w, Landed))
      && (s.Pending? <==> Covered(txs, outcomes, w, Waiting) && !Covered(txs, outcomes, w, Landed))
      && (s.Done? ==> s.via == ByJournal && s.signature in Signatures(txs))
  {
    if txs != [] {
      JournalStateMeaning(txs[..|txs| - 1], outcomes, w);
      CoveredLast(txs, outcomes, w, Landed);
      CoveredLast(txs, outcomes, w, Waiting);
      assert forall t :: t in txs[..|txs| - 1] ==> t in txs;
    }
  }

  /** The first transfer from `i` on that can settle a row of `amount` at `destination`. */
  function FirstHit(transfers: seq<Transfer>, explained: set<Signature>, used: set<(Signature, Address)>,
                    destination: Address, amount: nat, i: nat): (k: nat)
    requires i <= |transfers|
    ensures i <= k <= |transfers|
    ensures k < |transfers| ==> Hits(transfers[k], explained, used, destination, amount)
    ensures forall j | i <= j < k :: !Hits(transfers[j], explained, used, destination, amount)
    decreases |transfers| - i
  {
    if i == |transfers| || Hits(transfers[i], explained, used, destination, amount) then i
    else FirstHit(transfers, explained, used, destination, amount, i + 1)
  }

  predicate Hits(t: Transfer, explained: set<Signature>, used: set<(Signature, Address)>,
                 destination: Address, amount: nat) {
    && t.signature !in explained
    && t.destination == destination
    && t.amount == amount
    && (t.signature, t.destination) !in used
  }

  datatype Sweep = Sweep(states: map<Wallet, RowState>, used: set<(Signature, Address)>)

  function SweepRow(s: Sweep, r: Row, explained: set<Signature>, destinations: map<Wallet, Address>,
                    transfers: seq<Transfer>): Sweep {
    if r.wallet !in s.states || !s.states[r.wallet].Todo? || r.wallet !in destinations then s
    else
      var k := FirstHit(transfers, explained, s.used, destinations[r.wallet], r.amount, 0);
      if k == |transfers| then s
      else
        var hit := transfers[k];
        Sweep(s.states[r.wallet := Done(hit.signature, ByBackstop)],
              s.used + {(hit.signature, hit.destination)})
  }

  function SweepRows(s: Sweep, rows: seq<Row>, explained: set<Signature>, destinations: map<Wallet, Address>,
                     transfers: seq<Transfer>): Sweep {
    if rows == [] then s
    else
      SweepRow(SweepRows(s, rows[..|rows| - 1], explained, destinations, transfers),
               rows[|rows| - 1], explained, destinations, transfers)
  }

  function JournalStates(j: RunJournal, outcomes: map<Signature, Outcome>): (m: map<Wallet, RowState>)
    ensures m.Keys == Wallets(j.rows)
  {
    map w | w in Wallets(j.rows) :: JournalState(j.txs, outcomes, w)
  }

  /** Each row's state: the journal first, then the backstop for the rows still to do. */
  function StatesOf(j: RunJournal, outcomes: map<Signature, Outcome>, destinations: map<Wallet, Address>,
                    transfers: seq<Transfer>): map<Wallet, RowState> {
    SweepRows(Sweep(JournalStates(j, outcomes), {}), j.rows, Signatures(j.txs), destinations, transfers).states
  }

  ghost predicate ByTransfer(state: RowState) {
    state.Done? && state.via == ByBackstop
  }

  /** `w` is settled by an unexplained transfer to its own account of exactly the amount of one of `rows`. */
  ghost predicate SettledBy(w: Wallet, sig: Signature, rows: seq<Row>, explained: set<Signature>,
                            destinations: map<Wallet, Address>, transfers: seq<Transfer>) {
    && w in destinations
    && sig !in explained
    && exists i :: 0 <= i < |rows| && rows[i].wallet == w && Transfer(sig, destinations[w], rows[i].amount) in transfers
  }

  ghost predicate Accounted(base: map<Wallet, RowState>, s: Sweep, rows: seq<Row>, explained: set<Signature>,
                            destinations: map<Wallet, Address>, transfers: seq<Transfer>) {
    && s.states.Keys == base.Keys
    && (forall w | w in base && !ByTransfer(s.states[w]) :: s.states[w] == base[w])
    && (forall w | w in base && ByTransfer(s.states[w]) ::
          && base[w].Todo?
          && SettledBy(w, s.states[w].signature, rows, explained, destinations, transfers)
          && (s.states[w].signature, destinations[w]) in s.used)
    && (forall v, w | v in base && w in base && v != w && ByTransfer(s.states[v]) && ByTransfer(s.states[w]) ::
          (s.states[v].signature, destinations[v]) != (s.states[w].signature, destinations[w]))
  }

  lemma MoreRows(w: Wallet, sig: Signature, rows: seq<Row>, r: Row, explained: set<Signature>,
                 destinations: map<Wallet, Address>, transfers: seq<Transfer>)
    requires SettledBy(w, sig, rows, explained, destinations, transfers)
    ensures SettledBy(w, sig, rows + [r], explained, destinations, transfers)
  {
    var i :| 0 <= i < |rows| && rows[i].wallet == w && Transfer(sig, destinations[w], rows[i].amount) in transfers;
    assert (rows + [r])[i] == rows[i];
  }

  lemma SweepRowAccounted(base: map<Wallet, RowState>, s: Sweep, rows: seq<Row>, r: Row, explained: set<Signature>,
                          destinations: map<Wallet, Address>, transfers: seq<Transfer>)
    requires Accounted(base, s, rows, explained, destinations, transfers)
    ensures Accounted(base, SweepRow(s, r, explained, destinations, transfers), rows + [r],
                      explained, destinations, transfers)
  {
    var out := SweepRow(s, r, explained, destinations, transfers);
    forall w | w in base && ByTransfer(out.states[w])
      ensures base[w].Todo? && SettledBy(w, out.states[w].signature, rows + [r], explained, destinations, transfers)
    {
      if out.states[w] == s.states[w] {
        MoreRows(w, s.states[w].signature, rows, r, explained, destinations, transfers);
      } else {
        var k := FirstHit(transfers, explained, s.used, destinations[w], r.amount, 0);
        assert transfers[k] in transfers && (rows + [r])[|rows|] == r;
        assert transfers[k] == Transfer(out.states[w].signature, destinations[w], r.amount);
      }
    }
  }

  /**
   * The backstop only ever turns a row still to do into a done one, only for
   * an unexplained transfer of exactly its amount to its token account, and
   * never counts one transfer for two wallets.
   */
  lemma {:induction false} BackstopCountsOnce(
    base: map<Wallet, RowState>, rows: seq<Row>, explained: set<Signature>,
    destinations: map<Wallet, Address>, transfers: seq<Transfer>)
    requires forall w | w in base :: !ByTransfer(base[w])
    ensures Accounted(base, SweepRows(Sweep(base, {}), rows, explained, destinations, transfers), rows,
                      explained, destinations, transfers)
  {
    if rows != [] {
      var init, r := rows[..|rows| - 1], rows[|rows| - 1];
      BackstopCountsOnce(base, init, explained, destinations, transfers);
      SweepRowAccounted(base, SweepRows(Sweep(base, {}), init, explained, destinations, transfers), init, r,
                        explained, destinations, transfers);
      assert rows == init + [r];
    }
  }

  /** One transaction's rows applied to the map of states, the source's inner loop. */
  method VisitRows(before: map<Wallet, RowState>, t: JournalTx, o: Outcome) returns (states: map<Wallet, RowState>)
    ensures states.Keys == before.Keys
    ensures forall w | w in before :: states[w] == if w in t.rows then Visit(before[w], t, o) else before[w]
  {
    states := before;
    for k := 0 to |t.rows|
      invariant states.Keys == before.Keys
      invariant forall w | w in before ::
                  states[w] == if w in t.rows[..k] then Visit(before[w], t, o) else before[w]
    {
      var w := t.rows[k];
      assert t.rows[..k + 1] == t.rows[..k] + [w];
      if w in states && !states[w].Done? {
        if o.Landed? {
          states := states[w := Done(t.signature, ByJournal)];
        } else if o.Waiting? {
          states := states[w := Pending(t.signature)];
        }
      }
    }
    assert t.rows[..|t.rows|] == t.rows;
  }

  /** The backstop loop: one row after another, each unexplained transfer used once. */
  method SweepStates(base: map<Wallet, RowState>, rows: seq<Row>, explained: set<Signature>,
                     destinations: map<Wallet, Address>, transfers: seq<Transfer>)
    returns (states: map<Wallet, RowState>)
    ensures states == SweepRows(Sweep(base, {}), rows, explained, destinations, transfers).states
  {
    states := base;
    var used: set<(Signature, Address)> := {};
    for i := 0 to |rows|
      invariant Sweep(states, used) == SweepRows(Sweep(base, {}), rows[..i], explained, destinations, transfers)
    {
      var r := rows[i];
      assert rows[..i + 1][..i] == rows[..i];
      if r.wallet in states && states[r.wallet].Todo? && r.wallet in destinations {
        var k := 0;
        while k < |transfers| && !Hits(transfers[k], explained, used, destinations[r.wallet], r.amount)
          invariant 0 <= k <= |transfers|
          invariant FirstHit(transfers, explained, used, destinations[r.wallet], r.amount, 0)
                 == FirstHit(transfers, explained, used, destinations[r.wallet], r.amount, k)
        {
          k := k + 1;
        }
        if k < |transfers| {
          used := used + {(transfers[k].signature, transfers[k].destination)};
          states := states[r.wallet := Done(transfers[k].signature, ByBackstop)];
        }
      }
    }
    assert rows[..|rows|] == rows;
  }

  /** `rowStates`: every row to do, then the journal's transactions, then the backstop. */
  method RowStates(j: RunJournal, outcomes: map<Signature, Outcome>, destinations: map<Wallet, Address>,
                   transfers: seq<Transfer>) returns (states: map<Wallet, RowState>)
    ensures states == StatesOf(j, outcomes, destinations, transfers)
  {
    states := map w | w in Wallets(j.rows) :: Todo;
    for i := 0 to |j.txs|
      invariant states.Keys == Wallets(j.rows)
      invariant forall w | w in states :: states[w] == JournalState(j.txs[..i], outcomes, w)
    {
      assert j.txs[..i + 1][..i] == j.txs[..i];
      states := VisitRows(states, j.txs[i], OutcomeOf(j.txs[i], outcomes));
    }
    assert j.txs[..|j.txs|] == j.txs;
    assert states == JournalStates(j, outcomes);
    states := SweepStates(states, j.rows, Signatures(j.txs), destinations, transfers);
  }

  // ---- the whole evaluation -------------------------------------------------

  datatype Evaluation = Evaluation(journal: RunJournal, states: map<Wallet, RowState>, mint: Option<Outcome>)

  /** Whether the treasury's history is read at all: only while a row is left to send. */
  function Sweeps(j: RunJournal, a: Answers): bool {
    && (exists w | w in Wallets(j.rows) :: JournalState(j.txs, Outcomes(j.txs, a, false), w).Todo?)
    && (j.txs != [] || j.mint.Some?)
  }

  function MintVerdict(m: JournalMint, a: Answers, swept: bool): Outcome {
    if m.status.Confirmed? then Landed
    else
      var asked := TxOutcome(StatusOf(a, m.signature), m.lastValid, a.height);
      var found := if m.status.Sent? then Recheck(asked, m.status, m.signature, a) else asked;
      if swept then Swept(found, m.signature, a) else found
  }

  /** What is returned and saved once every outcome and row state is known. */
  function Assemble(j: RunJournal, a: Answers, outcomes: map<Signature, Outcome>, states: map<Wallet, RowState>,
                    swept: bool): Evaluation {
    var mint := if j.mint.Some? then Some(MintVerdict(j.mint.value, a, swept)) else None;
    Evaluation(
      RunJournal(
        j.rows,
        if j.mint.Some? then Some(j.mint.value.(status := StatusAfter(j.mint.value.status, mint.value))) else None,
        WithOutcomes(j.txs, outcomes),
        j.finished || (forall w | w in states :: states[w].Done?),
        j.dismissed),
      states, mint)
  }

  function Evaluate(j: RunJournal, a: Answers, destinations: map<Wallet, Address>): Evaluation {
    var swept := Sweeps(j, a);
    var outcomes := Outcomes(j.txs, a, swept);
    Assemble(j, a, outcomes, StatesOf(j, outcomes, destinations, if swept then a.transfers else []), swept)
  }

  lemma {:induction false} SweptOutcomes(txs: seq<JournalTx>, a: Answers, sig: Signature)
    requires sig in Signatures(txs)
    ensures Outcomes(txs, a, true)[sig] == Swept(Outcomes(txs, a, false)[sig], sig, a)
  {
    var init, t := txs[..|txs| - 1], txs[|txs| - 1];
    assert txs == init + [t];
    if sig != t.signature {
      SweptOutcomes(init, a, sig);
    }
  }

  /** A history of the run's own transfers settles no row by itself. */
  lemma {:induction false} NothingToSweep(s: Sweep, rows: seq<Row>, explained: set<Signature>,
                                          destinations: map<Wallet, Address>, transfers: seq<Transfer>)
    requires forall t | t in transfers :: t.signature in explained
    ensures SweepRows(s, rows, explained, destinations, transfers) == s
  {
    if rows != [] {
      NothingToSweep(s, rows[..|rows| - 1], explained, destinations, transfers);
    }
  }

  lemma LastSeen(txs: seq<JournalTx>, i: nat)
    requires i < |txs|
    ensures Signatures(txs[..i + 1]) == Signatures(txs[..i]) + {txs[i].signature}
    ensures txs[i].signature in Signatures(txs)
  {
    assert txs[..i + 1] == txs[..i] + [txs[i]];
    assert txs[i] in txs;
  }

  /** The history's landed signatures applied to the outcomes read so far. */
  method ApplyHistory(txs: seq<JournalTx>, a: Answers, asked: map<Signature, Outcome>)
    returns (outcomes: map<Signature, Outcome>)
    requires asked == Outcomes(txs, a, false)
    ensures outcomes == Outcomes(txs, a, true)
  {
    outcomes := asked;
    for i := 0 to |txs|
      invariant outcomes.Keys == asked.Keys
      invariant forall sig | sig in asked && sig in Signatures(txs[..i]) :: outcomes[sig] == Swept(asked[sig], sig, a)
      invariant forall sig | sig in asked && sig !in Signatures(txs[..i]) :: outcomes[sig] == asked[sig]
    {
      var sig := txs[i].signature;
      LastSeen(txs, i);
      if sig in a.landed && !outcomes[sig].Refused? {
        outcomes := outcomes[sig := Landed];
      }
    }
    assert txs[..|txs|] == txs;
    forall sig | sig in asked ensures outcomes[sig] == Outcomes(txs, a, true)[sig] {
      SweptOutcomes(txs, a, sig);
    }
  }

  /** The status lookup of every journalled transaction, an expired answer asked about once more. */
  method AskNetwork(txs: seq<JournalTx>, a: Answers) returns (outcomes: map<Signature, Outcome>)
    ensures outcomes == Outcomes(txs, a, false)
  {
    outcomes := map[];
    for i := 0 to |txs|
      invariant outcomes == Outcomes(txs[..i], a, false)
    {
      assert txs[..i + 1][..i] == txs[..i];
      outcomes := outcomes[txs[i].signature := Asked(txs[i], a)];
    }
    assert txs[..|txs|] == txs;
  }

  /** `evaluateRun`: every journalled transaction decided, the backstop applied, the journal updated. */
  method EvaluateRun(j: RunJournal, a: Answers, destinations: map<Wallet, Address>) returns (e: Evaluation)
    ensures e == Evaluate(j, a, destinations)
  {
    var outcomes := AskNetwork(j.txs, a);
    var states := RowStates(j, outcomes, destinations, []);
    NothingToSweep(Sweep(JournalStates(j, outcomes), {}), j.rows, Signatures(j.txs), destinations, []);
    assert states == JournalStates(j, outcomes);
    var swept := (exists w | w in states :: states[w].Todo?) && (j.txs != [] || j.mint.Some?);
    assert swept == Sweeps(j, a) by {
      assert forall w | w in states :: states[w] == JournalState(j.txs, Outcomes(j.txs, a, false), w);
    }
    if swept {
      outcomes := ApplyHistory(j.txs, a, outcomes);
      states := RowStates(j, outcomes, destinations, a.transfers);
    }
    e := Assemble(j, a, outcomes, states, swept);
  }

  predicate Undecided(e: Evaluation) {
    || e.mint == Some(Waiting)
    || exists w | w in e.states :: e.states[w].Pending?
  }

  function TodoRows(e: Evaluation): set<Wallet> {
    set w | w in e.states && e.states[w].Todo?
  }
}
