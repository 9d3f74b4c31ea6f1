// The send's own loops over its journal: `onSigned`, the marks after a group
// and the report (front/components/send-to-wallets-panel.tsx).
module Session {
  import opened Journal
  import opened Distribution
  import opened Safety

  /** What the batch sender returns for one transaction of a group. */
  datatype SendOutcome = SendOutcome(signature: Option<Signature>, sent: bool)

  /** What waiting for one signature ended with. */
  datatype Waited = WaitConfirmed | WaitFailed | WaitUnknown

  /** The signatures of a group the network took. */
  function SentOf(outcomes: seq<SendOutcome>): seq<Signature> {
    if outcomes == [] then []
    else
      var o := outcomes[|outcomes| - 1];
      SentOf(outcomes[..|outcomes| - 1]) + if o.signature.Some? && o.sent then [o.signature.value] else []
  }

  /** The decided ones of the signatures waited for. */
  function MarksOf(sent: seq<Signature>, waited: seq<Waited>): seq<(Signature, TxStatus)>
    requires |sent| == |waited|
  {
    if sent == [] then []
    else
      var n := |sent| - 1;
      MarksOf(sent[..n], waited[..n]) +
      match waited[n]
      case WaitConfirmed => [(sent[n], Confirmed)]
      case WaitFailed => [(sent[n], Failed)]
      case WaitUnknown => []
  }

  lemma SentMarksGrow(signatures: seq<Signature>, sig: Signature)
    ensures SentMarks(signatures + [sig]) == SentMarks(signatures) + [(sig, Sent)]
  {
  }

  lemma MarkAllGrows(j: RunJournal, marks: seq<(Signature, TxStatus)>, m: (Signature, TxStatus))
    ensures MarkAll(j, marks + [m]) == Mark(MarkAll(j, marks), m.0, m.1)
  {
    assert (marks + [m])[..|marks|] == marks;
  }

  lemma SentStep(j: RunJournal, outcomes: seq<SendOutcome>, i: nat)
    requires i < |outcomes|
    ensures
      var before := MarkAll(j, SentMarks(SentOf(outcomes[..i])));
      MarkAll(j, SentMarks(SentOf(outcomes[..i + 1])))
      == if outcomes[i].signature.Some? && outcomes[i].sent then Mark(before, outcomes[i].signature.value, Sent) else before
  {
    var signatures := SentOf(outcomes[..i]);
    assert outcomes[..i + 1][..i] == outcomes[..i];
    if outcomes[i].signature.Some? && outcomes[i].sent {
      SentMarksGrow(signatures, outcomes[i].signature.value);
      MarkAllGrows(j, SentMarks(signatures), (outcomes[i].signature.value, Sent));
    } else {
      assert signatures + [] == signatures;
    }
  }

  lemma ReportStep(j: RunJournal, sent: seq<Signature>, waited: seq<Waited>, i: nat)
    requires |sent| == |waited| && i < |sent|
    ensures
      var before := MarkAll(j, MarksOf(sent[..i], waited[..i]));
      MarkAll(j, MarksOf(sent[..i + 1], waited[..i + 1]))
      == match waited[i]
         case WaitConfirmed => Mark(before, sent[i], Confirmed)
         case WaitFailed => Mark(before, sent[i], Failed)
         case WaitUnknown => before
  {
    var marks := MarksOf(sent[..i], waited[..i]);
    assert sent[..i + 1][..i] == sent[..i] && waited[..i + 1][..i] == waited[..i];
    if waited[i].WaitUnknown? {
      assert marks + [] == marks;
    } else {
      MarkAllGrows(j, marks, (sent[i], if waited[i].WaitConfirmed? then Confirmed else Failed));
    }
  }

  // ---- the status every transaction ends with ------------------------------------------

  /** The last mark of a signature, or what its status was. */
  function StatusAfter(marks: seq<(Signature, TxStatus)>, sig: Signature, was: TxStatus): TxStatus {
    if marks == [] then was
    else if marks[|marks| - 1].0 == sig then marks[|marks| - 1].1
    else StatusAfter(marks[..|marks| - 1], sig, was)
  }

  function Marked(marks: seq<(Signature, TxStatus)>, t: JournalTx): JournalTx {
    t.(status := StatusAfter(marks, t.signature, t.status))
  }

  function MarkedOnce(m: (Signature, TxStatus), t: JournalTx): JournalTx {
    if t.signature == m.0 then t.(status := m.1) else t
  }

  lemma LastMark(init: seq<(Signature, TxStatus)>, last: (Signature, TxStatus), u: JournalTx)
    ensures Marked(init + [last], u) == MarkedOnce(last, Marked(init, u))
  {
    assert (init + [last])[..|init|] == init;
  }

  /** `after` holds the transactions of `before` with those marks, and no others. */
  ghost predicate AllMarked(before: seq<JournalTx>, marks: seq<(Signature, TxStatus)>, after: seq<JournalTx>) {
    && (forall u | u in before :: Marked(marks, u) in after)
    && (forall t | t in after :: exists u :: u in before && t == Marked(marks, u))
  }

  /** `Mark` sets the status of the transaction of one signature. */
  lemma MarkExactly(j: RunJournal, m: (Signature, TxStatus))
    requires UniqueSignatures(j.txs)
    ensures UniqueSignatures(Mark(j, m.0, m.1).txs)
    ensures forall t | t in j.txs :: MarkedOnce(m, t) in Mark(j, m.0, m.1).txs
    ensures forall t | t in Mark(j, m.0, m.1).txs :: exists u :: u in j.txs && t == MarkedOnce(m, u)
  {
    var found := Find(j.txs, m.0);
    forall t | t in j.txs && t.signature == m.0 ensures found == Some(t) {
      if found.Some? {
        SameSignature(j.txs, found.value, t);
      }
    }
    forall t | t in Mark(j, m.0, m.1).txs ensures exists u :: u in j.txs && t == MarkedOnce(m, u) {
      if t.signature == m.0 {
        assert t == MarkedOnce(m, found.value);
      } else {
        assert t == MarkedOnce(m, t);
      }
    }
  }

  lemma OneMarked(txs: seq<JournalTx>, init: seq<(Signature, TxStatus)>, last: (Signature, TxStatus), before: RunJournal)
    requires UniqueSignatures(before.txs) && AllMarked(txs, init, before.txs)
    ensures UniqueSignatures(Mark(before, last.0, last.1).txs)
    ensures AllMarked(txs, init + [last], Mark(before, last.0, last.1).txs)
  {
    hide Marked, MarkedOnce, Mark, UniqueSignatures;
    var after := Mark(before, last.0, last.1).txs;
    MarkExactly(before, last);
    forall u ensures Marked(init + [last], u) == MarkedOnce(last, Marked(init, u)) {
      LastMark(init, last, u);
    }
    forall t | t in after ensures exists u :: u in txs && t == Marked(init + [last], u) {
      var b :| b in before.txs && t == MarkedOnce(last, b);
      var u :| u in txs && b == Marked(init, u);
      assert t == Marked(init + [last], u);
    }
  }

  /** Marking changes the statuses of the transactions of the journal to their last mark, and nothing else. */
  lemma {:induction false} MarkAllExactly(j: RunJournal, marks: seq<(Signature, TxStatus)>)
    requires UniqueSignatures(j.txs)
    ensures UniqueSignatures(MarkAll(j, marks).txs)
    ensures AllMarked(j.txs, marks, MarkAll(j, marks).txs)
  {
    hide AllMarked, UniqueSignatures;
    if marks == [] {
      Unmarked(j.txs);
    } else {
      var init, last := marks[..|marks| - 1], marks[|marks| - 1];
      MarkAllExactly(j, init);
      OneMarked(j.txs, init, last, MarkAll(j, init));
      assert marks == init + [last];
    }
  }

  lemma Unmarked(txs: seq<JournalTx>)
    ensures AllMarked(txs, [], txs)
  {
    assert forall t :: Marked([], t) == t;
  }

  lemma SameSignature(txs: seq<JournalTx>, a: JournalTx, b: JournalTx)
    requires UniqueSignatures(txs) && a in txs && b in txs && a.signature == b.signature
    ensures a == b
  {
    var i :| 0 <= i < |txs| && txs[i] == a;
    var k :| 0 <= k < |txs| && txs[k] == b;
    assert i == k;
  }

  predicate WasSent(outcomes: seq<SendOutcome>, sig: Signature) {
    SendOutcome(Some(sig), true) in outcomes
  }

  lemma {:induction false} SentStatus(outcomes: seq<SendOutcome>, sig: Signature, was: TxStatus)
    ensures StatusAfter(SentMarks(SentOf(outcomes)), sig, was) == if WasSent(outcomes, sig) then Sent else was
  {
    if outcomes != [] {
      var init, o := outcomes[..|outcomes| - 1], outcomes[|outcomes| - 1];
      assert outcomes == init + [o];
      SentStatus(init, sig, was);
      var signatures := SentOf(init);
      if o.signature.Some? && o.sent {
        SentMarksGrow(signatures, o.signature.value);
        assert (SentMarks(signatures) + [(o.signature.value, Sent)])[..|signatures|] == SentMarks(signatures);
      } else {
        assert signatures + [] == signatures;
      }
    }
  }

  /** After a group, exactly what the network took is `Sent`; every other transaction is as it was. */
  lemma SentExactly(j: RunJournal, outcomes: seq<SendOutcome>)
    requires UniqueSignatures(j.txs)
    ensures forall t :: t in MarkAll(j, SentMarks(SentOf(outcomes))).txs
                   <==> exists u :: u in j.txs && t == if WasSent(outcomes, u.signature) then u.(status := Sent) else u
  {
    hide SentOf, StatusAfter, MarkAll;
    var marks := SentMarks(SentOf(outcomes));
    MarkAllExactly(j, marks);
    assert forall t :: t in MarkAll(j, marks).txs <==> exists u :: u in j.txs && t == Marked(marks, u);
    forall u ensures Marked(SentMarks(SentOf(outcomes)), u) == if WasSent(outcomes, u.signature) then u.(status := Sent) else u {
      SentStatus(outcomes, u.signature, u.status);
    }
  }

  ghost predicate Distinct(sent: seq<Signature>) {
    forall i, k | 0 <= i < k < |sent| :: sent[i] != sent[k]
  }

  function Told(waited: Waited, was: TxStatus): TxStatus {
    match waited
    case WaitConfirmed => Confirmed
    case WaitFailed => Failed
    case WaitUnknown => was
  }

  lemma LastTold(sent: seq<Signature>, waited: seq<Waited>, sig: Signature, was: TxStatus)
    requires |sent| == |waited| && sent != []
    ensures
      var n := |sent| - 1;
      StatusAfter(MarksOf(sent, waited), sig, was)
      == if sent[n] == sig && !waited[n].WaitUnknown? then Told(waited[n], was)
         else StatusAfter(MarksOf(sent[..n], waited[..n]), sig, was)
  {
    var n := |sent| - 1;
    var marks := MarksOf(sent[..n], waited[..n]);
    if waited[n].WaitUnknown? {
      assert marks + [] == marks;
    } else {
      assert (marks + [(sent[n], Told(waited[n], was))])[..|marks|] == marks;
    }
  }

  lemma {:induction false} ToldStatus(sent: seq<Signature>, waited: seq<Waited>, sig: Signature, was: TxStatus)
    requires |sent| == |waited| && Distinct(sent)
    ensures sig !in sent ==> StatusAfter(MarksOf(sent, waited), sig, was) == was
    ensures forall i | 0 <= i < |sent| && sent[i] == sig :: StatusAfter(MarksOf(sent, waited), sig, was) == Told(waited[i], was)
  {
    if sent != [] {
      hide StatusAfter, MarksOf;
      var n := |sent| - 1;
      ToldStatus(sent[..n], waited[..n], sig, was);
      LastTold(sent, waited, sig, was);
      assert forall i | 0 <= i < n :: sent[..n][i] == sent[i] && waited[..n][i] == waited[i];
    }
  }

  /** After the report, a transaction waited for is what its own wait said, and keeps its status where that was unknown; every other one is as it was. */
  lemma ReportExactly(j: RunJournal, sent: seq<Signature>, waited: seq<Waited>, u: JournalTx)
    requires UniqueSignatures(j.txs) && |sent| == |waited| && Distinct(sent) && u in j.txs
    ensures
      var after := MarkAll(j, MarksOf(sent, waited)).txs;
      && UniqueSignatures(after)
      && (u.signature !in sent ==> u in after)
      && (forall i | 0 <= i < |sent| && sent[i] == u.signature :: u.(status := Told(waited[i], u.status)) in after)
  {
    hide MarksOf, StatusAfter, MarkAll, Told;
    MarkAllExactly(j, MarksOf(sent, waited));
    ToldStatus(sent, waited, u.signature, u.status);
    assert Marked(MarksOf(sent, waited), u) in MarkAll(j, MarksOf(sent, waited)).txs;
  }

  /** The variables of one `send`: its journal, and the browser's store. */
  class RunSession {
    var j: RunJournal
    var disk: Option<RunJournal>

    constructor (journal: RunJournal, stored: Option<RunJournal>)
      ensures j == journal && disk == stored
    {
      j, disk := journal, stored;
    }

    /** Every signed transaction added, then one write: nothing was broadcast before it. */
    method OnSigned(batch: seq<JournalTx>)
      modifies this
      ensures j == AddAll(old(j), batch) && disk == Some(j)
    {
      for i := 0 to |batch|
        invariant j == AddAll(old(j), batch[..i])
      {
        assert batch[..i + 1][..i] == batch[..i];
        j := WithTx(j, batch[i]);
      }
      assert batch[..|batch|] == batch;
      disk := Some(j);
    }

    /** After a group: what the network took is marked sent, the rest stays signed. */
    method MarkSent(outcomes: seq<SendOutcome>)
      modifies this
      ensures j == MarkAll(old(j), SentMarks(SentOf(outcomes))) && disk == Some(j)
    {
      for i := 0 to |outcomes|
        invariant j == MarkAll(old(j), SentMarks(SentOf(outcomes[..i])))
      {
        var o := outcomes[i];
        SentStep(old(j), outcomes, i);
        if o.signature.Some? {
          var t := Find(j.txs, o.signature.value);
          if t.Some? && o.sent {
            j := WithTx(j, t.value.(status := Sent));
          }
        }
      }
      assert outcomes[..|outcomes|] == outcomes;
      disk := Some(j);
    }

    /** The report: confirmed and failed transactions are marked, the undecided keep their status. */
    method Report(sent: seq<Signature>, waited: seq<Waited>)
      requires |sent| == |waited|
      modifies this
      ensures j == MarkAll(old(j), MarksOf(sent, waited)) && disk == Some(j)
    {
      for i := 0 to |sent|
        invariant j == MarkAll(old(j), MarksOf(sent[..i], waited[..i]))
      {
        var t := Find(j.txs, sent[i]);
        ReportStep(old(j), sent, waited, i);
        if t.Some? && !waited[i].WaitUnknown? {
          j := WithTx(j, t.value.(status := if waited[i].WaitConfirmed? then Confirmed else Failed));
        }
      }
      assert sent[..|sent|] == sent && waited[..|waited|] == waited;
      disk := Some(j);
    }
  }

  ghost predicate TrueWaits(s: State, sent: seq<Signature>, waited: seq<Waited>)
    requires |sent| == |waited|
  {
    forall i | 0 <= i < |sent| ::
      && (waited[i].WaitConfirmed? ==> LandedOk(s, sent[i]))
      && (waited[i].WaitFailed? ==> sent[i] in s.chain.landed && !s.chain.landed[sent[i]])
  }

  /** True answers to the wait make the report an admissible step. */
  lemma {:induction false} ReportAdmissible(s: State, sent: seq<Signature>, waited: seq<Waited>)
    requires |sent| == |waited| && TrueWaits(s, sent, waited)
    ensures Admissible(s, Event.Report(MarksOf(sent, waited)))
  {
    if sent != [] {
      var n := |sent| - 1;
      ReportAdmissible(s, sent[..n], waited[..n]);
    }
  }
}
