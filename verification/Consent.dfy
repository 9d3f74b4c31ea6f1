// Wallets paid before are not paid again unless the issuer confirmed exactly
// the set shown, for exactly this run (front/components/send-to-wallets-panel.tsx,
// front/lib/distribution-journal.ts).
module Consent {
  import opened Journal

  // ---- who was paid before -------------------------------------------------------

  datatype Run = Run(runId: string, txs: seq<JournalTx>)

  datatype Receipt = ByRun(runId: string) | ByChain(signature: Signature, amount: nat) | ByBalance(amount: nat)

  predicate Counts(t: JournalTx, w: Wallet) {
    (t.status.Confirmed? || t.status.Sent?) && w in t.rows
  }

  predicate AnyCounts(txs: seq<JournalTx>, w: Wallet) {
    exists t | t in txs :: Counts(t, w)
  }

  /** Another run may have paid `w`. */
  predicate PaidIn(run: Run, runId: Option<string>, w: Wallet) {
    Some(run.runId) != runId && AnyCounts(run.txs, w)
  }

  /** The first other run, in the list's order, that counts as having paid `w`. */
  function FirstRun(runs: seq<Run>, runId: Option<string>, w: Wallet): (r: Option<string>)
    ensures r.None? <==> forall run | run in runs :: !PaidIn(run, runId, w)
    ensures r.Some? ==> exists run :: run in runs && PaidIn(run, runId, w) && run.runId == r.value
  {
    if runs == [] then None
    else
      var init := FirstRun(runs[..|runs| - 1], runId, w);
      assert runs == runs[..|runs| - 1] + [runs[|runs| - 1]];
      if init.Some? then init
      else if PaidIn(runs[|runs| - 1], runId, w) then Some(runs[|runs| - 1].runId)
      else None
  }

  /** The signatures of this run's own journal: those of the first entry with its id. */
  function Own(runs: seq<Run>, runId: Option<string>): set<Signature> {
    if runs == [] then {}
    else if Some(runs[0].runId) == runId then Signatures(runs[0].txs)
    else Own(runs[1..], runId)
  }

  predicate Counted(t: Transfer, own: set<Signature>, destination: Address) {
    t.signature !in own && t.destination == destination
  }

  /** The newest transfer to `destination` that is not one of `own`; the history is newest first. */
  function FirstTransfer(history: seq<Transfer>, own: set<Signature>, destination: Address): (r: Option<Transfer>)
    ensures r.None? <==> forall t | t in history :: !Counted(t, own, destination)
    ensures r.Some? ==> r.value in history && Counted(r.value, own, destination)
  {
    if history == [] then None
    else
      var init := FirstTransfer(history[..|history| - 1], own, destination);
      assert history == history[..|history| - 1] + [history[|history| - 1]];
      if init.Some? then init
      else if Counted(history[|history| - 1], own, destination) then Some(history[|history| - 1])
      else None
  }

  datatype Reading = Reading(
    runId: Option<string>,
    runs: seq<Run>,
    history: seq<Transfer>,
    destinations: map<Wallet, Address>,
    balances: map<Wallet, nat>)

  function Found(i: Reading, w: Wallet): seq<Receipt> {
    var run := FirstRun(i.runs, i.runId, w);
    var transfer := if w in i.destinations && i.destinations[w] != ""
                    then FirstTransfer(i.history, Own(i.runs, i.runId), i.destinations[w]) else None;
    (if run.Some? && run.value != "" then [ByRun(run.value)] else [])
    + (if transfer.Some? then [ByChain(transfer.value.signature, transfer.value.amount)] else [])
    + (if w in i.balances && i.balances[w] > 0 then [ByBalance(i.balances[w])] else [])
  }

  /**
   * A wallet counts as paid before exactly when another run of this browser
   * sent it tokens (confirmed, or sent and not decided), the treasury's
   * history shows a transfer to its account that is not this run's, or its
   * account holds tokens already.
   */
  lemma PaidBeforeExactly(i: Reading, w: Wallet)
    requires forall run | run in i.runs :: run.runId != ""
    ensures Found(i, w) != []
       <==> || (exists run :: run in i.runs && PaidIn(run, i.runId, w))
            || (w in i.destinations && i.destinations[w] != ""
                && exists t :: t in i.history && Counted(t, Own(i.runs, i.runId), i.destinations[w]))
            || (w in i.balances && i.balances[w] > 0)
  {
  }

  /** The runs' loop: the first run of each wallet is kept. */
  method PaidByRun(runs: seq<Run>, runId: Option<string>) returns (byRun: map<Wallet, string>)
    ensures forall w :: w in byRun <==> FirstRun(runs, runId, w).Some?
    ensures forall w | w in byRun :: Some(byRun[w]) == FirstRun(runs, runId, w)
  {
    hide AnyCounts;
    byRun := map[];
    for i := 0 to |runs|
      invariant forall w :: w in byRun <==> FirstRun(runs[..i], runId, w).Some?
      invariant forall w | w in byRun :: Some(byRun[w]) == FirstRun(runs[..i], runId, w)
    {
      assert runs[..i + 1][..i] == runs[..i];
      if Some(runs[i].runId) != runId {
        byRun := PaidInOne(runs[i], byRun);
      }
    }
    assert runs[..|runs|] == runs;
  }

  lemma NoneCount(txs: seq<JournalTx>)
    requires txs == []
    ensures forall w :: !AnyCounts(txs, w)
  {
  }

  lemma OneMoreCounts(txs: seq<JournalTx>, k: nat)
    requires k < |txs|
    ensures forall w :: AnyCounts(txs[..k + 1], w) <==> AnyCounts(txs[..k], w) || Counts(txs[k], w)
  {
    assert txs[..k + 1] == txs[..k] + [txs[k]];
  }

  method PaidInOne(run: Run, before: map<Wallet, string>) returns (byRun: map<Wallet, string>)
    ensures forall w :: w in byRun <==> w in before || AnyCounts(run.txs, w)
    ensures forall w | w in byRun :: byRun[w] == if w in before then before[w] else run.runId
  {
    hide AnyCounts;
    byRun := before;
    assert forall w :: !AnyCounts(run.txs[..0], w) by { NoneCount(run.txs[..0]); }
    for k := 0 to |run.txs|
      invariant forall w :: w in byRun <==> w in before || AnyCounts(run.txs[..k], w)
      invariant forall w | w in byRun :: byRun[w] == if w in before then before[w] else run.runId
    {
      var t := run.txs[k];
      OneMoreCounts(run.txs, k);
      if t.status.Confirmed? || t.status.Sent? {
        var mid := byRun;
        for m := 0 to |t.rows|
          invariant forall w :: w in byRun <==> w in mid || w in t.rows[..m]
          invariant forall w | w in byRun :: byRun[w] == if w in before then before[w] else run.runId
          invariant forall w | w in before :: w in byRun
        {
          assert t.rows[..m + 1] == t.rows[..m] + [t.rows[m]];
          if t.rows[m] !in byRun {
            byRun := byRun[t.rows[m] := run.runId];
          }
        }
        assert t.rows[..|t.rows|] == t.rows;
      }
    }
    assert run.txs[..|run.txs|] == run.txs;
  }

  method NewestTransfers(history: seq<Transfer>, own: set<Signature>) returns (byDestination: map<Address, Transfer>)
    ensures forall d :: d in byDestination <==> FirstTransfer(history, own, d).Some?
    ensures forall d | d in byDestination :: Some(byDestination[d]) == FirstTransfer(history, own, d)
  {
    byDestination := map[];
    for i := 0 to |history|
      invariant forall d :: d in byDestination <==> FirstTransfer(history[..i], own, d).Some?
      invariant forall d | d in byDestination :: Some(byDestination[d]) == FirstTransfer(history[..i], own, d)
    {
      assert history[..i + 1][..i] == history[..i];
      var t := history[i];
      if t.signature !in own && t.destination !in byDestination {
        byDestination := byDestination[t.destination := t];
      }
    }
    assert history[..|history|] == history;
  }

  /** `priorReceipts`: every wallet of the rows with what it received before. */
  method PriorReceipts(rows: seq<Wallet>, i: Reading) returns (out: map<Wallet, seq<Receipt>>)
    ensures forall w :: w in out <==> w in rows && Found(i, w) != []
    ensures forall w | w in out :: out[w] == Found(i, w)
  {
    hide FirstRun, FirstTransfer, Own, PaidIn, Counted;
    var byRun := PaidByRun(i.runs, i.runId);
    var byDestination := NewestTransfers(i.history, Own(i.runs, i.runId));
    out := map[];
    for k := 0 to |rows|
      invariant forall w :: w in out <==> w in rows[..k] && Found(i, w) != []
      invariant forall w | w in out :: out[w] == Found(i, w)
    {
      var w := rows[k];
      assert rows[..k + 1] == rows[..k] + [w];
      var found: seq<Receipt> := [];
      if w in byRun && byRun[w] != "" {
        found := found + [ByRun(byRun[w])];
      }
      if w in i.destinations && i.destinations[w] != "" && i.destinations[w] in byDestination {
        var t := byDestination[i.destinations[w]];
        found := found + [ByChain(t.signature, t.amount)];
      }
      if w in i.balances && i.balances[w] > 0 {
        found := found + [ByBalance(i.balances[w])];
      }
      assert found == Found(i, w);
      if found != [] {
        out := out[w := found];
      }
    }
    assert rows[..|rows|] == rows;
  }

  // ---- the key of a consent ---------------------------------------------------------

  predicate Before(a: string, b: string) {
    a == [] || (b != [] && (a[0] < b[0] || (a[0] == b[0] && Before(a[1..], b[1..]))))
  }

  lemma {:induction false} BeforeTotal(a: string, b: string)
    ensures Before(a, b) || Before(b, a)
    ensures Before(a, b) && Before(b, a) ==> a == b
  {
    if a != [] && b != [] {
      BeforeTotal(a[1..], b[1..]);
      assert a == [a[0]] + a[1..] && b == [b[0]] + b[1..];
    }
  }

  lemma {:induction false} BeforeTransitive(a: string, b: string, c: string)
    requires Before(a, b) && Before(b, c)
    ensures Before(a, c)
  {
    if a != [] && a[0] == b[0] && b[0] == c[0] {
      BeforeTransitive(a[1..], b[1..], c[1..]);
    }
  }

  function Insert(w: Wallet, sorted: seq<Wallet>): (out: seq<Wallet>)
    ensures multiset(out) == multiset(sorted) + multiset{w}
    ensures |out| == |sorted| + 1
  {
    if sorted == [] then [w]
    else if Before(w, sorted[0]) then [w] + sorted
    else
      assert sorted == [sorted[0]] + sorted[1..];
      [sorted[0]] + Insert(w, sorted[1..])
  }

  function Sort(ws: seq<Wallet>): (out: seq<Wallet>)
    ensures multiset(out) == multiset(ws) && |out| == |ws|
  {
    if ws == [] then []
    else
      assert ws == [ws[0]] + ws[1..];
      Insert(ws[0], Sort(ws[1..]))
  }

  /** In front of every element of `ws`. */
  ghost predicate Leads(w: Wallet, ws: seq<Wallet>) {
    forall x | x in multiset(ws) :: Before(w, x)
  }

  ghost predicate Ordered(ws: seq<Wallet>) {
    ws == [] || (Leads(ws[0], ws[1..]) && Ordered(ws[1..]))
  }

  lemma {:induction false} InsertOrdered(w: Wallet, sorted: seq<Wallet>)
    requires Ordered(sorted)
    ensures Ordered(Insert(w, sorted))
  {
    if sorted != [] {
      var rest := sorted[1..];
      BeforeTotal(w, sorted[0]);
      assert sorted == [sorted[0]] + rest;
      if Before(w, sorted[0]) {
        forall x | x in multiset(sorted) ensures Before(w, x) {
          if x != sorted[0] {
            assert x in multiset(rest);
            BeforeTransitive(w, sorted[0], x);
          }
        }
        assert ([w] + sorted)[1..] == sorted;
      } else {
        InsertOrdered(w, rest);
        assert ([sorted[0]] + Insert(w, rest))[1..] == Insert(w, rest);
      }
    }
  }

  lemma {:induction false} SortOrdered(ws: seq<Wallet>)
    ensures Ordered(Sort(ws))
  {
    if ws != [] {
      SortOrdered(ws[1..]);
      InsertOrdered(ws[0], Sort(ws[1..]));
    }
  }

  lemma HeadLeads(ws: seq<Wallet>)
    requires ws != [] && Ordered(ws)
    ensures Leads(ws[0], ws)
  {
    BeforeTotal(ws[0], ws[0]);
    assert ws == [ws[0]] + ws[1..];
  }

  lemma TailMultiset(ws: seq<Wallet>)
    requires ws != []
    ensures multiset(ws[1..]) == multiset(ws) - multiset{ws[0]} && ws[0] in multiset(ws)
  {
    assert ws == [ws[0]] + ws[1..];
  }

  /** Two ordered lists of the same wallets are the same list. */
  lemma {:induction false} OrderedUnique(a: seq<Wallet>, b: seq<Wallet>)
    requires Ordered(a) && Ordered(b) && multiset(a) == multiset(b)
    ensures a == b
  {
    hide Ordered, Leads, Before;
    assert |a| == |multiset(a)| == |multiset(b)| == |b|;
    if a != [] {
      SameHead(a, b);
      TailMultiset(a);
      TailMultiset(b);
      assert Ordered(a[1..]) && Ordered(b[1..]) by { TailOrdered(a); TailOrdered(b); }
      OrderedUnique(a[1..], b[1..]);
      assert a == [a[0]] + a[1..] && b == [b[0]] + b[1..];
    }
  }

  lemma TailOrdered(ws: seq<Wallet>)
    requires ws != [] && Ordered(ws)
    ensures Ordered(ws[1..])
  {
  }

  lemma SameHead(a: seq<Wallet>, b: seq<Wallet>)
    requires a != [] && b != [] && Ordered(a) && Ordered(b) && multiset(a) == multiset(b)
    ensures a[0] == b[0]
  {
    HeadLeads(a);
    HeadLeads(b);
    assert a[0] in multiset(a) && b[0] in multiset(b);
    BeforeTotal(a[0], b[0]);
  }

  function Join(ws: seq<Wallet>): string
    requires ws != []
  {
    if |ws| == 1 then ws[0] else ws[0] + "," + Join(ws[1..])
  }

  predicate FreeOf(c: char, s: string) {
    c !in s
  }

  /** Only one way to cut a string at its first separator. */
  lemma FirstPart(sep: char, a: string, b: string, x: string, y: string)
    requires FreeOf(sep, a) && FreeOf(sep, b) && a + [sep] + x == b + [sep] + y
    ensures a == b && x == y
  {
    var s := a + [sep] + x;
    assert s[|a|] == sep && s[|b|] == sep;
    assert forall i | 0 <= i < |a| :: s[i] == a[i] && a[i] != sep;
    assert forall i | 0 <= i < |b| :: s[i] == b[i] && b[i] != sep;
    assert |a| == |b|;
    assert a == s[..|a|] && b == s[..|b|];
    assert x == s[|a| + 1..] && y == s[|b| + 1..];
  }

  lemma JoinHasComma(ws: seq<Wallet>)
    requires ws != [] && forall w | w in ws :: FreeOf(',', w)
    ensures |ws| == 1 <==> FreeOf(',', Join(ws))
  {
    if |ws| > 1 {
      assert Join(ws)[|ws[0]|] == ',';
    }
  }

  lemma {:induction false} JoinInjective(a: seq<Wallet>, b: seq<Wallet>)
    requires a != [] && b != [] && Join(a) == Join(b)
    requires forall w | w in a + b :: FreeOf(',', w)
    ensures a == b
  {
    assert forall w | w in a || w in b :: w in a + b;
    JoinHasComma(a);
    JoinHasComma(b);
    if |a| > 1 {
      FirstPart(',', a[0], b[0], Join(a[1..]), Join(b[1..]));
      assert forall w | w in a[1..] + b[1..] :: w in a + b;
      JoinInjective(a[1..], b[1..]);
      assert a == [a[0]] + a[1..] && b == [b[0]] + b[1..];
    }
  }

  /** `repeatedKey`: nothing for no repeated wallet, else the run and its wallets in order. */
  function RepeatedKey(runId: string, repeated: seq<Wallet>): Option<string> {
    if repeated == [] then None else Some(runId + "|" + Join(Sort(repeated)))
  }

  /** Two keys are the same exactly when they are of the same run and the same wallets. */
  lemma KeyExactly(r: string, a: seq<Wallet>, q: string, b: seq<Wallet>)
    requires a != [] && b != [] && FreeOf('|', r) && FreeOf('|', q)
    requires forall w | w in a + b :: FreeOf(',', w)
    ensures RepeatedKey(r, a) == RepeatedKey(q, b) <==> r == q && multiset(a) == multiset(b)
  {
    if RepeatedKey(r, a) == RepeatedKey(q, b) {
      FirstPart('|', r, q, Join(Sort(a)), Join(Sort(b)));
      forall w | w in Sort(a) + Sort(b) ensures FreeOf(',', w) {
        assert w in multiset(Sort(a)) || w in multiset(Sort(b));
        assert w in a + b;
      }
      JoinInjective(Sort(a), Sort(b));
      assert multiset(a) == multiset(Sort(a)) == multiset(b);
    }
    if r == q && multiset(a) == multiset(b) {
      SortOrdered(a);
      SortOrdered(b);
      OrderedUnique(Sort(a), Sort(b));
    }
  }

  // ---- the page ------------------------------------------------------------------------

  /** What the issuer had before them when they ticked "send again". */
  datatype Tick = Tick(runId: string, shown: seq<Wallet>)

  /** One send that went past its check: its rows, those paid before by its own reading, and the tick then in force. */
  datatype Payment = Payment(runId: string, rows: seq<Wallet>, prior: set<Wallet>, tick: Option<Tick>)

  /** `shown` is the page's `repeated`, `key` its `sendAgainKey`; `tick` and `made` record the past. */
  datatype Page = Page(runId: string, shown: seq<Wallet>, key: Option<string>, tick: Option<Tick>, made: seq<Payment>)

  datatype PageEvent =
    | Render(runId: string, toSend: seq<Wallet>, prior: set<Wallet>)
    | SetBox(checked: bool)
    | Send(rows: seq<Wallet>, prior: set<Wallet>)

  function Filter(ws: seq<Wallet>, keep: set<Wallet>): (out: seq<Wallet>)
    ensures forall w :: w in out <==> w in ws && w in keep
  {
    if ws == [] then []
    else
      assert ws == ws[..|ws| - 1] + [ws[|ws| - 1]];
      Filter(ws[..|ws| - 1], keep) + if ws[|ws| - 1] in keep then [ws[|ws| - 1]] else []
  }

  predicate SendAgain(p: Page) {
    RepeatedKey(p.runId, p.shown).Some? && p.key == RepeatedKey(p.runId, p.shown)
  }

  /** The rows of a send paid before that the issuer did not confirm. */
  function Unconfirmed(p: Page, rows: seq<Wallet>, prior: set<Wallet>): (out: seq<Wallet>)
    ensures out == [] <==> forall w | w in rows && w in prior :: SendAgain(p) && w in p.shown
  {
    var out := Filter(rows, if SendAgain(p) then prior - AsSet(p.shown) else prior);
    assert out != [] ==> out[0] in out;
    out
  }

  /** A run id is a hash in hexadecimal and a wallet a base58 address: neither holds a separator. */
  predicate Named(runId: string, ws: seq<Wallet>) {
    FreeOf('|', runId) && forall w | w in ws :: FreeOf(',', w)
  }

  function PageNext(p: Page, e: PageEvent): Page {
    match e
    case Render(runId, toSend, prior) => p.(runId := runId, shown := Filter(toSend, prior))
    case SetBox(checked) =>
      if checked then p.(key := RepeatedKey(p.runId, p.shown),
                         tick := if p.shown == [] then None else Some(Tick(p.runId, p.shown)))
      else p.(key := None, tick := None)
    case Send(rows, prior) =>
      if (p.shown == [] || SendAgain(p)) && Unconfirmed(p, rows, prior) == []
      then p.(made := p.made + [Payment(p.runId, rows, prior, p.tick)])
      else p
  }

  function PageRun(p: Page, es: seq<PageEvent>): Page {
    if es == [] then p else PageNext(PageRun(p, es[..|es| - 1]), es[|es| - 1])
  }

  predicate WellNamed(es: seq<PageEvent>) {
    forall e | e in es && e.Render? :: Named(e.runId, e.toSend)
  }

  /** Each row paid before is one of the wallets shown when the box was ticked, for this very run. */
  predicate Consented(m: Payment) {
    forall w | w in m.rows && w in m.prior ::
      m.tick.Some? && m.tick.value.runId == m.runId && w in m.tick.value.shown
  }

  ghost predicate PageOk(p: Page) {
    && Named(p.runId, p.shown)
    && (p.key.Some? <==> p.tick.Some?)
    && (p.tick.Some? ==> && Named(p.tick.value.runId, p.tick.value.shown) && p.tick.value.shown != []
                         && p.key == RepeatedKey(p.tick.value.runId, p.tick.value.shown))
    && forall m | m in p.made :: Consented(m)
  }

  /** The box is taken as ticked exactly while the run and the wallets shown are the ones it was ticked for. */
  lemma SendAgainExactly(p: Page)
    requires PageOk(p)
    ensures SendAgain(p) <==> && p.tick.Some? && p.tick.value.runId == p.runId
                              && multiset(p.tick.value.shown) == multiset(p.shown)
  {
    if p.tick.Some? {
      var t := p.tick.value;
      if p.shown == [] {
        assert t.shown[0] in multiset(t.shown);
      } else {
        assert forall w | w in t.shown + p.shown :: FreeOf(',', w);
        KeyExactly(t.runId, t.shown, p.runId, p.shown);
      }
    }
  }

  lemma PageStep(p: Page, e: PageEvent)
    requires PageOk(p) && (e.Render? ==> Named(e.runId, e.toSend))
    ensures PageOk(PageNext(p, e))
  {
    SendAgainExactly(p);
    if e.Send? && PageNext(p, e) != p {
      var m := Payment(p.runId, e.rows, e.prior, p.tick);
      forall w | w in m.rows && w in m.prior
        ensures m.tick.Some? && m.tick.value.runId == m.runId && w in m.tick.value.shown
      {
        assert w in multiset(p.shown);
      }
      assert Consented(m);
    }
  }

  /** Over every sequence of page events: nobody paid before is paid again without that consent. */
  lemma {:induction false} PaidAgainOnlyWithConsent(runId: string, es: seq<PageEvent>)
    requires FreeOf('|', runId) && WellNamed(es)
    ensures PageOk(PageRun(Page(runId, [], None, None, []), es))
    ensures forall m | m in PageRun(Page(runId, [], None, None, []), es).made :: Consented(m)
  {
    var p := Page(runId, [], None, None, []);
    if es != [] {
      var init := es[..|es| - 1];
      assert forall e | e in init :: e in es;
      PaidAgainOnlyWithConsent(runId, init);
      PageStep(PageRun(p, init), es[|es| - 1]);
    }
  }
}
