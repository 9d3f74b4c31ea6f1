// The market overview: overlapping refreshes, of which the newest wins, and the
// table's filter, order and pages (front/components/market-overview.tsx).
module MarketRefresh {
  import opened Journal

  // ---- refreshes ---------------------------------------------------------------------

  /** Where one request stands: its load raced against the deadline, the model being built, or over. */
  datatype Stage = Loading | Building | Over

  datatype Request = Request(number: nat, stage: Stage)

  datatype Effect = Started(n: nat) | Cleaned(n: nat) | Committed(n: nat) | Failed(n: nat) | Cleared(n: nat)

  datatype View = View(
    generation: nat,
    requests: seq<Request>,
    loading: bool,
    failed: bool,
    snapshot: Option<nat>,
    log: seq<Effect>)

  datatype Event =
    | Refresh
    | Cleanup
    | Load(i: nat, ok: bool)
    | Timeout(i: nat)
    | Build(i: nat, ok: bool)

  function Ended(v: View, i: nat): View
    requires i < |v.requests|
  {
    v.(requests := v.requests[i := v.requests[i].(stage := Over)])
  }

  /** A request's last step: it counts only while it is the newest. */
  function Finish(v: View, i: nat, ok: bool): View
    requires i < |v.requests|
  {
    var n := v.requests[i].number;
    var w := Ended(v, i);
    if n != v.generation then w
    else if ok then w.(snapshot := Some(n), loading := false, log := v.log + [Committed(n), Cleared(n)])
    else w.(failed := true, loading := false, log := v.log + [Effect.Failed(n), Cleared(n)])
  }

  /** The state after `e`; the load and its deadline settle a request once, whichever comes first. */
  function Next(v: View, e: Event): View {
    match e
    case Refresh =>
      var n := v.generation + 1;
      v.(generation := n, loading := true, failed := false, requests := v.requests + [Request(n, Loading)],
         log := v.log + [Started(n)])
    case Cleanup => v.(generation := v.generation + 1, log := v.log + [Cleaned(v.generation + 1)])
    case Load(i, ok) =>
      if i >= |v.requests| || !v.requests[i].stage.Loading? then v
      else if ok then v.(requests := v.requests[i := v.requests[i].(stage := Building)])
      else Finish(v, i, false)
    case Timeout(i) =>
      if i >= |v.requests| || !v.requests[i].stage.Loading? then v else Finish(v, i, false)
    case Build(i, ok) =>
      if i >= |v.requests| || !v.requests[i].stage.Building? then v else Finish(v, i, ok)
  }

  function Run(v: View, es: seq<Event>): View {
    if es == [] then v else Next(Run(v, es[..|es| - 1]), es[|es| - 1])
  }

  function Opened(): View {
    View(0, [], true, false, None, [])
  }

  /** What follows something in the log comes from a request at least as new; after a cleanup or a commit, from a newer one. */
  predicate Follows(a: Effect, b: Effect) {
    && ((b.Committed? || b.Failed? || b.Cleared?) ==> a.n <= b.n)
    && (a.Cleaned? && (b.Committed? || b.Failed? || b.Cleared?) ==> a.n < b.n)
    && (a.Committed? && b.Committed? ==> a.n < b.n)
    && (b.Started? || b.Cleaned? ==> a.n < b.n)
  }

  ghost predicate Ordered(log: seq<Effect>) {
    forall i, j | 0 <= i < j < |log| :: Follows(log[i], log[j])
  }

  ghost predicate Newest(v: View, i: int) {
    0 <= i < |v.requests| && v.requests[i].number == v.generation && !v.requests[i].stage.Over?
  }

  ghost predicate Ok(v: View) {
    && Ordered(v.log)
    && (forall x | x in v.log :: x.n <= v.generation)
    && (forall x | x in v.log && x.Committed? :: v.snapshot.Some? && x.n <= v.snapshot.value)
    && (v.snapshot.Some? ==> Committed(v.snapshot.value) in v.log)
    && (forall i | 0 <= i < |v.requests| :: v.requests[i].number <= v.generation)
    && (forall i, j | 0 <= i < j < |v.requests| :: v.requests[i].number < v.requests[j].number)
    && (forall i | Newest(v, i) :: v.loading)
    && (forall i | 0 <= i < |v.requests| && !v.requests[i].stage.Over? :: Committed(v.requests[i].number) !in v.log)
    && (forall i | Newest(v, i) :: Cleaned(v.requests[i].number) !in v.log)
  }

  lemma LogMore(log: seq<Effect>, e: Effect)
    requires Ordered(log) && forall x | x in log :: Follows(x, e)
    ensures Ordered(log + [e])
  {
  }

  /** A request moved on or ended, and nothing else. */
  lemma MovedOk(v: View, i: nat, stage: Stage)
    requires Ok(v) && i < |v.requests| && !v.requests[i].stage.Over?
    ensures Ok(v.(requests := v.requests[i := v.requests[i].(stage := stage)]))
  {
    var w := v.(requests := v.requests[i := v.requests[i].(stage := stage)]);
    forall k | Newest(w, k) ensures Newest(v, k) && w.requests[k].number == v.requests[k].number {
    }
  }

  lemma FinishOk(v: View, i: nat, ok: bool)
    requires Ok(v) && i < |v.requests| && !v.requests[i].stage.Over?
    ensures Ok(Finish(v, i, ok))
  {
    var n := v.requests[i].number;
    var w := Finish(v, i, ok);
    if n == v.generation {
      assert Newest(v, i);
      var first := if ok then Committed(n) else Effect.Failed(n);
      LogMore(v.log, first);
      LogMore(v.log + [first], Cleared(n));
      assert w.log == v.log + [first] + [Cleared(n)];
      assert forall k | 0 <= k < |w.requests| :: !Newest(w, k);
    } else {
      MovedOk(v, i, Over);
    }
  }

  lemma StartOk(v: View)
    requires Ok(v)
    ensures Ok(Next(v, Refresh))
  {
    LogMore(v.log, Started(v.generation + 1));
    var w := Next(v, Refresh);
    assert forall k | Newest(w, k) :: k == |v.requests|;
  }

  lemma CleanupOk(v: View)
    requires Ok(v)
    ensures Ok(Next(v, Cleanup))
  {
    LogMore(v.log, Cleaned(v.generation + 1));
    var w := Next(v, Cleanup);
    assert forall k :: !Newest(w, k);
  }

  lemma StepOk(v: View, e: Event)
    requires Ok(v)
    ensures Ok(Next(v, e))
  {
    hide Ok;
    match e
    case Refresh => StartOk(v);
    case Cleanup => CleanupOk(v);
    case Load(i, ok) =>
      if i < |v.requests| && v.requests[i].stage.Loading? {
        MovedOk(v, i, Building);
        FinishOk(v, i, false);
      }
    case Timeout(i) =>
      if i < |v.requests| && v.requests[i].stage.Loading? { FinishOk(v, i, false); }
    case Build(i, ok) =>
      if i < |v.requests| && v.requests[i].stage.Building? { FinishOk(v, i, ok); }
  }

  /**
   * For every interleaving of refreshes, answers, timeouts and unmounts: the
   * snapshots committed have growing request numbers and the last one is
   * shown; nothing is committed, reported or cleared for a request older than
   * the newest start, nor for one started before a cleanup; and while the
   * newest request runs, the page shows that it loads.
   */
  lemma {:induction false} LatestWins(es: seq<Event>)
    ensures
      var v := Run(Opened(), es);
      && Ok(v) && Ordered(v.log)
      && (forall x | x in v.log && x.Committed? :: v.snapshot.Some? && x.n <= v.snapshot.value)
      && (forall i | Newest(v, i) :: v.loading)
  {
    if es != [] {
      LatestWins(es[..|es| - 1]);
      StepOk(Run(Opened(), es[..|es| - 1]), es[|es| - 1]);
    }
  }

  /** The ref and the state of the page with its requests, `refresh` in its stretches between two awaits. */
  class Overview {
    var generation: nat
    var requests: seq<Request>
    var loading: bool
    var failed: bool
    var snapshot: Option<nat>
    var log: seq<Effect>

    constructor ()
      ensures AsView() == Opened()
    {
      generation, requests, loading, failed, snapshot, log := 0, [], true, false, None, [];
    }

    function AsView(): View
      reads this
    {
      View(generation, requests, loading, failed, snapshot, log)
    }

    /** `refresh` up to its first await. */
    method Start() returns (i: nat)
      modifies this
      ensures AsView() == Next(old(AsView()), Refresh)
      ensures i == |old(requests)| && requests[i].number == generation
    {
      generation := generation + 1;
      loading, failed := true, false;
      log := log + [Started(generation)];
      i := |requests|;
      requests := requests + [Request(generation, Loading)];
    }

    /** The effect's cleanup. */
    method Unmount()
      modifies this
      ensures AsView() == Next(old(AsView()), Cleanup)
    {
      generation := generation + 1;
      log := log + [Cleaned(generation)];
    }

    /** The load won its race against the deadline, or failed. */
    method Loaded(i: nat, ok: bool)
      requires i < |requests| && requests[i].stage.Loading?
      modifies this
      ensures AsView() == Next(old(AsView()), Load(i, ok))
    {
      if ok {
        requests := requests[i := requests[i].(stage := Building)];
      } else {
        Settle(i, false);
      }
    }

    method TimedOut(i: nat)
      requires i < |requests| && requests[i].stage.Loading?
      modifies this
      ensures AsView() == Next(old(AsView()), Timeout(i))
    {
      Settle(i, false);
    }

    method Built(i: nat, ok: bool)
      requires i < |requests| && requests[i].stage.Building?
      modifies this
      ensures AsView() == Next(old(AsView()), Build(i, ok))
    {
      Settle(i, ok);
    }

    /** The commit or the catch, then the finally: nothing for a request that is not the newest. */
    method Settle(i: nat, ok: bool)
      requires i < |requests|
      modifies this
      ensures AsView() == Finish(old(AsView()), i, ok)
      ensures requests[i].number != generation ==> AsView() == old(AsView()).(requests := requests)
    {
      var request := requests[i].number;
      requests := requests[i := requests[i].(stage := Over)];
      if ok {
        if request == generation {
          snapshot := Some(request);
          log := log + [Committed(request)];
        }
      } else if request == generation {
        failed := true;
        log := log + [Effect.Failed(request)];
      }
      if request == generation {
        loading := false;
        log := log + [Cleared(request)];
      }
    }
  }

  // ---- the table -----------------------------------------------------------------------

  datatype Row = Row(address: string, name: string, category: nat, sales: nat, offers: nat, matches: bool)

  datatype Market = All | Primary | Otc

  datatype Filters = Filters(category: Option<nat>, market: Market, byName: bool, salesOn: bool, otcOn: bool)

  /** A row without the markets that are switched off here. */
  function Scoped(r: Row, f: Filters): Row {
    r.(offers := if f.otcOn then r.offers else 0, sales := if f.salesOn then r.sales else 0)
  }

  predicate Matches(r: Row, f: Filters) {
    && (f.category.None? || r.category == f.category.value)
    && (f.market.All? || (if f.market.Primary? then r.sales > 0 else r.offers > 0))
    && r.matches
  }

  function Filtered(rows: seq<Row>, f: Filters): seq<Row> {
    if rows == [] then []
    else
      var last := Scoped(rows[|rows| - 1], f);
      Filtered(rows[..|rows| - 1], f) + if Matches(last, f) then [last] else []
  }

  /** `ks` are the places kept, in the order of the table. */
  ghost predicate Keeps(rows: seq<Row>, f: Filters, ks: seq<nat>) {
    && |Filtered(rows, f)| == |ks|
    && (forall i, j | 0 <= i < j < |ks| :: ks[i] < ks[j])
    && (forall i | 0 <= i < |ks| :: ks[i] < |rows| && Filtered(rows, f)[i] == Scoped(rows[ks[i]], f))
    && (forall k | 0 <= k < |rows| :: k in ks <==> Matches(Scoped(rows[k], f), f))
  }

  lemma FilteredGrows(rows: seq<Row>, f: Filters, last: Row)
    ensures Filtered(rows + [last], f) == Filtered(rows, f) + if Matches(Scoped(last, f), f) then [Scoped(last, f)] else []
  {
    assert (rows + [last])[..|rows|] == rows;
  }

  /** One more row at the end is kept, at its place, or left out. */
  lemma KeepsMore(rows: seq<Row>, f: Filters, last: Row, ks: seq<nat>)
    requires Keeps(rows, f, ks)
    ensures Keeps(rows + [last], f, if Matches(Scoped(last, f), f) then ks + [|rows|] else ks)
  {
    hide Scoped, Matches, Filtered;
    FilteredGrows(rows, f, last);
    var all := rows + [last];
    var kept := if Matches(Scoped(last, f), f) then ks + [|rows|] else ks;
    forall i | 0 <= i < |kept| ensures kept[i] < |all| && Filtered(all, f)[i] == Scoped(all[kept[i]], f) {
      if i < |ks| {
        assert kept[i] == ks[i] && all[ks[i]] == rows[ks[i]];
      }
    }
    forall k | 0 <= k < |all| ensures k in kept <==> Matches(Scoped(all[k], f), f) {
      if k < |rows| {
        assert all[k] == rows[k];
      }
    }
  }

  /** Exactly the rows that match are kept, each as often as it stands in the table and in its order. */
  lemma {:induction false} FilteredExactly(rows: seq<Row>, f: Filters)
    ensures exists ks :: Keeps(rows, f, ks)
  {
    hide Scoped, Matches;
    if rows == [] {
      assert Keeps(rows, f, []);
    } else {
      FilteredExactly(rows[..|rows| - 1], f);
      var ks :| Keeps(rows[..|rows| - 1], f, ks);
      assert rows == rows[..|rows| - 1] + [rows[|rows| - 1]];
      KeepsMore(rows[..|rows| - 1], f, rows[|rows| - 1], ks);
    }
  }

  /** The order of names, any comparison that is total and transitive. */
  type NameOrder = (string, string) -> bool

  ghost predicate IsOrder(le: NameOrder) {
    && (forall a, b :: le(a, b) || le(b, a))
    && (forall a, b, c | le(a, b) && le(b, c) :: le(a, c))
  }

  predicate Before(a: Row, b: Row, byName: bool, le: NameOrder) {
    if byName then le(a.name, b.name)
    else
      var x, y := a.sales + a.offers, b.sales + b.offers;
      x > y || (x == y && le(a.name, b.name))
  }

  /** Kept in order, after the rows it is level with. */
  function Insert(rows: seq<Row>, r: Row, byName: bool, le: NameOrder): (out: seq<Row>)
    ensures multiset(out) == multiset(rows) + multiset{r} && |out| == |rows| + 1
  {
    if rows == [] || Before(rows[|rows| - 1], r, byName, le) then rows + [r]
    else
      var init, last := rows[..|rows| - 1], rows[|rows| - 1];
      assert rows == init + [last];
      Insert(init, r, byName, le) + [last]
  }

  function Sorted(rows: seq<Row>, byName: bool, le: NameOrder): (out: seq<Row>)
    ensures multiset(out) == multiset(rows) && |out| == |rows|
  {
    if rows == [] then []
    else
      assert rows == rows[..|rows| - 1] + [rows[|rows| - 1]];
      Insert(Sorted(rows[..|rows| - 1], byName, le), rows[|rows| - 1], byName, le)
  }

  ghost predicate InOrder(rows: seq<Row>, byName: bool, le: NameOrder) {
    forall i, j | 0 <= i < j < |rows| :: Before(rows[i], rows[j], byName, le)
  }

  lemma {:induction false} InsertInOrder(rows: seq<Row>, r: Row, byName: bool, le: NameOrder)
    requires IsOrder(le) && InOrder(rows, byName, le)
    ensures InOrder(Insert(rows, r, byName, le), byName, le)
  {
    var out := Insert(rows, r, byName, le);
    if rows != [] {
      var init, last := rows[..|rows| - 1], rows[|rows| - 1];
      if Before(last, r, byName, le) {
        assert forall i | 0 <= i < |init| :: Before(rows[i], last, byName, le);
        assert forall i | 0 <= i < |rows| :: Before(rows[i], r, byName, le);
      } else {
        InsertInOrder(init, r, byName, le);
        var front := Insert(init, r, byName, le);
        forall i | 0 <= i < |front| ensures Before(front[i], last, byName, le) {
          assert front[i] in multiset(front);
          if front[i] != r {
            assert front[i] in multiset(init);
            var k :| 0 <= k < |init| && init[k] == front[i];
            assert Before(rows[k], rows[|init|], byName, le);
          }
        }
      }
    }
  }

  lemma {:induction false} SortedInOrder(rows: seq<Row>, byName: bool, le: NameOrder)
    requires IsOrder(le)
    ensures InOrder(Sorted(rows, byName, le), byName, le)
  {
    if rows != [] {
      SortedInOrder(rows[..|rows| - 1], byName, le);
      InsertInOrder(Sorted(rows[..|rows| - 1], byName, le), rows[|rows| - 1], byName, le);
    }
  }

  // ---- pages ------------------------------------------------------------------------------

  const PAGE: nat := 8

  function PageCount(n: nat): nat {
    (n + PAGE - 1) / PAGE
  }

  function VisiblePage(page: nat, n: nat): nat {
    var last := if PageCount(n) == 0 then 0 else PageCount(n) - 1;
    if page < last then page else last
  }

  /** `slice` of eight rows, cut at the end. */
  function PageRows<T>(rows: seq<T>, page: nat): seq<T> {
    var a := if PAGE * page < |rows| then PAGE * page else |rows|;
    var b := if PAGE * page + PAGE < |rows| then PAGE * page + PAGE else |rows|;
    rows[a..b]
  }

  function Pages<T>(rows: seq<T>, count: nat): seq<T> {
    if count == 0 then [] else Pages(rows, count - 1) + PageRows(rows, count - 1)
  }

  lemma {:induction false} PagesAre<T>(rows: seq<T>, count: nat)
    ensures Pages(rows, count) == rows[..if PAGE * count < |rows| then PAGE * count else |rows|]
  {
    if count > 0 {
      PagesAre(rows, count - 1);
    }
  }

  /**
   * The pages are the whole table, each row once and in order; the page shown
   * is one of them, with at most eight rows, and is empty only when the table is.
   */
  lemma PagesAreTheTable<T>(rows: seq<T>, page: nat)
    ensures Pages(rows, PageCount(|rows|)) == rows
    ensures rows != [] ==> VisiblePage(page, |rows|) < PageCount(|rows|)
    ensures |PageRows(rows, VisiblePage(page, |rows|))| <= PAGE
    ensures PageRows(rows, VisiblePage(page, |rows|)) == [] <==> rows == []
  {
    PagesAre(rows, PageCount(|rows|));
    assert rows[..|rows|] == rows;
  }

  /** Every row that matches, and no other, is on exactly the page its place in the order gives. */
  lemma RowOnItsPage<T>(rows: seq<T>, i: nat)
    requires i < |rows|
    ensures i / PAGE < PageCount(|rows|)
    ensures i % PAGE < |PageRows(rows, i / PAGE)| && PageRows(rows, i / PAGE)[i % PAGE] == rows[i]
  {
  }
}
