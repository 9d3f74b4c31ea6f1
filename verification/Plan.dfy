// Rows packed whole into transactions, test-run, and grouped by wallet prompt
// (front/lib/distribution-plan.ts).
module Plan {
  import opened Journal
  import opened Distribution

  type Ins = string

  datatype RowInstructions = RowInstructions(row: Wallet, instructions: seq<Ins>)

  datatype Entry = Entry(row: Wallet, firstIx: nat, count: nat)

  datatype Packed = Packed(instructions: seq<Ins>, index: seq<Entry>, size: nat)

  datatype PlanError = OverLimit | Unattributed(message: string) | RoundsSpent

  datatype Result<+T> = Ok(value: T) | Err(error: PlanError)

  /** The serialized size of a transaction's instructions. */
  type Sizer = seq<Ins> -> nat

  // ---- one transaction ---------------------------------------------------------

  function Instructions(rows: seq<RowInstructions>): seq<Ins> {
    if rows == [] then []
    else Instructions(rows[..|rows| - 1]) + rows[|rows| - 1].instructions
  }

  function Index(rows: seq<RowInstructions>): (index: seq<Entry>)
    ensures |index| == |rows|
  {
    if rows == [] then []
    else
      var init := rows[..|rows| - 1];
      var last := rows[|rows| - 1];
      Index(init) + [Entry(last.row, |Instructions(init)|, |last.instructions|)]
  }

  /** The transaction that holds exactly `rows`. */
  function Whole(rows: seq<RowInstructions>, size: Sizer): Packed {
    Packed(Instructions(rows), Index(rows), size(Instructions(rows)))
  }

  lemma WholeGrows(rows: seq<RowInstructions>, r: RowInstructions)
    ensures Instructions(rows + [r]) == Instructions(rows) + r.instructions
    ensures Index(rows + [r]) == Index(rows) + [Entry(r.row, |Instructions(rows)|, |r.instructions|)]
  {
    assert (rows + [r])[..|rows|] == rows;
  }

  lemma {:induction false} IndexRows(rows: seq<RowInstructions>)
    ensures forall k | 0 <= k < |rows| :: Index(rows)[k].row == rows[k].row
  {
    if rows != [] {
      IndexRows(rows[..|rows| - 1]);
    }
  }

  predicate Holds(e: Entry, i: int) {
    e.firstIx <= i < e.firstIx + e.count
  }

  /** The row an instruction belongs to, the first entry that holds it. */
  function RowForInstruction(index: seq<Entry>, i: Option<int>): Option<Wallet> {
    if i.None? || i.value < 0 || index == [] then None
    else if Holds(index[0], i.value) then Some(index[0].row)
    else RowForInstruction(index[1..], i)
  }

  lemma {:induction false} FirstHolder(index: seq<Entry>, i: nat, k: nat)
    requires k < |index| && Holds(index[k], i) && forall j | 0 <= j < k :: !Holds(index[j], i)
    ensures RowForInstruction(index, Some(i)) == Some(index[k].row)
  {
    if k > 0 {
      FirstHolder(index[1..], i, k - 1);
    }
  }

  lemma {:induction false} NoHolder(index: seq<Entry>, i: int)
    requires forall j | 0 <= j < |index| :: !Holds(index[j], i)
    ensures RowForInstruction(index, Some(i)) == None
  {
    if index != [] {
      NoHolder(index[1..], i);
    }
  }

  /** Each entry's block starts where the rows before it end. */
  lemma {:induction false} Blocks(rows: seq<RowInstructions>, k: nat)
    requires k < |rows|
    ensures
      var e := Index(rows)[k];
      && e == Entry(rows[k].row, |Instructions(rows[..k])|, |rows[k].instructions|)
      && e.firstIx + e.count <= |Instructions(rows)|
      && Instructions(rows)[e.firstIx..e.firstIx + e.count] == rows[k].instructions
      && |Instructions(rows[..k + 1])| == e.firstIx + e.count
  {
    var init := rows[..|rows| - 1];
    if k < |rows| - 1 {
      Blocks(init, k);
      assert init[..k] == rows[..k] && init[..k + 1] == rows[..k + 1];
    } else {
      assert rows[..k + 1] == rows;
    }
  }

  lemma {:induction false} Lengths(rows: seq<RowInstructions>, a: nat, b: nat)
    requires a <= b <= |rows|
    ensures |Instructions(rows[..a])| <= |Instructions(rows[..b])|
  {
    if a < b {
      Lengths(rows, a, b - 1);
      assert rows[..b][..b - 1] == rows[..b - 1];
    }
  }

  /**
   * A refusal at instruction `i` names the one row whose own instructions
   * include `i`; any other index names none.
   */
  lemma RefusalNamesItsRow(rows: seq<RowInstructions>, i: int, k: nat)
    requires k < |rows|
    requires |Instructions(rows[..k])| <= i < |Instructions(rows[..k + 1])|
    ensures RowForInstruction(Index(rows), Some(i)) == Some(rows[k].row)
    ensures 0 <= i < |Instructions(rows)| && i - |Instructions(rows[..k])| < |rows[k].instructions|
    ensures Instructions(rows)[i] == rows[k].instructions[i - |Instructions(rows[..k])|]
  {
    var index := Index(rows);
    Blocks(rows, k);
    forall j | 0 <= j < k ensures !Holds(index[j], i) {
      Blocks(rows, j);
      Lengths(rows, j + 1, k);
    }
    FirstHolder(index, i, k);
    var e := index[k];
    assert Instructions(rows)[e.firstIx..e.firstIx + e.count][i - e.firstIx] == Instructions(rows)[i];
  }

  lemma RefusalOutside(rows: seq<RowInstructions>, i: int)
    requires i < 0 || i >= |Instructions(rows)|
    ensures RowForInstruction(Index(rows), Some(i)) == None
  {
    forall j | 0 <= j < |rows| ensures !Holds(Index(rows)[j], i) {
      Blocks(rows, j);
    }
    NoHolder(Index(rows), i);
  }

  // ---- packing ------------------------------------------------------------------

  predicate Fits(rows: seq<RowInstructions>, size: Sizer, limit: nat, a: nat, b: nat)
    requires a <= b <= |rows|
  {
    size(Instructions(rows[a..b])) <= limit
  }

  /** Run `k` of `cuts` is not empty and fits. */
  ghost predicate Run(rows: seq<RowInstructions>, size: Sizer, limit: nat, cuts: seq<nat>, k: nat) {
    && k + 1 < |cuts| && cuts[k] < cuts[k + 1] <= |rows|
    && Fits(rows, size, limit, cuts[k], cuts[k + 1])
  }

  /** And it could not have taken one row more. */
  ghost predicate FullRun(rows: seq<RowInstructions>, size: Sizer, limit: nat, cuts: seq<nat>, k: nat) {
    && Run(rows, size, limit, cuts, k) && cuts[k + 1] < |rows|
    && !Fits(rows, size, limit, cuts[k], cuts[k + 1] + 1)
  }

  /** `tx` is the transaction of run `k`. */
  ghost predicate OfRun(tx: Packed, rows: seq<RowInstructions>, size: Sizer, cuts: seq<nat>, k: nat) {
    && k + 1 < |cuts| && cuts[k] <= cuts[k + 1] <= |rows|
    && tx == Whole(rows[cuts[k]..cuts[k + 1]], size)
  }

  /** `cuts` splits `rows`, in order, into non-empty runs that fit. */
  ghost predicate Splits(rows: seq<RowInstructions>, size: Sizer, limit: nat, cuts: seq<nat>) {
    && cuts != [] && cuts[0] == 0 && cuts[|cuts| - 1] == |rows|
    && forall k: nat | k < |cuts| - 1 :: Run(rows, size, limit, cuts, k)
  }

  /** Every run but the last is full. */
  ghost predicate Full(rows: seq<RowInstructions>, size: Sizer, limit: nat, cuts: seq<nat>) {
    forall k: nat | k < |cuts| - 2 :: FullRun(rows, size, limit, cuts, k)
  }

  ghost predicate PackedAs(txs: seq<Packed>, rows: seq<RowInstructions>, size: Sizer, limit: nat, cuts: seq<nat>) {
    && Splits(rows, size, limit, cuts)
    && |txs| == |cuts| - 1
    && forall k: nat | k < |txs| :: OfRun(txs[k], rows, size, cuts, k)
  }

  /** Fewer rows never take more bytes. */
  ghost predicate Monotone(rows: seq<RowInstructions>, size: Sizer, limit: nat) {
    forall a: nat, b: nat, c: nat, d: nat | a <= b <= c <= d <= |rows| && Fits(rows, size, limit, a, d) ::
      Fits(rows, size, limit, b, c)
  }

  ghost predicate TooLarge(r: RowInstructions, size: Sizer, limit: nat) {
    size(r.instructions) > limit
  }

  lemma Alone(rows: seq<RowInstructions>, size: Sizer, limit: nat, i: nat)
    requires i < |rows|
    ensures Fits(rows, size, limit, i, i + 1) <==> !TooLarge(rows[i], size, limit)
  {
    AloneIs(rows, i);
  }

  lemma OneMore(rows: seq<RowInstructions>, a: nat, b: nat)
    requires a <= b < |rows|
    ensures rows[a..b + 1] == rows[a..b] + [rows[b]]
    ensures Instructions(rows[a..b + 1]) == Instructions(rows[a..b]) + rows[b].instructions
    ensures Index(rows[a..b + 1])
         == Index(rows[a..b]) + [Entry(rows[b].row, |Instructions(rows[a..b])|, |rows[b].instructions|)]
  {
    assert rows[a..b + 1] == rows[a..b] + [rows[b]];
    WholeGrows(rows[a..b], rows[b]);
  }

  lemma AloneIs(rows: seq<RowInstructions>, b: nat)
    requires b < |rows|
    ensures Instructions(rows[b..b + 1]) == rows[b].instructions
    ensures Index(rows[b..b + 1]) == [Entry(rows[b].row, 0, |rows[b].instructions|)]
  {
    OneMore(rows, b, b);
    assert rows[b..b] == [];
    assert [] + rows[b].instructions == rows[b].instructions;
    assert Index(rows[b..b]) == [];
  }

  /** What `packRows` has done before row `n`: the closed transactions and the one still open. */
  ghost predicate SoFar(rows: seq<RowInstructions>, n: nat, out: seq<Packed>, current: Option<Packed>,
                        size: Sizer, limit: nat, cuts: seq<nat>) {
    && n <= |rows| && cuts != [] && cuts[0] == 0
    && |out| == |cuts| - 1
    && (forall k: nat | k < |out| :: FullRun(rows, size, limit, cuts, k) && OfRun(out[k], rows, size, cuts, k))
    && cuts[|out|] <= n
    && (current.None? ==> n == 0 && out == [])
    && (current.Some? ==> && cuts[|out|] < n && Fits(rows, size, limit, cuts[|out|], n)
                          && current.value == Whole(rows[cuts[|out|]..n], size))
  }

  /** Cutting once more leaves the earlier runs as they were. */
  lemma EarlierRuns(rows: seq<RowInstructions>, out: seq<Packed>, size: Sizer, limit: nat, cuts: seq<nat>, cut: nat)
    requires |out| == |cuts| - 1
    requires forall k: nat | k < |out| :: FullRun(rows, size, limit, cuts, k) && OfRun(out[k], rows, size, cuts, k)
    ensures forall k: nat | k < |out| ::
              FullRun(rows, size, limit, cuts + [cut], k) && OfRun(out[k], rows, size, cuts + [cut], k)
  {
    forall k: nat | k < |out|
      ensures FullRun(rows, size, limit, cuts + [cut], k) && OfRun(out[k], rows, size, cuts + [cut], k)
    {
      assert FullRun(rows, size, limit, cuts, k) && OfRun(out[k], rows, size, cuts, k);
    }
  }

  /** One row more in the open transaction. */
  lemma Appended(rows: seq<RowInstructions>, n: nat, out: seq<Packed>, current: Packed, size: Sizer, limit: nat,
                 cuts: seq<nat>)
    requires n < |rows| && SoFar(rows, n, out, Some(current), size, limit, cuts)
    requires Fits(rows, size, limit, cuts[|out|], n + 1)
    ensures SoFar(rows, n + 1, out, Some(Whole(rows[cuts[|out|]..n + 1], size)), size, limit, cuts)
  {
  }

  /** The open transaction closed before row `n`. */
  lemma Closed(rows: seq<RowInstructions>, n: nat, out: seq<Packed>, current: Packed, size: Sizer, limit: nat,
               cuts: seq<nat>)
    requires SoFar(rows, n, out, Some(current), size, limit, cuts)
    ensures |cuts + [n]| == |cuts| + 1 && (cuts + [n])[|out| + 1] == n
    ensures Run(rows, size, limit, cuts + [n], |out|) && OfRun(current, rows, size, cuts + [n], |out|)
    ensures forall k: nat | k < |out| ::
              FullRun(rows, size, limit, cuts + [n], k) && OfRun((out + [current])[k], rows, size, cuts + [n], k)
  {
    EarlierRuns(rows, out, size, limit, cuts, n);
  }

  lemma Reopened(rows: seq<RowInstructions>, n: nat, out: seq<Packed>, current: Packed, size: Sizer, limit: nat,
                 cuts: seq<nat>)
    requires n < |rows| && SoFar(rows, n, out, Some(current), size, limit, cuts)
    requires !Fits(rows, size, limit, cuts[|out|], n + 1) && Fits(rows, size, limit, n, n + 1)
    ensures SoFar(rows, n + 1, out + [current], Some(Whole(rows[n..n + 1], size)), size, limit, cuts + [n])
  {
    Closed(rows, n, out, current, size, limit, cuts);
    assert FullRun(rows, size, limit, cuts + [n], |out|);
  }

  lemma Finished(rows: seq<RowInstructions>, out: seq<Packed>, current: Packed, size: Sizer, limit: nat, cuts: seq<nat>)
    requires SoFar(rows, |rows|, out, Some(current), size, limit, cuts)
    ensures PackedAs(out + [current], rows, size, limit, cuts + [|rows|])
    ensures Full(rows, size, limit, cuts + [|rows|])
  {
    Closed(rows, |rows|, out, current, size, limit, cuts);
    forall k: nat | k < |out| ensures Run(rows, size, limit, cuts + [|rows|], k) {
      assert FullRun(rows, size, limit, cuts + [|rows|], k);
    }
  }

  lemma NothingPacked(rows: seq<RowInstructions>, size: Sizer, limit: nat)
    requires rows == []
    ensures PackedAs([], rows, size, limit, [0]) && Full(rows, size, limit, [0])
  {
  }

  /**
   * The rows in order and whole, into transactions that fit, each as full as
   * it gets; it fails on a row that is over the limit by itself.
   */
  method PackRows(rows: seq<RowInstructions>, size: Sizer, limit: nat)
    returns (r: Result<seq<Packed>>, ghost cuts: seq<nat>)
    ensures r.Ok? ==> PackedAs(r.value, rows, size, limit, cuts) && Full(rows, size, limit, cuts)
    ensures r.Err? ==> r.error.OverLimit? && exists i :: 0 <= i < |rows| && TooLarge(rows[i], size, limit)
  {
    hide Run, FullRun, OfRun, Splits, Full, PackedAs, Instructions, Index;
    var out: seq<Packed> := [];
    var current: Option<Packed> := None;
    cuts := [0];
    for n := 0 to |rows|
      invariant SoFar(rows, n, out, current, size, limit, cuts)
    {
      var row := rows[n];
      Alone(rows, size, limit, n);
      AloneIs(rows, n);
      if current.Some? {
        var prev := current.value;
        OneMore(rows, cuts[|out|], n);
        var instructions := prev.instructions + row.instructions;
        if size(instructions) <= limit {
          Appended(rows, n, out, prev, size, limit, cuts);
          current := Some(Packed(instructions, prev.index + [Entry(row.row, |prev.instructions|, |row.instructions|)],
                                 size(instructions)));
          continue;
        }
        if size(row.instructions) <= limit {
          Reopened(rows, n, out, prev, size, limit, cuts);
        }
        out := out + [prev];
        cuts := cuts + [n];
      }
      if size(row.instructions) > limit {
        return Err(OverLimit), [0];
      }
      current := Some(Packed(row.instructions, [Entry(row.row, 0, |row.instructions|)], size(row.instructions)));
    }
    if current.Some? {
      Finished(rows, out, current.value, size, limit, cuts);
      out := out + [current.value];
      cuts := cuts + [|rows|];
    } else {
      assert cuts == [0];
      NothingPacked(rows, size, limit);
    }
    r := Ok(out);
  }

  /** With a size that never shrinks, packing fails exactly on lists with a row over the limit by itself. */
  lemma AllFitAlone(rows: seq<RowInstructions>, size: Sizer, limit: nat, cuts: seq<nat>)
    requires Splits(rows, size, limit, cuts) && Monotone(rows, size, limit)
    ensures forall i | 0 <= i < |rows| :: !TooLarge(rows[i], size, limit)
  {
    forall i | 0 <= i < |rows| ensures !TooLarge(rows[i], size, limit) {
      var k := RunOf(cuts, i);
      assert Run(rows, size, limit, cuts, k);
      Alone(rows, size, limit, i);
      assert Fits(rows, size, limit, i, i + 1);
    }
  }

  lemma {:induction false} RunOf(cuts: seq<nat>, i: nat) returns (k: nat)
    requires cuts != [] && cuts[0] <= i < cuts[|cuts| - 1]
    ensures k < |cuts| - 1 && cuts[k] <= i < cuts[k + 1]
  {
    k := 0;
    while cuts[k + 1] <= i
      invariant 0 <= k < |cuts| - 1 && cuts[k] <= i
      decreases |cuts| - k
    {
      k := k + 1;
    }
  }

  /** Full runs reach at least as far as any other split's. */
  lemma {:induction false} ReachesFurther(rows: seq<RowInstructions>, size: Sizer, limit: nat,
                                          cuts: seq<nat>, other: seq<nat>, k: nat)
    requires Monotone(rows, size, limit)
    requires Splits(rows, size, limit, cuts) && Full(rows, size, limit, cuts) && Splits(rows, size, limit, other)
    requires k < |cuts| && k < |other|
    ensures cuts[k] >= other[k]
  {
    if k > 0 {
      var p := k - 1;
      ReachesFurther(rows, size, limit, cuts, other, p);
      assert Run(rows, size, limit, cuts, p) && Run(rows, size, limit, other, p);
      assert p < |cuts| - 2 ==> FullRun(rows, size, limit, cuts, p);
    }
  }

  /** As few transactions as fit: no other packing of the rows, in order, has fewer. */
  lemma AsFewAsFit(rows: seq<RowInstructions>, size: Sizer, limit: nat, cuts: seq<nat>, other: seq<nat>)
    requires Monotone(rows, size, limit)
    requires Splits(rows, size, limit, cuts) && Full(rows, size, limit, cuts) && Splits(rows, size, limit, other)
    ensures |cuts| <= |other|
  {
    if |other| < |cuts| {
      assert Run(rows, size, limit, cuts, |other| - 1);
      ReachesFurther(rows, size, limit, cuts, other, |other| - 1);
      assert false;
    }
  }

  // ---- test-running the plan ------------------------------------------------------

  /** The network's refusal of one transaction: the instruction it points at, if any. */
  datatype Refusal = Refusal(instructionIndex: Option<int>, reason: string)

  /** The simulation's answer in one round of one transaction. */
  type Simulator = (nat, seq<Ins>) -> Option<Refusal>

  datatype Dropped = Dropped(row: Wallet, reason: string)

  datatype DistributionPlan = DistributionPlan(transactions: seq<Packed>, dropped: seq<Dropped>)

  const MAX_ROUNDS: nat := 6

  function Names(rows: seq<RowInstructions>): (names: seq<Wallet>)
    ensures |names| == |rows| && forall k | 0 <= k < |rows| :: names[k] == rows[k].row
  {
    seq(|rows|, k requires 0 <= k < |rows| => rows[k].row)
  }

  /** The rows kept when those of `refused` are dropped. */
  function Kept(rows: seq<RowInstructions>, refused: set<Wallet>): seq<RowInstructions> {
    if rows == [] then []
    else
      var last := rows[|rows| - 1];
      Kept(rows[..|rows| - 1], refused) + if last.row in refused then [] else [last]
  }

  lemma {:induction false} KeptMembers(rows: seq<RowInstructions>, refused: set<Wallet>)
    ensures forall r :: r in Kept(rows, refused) <==> r in rows && r.row !in refused
  {
    if rows != [] {
      KeptMembers(rows[..|rows| - 1], refused);
      assert rows == rows[..|rows| - 1] + [rows[|rows| - 1]];
    }
  }

  lemma {:induction false} KeptDistinct(rows: seq<RowInstructions>, refused: set<Wallet>)
    requires NoRepeats(Names(rows))
    ensures NoRepeats(Names(Kept(rows, refused)))
  {
    if rows != [] {
      var init, last := rows[..|rows| - 1], rows[|rows| - 1];
      var kept := Kept(init, refused);
      assert forall k | 0 <= k < |init| :: Names(init)[k] == Names(rows)[k];
      KeptDistinct(init, refused);
      forall k | 0 <= k < |kept| ensures kept[k].row != last.row {
        KeptMembers(init, refused);
        assert kept[k] in kept;
        var m :| 0 <= m < |init| && init[m] == kept[k];
        assert Names(rows)[m] != Names(rows)[|init|];
      }
      OneNameMore(kept, last);
    }
  }

  lemma OneNameMore(rows: seq<RowInstructions>, r: RowInstructions)
    requires NoRepeats(Names(rows)) && forall k | 0 <= k < |rows| :: rows[k].row != r.row
    ensures NoRepeats(Names(rows + [r]))
  {
    assert forall k | 0 <= k < |rows| :: Names(rows + [r])[k] == Names(rows)[k];
  }

  lemma {:induction false} KeptTwice(rows: seq<RowInstructions>, a: set<Wallet>, b: set<Wallet>)
    ensures Kept(Kept(rows, a), b) == Kept(rows, a + b)
  {
    if rows != [] {
      var init, last := rows[..|rows| - 1], rows[|rows| - 1];
      KeptTwice(init, a, b);
      if last.row !in a {
        assert (Kept(init, a) + [last])[..|Kept(init, a)|] == Kept(init, a);
      } else {
        assert Kept(init, a) + [] == Kept(init, a);
      }
    }
  }

  lemma {:induction false} KeptAll(rows: seq<RowInstructions>)
    ensures Kept(rows, {}) == rows
  {
    if rows != [] {
      KeptAll(rows[..|rows| - 1]);
    }
  }

  ghost predicate Passes(txs: seq<Packed>, simulate: Simulator, round: nat) {
    forall k | 0 <= k < |txs| :: simulate(round, txs[k].instructions).None?
  }

  function DroppedRows(dropped: seq<Dropped>): set<Wallet> {
    set d | d in dropped :: d.row
  }

  /** A round's refusals, row by row; a later refusal of the same row replaces the reason. */
  method TestRun(txs: seq<Packed>, simulate: Simulator, round: nat) returns (r: Result<map<Wallet, string>>)
    ensures r.Ok? ==> (r.value == map[] <==> Passes(txs, simulate, round))
    ensures r.Ok? ==> forall w | w in r.value :: exists k :: Blamed(txs, simulate, round, k, w)
    ensures r.Err? ==> r.error.Unattributed?
    ensures r.Err? ==> exists k :: 0 <= k < |txs| && simulate(round, txs[k].instructions).Some?
                               && RowForInstruction(txs[k].index, simulate(round, txs[k].instructions).value.instructionIndex).None?
  {
    var refused: map<Wallet, string> := map[];
    for k := 0 to |txs|
      invariant refused == map[] <==> Passes(txs[..k], simulate, round)
      invariant forall w | w in refused :: exists i :: Blamed(txs, simulate, round, i, w)
    {
      assert txs[..k + 1] == txs[..k] + [txs[k]];
      assert (txs[..k + 1])[k] == txs[k];
      var refusal := simulate(round, txs[k].instructions);
      if refusal.Some? {
        var row := RowForInstruction(txs[k].index, refusal.value.instructionIndex);
        if row.None? {
          return Err(Unattributed(refusal.value.reason));
        }
        assert Blamed(txs, simulate, round, k, row.value);
        refused := refused[row.value := refusal.value.reason];
        assert row.value in refused;
      }
    }
    assert txs[..|txs|] == txs;
    r := Ok(refused);
  }

  /** The network refused transaction `k` at an instruction of `w`. */
  ghost predicate Blamed(txs: seq<Packed>, simulate: Simulator, round: nat, k: int, w: Wallet) {
    && 0 <= k < |txs| && simulate(round, txs[k].instructions).Some?
    && RowForInstruction(txs[k].index, simulate(round, txs[k].instructions).value.instructionIndex) == Some(w)
  }

  lemma {:induction false} NamedInIndex(index: seq<Entry>, i: Option<int>)
    requires RowForInstruction(index, i).Some?
    ensures exists k :: 0 <= k < |index| && index[k].row == RowForInstruction(index, i).value
  {
    if Holds(index[0], i.value) {
      assert index[0].row == RowForInstruction(index, i).value;
    } else {
      NamedInIndex(index[1..], i);
      var k :| 0 <= k < |index[1..]| && index[1..][k].row == RowForInstruction(index[1..], i).value;
      assert index[k + 1].row == RowForInstruction(index, i).value;
    }
  }

  /** A refusal only ever blames a row of the list that was packed. */
  lemma BlamedIsARow(txs: seq<Packed>, rows: seq<RowInstructions>, size: Sizer, limit: nat, cuts: seq<nat>,
                     simulate: Simulator, round: nat, k: int, w: Wallet)
    requires PackedAs(txs, rows, size, limit, cuts) && Blamed(txs, simulate, round, k, w)
    ensures exists r :: r in rows && r.row == w
  {
    assert OfRun(txs[k], rows, size, cuts, k);
    var part := rows[cuts[k]..cuts[k + 1]];
    NamedInIndex(txs[k].index, simulate(round, txs[k].instructions).value.instructionIndex);
    var i :| 0 <= i < |part| && Index(part)[i].row == w;
    IndexRows(part);
    assert part[i] == rows[cuts[k] + i];
  }

  lemma {:induction false} KeptShrinks(rows: seq<RowInstructions>, refused: set<Wallet>)
    ensures |Kept(rows, refused)| <= |rows|
    ensures (exists r :: r in rows && r.row in refused) ==> |Kept(rows, refused)| < |rows|
  {
    if rows != [] {
      var init, last := rows[..|rows| - 1], rows[|rows| - 1];
      KeptShrinks(init, refused);
      assert rows == init + [last];
    }
  }

  ghost predicate AreRows(rows: seq<RowInstructions>, names: set<Wallet>) {
    forall w | w in names :: exists r :: r in rows && r.row == w
  }

  /** The refused rows of the list, in its order, each with its reason. */
  method DropRows(rows: seq<RowInstructions>, refused: map<Wallet, string>) returns (dropped: seq<Dropped>)
    requires AreRows(rows, refused.Keys)
    ensures DroppedRows(dropped) == refused.Keys
    ensures forall d | d in dropped :: d.row in refused && d.reason == refused[d.row]
    ensures NoRepeats(Names(rows)) ==> |dropped| == |rows| - |Kept(rows, refused.Keys)|
  {
    dropped := [];
    for i := 0 to |rows|
      invariant forall d | d in dropped :: d.row in refused && d.reason == refused[d.row]
      invariant forall k | 0 <= k < i && rows[k].row in refused :: rows[k].row in DroppedRows(dropped)
      invariant |dropped| == i - |Kept(rows[..i], refused.Keys)|
    {
      assert rows[..i + 1][..i] == rows[..i];
      if rows[i].row in refused {
        var d := Dropped(rows[i].row, refused[rows[i].row]);
        assert DroppedRows(dropped + [d]) == DroppedRows(dropped) + {d.row};
        dropped := dropped + [d];
      }
    }
    assert rows[..|rows|] == rows;
  }

  lemma DroppedMore(a: seq<Dropped>, b: seq<Dropped>)
    ensures DroppedRows(a + b) == DroppedRows(a) + DroppedRows(b)
  {
  }

  lemma NoneAreRows(rows: seq<RowInstructions>)
    ensures AreRows(rows, {})
  {
  }

  lemma RefusedAreRows(txs: seq<Packed>, rows: seq<RowInstructions>, size: Sizer, limit: nat, cuts: seq<nat>,
                       simulate: Simulator, round: nat, refused: map<Wallet, string>)
    requires PackedAs(txs, rows, size, limit, cuts)
    requires forall w | w in refused :: exists k :: Blamed(txs, simulate, round, k, w)
    ensures AreRows(rows, refused.Keys)
  {
    forall w | w in refused ensures exists r :: r in rows && r.row == w {
      var k :| Blamed(txs, simulate, round, k, w);
      BlamedIsARow(txs, rows, size, limit, cuts, simulate, round, k, w);
    }
  }

  /** A round with refusals drops rows of the list, at least one. */
  lemma RoundDrops(rows: seq<RowInstructions>, dropped: seq<Dropped>, refused: set<Wallet>, more: seq<Dropped>)
    requires AreRows(rows, DroppedRows(dropped)) && AreRows(Kept(rows, DroppedRows(dropped)), refused) && refused != {}
    requires DroppedRows(more) == refused
    ensures Kept(Kept(rows, DroppedRows(dropped)), refused) == Kept(rows, DroppedRows(dropped + more))
    ensures AreRows(rows, DroppedRows(dropped + more))
    ensures |Kept(rows, DroppedRows(dropped + more))| < |Kept(rows, DroppedRows(dropped))|
  {
    KeptTwice(rows, DroppedRows(dropped), refused);
    KeptMembers(rows, DroppedRows(dropped));
    KeptShrinks(Kept(rows, DroppedRows(dropped)), refused);
    DroppedMore(dropped, more);
    var w :| w in refused;
  }

  /**
   * Packs and test-runs until every transaction passes in one round: what is
   * sent is the list without the dropped rows, in its order, packed as full
   * as it gets; only rows of the list are dropped; six rounds at most, each
   * of which drops a row.
   */
  method PlanWithSimulation(rows: seq<RowInstructions>, size: Sizer, limit: nat, simulate: Simulator)
    returns (r: Result<DistributionPlan>, ghost cuts: seq<nat>, ghost round: nat)
    ensures r.Ok? ==>
              var kept := Kept(rows, DroppedRows(r.value.dropped));
              && PackedAs(r.value.transactions, kept, size, limit, cuts) && Full(kept, size, limit, cuts)
              && Passes(r.value.transactions, simulate, round) && round < MAX_ROUNDS
    ensures r.Ok? ==> AreRows(rows, DroppedRows(r.value.dropped))
    ensures r.Err? && r.error.RoundsSpent? ==> |rows| >= MAX_ROUNDS
  {
    hide Splits, Full, Blamed, Kept, PackedAs, AreRows, TooLarge;
    var dropped: seq<Dropped> := [];
    var pending := rows;
    KeptAll(rows);
    assert DroppedRows(dropped) == {};
    assert AreRows(rows, {}) by { NoneAreRows(rows); }
    round := 0;
    cuts := [0];
    for n := 0 to MAX_ROUNDS
      invariant pending == Kept(rows, DroppedRows(dropped))
      invariant AreRows(rows, DroppedRows(dropped))
      invariant |pending| + n <= |rows|
    {
      round := n;
      if pending == [] {
        NothingPacked(pending, size, limit);
        return Ok(DistributionPlan([], dropped)), [0], round;
      }
      var packed, split := PackRows(pending, size, limit);
      if packed.Err? {
        return Err(packed.error), [0], round;
      }
      var refusals := TestRun(packed.value, simulate, n);
      if refusals.Err? {
        return Err(refusals.error), [0], round;
      }
      var refused := refusals.value;
      if refused == map[] {
        return Ok(DistributionPlan(packed.value, dropped)), split, round;
      }
      RefusedAreRows(packed.value, pending, size, limit, split, simulate, n, refused);
      var more := DropRows(pending, refused);
      RoundDrops(rows, dropped, refused.Keys, more);
      dropped := dropped + more;
      pending := Kept(pending, refused.Keys);
    }
    r := Err(RoundsSpent);
  }

  // ---- the plan and the protocol ---------------------------------------------------

  function EntryRows(index: seq<Entry>): (out: seq<Wallet>)
    ensures |out| == |index| && forall k | 0 <= k < |index| :: out[k] == index[k].row
  {
    seq(|index|, k requires 0 <= k < |index| => index[k].row)
  }

  /** The rows of each transaction, as they are journalled. */
  function PlannedRows(txs: seq<Packed>): (out: seq<seq<Wallet>>)
    ensures |out| == |txs| && forall k | 0 <= k < |txs| :: out[k] == EntryRows(txs[k].index)
  {
    seq(|txs|, k requires 0 <= k < |txs| => EntryRows(txs[k].index))
  }

  lemma RunRows(txs: seq<Packed>, rows: seq<RowInstructions>, size: Sizer, limit: nat, cuts: seq<nat>, k: nat)
    requires PackedAs(txs, rows, size, limit, cuts) && k < |txs|
    ensures Run(rows, size, limit, cuts, k)
    ensures PlannedRows(txs)[k] == Names(rows)[cuts[k]..cuts[k + 1]]
  {
    assert Run(rows, size, limit, cuts, k) && OfRun(txs[k], rows, size, cuts, k);
    IndexRows(rows[cuts[k]..cuts[k + 1]]);
  }

  lemma {:induction false} CutsGrow(rows: seq<RowInstructions>, size: Sizer, limit: nat, cuts: seq<nat>, i: nat, k: nat)
    requires Splits(rows, size, limit, cuts) && i <= k < |cuts|
    ensures cuts[i] <= cuts[k]
  {
    if i < k {
      CutsGrow(rows, size, limit, cuts, i, k - 1);
      assert Run(rows, size, limit, cuts, k - 1);
    }
  }

  lemma Apart(names: seq<Wallet>, a: nat, b: nat, c: nat, d: nat, w: Wallet)
    requires NoRepeats(names) && a <= b <= c <= d <= |names| && w in names[a..b]
    ensures w !in names[c..d]
  {
  }

  lemma ApartRuns(txs: seq<Packed>, rows: seq<RowInstructions>, size: Sizer, limit: nat, cuts: seq<nat>,
                  i: nat, j: nat, w: Wallet)
    requires PackedAs(txs, rows, size, limit, cuts) && NoRepeats(Names(rows))
    requires i < j < |txs| && w in PlannedRows(txs)[i]
    ensures w !in PlannedRows(txs)[j]
  {
    hide NoRepeats;
    RunRows(txs, rows, size, limit, cuts, i);
    RunRows(txs, rows, size, limit, cuts, j);
    CutsGrow(rows, size, limit, cuts, i + 1, j);
    Apart(Names(rows), cuts[i], cuts[i + 1], cuts[j], cuts[j + 1], w);
  }

  /** A packed plan of distinct rows has no row twice: it is one the protocol's `Plan` step takes. */
  lemma PlanIsSeparate(txs: seq<Packed>, rows: seq<RowInstructions>, size: Sizer, limit: nat, cuts: seq<nat>)
    requires PackedAs(txs, rows, size, limit, cuts) && NoRepeats(Names(rows))
    ensures Separate(PlannedRows(txs))
    ensures forall k, w | 0 <= k < |txs| && w in PlannedRows(txs)[k] :: w in Names(rows)
  {
    var names, planned := Names(rows), PlannedRows(txs);
    forall k | 0 <= k < |txs|
      ensures planned[k] != [] && NoRepeats(planned[k]) && forall w | w in planned[k] :: w in names
    {
      RunRows(txs, rows, size, limit, cuts, k);
    }
    forall i, j, w | 0 <= i < j < |txs| && w in planned[i] ensures w !in planned[j] {
      ApartRuns(txs, rows, size, limit, cuts, i, j, w);
    }
  }

  /** And every row of the list is in one of its transactions. */
  lemma PlanCoversRows(txs: seq<Packed>, rows: seq<RowInstructions>, size: Sizer, limit: nat, cuts: seq<nat>, i: nat)
    returns (k: nat)
    requires PackedAs(txs, rows, size, limit, cuts) && i < |rows|
    ensures k < |txs| && rows[i].row in PlannedRows(txs)[k]
  {
    k := RunOf(cuts, i);
    RunRows(txs, rows, size, limit, cuts, k);
    assert Names(rows)[cuts[k]..cuts[k + 1]][i - cuts[k]] == rows[i].row;
  }

  // ---- prompts -------------------------------------------------------------------------

  const PER_PROMPT: nat := 8

  function Flat<T>(groups: seq<seq<T>>): seq<T> {
    if groups == [] then [] else Flat(groups[..|groups| - 1]) + groups[|groups| - 1]
  }

  lemma FlatGrows<T>(groups: seq<seq<T>>, g: seq<T>)
    ensures Flat(groups + [g]) == Flat(groups) + g
  {
    assert (groups + [g])[..|groups|] == groups;
  }

  /** The transactions in order, eight to a prompt and the rest in the last one. */
  method PromptGroups<T>(txs: seq<T>, size: nat := PER_PROMPT) returns (groups: seq<seq<T>>)
    requires size > 0
    ensures Flat(groups) == txs
    ensures forall g | 0 <= g < |groups| :: 0 < |groups[g]| <= size && (g < |groups| - 1 ==> |groups[g]| == size)
  {
    groups := [];
    var i := 0;
    while i < |txs|
      invariant 0 <= i && Flat(groups) == if i <= |txs| then txs[..i] else txs
      invariant forall g | 0 <= g < |groups| :: 0 < |groups[g]| <= size
      invariant i <= |txs| ==> forall g | 0 <= g < |groups| :: |groups[g]| == size
      invariant i > |txs| ==> forall g | 0 <= g < |groups| - 1 :: |groups[g]| == size
    {
      var end := if i + size <= |txs| then i + size else |txs|;
      FlatGrows(groups, txs[i..end]);
      assert txs[..end] == txs[..i] + txs[i..end] && txs[..|txs|] == txs;
      groups := groups + [txs[i..end]];
      i := i + size;
    }
    assert txs[..|txs|] == txs;
  }
}
