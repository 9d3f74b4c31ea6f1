// One share class's capped supply, shared by its sales and its mints
// (front/lib/distribution-supply.ts, front/components/public-sale-panel.tsx,
// with the effects of the program's instructions on the class).
module Supply {
  import opened Journal

  const U64: nat := 0x1_0000_0000_0000_0000
  const LIFETIME_COUNTER_VERSION: nat := 2

  datatype Sale = Sale(total: nat, sold: nat, open: bool)

  datatype Approval = Approval(address: string, maxGross: nat, minPrice: nat, expiresAt: nat)

  datatype Stage = Reserved | Booked | Released

  /** A treasury mint's reservation in the ledger, and whether its tokens are already created. */
  datatype Reservation = Reservation(units: nat, stage: Stage, minted: bool)

  datatype Ledger = Ledger(
    cap: Option<nat>,
    lifetime: nat,
    circulating: nat,
    version: nat,
    locked: bool,
    postLaunch: bool,
    cumulative: bool,
    sales: seq<Sale>,
    approvals: seq<Approval>,
    mints: seq<Reservation>,
    now: nat)

  // ---- the four parts ---------------------------------------------------------------

  function Remaining(s: Sale): nat {
    if s.open && s.sold <= s.total then s.total - s.sold else 0
  }

  function OnSale(sales: seq<Sale>): nat {
    if sales == [] then 0 else OnSale(sales[..|sales| - 1]) + Remaining(sales[|sales| - 1])
  }

  /** What the room counts: reserved and not booked, minted or not. */
  function Counted(mints: seq<Reservation>): nat {
    if mints == [] then 0
    else
      var m := mints[|mints| - 1];
      Counted(mints[..|mints| - 1]) + if m.stage.Reserved? then m.units else 0
  }

  function Unminted(mints: seq<Reservation>): nat {
    if mints == [] then 0
    else
      var m := mints[|mints| - 1];
      Unminted(mints[..|mints| - 1]) + if m.stage.Reserved? && !m.minted then m.units else 0
  }

  /** The tokens an approval allows at its minimum price. */
  function ApprovalUnits(a: Approval): nat {
    if a.minPrice > 0 then a.maxGross / a.minPrice else 0
  }

  predicate Live(a: Approval, now: nat) {
    a.expiresAt >= now
  }

  /** What the live approvals may still mint, leaving out the one at `except`. */
  function Held(approvals: seq<Approval>, now: nat, except: Option<string>): nat {
    if approvals == [] then 0
    else
      var a := approvals[|approvals| - 1];
      Held(approvals[..|approvals| - 1], now, except)
      + if Live(a, now) && Some(a.address) != except then ApprovalUnits(a) else 0
  }

  function Max0(n: int): nat {
    if n > 0 then n else 0
  }

  predicate Blocked(l: Ledger) {
    (l.locked && !l.postLaunch) || l.version != LIFETIME_COUNTER_VERSION
  }

  /** `roomToCreate`: None is no cap. */
  function Room(l: Ledger, reserved: nat, except: Option<string>): Option<nat> {
    if Blocked(l) then Some(0)
    else if l.cap.None? then None
    else Some(Max0(l.cap.value - l.lifetime - OnSale(l.sales) - reserved - Held(l.approvals, l.now, except)))
  }

  /** What `open_sale` is asked to offer. */
  function TokensToOffer(requested: nat, approvalMax: nat, room: Option<nat>): (n: nat)
    ensures n <= requested && n <= approvalMax && (room.Some? ==> n <= room.value)
    ensures n == requested || n == approvalMax || room == Some(n)
  {
    var fewer := if approvalMax < requested then approvalMax else requested;
    if room.Some? && room.value < fewer then room.value else fewer
  }

  // ---- the steps ----------------------------------------------------------------------

  datatype Event =
    | Pass(seconds: nat)
    | Reserve(units: nat)
    | Mint(i: nat)
    | Book(i: nat)
    | Release(i: nat)
    | Approve(approval: Approval)
    | Revoke(address: string)
    | Open(address: string, requested: Option<nat>, pageReserved: Option<nat>)
    | Buy(i: nat, amount: nat)
    | Close(i: nat)
    | Burn(amount: nat)

  function Find(approvals: seq<Approval>, address: string): (i: Option<nat>)
    ensures i.Some? ==> i.value < |approvals| && approvals[i.value].address == address
  {
    if approvals == [] then None
    else if approvals[|approvals| - 1].address == address then Some(|approvals| - 1)
    else Find(approvals[..|approvals| - 1], address)
  }

  function Drop(approvals: seq<Approval>, address: string): seq<Approval> {
    if approvals == [] then []
    else
      Drop(approvals[..|approvals| - 1], address)
      + if approvals[|approvals| - 1].address == address then [] else [approvals[|approvals| - 1]]
  }

  /** The program's own check before it creates tokens. */
  predicate IssuanceOk(l: Ledger, amount: nat) {
    && l.version == LIFETIME_COUNTER_VERSION
    && l.circulating + amount < U64 && l.lifetime + amount < U64
    && (l.cap.Some? ==> (if l.cumulative then l.lifetime else l.circulating) + amount <= l.cap.value)
  }

  /** The reservations as the page counts them when it opens a sale. */
  function PageReserved(l: Ledger, pageReserved: Option<nat>): nat {
    if pageReserved.Some? then pageReserved.value else Counted(l.mints)
  }

  /** What opening the approval at `address` offers; 0 opens nothing. */
  function Offered(l: Ledger, address: string, requested: Option<nat>, pageReserved: Option<nat>): nat {
    var i := Find(l.approvals, address);
    if i.None? || !Live(l.approvals[i.value], l.now) || (exists s | s in l.sales :: s.open) then 0
    else
      var units := ApprovalUnits(l.approvals[i.value]);
      TokensToOffer(if requested.Some? then requested.value else units, units,
                    Room(l, PageReserved(l, pageReserved), Some(address)))
  }

  predicate Allowed(l: Ledger, e: Event) {
    match e
    case Pass(_) => true
    case Reserve(units) =>
      units > 0 && var room := Room(l, Counted(l.mints), None); room.Some? ==> units <= room.value
    case Mint(i) =>
      && i < |l.mints| && l.mints[i].stage.Reserved? && !l.mints[i].minted
      && (!l.locked || l.postLaunch) && IssuanceOk(l, l.mints[i].units)
    case Book(i) => i < |l.mints| && l.mints[i].stage.Reserved? && l.mints[i].minted
    case Release(i) => i < |l.mints| && l.mints[i].stage.Reserved? && !l.mints[i].minted
    case Approve(a) => a.maxGross > 0 && a.minPrice > 0 && a.expiresAt > l.now
    case Revoke(_) => true
    case Open(address, requested, pageReserved) => Offered(l, address, requested, pageReserved) > 0
    case Buy(i, amount) =>
      && i < |l.sales| && l.sales[i].open && amount > 0 && l.sales[i].sold + amount <= l.sales[i].total
      && (!l.locked || l.postLaunch) && IssuanceOk(l, amount)
    case Close(i) => i < |l.sales| && l.sales[i].open
    case Burn(amount) => amount <= l.circulating
  }

  function Step(l: Ledger, e: Event): Ledger
    requires Allowed(l, e)
  {
    match e
    case Pass(seconds) => l.(now := l.now + seconds)
    case Reserve(units) => l.(mints := l.mints + [Reservation(units, Reserved, false)])
    case Mint(i) =>
      var m := l.mints[i];
      l.(mints := l.mints[i := m.(minted := true)], lifetime := l.lifetime + m.units,
         circulating := l.circulating + m.units)
    case Book(i) => l.(mints := l.mints[i := l.mints[i].(stage := Booked)])
    case Release(i) => l.(mints := l.mints[i := l.mints[i].(stage := Released)])
    case Approve(a) => l.(approvals := l.approvals + [a])
    case Revoke(address) => l.(approvals := Drop(l.approvals, address))
    case Open(address, requested, pageReserved) =>
      l.(sales := l.sales + [Sale(Offered(l, address, requested, pageReserved), 0, true)],
         approvals := Drop(l.approvals, address))
    case Buy(i, amount) =>
      l.(sales := l.sales[i := l.sales[i].(sold := l.sales[i].sold + amount)],
         lifetime := l.lifetime + amount, circulating := l.circulating + amount)
    case Close(i) => l.(sales := l.sales[i := l.sales[i].(open := false)])
    case Burn(amount) => l.(circulating := l.circulating - amount)
  }

  // ---- how the parts move --------------------------------------------------------------

  lemma {:induction false} SaleSet(sales: seq<Sale>, i: nat, s: Sale)
    requires i < |sales|
    ensures OnSale(sales[i := s]) == OnSale(sales) - Remaining(sales[i]) + Remaining(s)
    ensures Remaining(sales[i]) <= OnSale(sales)
  {
    var n := |sales| - 1;
    if i < n {
      SaleSet(sales[..n], i, s);
      assert sales[i := s][..n] == sales[..n][i := s];
    } else {
      assert sales[i := s][..n] == sales[..n];
    }
  }

  function Due(m: Reservation): nat {
    if m.stage.Reserved? && !m.minted then m.units else 0
  }

  lemma {:induction false} MintSet(mints: seq<Reservation>, i: nat, m: Reservation)
    requires i < |mints|
    ensures Unminted(mints[i := m]) == Unminted(mints) - Due(mints[i]) + Due(m)
    ensures Due(mints[i]) <= Unminted(mints)
  {
    var n := |mints| - 1;
    if i < n {
      MintSet(mints[..n], i, m);
      assert mints[i := m][..n] == mints[..n][i := m];
    } else {
      assert mints[i := m][..n] == mints[..n];
    }
  }

  lemma {:induction false} CountedCovers(mints: seq<Reservation>)
    ensures Unminted(mints) <= Counted(mints)
  {
    if mints != [] {
      CountedCovers(mints[..|mints| - 1]);
    }
  }

  lemma {:induction false} DropHeld(approvals: seq<Approval>, now: nat, address: string)
    ensures Held(Drop(approvals, address), now, None) == Held(approvals, now, Some(address))
  {
    if approvals != [] {
      var init, last := approvals[..|approvals| - 1], approvals[|approvals| - 1];
      DropHeld(init, now, address);
      var rest := Drop(init, address);
      if last.address == address {
        assert rest + [] == rest;
      } else {
        assert (rest + [last])[..|rest|] == rest;
      }
    }
  }

  lemma {:induction false} OthersHeld(approvals: seq<Approval>, now: nat, address: string)
    ensures Held(approvals, now, Some(address)) <= Held(approvals, now, None)
  {
    if approvals != [] {
      OthersHeld(approvals[..|approvals| - 1], now, address);
    }
  }

  /** A live approval is counted beside the others. */
  lemma {:induction false} OwnHeld(approvals: seq<Approval>, now: nat, i: nat)
    requires i < |approvals| && Live(approvals[i], now)
    ensures Held(approvals, now, Some(approvals[i].address)) + ApprovalUnits(approvals[i]) <= Held(approvals, now, None)
  {
    var n := |approvals| - 1;
    if i < n {
      OwnHeld(approvals[..n], now, i);
    } else {
      OthersHeld(approvals[..n], now, approvals[i].address);
    }
  }

  lemma {:induction false} HeldFades(approvals: seq<Approval>, now: nat, later: nat)
    requires now <= later
    ensures Held(approvals, later, None) <= Held(approvals, now, None)
  {
    if approvals != [] {
      HeldFades(approvals[..|approvals| - 1], now, later);
    }
  }

  lemma Appended(l: Ledger, s: Sale, m: Reservation, a: Approval)
    ensures OnSale(l.sales + [s]) == OnSale(l.sales) + Remaining(s)
    ensures Unminted(l.mints + [m]) == Unminted(l.mints) + Due(m)
    ensures Held(l.approvals + [a], l.now, None)
         == Held(l.approvals, l.now, None) + if Live(a, l.now) then ApprovalUnits(a) else 0
  {
    assert (l.sales + [s])[..|l.sales|] == l.sales;
    assert (l.mints + [m])[..|l.mints|] == l.mints;
    assert (l.approvals + [a])[..|l.approvals|] == l.approvals;
  }

  // ---- safety ---------------------------------------------------------------------------

  /** Created, on open sale, and reserved and not created yet. */
  function Used(l: Ledger): nat {
    l.lifetime + OnSale(l.sales) + Unminted(l.mints)
  }

  ghost predicate Safe(l: Ledger) {
    && l.circulating <= l.lifetime
    && (l.cap.Some? ==> Used(l) <= l.cap.value)
  }

  /** The approved and not opened sales fit as well. */
  ghost predicate Covered(l: Ledger) {
    Safe(l) && (l.cap.Some? ==> Used(l) + Held(l.approvals, l.now, None) <= l.cap.value)
  }

  /** What an opening asks for: the operator's own figure, within what its approval allows. */
  function Asked(l: Ledger, e: Event): nat
    requires e.Open?
  {
    var i := Find(l.approvals, e.address);
    var units := if i.Some? then ApprovalUnits(l.approvals[i.value]) else 0;
    if e.requested.Some? && e.requested.value < units then e.requested.value else units
  }

  /**
   * A page that cannot read the reservations uses its own figure. That is
   * enough for an opening that asks for no more than what is free, and else
   * when the figure, with what the other approvals hold, makes up for what is
   * reserved and not created.
   */
  predicate FigureFits(l: Ledger, e: Event) {
    e.Open? && e.pageReserved.Some? && l.cap.Some? ==>
      || Asked(l, e) <= l.cap.value - Used(l)
      || e.pageReserved.value + Held(l.approvals, l.now, Some(e.address)) >= Unminted(l.mints)
  }

  predicate ApprovalFits(l: Ledger, e: Event) {
    e.Approve? && Live(e.approval, l.now) && l.cap.Some? ==>
      Used(l) + Held(l.approvals, l.now, None) + ApprovalUnits(e.approval) <= l.cap.value
  }

  lemma ReserveStep(l: Ledger, units: nat)
    requires Safe(l) && Allowed(l, Reserve(units))
    ensures Safe(Step(l, Reserve(units)))
    ensures Covered(l) ==> Covered(Step(l, Reserve(units)))
  {
    CountedCovers(l.mints);
    Appended(l, Sale(0, 0, false), Reservation(units, Reserved, false), Approval("", 0, 0, 0));
  }

  /** What an opening does to the parts: its own approval's tokens are on sale at most, the others stay held. */
  lemma OpenMoves(l: Ledger, e: Event)
    requires e.Open? && Allowed(l, e)
    ensures
      var n, l' := Offered(l, e.address, e.requested, e.pageReserved), Step(l, e);
      && n <= Asked(l, e) && Used(l') == Used(l) + n
      && Held(l'.approvals, l'.now, None) == Held(l.approvals, l.now, Some(e.address))
      && Held(l.approvals, l.now, Some(e.address)) + Asked(l, e) <= Held(l.approvals, l.now, None)
  {
    var n := Offered(l, e.address, e.requested, e.pageReserved);
    Appended(l, Sale(n, 0, true), Reservation(0, Booked, false), Approval("", 0, 0, 0));
    DropHeld(l.approvals, l.now, e.address);
    OwnHeld(l.approvals, l.now, Find(l.approvals, e.address).value);
  }

  /**
   * A sale opened on the page's own figure keeps created, on sale and reserved
   * within the cap exactly when that figure fits; on the reservations
   * themselves it always does.
   */
  lemma StaleFigureExactly(l: Ledger, e: Event)
    requires Safe(l) && e.Open? && Allowed(l, e)
    ensures Safe(Step(l, e)) <==> FigureFits(l, e)
  {
    OpenMoves(l, e);
    CountedCovers(l.mints);
  }

  /** When the approved sales fit, opening one of them does not depend on the figure. */
  lemma OpenCovered(l: Ledger, e: Event)
    requires Covered(l) && e.Open? && Allowed(l, e)
    ensures Covered(Step(l, e))
  {
    OpenMoves(l, e);
  }

  lemma MintSteps(l: Ledger, e: Event)
    requires Safe(l) && Allowed(l, e) && (e.Mint? || e.Book? || e.Release?)
    ensures Safe(Step(l, e))
    ensures Covered(l) ==> Covered(Step(l, e))
  {
    MintSet(l.mints, e.i, Step(l, e).mints[e.i]);
  }

  lemma SaleSteps(l: Ledger, e: Event)
    requires Safe(l) && Allowed(l, e) && (e.Buy? || e.Close?)
    ensures Safe(Step(l, e))
    ensures Covered(l) ==> Covered(Step(l, e))
  {
    SaleSet(l.sales, e.i, Step(l, e).sales[e.i]);
  }

  lemma OtherSteps(l: Ledger, e: Event)
    requires Safe(l) && Allowed(l, e) && (e.Pass? || e.Revoke? || e.Burn?)
    ensures Safe(Step(l, e))
    ensures Covered(l) ==> Covered(Step(l, e))
  {
    if e.Pass? {
      HeldFades(l.approvals, l.now, l.now + e.seconds);
    } else if e.Revoke? {
      DropHeld(l.approvals, l.now, e.address);
      OthersHeld(l.approvals, l.now, e.address);
    }
  }

  /** Approving checks nothing of the supply: the four parts still fit together exactly when the approval does. */
  lemma ApproveExactly(l: Ledger, a: Approval)
    requires Covered(l) && Allowed(l, Approve(a))
    ensures Safe(Step(l, Approve(a)))
    ensures Covered(Step(l, Approve(a))) <==> ApprovalFits(l, Approve(a))
  {
    Appended(l, Sale(0, 0, false), Reservation(0, Booked, false), a);
  }

  ghost predicate Runs(l: Ledger, es: seq<Event>, end: Ledger)
    decreases |es|
  {
    if es == [] then end == l else Allowed(l, es[0]) && Runs(Step(l, es[0]), es[1..], end)
  }

  /** Every figure an opening used fitted as it was used. */
  ghost predicate FiguresFit(l: Ledger, es: seq<Event>)
    decreases |es|
  {
    es == [] || (Allowed(l, es[0]) && FigureFits(l, es[0]) && FiguresFit(Step(l, es[0]), es[1..]))
  }

  /** Every approval fitted as it was given. */
  ghost predicate ApprovalsFit(l: Ledger, es: seq<Event>)
    decreases |es|
  {
    es == [] || (Allowed(l, es[0]) && ApprovalFits(l, es[0]) && ApprovalsFit(Step(l, es[0]), es[1..]))
  }

  ghost predicate SafeThroughout(l: Ledger, es: seq<Event>)
    decreases |es|
  {
    Safe(l) && (es == [] || (Allowed(l, es[0]) && SafeThroughout(Step(l, es[0]), es[1..])))
  }

  ghost predicate CoveredThroughout(l: Ledger, es: seq<Event>)
    decreases |es|
  {
    Covered(l) && (es == [] || (Allowed(l, es[0]) && CoveredThroughout(Step(l, es[0]), es[1..])))
  }

  lemma StepSafely(l: Ledger, e: Event)
    requires Safe(l) && Allowed(l, e)
    ensures Safe(Step(l, e)) <==> FigureFits(l, e)
    ensures Covered(l) ==> (Covered(Step(l, e)) <==> ApprovalFits(l, e))
  {
    hide Step, Covered, Safe, Held, Allowed;
    if e.Reserve? {
      ReserveStep(l, e.units);
    } else if e.Open? {
      StaleFigureExactly(l, e);
      if Covered(l) { OpenCovered(l, e); }
    } else if e.Approve? {
      ApproveSafely(l, e.approval);
    } else if e.Mint? || e.Book? || e.Release? {
      MintSteps(l, e);
    } else if e.Buy? || e.Close? {
      SaleSteps(l, e);
    } else {
      OtherSteps(l, e);
    }
  }

  lemma ApproveSafely(l: Ledger, a: Approval)
    requires Safe(l) && Allowed(l, Approve(a))
    ensures Safe(Step(l, Approve(a)))
    ensures Covered(l) ==> (Covered(Step(l, Approve(a))) <==> ApprovalFits(l, Approve(a)))
  {
    if Covered(l) { ApproveExactly(l, a); }
  }

  /**
   * Over every sequence of steps, tokens created, on open sale and reserved
   * stay within the cap all along exactly when every figure used to open a
   * sale fitted as it was used.
   */
  lemma {:induction false} NeverOverTheCap(l: Ledger, es: seq<Event>, end: Ledger)
    requires Safe(l) && Runs(l, es, end)
    ensures SafeThroughout(l, es) <==> FiguresFit(l, es)
    ensures FiguresFit(l, es) ==> Safe(end)
    decreases |es|
  {
    hide Step, Safe, FigureFits, ApprovalFits, Allowed;
    if es != [] {
      StepSafely(l, es[0]);
      if FigureFits(l, es[0]) {
        NeverOverTheCap(Step(l, es[0]), es[1..], end);
      } else {
        assert !SafeThroughout(Step(l, es[0]), es[1..]);
      }
    }
  }

  /**
   * With the approved and unopened sales counted too, they stay within the cap
   * all along exactly when every approval fitted as it was given; the figures
   * used to open them make no difference then.
   */
  lemma {:induction false} NorWithTheApproved(l: Ledger, es: seq<Event>, end: Ledger)
    requires Covered(l) && Runs(l, es, end)
    ensures CoveredThroughout(l, es) <==> ApprovalsFit(l, es)
    ensures ApprovalsFit(l, es) ==> Covered(end)
    decreases |es|
  {
    hide Step, Covered, FigureFits, ApprovalFits, Allowed;
    if es != [] {
      CoveredIsSafe(l);
      StepSafely(l, es[0]);
      if ApprovalFits(l, es[0]) {
        NorWithTheApproved(Step(l, es[0]), es[1..], end);
      } else {
        assert !CoveredThroughout(Step(l, es[0]), es[1..]);
      }
    }
  }

  lemma CoveredIsSafe(l: Ledger)
    requires Covered(l)
    ensures Safe(l)
  {
  }

  /** So the program never refuses for the cap what was put on sale or reserved. */
  lemma NoLateRefusal(l: Ledger, amount: nat, i: nat)
    requires Safe(l)
    requires (i < |l.sales| && amount <= Remaining(l.sales[i])) || (i < |l.mints| && amount == Due(l.mints[i]))
    requires l.version == LIFETIME_COUNTER_VERSION && l.lifetime + amount < U64
    ensures IssuanceOk(l, amount)
  {
    if i < |l.sales| && amount <= Remaining(l.sales[i]) {
      SaleSet(l.sales, i, l.sales[i]);
    } else {
      MintSet(l.mints, i, l.mints[i]);
    }
  }

  /** Opening spends its own approval only: every other one is as it was, and what it puts on sale is within its own. */
  lemma OpenSpendsItsOwn(l: Ledger, e: Event)
    requires e.Open? && Allowed(l, e)
    ensures
      var l' := Step(l, e);
      && (forall a :: a in l'.approvals <==> a in l.approvals && a.address != e.address)
      && OnSale(l'.sales) + Held(l'.approvals, l.now, None) <= OnSale(l.sales) + Held(l.approvals, l.now, None)
      && exists a :: a in l.approvals && a.address == e.address && OnSale(l'.sales) - OnSale(l.sales) <= ApprovalUnits(a)
  {
    var n := Offered(l, e.address, e.requested, e.pageReserved);
    Appended(l, Sale(n, 0, true), Reservation(0, Booked, false), Approval("", 0, 0, 0));
    DropHeld(l.approvals, l.now, e.address);
    OwnHeld(l.approvals, l.now, Find(l.approvals, e.address).value);
    DropMembers(l.approvals, e.address);
    var mine := l.approvals[Find(l.approvals, e.address).value];
    assert mine in l.approvals && n <= ApprovalUnits(mine);
  }

  lemma {:induction false} DropMembers(approvals: seq<Approval>, address: string)
    ensures forall a :: a in Drop(approvals, address) <==> a in approvals && a.address != address
  {
    if approvals != [] {
      DropMembers(approvals[..|approvals| - 1], address);
      assert approvals == approvals[..|approvals| - 1] + [approvals[|approvals| - 1]];
    }
  }

  ghost predicate OneOpen(sales: seq<Sale>) {
    forall i, j | 0 <= i < j < |sales| :: !(sales[i].open && sales[j].open)
  }

  ghost predicate SalesOk(sales: seq<Sale>) {
    OneOpen(sales) && forall i | 0 <= i < |sales| :: sales[i].sold <= sales[i].total
  }

  lemma SalesStep(l: Ledger, e: Event)
    requires Allowed(l, e) && SalesOk(l.sales)
    ensures SalesOk(Step(l, e).sales)
  {
    hide Room, Held, IssuanceOk, Counted, Drop;
    if e.Open? {
      assert forall i | 0 <= i < |l.sales| :: l.sales[i] in l.sales;
    }
  }

  /** Over every run at most one sale of the class is open, and no sale sells more than it offers. */
  lemma {:induction false} OneSaleAtATime(l: Ledger, es: seq<Event>, end: Ledger)
    requires Runs(l, es, end) && SalesOk(l.sales)
    ensures SalesOk(end.sales)
    decreases |es|
  {
    hide Allowed, Step, SalesOk;
    if es != [] {
      SalesStep(l, es[0]);
      OneSaleAtATime(Step(l, es[0]), es[1..], end);
    }
  }

  /** A burn makes no room, whatever else happens around it. */
  lemma BurnMakesNoRoom(l: Ledger, amount: nat, reserved: nat, except: Option<string>)
    requires Allowed(l, Burn(amount))
    ensures Room(Step(l, Burn(amount)), reserved, except) == Room(l, reserved, except)
    ensures Used(Step(l, Burn(amount))) == Used(l)
  {
  }

  // ---- where the promise ends ------------------------------------------------------------

  function Whole(address: string): Approval {
    Approval(address, 10, 1, 5)
  }

  function Untouched(approvals: seq<Approval>): Ledger {
    Ledger(Some(10), 0, 0, 2, false, false, false, [], approvals, [], 0)
  }

  lemma HeldByTwo()
    ensures Held([Whole("a"), Whole("b")], 0, None) == 20
  {
    assert [Whole("a"), Whole("b")][..1] == [Whole("a")];
    assert [Whole("a")][..0] == [];
    assert Held([Whole("a")], 0, None) == 10;
  }

  lemma Given(approvals: seq<Approval>, address: string)
    ensures Allowed(Untouched(approvals), Approve(Whole(address)))
    ensures Step(Untouched(approvals), Approve(Whole(address))) == Untouched(approvals + [Whole(address)])
  {
    hide Held, Room, Offered;
  }

  /** Two approvals of the whole cap: the four parts together exceed it. */
  lemma TwoApprovalsExceed()
    ensures
      var end := Untouched([Whole("a"), Whole("b")]);
      && Covered(Untouched([])) && Runs(Untouched([]), [Approve(Whole("a")), Approve(Whole("b"))], end)
      && Used(end) + Held(end.approvals, end.now, None) == 20
  {
    hide Held, Allowed, Step;
    HeldByTwo();
    NoneHeld();
    Given([], "a");
    Given([Whole("a")], "b");
    var first, second := Approve(Whole("a")), Approve(Whole("b"));
    var middle, end := Untouched([Whole("a")]), Untouched([Whole("a"), Whole("b")]);
    assert [] + [Whole("a")] == [Whole("a")] && [Whole("a")] + [Whole("b")] == [Whole("a"), Whole("b")];
    assert [first, second][1..] == [second] && [second][1..] == [];
    assert Runs(end, [], end);
    assert Runs(middle, [second], end);
  }

  lemma NoneHeld()
    ensures Held([], 0, None) == 0
  {
  }

  function Promised(): Reservation {
    Reservation(6, Reserved, false)
  }

  /** Six of ten tokens reserved, and one sale of ten approved. */
  function SixReserved(approvals: seq<Approval>, sales: seq<Sale>): Ledger {
    Untouched(approvals).(mints := [Promised()], sales := sales)
  }

  lemma OneHeld()
    ensures Held([Whole("a")], 0, Some("a")) == 0 && Drop([Whole("a")], "a") == []
    ensures Unminted([Promised()]) == 6 && OnSale([Sale(10, 0, true)]) == 10 && OnSale([]) == 0
    ensures Find([Whole("a")], "a") == Some(0)
  {
    assert [Whole("a")][..0] == [] && [Promised()][..0] == [] && [Sale(10, 0, true)][..0] == [];
  }

  /** A page that reads no reservations opens the whole cap while six of ten tokens are reserved. */
  lemma StaleFigureExceeds()
    ensures
      var end := SixReserved([], [Sale(10, 0, true)]);
      && Safe(Untouched([]))
      && Runs(Untouched([]), [Reserve(6), Approve(Whole("a")), Open("a", None, Some(0))], end)
      && Used(end) == 16 && end.cap == Some(10)
  {
    var es := [Reserve(6), Approve(Whole("a")), Open("a", None, Some(0))];
    var reserved, approved, end := SixReserved([], []), SixReserved([Whole("a")], []), SixReserved([], [Sale(10, 0, true)]);
    OneHeld();
    NoneHeld();
    assert Counted([]) == 0;
    assert Allowed(Untouched([]), es[0]) && Step(Untouched([]), es[0]) == reserved;
    assert Allowed(reserved, es[1]) && Step(reserved, es[1]) == approved by {
      assert [] + [Whole("a")] == [Whole("a")];
    }
    assert Offered(approved, "a", None, Some(0)) == 10;
    assert Allowed(approved, es[2]) && Step(approved, es[2]) == end by {
      assert [] + [Sale(10, 0, true)] == [Sale(10, 0, true)];
    }
    assert es[1..][0] == es[1] && es[1..][1..] == [es[2]] && [es[2]][1..] == [];
    assert Runs(end, [], end);
    assert Runs(approved, [es[2]], end);
    assert Runs(reserved, es[1..], end);
  }

  // ---- the send's own check -----------------------------------------------------------------

  /** `supplyVerdict` of a list: no problem. */
  predicate ListFits(l: Ledger, total: nat, balance: nat, reserved: nat) {
    var short := Max0(total - balance);
    short == 0 || (!Blocked(l) && var room := Room(l, reserved, None); room.Some? ==> short <= room.value)
  }

  /** A list fits exactly when it needs no more than the treasury and the room hold. */
  lemma SendableExactly(l: Ledger, total: nat, balance: nat, reserved: nat)
    ensures ListFits(l, total, balance, reserved)
       <==> total <= balance || (!Blocked(l) && (l.cap.None? || total <= balance + Room(l, reserved, None).value))
  {
  }

  /** A list whose shortfall passes the page's check passes the reservation's own, read at the same moment. */
  lemma FittingShortfallIsReserved(l: Ledger, total: nat, balance: nat)
    requires ListFits(l, total, balance, Counted(l.mints)) && total > balance
    ensures Allowed(l, Reserve(total - balance))
  {
  }

  // ---- the class as the page and the program change it ----------------------------------------

  class ShareClass {
    const cap: Option<nat>
    const version: nat
    const cumulative: bool
    var lifetime: nat
    var circulating: nat
    var locked: bool
    var postLaunch: bool
    var sales: seq<Sale>
    var approvals: seq<Approval>
    var mints: seq<Reservation>
    var now: nat

    function View(): Ledger
      reads this
    {
      Ledger(cap, lifetime, circulating, version, locked, postLaunch, cumulative, sales, approvals, mints, now)
    }

    constructor (l: Ledger)
      ensures View() == l
    {
      cap, version, cumulative := l.cap, l.version, l.cumulative;
      lifetime, circulating, locked, postLaunch := l.lifetime, l.circulating, l.locked, l.postLaunch;
      sales, approvals, mints, now := l.sales, l.approvals, l.mints, l.now;
    }

    method OpenSaleRemaining() returns (units: nat)
      ensures units == OnSale(sales)
    {
      units := 0;
      for i := 0 to |sales|
        invariant units == OnSale(sales[..i])
      {
        assert sales[..i + 1][..i] == sales[..i];
        if sales[i].open && sales[i].total >= sales[i].sold {
          units := units + (sales[i].total - sales[i].sold);
        }
      }
      assert sales[..|sales|] == sales;
    }

    method ReservedTreasuryUnits() returns (units: nat)
      ensures units == Counted(mints)
    {
      units := 0;
      for i := 0 to |mints|
        invariant units == Counted(mints[..i])
      {
        assert mints[..i + 1][..i] == mints[..i];
        if !mints[i].stage.Reserved? {
          continue;
        }
        units := units + mints[i].units;
      }
      assert mints[..|mints|] == mints;
    }

    method ApprovedUnopened(except: Option<string>) returns (units: nat)
      ensures units == Held(approvals, now, except)
    {
      units := 0;
      for i := 0 to |approvals|
        invariant units == Held(approvals[..i], now, except)
      {
        assert approvals[..i + 1][..i] == approvals[..i];
        if Live(approvals[i], now) && Some(approvals[i].address) != except {
          units := units + ApprovalUnits(approvals[i]);
        }
      }
      assert approvals[..|approvals|] == approvals;
    }

    method RoomToCreate(reserved: nat, except: Option<string>) returns (room: Option<nat>)
      ensures room == Room(View(), reserved, except)
    {
      var onSale := OpenSaleRemaining();
      var approved := ApprovedUnopened(except);
      if (locked && !postLaunch) || version != LIFETIME_COUNTER_VERSION {
        return Some(0);
      }
      if cap.None? {
        return None;
      }
      room := Some(Max0(cap.value - lifetime - onSale - reserved - approved));
    }

    /** The reservation's check and its row. */
    method ReserveMint(units: nat) returns (ok: bool)
      modifies this
      ensures ok == old(Allowed(View(), Reserve(units)))
      ensures View() == if ok then old(Step(View(), Reserve(units))) else old(View())
    {
      var reserved := ReservedTreasuryUnits();
      var room := RoomToCreate(reserved, None);
      ok := units > 0 && (room.None? || units <= room.value);
      if ok {
        mints := mints + [Reservation(units, Reserved, false)];
      }
    }

    /** `mint_to_treasury` of a reservation. */
    method MintReserved(i: nat) returns (ok: bool)
      modifies this
      ensures ok == old(Allowed(View(), Mint(i)))
      ensures View() == if ok then old(Step(View(), Mint(i))) else old(View())
    {
      ok := i < |mints| && mints[i].stage.Reserved? && !mints[i].minted && (!locked || postLaunch)
            && IssuanceOk(View(), mints[i].units);
      if ok {
        lifetime := lifetime + mints[i].units;
        circulating := circulating + mints[i].units;
        mints := mints[i := mints[i].(minted := true)];
      }
    }

    /** `openSale`: the room read, the offer cut to it, the approval consumed. */
    method OpenSale(address: string, requested: Option<nat>, pageReserved: Option<nat>) returns (offered: nat)
      modifies this
      ensures offered == old(Offered(View(), address, requested, pageReserved))
      ensures View() == if offered > 0 then old(Step(View(), Open(address, requested, pageReserved))) else old(View())
    {
      var mine := Find(approvals, address);
      if mine.None? || !Live(approvals[mine.value], now) || exists s | s in sales :: s.open {
        return 0;
      }
      var units := ApprovalUnits(approvals[mine.value]);
      var reserved := ReservedTreasuryUnits();
      if pageReserved.Some? {
        reserved := pageReserved.value;
      }
      var room := RoomToCreate(reserved, Some(address));
      offered := TokensToOffer(if requested.Some? then requested.value else units, units, room);
      if offered > 0 {
        sales := sales + [Sale(offered, 0, true)];
        approvals := Drop(approvals, address);
      }
    }

    method BuyTokens(i: nat, amount: nat) returns (ok: bool)
      modifies this
      ensures ok == old(Allowed(View(), Buy(i, amount)))
      ensures View() == if ok then old(Step(View(), Buy(i, amount))) else old(View())
    {
      ok := i < |sales| && sales[i].open && amount > 0 && sales[i].sold + amount <= sales[i].total
            && (!locked || postLaunch) && IssuanceOk(View(), amount);
      if ok {
        sales := sales[i := sales[i].(sold := sales[i].sold + amount)];
        lifetime, circulating := lifetime + amount, circulating + amount;
      }
    }

    method CloseSale(i: nat) returns (ok: bool)
      modifies this
      ensures ok == old(Allowed(View(), Close(i)))
      ensures View() == if ok then old(Step(View(), Close(i))) else old(View())
    {
      ok := i < |sales| && sales[i].open;
      if ok {
        sales := sales[i := sales[i].(open := false)];
      }
    }

    method BurnTokens(amount: nat) returns (ok: bool)
      modifies this
      ensures ok == old(Allowed(View(), Burn(amount)))
      ensures View() == if ok then old(Step(View(), Burn(amount))) else old(View())
    {
      ok := amount <= circulating;
      if ok {
        circulating := circulating - amount;
      }
    }
  }
}
