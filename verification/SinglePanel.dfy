// One transfer or one treasury mint at a time, with an unknown outcome kept
// until it is decided or released (front/components/share-transfer-panel.tsx,
// front/components/treasury-mint-panel.tsx, front/lib/treasury-mint.ts), over
// a send that looks at the wallet again after the network took it
// (front/lib/verified-solana-client.ts, front/lib/transaction-session-guard.ts).
module SinglePanel {
  import opened Journal

  datatype Kind = Transfer | TreasuryMint

  /** What the client compares before and after the wallet's turn: `id` is new for every connection, RPC, policy or network. */
  datatype Session = Session(id: nat, wallet: nat)

  /** The wallet and the class a send is for; the slot is kept for one of these. */
  datatype Key = Key(wallet: nat, mint: nat)

  /**
   * One call of the send. `submitted` and `outcome` are the network's: whether
   * it took the transaction, and whether it confirmed or refused it.
   */
  datatype Attempt = Attempt(session: nat, key: Key, submitted: bool, outcome: Option<bool>, released: bool)

  datatype Phase = Idle | Preparing(key: Key) | Asked | Confirming

  datatype AuditRow = Submitted(attempt: nat) | NotConfirmed(attempt: nat) | Succeeded(attempt: nat)
                    | Reverted(attempt: nat) | NotSent(attempt: nat)

  datatype Slot = Slot(attempt: nat, key: Key)

  /** `locked` is the ref, `unsettled` the slot of the send whose outcome is unknown, `checking` the one looked up again. */
  datatype Panel = Panel(
    kind: Kind,
    session: Session,
    mint: nat,
    locked: bool,
    phase: Phase,
    unsettled: Option<Slot>,
    checking: Option<nat>,
    attempts: seq<Attempt>,
    audits: seq<AuditRow>)

  datatype Answer = Confirmed | Failed | Unknown

  /**
   * `Reject` is the wallet's or the broadcast's error, after the network took
   * the transaction or not; `Sign` a signature returned to be broadcast;
   * `Taken` the network taking it, from the wallet or from the broadcast.
   */
  datatype Event =
    | Switch(session: Session, mint: nat)
    | Click
    | Stop
    | Ask
    | Sign
    | Reject(submitted: bool)
    | Taken
    | WaitEnds(answer: Answer)
    | Decide(attempt: nat, ok: bool)
    | CheckAgain
    | CheckEnds(answer: Answer)
    | Allow

  /** It can no longer move tokens unseen: never taken, decided, or given up on by the operator. */
  predicate Settled(a: Attempt) {
    !a.submitted || a.outcome.Some? || a.released
  }

  function Last(p: Panel): int {
    |p.attempts| - 1
  }

  function Set(p: Panel, i: nat, a: Attempt): Panel
    requires i < |p.attempts|
  {
    p.(attempts := p.attempts[i := a])
  }

  function Unlocked(p: Panel): Panel {
    p.(locked := false, phase := Idle)
  }

  function KeyOf(p: Panel): Key {
    Key(p.session.wallet, p.mint)
  }

  /** The form is disabled for the wallet and class in the slot only. */
  predicate Disabled(p: Panel) {
    p.unsettled.Some? && p.unsettled.value.key == KeyOf(p)
  }

  /** The client's check against the session it captured. */
  predicate Changed(p: Panel)
    requires p.attempts != []
  {
    p.session.id != p.attempts[Last(p)].session
  }

  /** The audit row of a final answer; the mint panel's own check writes none. */
  function Final(i: nat, answer: Answer): seq<AuditRow> {
    match answer
    case Confirmed => [Succeeded(i)]
    case Failed => [Reverted(i)]
    case Unknown => []
  }

  /** The network answers only what it decided. */
  predicate True(p: Panel, i: nat, answer: Answer)
    requires i < |p.attempts|
  {
    match answer
    case Confirmed => p.attempts[i].outcome == Some(true)
    case Failed => p.attempts[i].outcome == Some(false)
    case Unknown => true
  }

  predicate Asking(p: Panel) {
    p.phase.Asked? && p.attempts != []
  }

  /** The send threw: reported as not sent, and the lock let go. */
  function Thrown(p: Panel, submitted: bool): Panel
    requires p.attempts != []
  {
    Unlocked(Set(p, Last(p), p.attempts[Last(p)].(submitted := submitted)))
    .(audits := if p.kind.Transfer? then p.audits + [NotSent(Last(p))] else p.audits)
  }

  /** The state after `e`; what cannot happen, or a click while busy, changes nothing. */
  function Next(p: Panel, e: Event): Panel {
    match e
    case Switch(session, mint) => p.(session := session, mint := mint)
    case Click =>
      if p.locked || !p.phase.Idle? || Disabled(p) then p else p.(locked := true, phase := Preparing(KeyOf(p)))
    case Stop =>
      if !p.phase.Preparing? then p else Unlocked(p)
    case Ask =>
      if !p.phase.Preparing? then p
      else
        var q := p.(phase := Asked, attempts := p.attempts + [Attempt(p.session.id, p.phase.key, false, None, false)]);
        if p.session.wallet == p.phase.key.wallet then q else Thrown(q, false)
    case Sign =>
      if !Asking(p) || !Changed(p) then p else Thrown(p, false)
    case Reject(submitted) =>
      if !Asking(p) then p else Thrown(p, submitted)
    case Taken =>
      if !Asking(p) then p
      else if Changed(p) then Thrown(p, true)
      else
        Set(p, Last(p), p.attempts[Last(p)].(submitted := true))
        .(phase := Confirming, audits := if p.kind.Transfer? then p.audits + [Submitted(Last(p))] else p.audits)
    case WaitEnds(answer) =>
      if !p.phase.Confirming? || p.attempts == [] || !True(p, Last(p), answer) then p
      else
        Unlocked(p).(
          unsettled := if answer.Unknown? then Some(Slot(Last(p), p.attempts[Last(p)].key))
                       else if answer.Confirmed? then None
                       else p.unsettled,
          audits := p.audits + if answer.Unknown? && p.kind.TreasuryMint? then [NotConfirmed(Last(p))]
                               else Final(Last(p), answer))
    case Decide(i, ok) =>
      if i >= |p.attempts| || !p.attempts[i].submitted || p.attempts[i].outcome.Some? then p
      else Set(p, i, p.attempts[i].(outcome := Some(ok)))
    case CheckAgain =>
      if !Disabled(p) || p.checking.Some? then p else p.(checking := Some(p.unsettled.value.attempt))
    case CheckEnds(answer) =>
      if p.checking.None? || p.checking.value >= |p.attempts| || !True(p, p.checking.value, answer) then p
      else p.(checking := None,
              unsettled := if answer.Unknown? then p.unsettled else None,
              audits := if p.kind.Transfer? then p.audits + Final(p.checking.value, answer) else p.audits)
    case Allow =>
      if !Disabled(p) || p.checking.Some? || p.unsettled.value.attempt >= |p.attempts| then p
      else
        var i := p.unsettled.value.attempt;
        Set(p, i, p.attempts[i].(released := true)).(unsettled := None)
  }

  function Run(p: Panel, es: seq<Event>): Panel {
    if es == [] then p else Next(Run(p, es[..|es| - 1]), es[|es| - 1])
  }

  function New(kind: Kind, session: Session, mint: nat): Panel {
    Panel(kind, session, mint, false, Idle, None, None, [], [])
  }

  // ---- the invariant -------------------------------------------------------------------

  predicate Sending(p: Panel) {
    p.phase.Asked? || p.phase.Confirming?
  }

  ghost predicate Ok(p: Panel) {
    && (p.locked <==> !p.phase.Idle?)
    && (Sending(p) ==> p.attempts != [])
    && (p.phase.Asked? ==> !p.attempts[Last(p)].submitted && !p.attempts[Last(p)].released)
    && (p.phase.Confirming? ==> p.attempts[Last(p)].submitted && !p.attempts[Last(p)].released)
    && (p.unsettled.Some? ==>
          var i := p.unsettled.value.attempt;
          && i < |p.attempts| && p.attempts[i].submitted && !p.attempts[i].released
          && p.attempts[i].key == p.unsettled.value.key && (Sending(p) ==> i < Last(p))
          && (p.phase.Preparing? ==> p.unsettled.value.key != p.phase.key)
          && (Sending(p) ==> p.unsettled.value.key != p.attempts[Last(p)].key))
    && (p.checking.Some? ==> p.checking.value < |p.attempts| && p.attempts[p.checking.value].submitted
                             && (Sending(p) ==> p.checking.value < Last(p)))
    && (forall i | 0 <= i < |p.attempts| :: p.attempts[i].outcome.Some? ==> p.attempts[i].submitted)
  }

  lemma StepOk(p: Panel, e: Event)
    requires Ok(p)
    ensures Ok(Next(p, e))
  {
    hide Settled, Final;
  }

  lemma {:induction false} AlwaysOk(kind: Kind, session: Session, mint: nat, es: seq<Event>)
    ensures Ok(Run(New(kind, session, mint), es)) && Run(New(kind, session, mint), es).kind == kind
  {
    if es != [] {
      AlwaysOk(kind, session, mint, es[..|es| - 1]);
      StepOk(Run(New(kind, session, mint), es[..|es| - 1]), es[|es| - 1]);
    }
  }

  // ---- when the wallet is asked ------------------------------------------------------------

  /**
   * The sends a step lets out of sight: one that throws although the network
   * took it, because the session changed or the answer was lost; and the one
   * in the slot when another wallet's or class's send, or the check of one,
   * ends and puts something else there.
   */
  function Forgets(p: Panel, e: Event): set<int> {
    match e
    case Reject(submitted) => if Asking(p) && submitted then {Last(p)} else {}
    case Taken => if Asking(p) && Changed(p) then {Last(p)} else {}
    case WaitEnds(answer) =>
      if p.phase.Confirming? && p.attempts != [] && True(p, Last(p), answer) && !answer.Failed? && p.unsettled.Some?
      then {p.unsettled.value.attempt} else {}
    case CheckEnds(answer) =>
      if p.checking.Some? && p.checking.value < |p.attempts| && True(p, p.checking.value, answer) && !answer.Unknown?
         && p.unsettled.Some? && p.unsettled.value.attempt != p.checking.value
      then {p.unsettled.value.attempt} else {}
    case _ => {}
  }

  function Forgotten(p: Panel, es: seq<Event>): set<int> {
    if es == [] then {}
    else Forgotten(p, es[..|es| - 1]) + Forgets(Run(p, es[..|es| - 1]), es[|es| - 1])
  }

  predicate InSlot(p: Panel, i: int) {
    p.unsettled.Some? && p.unsettled.value.attempt == i
  }

  /** A send that is still open is being waited for, in the slot, or forgotten. */
  ghost predicate Accounted(p: Panel, forgotten: set<int>) {
    forall i | 0 <= i < |p.attempts| && !Settled(p.attempts[i]) ::
      InSlot(p, i) || i in forgotten || (p.phase.Confirming? && i == Last(p))
  }

  /** A forgotten one is neither in the slot nor being sent, and stays out of both. */
  ghost predicate Outside(p: Panel, forgotten: set<int>) {
    forall i | i in forgotten ::
      0 <= i < |p.attempts| && p.attempts[i].submitted && !p.attempts[i].released && !InSlot(p, i)
      && (Sending(p) ==> i < Last(p))
  }

  ghost predicate Watched(p: Panel, forgotten: set<int>) {
    Accounted(p, forgotten) && Outside(p, forgotten)
  }

  lemma StepAccounted(p: Panel, e: Event, forgotten: set<int>)
    requires Ok(p) && Accounted(p, forgotten)
    ensures Accounted(Next(p, e), forgotten + Forgets(p, e))
  {
    hide Final;
  }

  lemma StepOutside(p: Panel, e: Event, forgotten: set<int>)
    requires Ok(p) && Outside(p, forgotten)
    ensures Outside(Next(p, e), forgotten + Forgets(p, e))
  {
    hide Final, Settled;
  }

  lemma StepWatched(p: Panel, e: Event, forgotten: set<int>)
    requires Ok(p) && Watched(p, forgotten)
    ensures Watched(Next(p, e), forgotten + Forgets(p, e))
  {
    hide Ok, Accounted, Outside, Next, Forgets;
    StepAccounted(p, e, forgotten);
    StepOutside(p, e, forgotten);
  }

  lemma {:induction false} AlwaysWatched(kind: Kind, session: Session, mint: nat, es: seq<Event>)
    ensures Watched(Run(New(kind, session, mint), es), Forgotten(New(kind, session, mint), es))
  {
    if es != [] {
      var init := es[..|es| - 1];
      AlwaysWatched(kind, session, mint, init);
      AlwaysOk(kind, session, mint, init);
      StepWatched(Run(New(kind, session, mint), init), es[|es| - 1], Forgotten(New(kind, session, mint), init));
    }
  }

  /** The next step can ask the wallet for a send of `key`. */
  predicate Asks(p: Panel, key: Key) {
    p.phase == Preparing(key) && p.session.wallet == key.wallet
  }

  /** And it is only from such a state that the wallet is asked. */
  lemma AskedExactly(p: Panel, e: Event)
    requires Ok(p) && !p.phase.Asked?
    ensures Next(p, e).phase.Asked? <==> e.Ask? && exists key :: Asks(p, key)
  {
    hide Settled, Final;
    if p.phase.Preparing? {
      assert Asks(p, p.phase.key) <==> p.session.wallet == p.phase.key.wallet;
    }
  }

  /** The sends of `key` that are still open are the forgotten ones the network has not decided. */
  ghost predicate OpenExactly(p: Panel, key: Key, forgotten: set<int>) {
    forall i | 0 <= i < |p.attempts| && p.attempts[i].key == key ::
      !Settled(p.attempts[i]) <==> i in forgotten && p.attempts[i].outcome.None?
  }

  /**
   * Over any events and any clicks: when the wallet is asked for a transfer or
   * mint, every earlier one for the same wallet and class is confirmed,
   * refused, never taken by the network or released by the operator, except
   * the forgotten ones the network has not decided, and exactly those.
   */
  lemma {:induction false} AsksExactly(kind: Kind, session: Session, mint: nat, es: seq<Event>, key: Key)
    requires Asks(Run(New(kind, session, mint), es), key)
    ensures OpenExactly(Run(New(kind, session, mint), es), key, Forgotten(New(kind, session, mint), es))
  {
    hide Run, Forgotten;
    AlwaysOk(kind, session, mint, es);
    AlwaysWatched(kind, session, mint, es);
  }

  /** No change of wallet, session or class, and no send that fails after the network took it. */
  predicate Steady(e: Event) {
    !e.Switch? && e != Reject(true)
  }

  /** Then there is one key, one session, and one send at a time. */
  ghost predicate Alone(p: Panel, session: Session, mint: nat) {
    && p.session == session && p.mint == mint
    && (p.phase.Preparing? ==> p.phase.key == KeyOf(p))
    && (forall i | 0 <= i < |p.attempts| :: p.attempts[i].key == KeyOf(p) && p.attempts[i].session == session.id)
    && (p.checking.Some? ==> InSlot(p, p.checking.value))
  }

  lemma StepAlone(p: Panel, e: Event)
    requires Ok(p) && Alone(p, p.session, p.mint) && Steady(e)
    ensures Alone(Next(p, e), p.session, p.mint) && Forgets(p, e) == {}
  {
    hide Settled, Final;
  }

  lemma {:induction false} AlwaysAlone(kind: Kind, session: Session, mint: nat, es: seq<Event>)
    requires forall e | e in es :: Steady(e)
    ensures Alone(Run(New(kind, session, mint), es), session, mint) && Forgotten(New(kind, session, mint), es) == {}
  {
    if es != [] {
      var init := es[..|es| - 1];
      assert forall e | e in init :: e in es;
      assert es[|es| - 1] in es;
      AlwaysAlone(kind, session, mint, init);
      AlwaysOk(kind, session, mint, init);
      StepAlone(Run(New(kind, session, mint), init), es[|es| - 1]);
    }
  }

  /** So a panel whose wallet and class stay the same never asks with a send still open, however its sends fail before they are taken. */
  lemma AsksOnlyWhenSettled(kind: Kind, session: Session, mint: nat, es: seq<Event>, key: Key)
    requires forall e | e in es :: Steady(e)
    requires Asks(Run(New(kind, session, mint), es), key)
    ensures forall a | a in Run(New(kind, session, mint), es).attempts :: Settled(a)
  {
    AlwaysAlone(kind, session, mint, es);
    AsksExactly(kind, session, mint, es, key);
  }

  // ---- two runs that ask too soon -------------------------------------------------------------

  function First(): Session {
    Session(1, 1)
  }

  function Mine(): Key {
    Key(1, 1)
  }

  lemma {:induction false} RunMore(p: Panel, a: seq<Event>, b: seq<Event>)
    ensures Run(p, a + b) == Run(Run(p, a), b)
  {
    if b == [] {
      assert a + b == a;
    } else {
      RunMore(p, a, b[..|b| - 1]);
      assert (a + b)[..|a + b| - 1] == a + b[..|b| - 1];
    }
  }

  lemma RunThree(p: Panel, a: Event, b: Event, c: Event)
    ensures Run(p, [a, b, c]) == Next(Next(Next(p, a), b), c)
  {
    hide Next;
    assert [a, b, c][..2] == [a, b] && [a, b][..1] == [a] && [a][..0] == [];
    assert Run(p, [a]) == Next(p, a);
    assert Run(p, [a, b]) == Next(Run(p, [a]), b);
  }

  function Opened(kind: Kind): Panel {
    New(kind, First(), 1)
  }

  /** The first send, taken by the network and undecided. */
  function Open(): Attempt {
    Attempt(1, Mine(), true, None, false)
  }

  /** The wallet reconnects while it is asked: the check after the network took the transaction throws, and the next click asks again. */
  lemma AskedTwice(kind: Kind)
    ensures
      var p := Run(Opened(kind), [Click, Ask, Switch(Session(2, 1), 1)] + [Taken, Click]);
      Asks(p, Mine()) && p.attempts == [Open()] && !Settled(Open())
  {
    var asked := Run(Opened(kind), [Click, Ask, Switch(Session(2, 1), 1)]);
    RunThree(Opened(kind), Click, Ask, Switch(Session(2, 1), 1));
    RunMore(Opened(kind), [Click, Ask, Switch(Session(2, 1), 1)], [Taken, Click]);
    assert [Taken, Click][..1] == [Taken] && [Taken][..0] == [];
    assert Run(asked, [Taken]) == Next(asked, Taken);
  }

  function Kept(kind: Kind): Panel {
    Opened(kind).(
      unsettled := Some(Slot(0, Mine())), attempts := [Open()],
      audits := if kind.Transfer? then [Submitted(0)] else [NotConfirmed(0)])
  }

  /** An unknown send of the first wallet is in the slot; another wallet's send is asked for. */
  lemma KeepsOne(kind: Kind)
    ensures Run(Opened(kind), [Click, Ask, Taken] + [WaitEnds(Unknown)]) == Kept(kind)
  {
    RunThree(Opened(kind), Click, Ask, Taken);
    RunMore(Opened(kind), [Click, Ask, Taken], [WaitEnds(Unknown)]);
    var p := Run(Opened(kind), [Click, Ask, Taken]);
    assert [WaitEnds(Unknown)][..0] == [];
    assert Run(p, [WaitEnds(Unknown)]) == Next(p, WaitEnds(Unknown));
    if kind.Transfer? {
      assert [] + [Submitted(0)] + [] == [Submitted(0)];
    }
  }

  /** Another wallet's confirmed send empties the slot, and the first wallet's undecided one no longer holds the form. */
  lemma AskedTwiceAcrossWallets(kind: Kind)
    ensures
      var es := [Click, Ask, Taken] + [WaitEnds(Unknown)]
                + [Switch(Session(2, 2), 1), Click, Ask] + [Taken, Decide(1, true), WaitEnds(Answer.Confirmed)]
                + [Switch(First(), 1), Click, CheckAgain];
      var p := Run(Opened(kind), es);
      Asks(p, Mine()) && |p.attempts| == 2 && p.attempts[0] == Open() && !Settled(Open())
  {
    var a, b := [Click, Ask, Taken] + [WaitEnds(Unknown)], [Switch(Session(2, 2), 1), Click, Ask];
    var c, d := [Taken, Decide(1, true), WaitEnds(Answer.Confirmed)], [Switch(First(), 1), Click, CheckAgain];
    KeepsOne(kind);
    RunMore(Opened(kind), a, b);
    RunMore(Opened(kind), a + b, c);
    RunMore(Opened(kind), a + b + c, d);
    AsksTheOther(kind);
    SendsTheOther(kind);
    RunThree(Other(kind), Switch(First(), 1), Click, CheckAgain);
  }

  /** The other wallet asked, its send confirmed, and the slot empty. */
  function OtherAsked(kind: Kind): Panel {
    Kept(kind).(session := Session(2, 2), locked := true, phase := Asked,
                attempts := [Open(), Attempt(2, Key(2, 1), false, None, false)])
  }

  function Other(kind: Kind): Panel {
    Kept(kind).(
      session := Session(2, 2), unsettled := None,
      attempts := [Open(), Attempt(2, Key(2, 1), true, Some(true), false)],
      audits := Kept(kind).audits + (if kind.Transfer? then [Submitted(1)] else []) + [Succeeded(1)])
  }

  lemma AsksTheOther(kind: Kind)
    ensures Run(Kept(kind), [Switch(Session(2, 2), 1), Click, Ask]) == OtherAsked(kind)
  {
    RunThree(Kept(kind), Switch(Session(2, 2), 1), Click, Ask);
    assert [Open()] + [Attempt(2, Key(2, 1), false, None, false)] == OtherAsked(kind).attempts;
  }

  lemma SendsTheOther(kind: Kind)
    ensures Run(OtherAsked(kind), [Taken, Decide(1, true), WaitEnds(Answer.Confirmed)]) == Other(kind)
  {
    RunThree(OtherAsked(kind), Taken, Decide(1, true), WaitEnds(Answer.Confirmed));
    assert kind.TreasuryMint? ==> Kept(kind).audits + [] == Kept(kind).audits;
  }

  // ---- the audit trace --------------------------------------------------------------------

  function Finals(audits: seq<AuditRow>, i: nat): nat {
    if audits == [] then 0
    else
      var last := audits[|audits| - 1];
      Finals(audits[..|audits| - 1], i) + if last == Succeeded(i) || last == Reverted(i) then 1 else 0
  }

  /** Something will still report this one's end. */
  predicate Reportable(p: Panel, i: int) {
    (Sending(p) && i == Last(p)) || InSlot(p, i) || p.checking == Some(i)
  }

  /** A final row says what the network decided, and no attempt has two. */
  ghost predicate AuditsOk(p: Panel) {
    && (forall row | row in p.audits && row.Succeeded? ::
          row.attempt < |p.attempts| && p.attempts[row.attempt].outcome == Some(true))
    && (forall row | row in p.audits && row.Reverted? ::
          row.attempt < |p.attempts| && p.attempts[row.attempt].outcome == Some(false))
    && (forall i: nat :: Finals(p.audits, i) <= 1)
    && (forall i: nat | i >= |p.attempts| || Reportable(p, i) :: Finals(p.audits, i) == 0)
  }

  lemma FinalsGrow(audits: seq<AuditRow>, row: AuditRow, i: nat)
    ensures Finals(audits + [row], i) == Finals(audits, i) + if row == Succeeded(i) || row == Reverted(i) then 1 else 0
  {
    assert (audits + [row])[..|audits|] == audits;
  }

  /** What the network decided stays, and only new sends become reportable. */
  lemma StepKeeps(p: Panel, e: Event)
    requires Ok(p)
    ensures |p.attempts| <= |Next(p, e).attempts|
    ensures forall i | 0 <= i < |p.attempts| && p.attempts[i].outcome.Some? :: Next(p, e).attempts[i].outcome == p.attempts[i].outcome
    ensures forall i: nat | Reportable(Next(p, e), i) :: i >= |p.attempts| || Reportable(p, i)
  {
    hide Settled, Final;
  }

  /** A step that writes no row. */
  lemma QuietStep(p: Panel, e: Event)
    requires Ok(p) && AuditsOk(p) && Next(p, e).audits == p.audits
    ensures AuditsOk(Next(p, e))
  {
    hide Settled, Finals, Ok, Next, Reportable;
    StepKeeps(p, e);
  }

  predicate IsFinal(row: AuditRow) {
    row.Succeeded? || row.Reverted?
  }

  /** A true row about an attempt that was reportable or is new, which a final row ends. */
  lemma RowAdded(p: Panel, q: Panel, row: AuditRow)
    requires AuditsOk(p) && q.audits == p.audits + [row] && |p.attempts| <= |q.attempts|
    requires row.attempt < |q.attempts| && (row.attempt >= |p.attempts| || Reportable(p, row.attempt))
    requires forall i | 0 <= i < |p.attempts| :: q.attempts[i].outcome == p.attempts[i].outcome
    requires forall i: nat | Reportable(q, i) :: Reportable(p, i) && i < |q.attempts| && !(IsFinal(row) && i == row.attempt)
    requires row.Succeeded? ==> q.attempts[row.attempt].outcome == Some(true)
    requires row.Reverted? ==> q.attempts[row.attempt].outcome == Some(false)
    ensures AuditsOk(q)
  {
    hide Reportable, Finals;
    forall i: nat ensures Finals(q.audits, i) == Finals(p.audits, i) + if row == Succeeded(i) || row == Reverted(i) then 1 else 0 {
      FinalsGrow(p.audits, row, i);
    }
  }

  /** A step that writes one. */
  lemma RowStep(p: Panel, e: Event, row: AuditRow)
    requires Ok(p) && AuditsOk(p) && Next(p, e).audits == p.audits + [row]
    ensures AuditsOk(Next(p, e))
  {
    hide Settled, Finals, AuditsOk;
    var q := Next(p, e);
    assert q.audits[|p.audits|] == row;
    RowAdded(p, q, row);
  }

  lemma AuditStep(p: Panel, e: Event)
    requires Ok(p) && AuditsOk(p)
    ensures AuditsOk(Next(p, e))
  {
    hide Ok, AuditsOk, Finals;
    var q := Next(p, e);
    if q.audits == p.audits {
      QuietStep(p, e);
    } else {
      assert q.audits == p.audits + [q.audits[|p.audits|]];
      RowStep(p, e, q.audits[|p.audits|]);
    }
  }

  /** Over any run, success is recorded only for what the network confirmed, refusal only for what it refused, and once. */
  lemma {:induction false} AuditsTrue(kind: Kind, session: Session, mint: nat, es: seq<Event>)
    ensures AuditsOk(Run(New(kind, session, mint), es))
  {
    if es != [] {
      AuditsTrue(kind, session, mint, es[..|es| - 1]);
      AlwaysOk(kind, session, mint, es[..|es| - 1]);
      AuditStep(Run(New(kind, session, mint), es[..|es| - 1]), es[|es| - 1]);
    }
  }

  // ---- the handlers ------------------------------------------------------------------------

  /** The refs and state of one panel with the send's own check; each method is a stretch between two awaits. */
  class SendPanel {
    const kind: Kind
    var session: Session
    var mint: nat
    var locked: bool
    var phase: Phase
    var unsettled: Option<Slot>
    var checking: Option<nat>
    var attempts: seq<Attempt>
    var audits: seq<AuditRow>

    function View(): Panel
      reads this
    {
      Panel(kind, session, mint, locked, phase, unsettled, checking, attempts, audits)
    }

    constructor (kind: Kind, session: Session, mint: nat)
      ensures View() == New(kind, session, mint)
    {
      this.kind, this.session, this.mint := kind, session, mint;
      locked, phase, unsettled, checking, attempts, audits := false, Idle, None, None, [], [];
    }

    method Switched(session: Session, mint: nat)
      modifies this
      ensures View() == Next(old(View()), Switch(session, mint))
    {
      this.session, this.mint := session, mint;
    }

    /** The guard of a click, then the lock. */
    method TryStart() returns (started: bool)
      modifies this
      ensures View() == Next(old(View()), Click)
      ensures started <==> !old(locked) && old(phase).Idle? && !old(Disabled(View()))
    {
      var pending := unsettled.Some? && unsettled.value.key == Key(session.wallet, mint);
      started := !locked && phase.Idle? && !pending;
      if started {
        locked, phase := true, Preparing(Key(session.wallet, mint));
      }
    }

    /** A screening hit, an unread fact or a refused reservation: nothing is signed. */
    method StopEarly()
      modifies this
      ensures View() == Next(old(View()), Stop)
    {
      if phase.Preparing? {
        locked, phase := false, Idle;
      }
    }

    /** The client captures its session and refuses a transaction of another wallet. */
    method AskWallet()
      modifies this
      ensures View() == Next(old(View()), Ask)
    {
      if phase.Preparing? {
        var key := phase.key;
        phase, attempts := Asked, attempts + [Attempt(session.id, key, false, None, false)];
        if session.wallet != key.wallet {
          SendThrew(false);
        }
      }
    }

    method SendThrew(submitted: bool)
      requires attempts != []
      modifies this
      ensures View() == Thrown(old(View()), submitted)
    {
      var i := |attempts| - 1;
      attempts := attempts[i := attempts[i].(submitted := submitted)];
      if kind.Transfer? {
        audits := audits + [NotSent(i)];
      }
      locked, phase := false, Idle;
    }

    /** The guard around the wallet's signing method. */
    method SignatureReturned()
      modifies this
      ensures View() == Next(old(View()), Sign)
    {
      if phase.Asked? && attempts != [] && session.id != attempts[|attempts| - 1].session {
        SendThrew(false);
      }
    }

    method SendRejected(submitted: bool)
      modifies this
      ensures View() == Next(old(View()), Reject(submitted))
    {
      if phase.Asked? && attempts != [] {
        SendThrew(submitted);
      }
    }

    /** The network took it: the last check of the session, then the panel's wait. */
    method SendTaken()
      modifies this
      ensures View() == Next(old(View()), Taken)
    {
      if phase.Asked? && attempts != [] {
        var i := |attempts| - 1;
        if session.id != attempts[i].session {
          SendThrew(true);
          return;
        }
        attempts := attempts[i := attempts[i].(submitted := true)];
        if kind.Transfer? {
          audits := audits + [Submitted(i)];
        }
        phase := Confirming;
      }
    }

    /** The wait's outcome reported, an unknown one kept in the slot, the lock let go. */
    method Waited(answer: Answer)
      requires attempts != [] ==> True(View(), |attempts| - 1, answer)
      modifies this
      ensures View() == Next(old(View()), WaitEnds(answer))
    {
      if phase.Confirming? && attempts != [] {
        var i := |attempts| - 1;
        match answer {
          case Confirmed =>
            audits, unsettled := audits + [Succeeded(i)], None;
          case Failed =>
            audits := audits + [Reverted(i)];
          case Unknown =>
            if kind.TreasuryMint? {
              audits := audits + [NotConfirmed(i)];
            } else {
              assert audits + [] == audits;
            }
            unsettled := Some(Slot(i, attempts[i].key));
        }
        locked, phase := false, Idle;
      }
    }

    method StartCheck()
      modifies this`checking
      ensures View() == Next(old(View()), CheckAgain)
    {
      if unsettled.Some? && unsettled.value.key == Key(session.wallet, mint) && checking.None? {
        checking := Some(unsettled.value.attempt);
      }
    }

    /** The slot is emptied by a final answer, whatever it holds by then. */
    method Checked(answer: Answer)
      requires checking.Some? && checking.value < |attempts| ==> True(View(), checking.value, answer)
      modifies this
      ensures View() == Next(old(View()), CheckEnds(answer))
    {
      if checking.Some? && checking.value < |attempts| {
        var i := checking.value;
        checking := None;
        assert audits + [] == audits;
        if !answer.Unknown? {
          if kind.Transfer? {
            audits := audits + [if answer.Confirmed? then Succeeded(i) else Reverted(i)];
          }
          unsettled := None;
        }
      }
    }

    /** The operator checked the explorer: sending is allowed again. */
    method AllowAgain()
      modifies this
      ensures View() == Next(old(View()), Allow)
    {
      if unsettled.Some? && unsettled.value.key == Key(session.wallet, mint) && checking.None?
         && unsettled.value.attempt < |attempts| {
        var i := unsettled.value.attempt;
        attempts := attempts[i := attempts[i].(released := true)];
        unsettled := None;
      }
    }
  }
}
