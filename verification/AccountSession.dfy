// Account operations bound to the connected session
// (front/components/account-session.tsx, front/lib/account-client.ts, with
// the order of signature and POST from front/lib/siws-client.ts).
module AccountSession {
  import opened Journal
  import Base58

  type SessionId = nat
  type Network = string

  /** `Wallet` is the wallet mode, `Cookie` the one authorized by the email or Google cookie. */
  datatype Mode = ByWallet | ByCookie

  /** What the browser is on right now. */
  datatype Env = Env(mounted: bool, network: Network, wallet: Option<SessionId>)

  /** What one operation was started for, fixed for its whole life; `acting` is the address of its session's wallet. */
  datatype Context = Context(
    session: Option<SessionId>, acting: string, mode: Mode, network: Network, accountId: Option<string>)

  predicate Current(env: Env, c: Context) {
    && env.mounted && env.network == c.network
    && (c.mode.ByWallet? ==> c.session.Some? && env.wallet == c.session)
  }

  predicate ByAccount(c: Context) {
    c.mode.ByCookie? || c.session.None?
  }

  // ---- account ids ---------------------------------------------------------------

  predicate Hex(c: char) {
    '0' <= c <= '9' || 'a' <= c <= 'f' || 'A' <= c <= 'F'
  }

  predicate IsAccountId(id: Option<string>) {
    && id.Some? && |id.value| == 36
    && forall i | 0 <= i < 36 :: if i in {8, 13, 18, 23} then id.value[i] == '-' else Hex(id.value[i])
  }

  // ---- the profile that reaches the page -------------------------------------------

  datatype Profile = Profile(
    network: Network,
    id: string,
    wallets: seq<string>,
    wallet: Option<string>,
    primary: Option<string>)

  predicate Distinct(ws: seq<string>) {
    forall i, j | 0 <= i < j < |ws| :: ws[i] != ws[j]
  }

  function Members(ws: seq<string>): set<string> {
    set w | w in ws
  }

  /** As many members as entries is the same as no entry twice. */
  lemma {:induction false} DistinctBySize(ws: seq<string>)
    ensures |Members(ws)| <= |ws|
    ensures |Members(ws)| == |ws| <==> Distinct(ws)
  {
    if ws != [] {
      var init, last := ws[..|ws| - 1], ws[|ws| - 1];
      DistinctBySize(init);
      assert ws == init + [last];
      assert Members(ws) == Members(init) + {last};
      if last in init {
        assert Members(ws) == Members(init);
        var i :| 0 <= i < |init| && init[i] == last;
        assert ws[i] == ws[|init|];
      } else {
        assert Distinct(init) ==> Distinct(ws);
        assert Distinct(ws) ==> Distinct(init) by {
          assert forall i | 0 <= i < |init| :: init[i] == ws[i];
        }
      }
    }
  }

  /** What every shown profile is: this network's, this account's, at most ten different wallets with the right ones among them. */
  ghost predicate Shown(c: Context, p: Profile) {
    && p.network == c.network
    && IsAccountId(Some(p.id)) && (c.accountId.Some? ==> p.id == c.accountId.value)
    && |p.wallets| <= 10 && Distinct(p.wallets)
    && (forall w | w in p.wallets :: Base58.EncodesAddress(w))
    && (ByAccount(c) ==> p.wallet == None && (p.primary.Some? ==> p.primary.value in p.wallets))
    && (!ByAccount(c) ==> && p.wallet == Some(c.acting) && c.acting in p.wallets
                          && p.primary.Some? && p.primary.value in p.wallets)
  }

  /** Every entry an address, and no wallet twice. */
  method DistinctAddresses(wallets: seq<string>) returns (ok: bool)
    ensures ok <==> Distinct(wallets) && forall w | w in wallets :: Base58.EncodesAddress(w)
  {
    hide Base58.EncodesAddress;
    var seen: set<string> := {};
    for i := 0 to |wallets|
      invariant seen == Members(wallets[..i])
      invariant forall k | 0 <= k < i :: Base58.EncodesAddress(wallets[k])
    {
      var isAddress := Base58.IsBase58Address(wallets[i]);
      if !isAddress {
        return false;
      }
      assert wallets[..i + 1] == wallets[..i] + [wallets[i]];
      seen := seen + {wallets[i]};
    }
    assert wallets[..|wallets|] == wallets;
    DistinctBySize(wallets);
    ok := |seen| == |wallets|;
  }

  /** `profileRequest`'s check of a response. */
  method Accepts(c: Context, response: Option<Profile>) returns (ok: bool)
    ensures ok <==> response.Some? && Shown(c, response.value)
  {
    hide Base58.EncodesAddress, Distinct, IsAccountId;
    if response.None? {
      return false;
    }
    var p := response.value;
    if p.network != c.network || !IsAccountId(Some(p.id)) || (c.accountId.Some? && p.id != c.accountId.value)
       || |p.wallets| > 10 {
      return false;
    }
    ok := DistinctAddresses(p.wallets);
    if ok && ByAccount(c) {
      ok := p.wallet.None? && (p.primary.None? || p.primary.value in p.wallets);
    } else if ok {
      ok := p.wallet == Some(c.acting) && |p.wallets| >= 1 && c.acting in p.wallets
            && p.primary.Some? && p.primary.value in p.wallets;
    }
  }

  // ---- the interleavings --------------------------------------------------------------

  datatype Action =
    | Me | Update | EmailRequest | EmailVerify | EmailCancel | GoogleStart | GoogleUnlink
    | LinkStart | LinkComplete | LinkCancel | SetPrimary | RemoveWallet | Attach

  predicate AccountBound(a: Action) {
    a in {Update, EmailRequest, EmailCancel, GoogleStart, GoogleUnlink, LinkStart, SetPrimary, RemoveWallet}
  }

  /** Read-only actions use the wallet's session cookie when there is one. */
  predicate SessionRead(a: Action) {
    a.Me?
  }

  /** The account id an action carries; `link` is the one of the attempt being completed or cancelled, or of the page that attaches. */
  function Carried(c: Context, a: Action, link: Option<string>): Option<string> {
    if AccountBound(a) then c.accountId
    else if a.LinkComplete? || a.LinkCancel? || a.Attach? then link
    else None
  }

  /** The actions whose answer is a profile. */
  predicate ForProfile(a: Action) {
    a !in {GoogleStart, LinkStart, LinkCancel}
  }

  /** `signer` is the connected session an `Attach` hands to the wallet. */
  datatype Task = Task(context: Context, action: Action, link: Option<string>, signer: Option<SessionId>)

  /** Every action but `Attach` goes through `request`, whose checks ask for the current context. */
  predicate Guarded(t: Task) {
    !t.action.Attach?
  }

  /** What the operation was started for is still what the browser is on; an `Attach` was started for the wallet that signs it, too. */
  predicate Bound(env: Env, t: Task) {
    Current(env, t.context) && (t.action.Attach? ==> env.wallet == t.signer)
  }

  /** `Attach` is offered with the email or Google cookie, for the connected wallet. */
  predicate Offered(env: Env, t: Task) {
    t.action.Attach? ==> t.context.mode.ByCookie? && t.signer.Some? && env.wallet == t.signer
  }

  /**
   * Where an operation waits: for its wallet, with the signature in hand, for
   * the answer, or back in `run` with the value. The session's own sign-in is
   * `opening`.
   */
  datatype Stage =
    | Called
    | Prompted(opening: bool)
    | Signed(opening: bool, at: Env)
    | Opening(at: Env)
    | Ready
    | Posted(read: bool)
    | Returned(profile: Option<Profile>)
    | Done

  /** The context an answer is checked for: a completed link's own account replaces the page's. */
  function Checked(t: Task): Context {
    if t.action.LinkComplete? then t.context.(accountId := t.link) else t.context
  }

  ghost predicate Fits(t: Task, profile: Option<Profile>) {
    if ForProfile(t.action) then profile.Some? && Shown(Checked(t), profile.value) else profile.None?
  }

  /** `asked` is what the browser was on when `run` started the operation, `looked` when the code last checked. */
  datatype Op = Op(task: Task, asked: Env, looked: Env, stage: Stage)

  /** One POST, with what the browser was on when the operation last looked, when the signature returned, and at the POST. */
  datatype Post = Post(
    task: Task, opening: bool, asked: Env, looked: Env, signed: Option<Env>, at: Env, account: Option<string>)

  datatype Applied = Applied(task: Task, asked: Env, at: Env, profile: Option<Profile>)

  datatype State = State(env: Env, inFlight: bool, ops: seq<Op>, posts: seq<Post>, applied: seq<Applied>)

  datatype Event =
    | Change(env: Env)
    | Start(task: Task)
    | Call(i: nat, sessionReady: bool)
    | Sign(i: nat)
    | AskAgain(i: nat)
    | Send(i: nat)
    | SendRead(i: nat)
    | Answer(i: nat, refused: bool, profile: Option<Profile>)
    | Return(i: nat)
    | Throw(i: nat)

  function At(s: State, i: nat, stage: Stage): State
    requires i < |s.ops|
  {
    s.(ops := s.ops[i := s.ops[i].(stage := stage)])
  }

  /** A check that fails throws: `run` reports it and lets the flag go. */
  function Thrown(s: State, i: nat): State
    requires i < |s.ops|
  {
    At(s, i, Stage.Done).(inFlight := false)
  }

  /** `assertCurrent` throws; an `Attach` does not call it. */
  predicate Stops(s: State, i: nat)
    requires i < |s.ops|
  {
    Guarded(s.ops[i].task) && !Current(s.env, s.ops[i].task.context)
  }

  /** A passed `assertCurrent` has looked at the browser as it is now. */
  function Looking(s: State, i: nat): State
    requires i < |s.ops|
  {
    if Guarded(s.ops[i].task) then s.(ops := s.ops[i := s.ops[i].(looked := s.env)]) else s
  }

  function Posting(s: State, i: nat, opening: bool, signed: Option<Env>): State
    requires i < |s.ops|
  {
    var op := s.ops[i];
    var account := if opening then None else Carried(op.task.context, op.task.action, op.task.link);
    s.(posts := s.posts + [Post(op.task, opening, op.asked, op.looked, signed, s.env, account)])
  }

  /** The state after `e`; an event that cannot happen there changes nothing. */
  ghost function Next(s: State, e: Event): State {
    match e
    case Change(env) => s.(env := env)
    case Start(t) =>
      if s.inFlight || !Current(s.env, t.context) || !Offered(s.env, t) then s
      else s.(inFlight := true, ops := s.ops + [Op(t, s.env, s.env, if t.action.Attach? then Prompted(false) else Called)])
    case Call(i, sessionReady) =>
      if i >= |s.ops| || !s.ops[i].stage.Called? then s
      else
        var t := s.ops[i].task;
        if Stops(s, i) || (AccountBound(t.action) && !IsAccountId(t.context.accountId)) then Thrown(s, i)
        else if ByAccount(t.context) then At(Posting(Looking(s, i), i, false, None), i, Posted(false))
        else if SessionRead(t.action) && sessionReady then At(Posting(Looking(s, i), i, false, None), i, Posted(true))
        else At(Looking(s, i), i, Prompted(SessionRead(t.action)))
    case Sign(i) =>
      if i >= |s.ops| || !s.ops[i].stage.Prompted? then s
      else if Stops(s, i) then Thrown(s, i)
      else At(Looking(s, i), i, Stage.Signed(s.ops[i].stage.opening, s.env))
    case AskAgain(i) =>
      if i >= |s.ops| || !s.ops[i].stage.Signed? then s
      else if Stops(s, i) then Thrown(s, i)
      else At(Looking(s, i), i, Prompted(s.ops[i].stage.opening))
    case Send(i) =>
      if i >= |s.ops| || !s.ops[i].stage.Signed? then s
      else
        var stage := s.ops[i].stage;
        At(Posting(s, i, stage.opening, Some(stage.at)), i, if stage.opening then Opening(stage.at) else Posted(false))
    case SendRead(i) =>
      if i >= |s.ops| || !s.ops[i].stage.Ready? then s
      else At(Posting(s, i, false, None), i, Posted(true))
    case Answer(i, refused, profile) =>
      if i >= |s.ops| then s
      else
        var stage := s.ops[i].stage;
        if stage.Opening? && !refused then At(s, i, Ready)
        else if refused && (stage.Opening? || (stage.Posted? && stage.read)) then
          (if Stops(s, i) then Thrown(s, i) else At(Looking(s, i), i, Prompted(false)))
        else if !stage.Posted? then s
        else if refused || Stops(s, i) || (Guarded(s.ops[i].task) && !Fits(s.ops[i].task, profile)) then Thrown(s, i)
        else At(Looking(s, i), i, Returned(profile))
    case Return(i) =>
      if i >= |s.ops| || !s.ops[i].stage.Returned? then s
      else
        var op := s.ops[i];
        var s' := Thrown(s, i);
        if Current(s.env, op.task.context) then s'.(applied := s.applied + [Applied(op.task, op.asked, s.env, op.stage.profile)]) else s'
    case Throw(i) =>
      if i >= |s.ops| || s.ops[i].stage.Done? then s else Thrown(s, i)
  }

  ghost function Run(s: State, es: seq<Event>): State {
    if es == [] then s else Next(Run(s, es[..|es| - 1]), es[|es| - 1])
  }

  function Begin(env: Env): State {
    State(env, false, [], [], [])
  }

  // ---- what holds -------------------------------------------------------------------------

  predicate PostOk(p: Post) {
    && Bound(p.asked, p.task) && Bound(p.looked, p.task)
    && (!Guarded(p.task) ==> p.looked == p.asked && p.signed.Some? && p.task.context.mode.ByCookie? && p.account == p.task.link)
    && (Guarded(p.task) && p.signed.Some? ==> p.signed.value == p.looked && !ByAccount(p.task.context))
    && (p.signed.None? ==> ByAccount(p.task.context) || SessionRead(p.task.action))
    && (Guarded(p.task) && ByAccount(p.task.context) ==> p.at == p.looked)
    && (AccountBound(p.task.action) && !p.opening ==>
          IsAccountId(p.task.context.accountId) && p.account == p.task.context.accountId)
  }

  ghost predicate StageOk(op: Op) {
    var guarded := Guarded(op.task);
    && Bound(op.asked, op.task) && Bound(op.looked, op.task)
    && (!guarded ==> op.looked == op.asked && op.task.context.mode.ByCookie? && !op.stage.Called? && !op.stage.Ready? && !op.stage.Opening?
                     && (op.stage.Prompted? || op.stage.Signed? ==> !op.stage.opening) && (op.stage.Posted? ==> !op.stage.read))
    && (guarded && (op.stage.Signed? || op.stage.Opening?) ==> op.looked == op.stage.at)
    && (guarded && op.stage.Returned? ==> Fits(op.task, op.stage.profile))
    && (guarded && (op.stage.Prompted? || op.stage.Signed? || op.stage.Opening? || op.stage.Ready?) ==>
          && !ByAccount(op.task.context)
          && (AccountBound(op.task.action) ==> IsAccountId(op.task.context.accountId)))
    && ((op.stage.Prompted? || op.stage.Signed?) && op.stage.opening ==> SessionRead(op.task.action))
    && (op.stage.Ready? || op.stage.Opening? || (op.stage.Posted? && op.stage.read) ==>
          SessionRead(op.task.action) && !ByAccount(op.task.context))
  }

  predicate Open(op: Op) {
    !op.stage.Done?
  }

  predicate AppliedOk(a: Applied) {
    Bound(a.asked, a.task) && Current(a.at, a.task.context) && (!Guarded(a.task) ==> a.task.context.mode.ByCookie?)
  }

  /** Some post was the sign-in of `t`, signed while the browser was on `looked`. */
  predicate HasSignIn(posts: seq<Post>, t: Task, looked: Env) {
    exists q | q in posts :: q.opening && q.task == t && q.signed == Some(looked)
  }

  /** An unsigned post that did not just look comes after its own sign-in. */
  predicate AfterSignIn(posts: seq<Post>, p: Post) {
    p.signed.None? && p.at != p.looked ==> HasSignIn(posts, p.task, p.looked)
  }

  predicate Following(posts: seq<Post>, op: Op) {
    op.stage.Opening? || op.stage.Ready? ==> HasSignIn(posts, op.task, op.looked)
  }

  ghost predicate Ok(s: State) {
    && (forall p | p in s.posts :: PostOk(p) && AfterSignIn(s.posts, p))
    && (forall i | 0 <= i < |s.ops| :: Following(s.posts, s.ops[i]))
    && (forall a | a in s.applied :: AppliedOk(a) && (Guarded(a.task) ==> Fits(a.task, a.profile)))
    && (forall i | 0 <= i < |s.ops| :: StageOk(s.ops[i]))
    && (forall i, j | 0 <= i < j < |s.ops| :: !(Open(s.ops[i]) && Open(s.ops[j])))
    && (s.inFlight <==> exists i :: 0 <= i < |s.ops| && Open(s.ops[i]))
  }

  /** One operation moves on, and the rest stays as it is. */
  lemma OpOk(s: State, i: nat, op: Op)
    requires Ok(s) && i < |s.ops| && Open(s.ops[i]) && Open(op) && StageOk(op) && Following(s.posts, op)
    ensures Ok(s.(ops := s.ops[i := op]))
  {
    var s' := s.(ops := s.ops[i := op]);
    assert Open(s'.ops[i]);
  }

  lemma ThrownOk(s: State, i: nat)
    requires Ok(s) && i < |s.ops| && Open(s.ops[i])
    ensures Ok(Thrown(s, i))
  {
    var s' := Thrown(s, i);
    assert StageOk(s.ops[i]);
    forall j | 0 <= j < |s.ops| ensures !Open(s'.ops[j]) {
      assert j != i ==> !Open(s.ops[j]);
    }
  }

  lemma PostingOk(s: State, i: nat, opening: bool, signed: Option<Env>)
    requires Ok(s) && i < |s.ops| && PostOk(Posting(s, i, opening, signed).posts[|s.posts|])
    requires AfterSignIn(s.posts, Posting(s, i, opening, signed).posts[|s.posts|])
    ensures Ok(Posting(s, i, opening, signed))
    ensures var s' := Posting(s, i, opening, signed); s'.posts[|s.posts|] in s'.posts
  {
    hide StageOk, PostOk;
    var s' := Posting(s, i, opening, signed);
    forall t, e | HasSignIn(s.posts, t, e) ensures HasSignIn(s'.posts, t, e) {
      var q :| q in s.posts && q.opening && q.task == t && q.signed == Some(e);
      assert q in s'.posts;
    }
  }

  /** After a check that passed, looking again keeps everything. */
  lemma LookingOk(s: State, i: nat)
    requires Ok(s) && i < |s.ops| && Open(s.ops[i]) && !Stops(s, i) && !s.ops[i].stage.Signed? && !s.ops[i].stage.Opening?
    ensures Ok(Looking(s, i))
  {
    assert StageOk(s.ops[i]);
    if Guarded(s.ops[i].task) {
      OpOk(s, i, s.ops[i].(looked := s.env));
    }
  }

  lemma CallOk(s: State, i: nat, ready: bool)
    requires Ok(s) && i < |s.ops| && s.ops[i].stage.Called?
    ensures Ok(Next(s, Call(i, ready)))
  {
    var t := s.ops[i].task;
    assert StageOk(s.ops[i]);
    if Stops(s, i) || (AccountBound(t.action) && !IsAccountId(t.context.accountId)) {
      ThrownOk(s, i);
    } else {
      LookingOk(s, i);
      var l := Looking(s, i);
      if ByAccount(t.context) || (SessionRead(t.action) && ready) {
        PostingOk(l, i, false, None);
        var p := Posting(l, i, false, None);
        OpOk(p, i, p.ops[i].(stage := Posted(!ByAccount(t.context))));
      } else {
        OpOk(l, i, l.ops[i].(stage := Prompted(SessionRead(t.action))));
      }
    }
  }

  lemma SignOk(s: State, i: nat, e: Event)
    requires Ok(s) && i < |s.ops| && (e == Sign(i) || e == AskAgain(i)) && Next(s, e) != s
    ensures Ok(Next(s, e))
  {
    var op := s.ops[i];
    assert StageOk(op);
    if Stops(s, i) {
      ThrownOk(s, i);
    } else {
      var looked := if Guarded(op.task) then s.env else op.looked;
      var stage := if e.Sign? then Stage.Signed(op.stage.opening, s.env) else Prompted(op.stage.opening);
      OpOk(s, i, Op(op.task, op.asked, looked, stage));
      assert Next(s, e) == s.(ops := s.ops[i := Op(op.task, op.asked, looked, stage)]);
    }
  }

  lemma SendOk(s: State, i: nat)
    requires Ok(s) && i < |s.ops| && s.ops[i].stage.Signed?
    ensures Ok(Next(s, Send(i)))
  {
    var stage := s.ops[i].stage;
    assert StageOk(s.ops[i]);
    PostingOk(s, i, stage.opening, Some(stage.at));
    var p := Posting(s, i, stage.opening, Some(stage.at));
    OpOk(p, i, p.ops[i].(stage := if stage.opening then Opening(stage.at) else Posted(false)));
  }

  lemma SendReadOk(s: State, i: nat)
    requires Ok(s) && i < |s.ops| && s.ops[i].stage.Ready?
    ensures Ok(Next(s, SendRead(i)))
  {
    assert StageOk(s.ops[i]);
    PostingOk(s, i, false, None);
    var p := Posting(s, i, false, None);
    OpOk(p, i, p.ops[i].(stage := Posted(true)));
  }

  lemma AnswerOk(s: State, i: nat, refused: bool, profile: Option<Profile>)
    requires Ok(s) && i < |s.ops| && Next(s, Answer(i, refused, profile)) != s
    ensures Ok(Next(s, Answer(i, refused, profile)))
  {
    hide Fits;
    var op, s' := s.ops[i], Next(s, Answer(i, refused, profile));
    assert StageOk(op);
    if s' == Thrown(s, i) {
      ThrownOk(s, i);
    } else {
      OpOk(s, i, s'.ops[i]);
      assert s' == s.(ops := s.ops[i := s'.ops[i]]);
    }
  }

  lemma ReturnOk(s: State, i: nat)
    requires Ok(s) && i < |s.ops| && s.ops[i].stage.Returned?
    ensures Ok(Next(s, Return(i)))
  {
    assert StageOk(s.ops[i]);
    ThrownOk(s, i);
  }

  lemma StepOk(s: State, e: Event)
    requires Ok(s)
    ensures Ok(Next(s, e))
  {
    var s' := Next(s, e);
    if s' == s {
      return;
    }
    match e
    case Change(_) =>
    case Start(t) =>
      assert Open(s'.ops[|s.ops|]) && StageOk(s'.ops[|s.ops|]);
      assert forall i | 0 <= i < |s.ops| :: s'.ops[i] == s.ops[i];
    case Call(i, ready) =>
      CallOk(s, i, ready);
    case Sign(i) =>
      SignOk(s, i, e);
    case AskAgain(i) =>
      SignOk(s, i, e);
    case Send(i) =>
      SendOk(s, i);
    case SendRead(i) =>
      SendReadOk(s, i);
    case Answer(i, refused, profile) =>
      AnswerOk(s, i, refused, profile);
    case Return(i) =>
      ReturnOk(s, i);
    case Throw(i) =>
      ThrownOk(s, i);
  }

  lemma {:induction false} AlwaysOk(env: Env, es: seq<Event>)
    ensures Ok(Run(Begin(env), es))
  {
    if es != [] {
      AlwaysOk(env, es[..|es| - 1]);
      StepOk(Run(Begin(env), es[..|es| - 1]), es[|es| - 1]);
    }
  }

  /**
   * Under every interleaving of the awaits with wallet switches, network
   * changes and unmounts: what is signed and what is applied is for the context
   * it was started in, exactly when the operation is not an attach, or the
   * browser is where it was when the attach was asked for. Every profile applied
   * is a checked one unless an attach brought it; an account-bound action carries its
   * context's own account id and an attach the page's; at most one operation is
   * open, and the flag is up exactly while one is.
   */
  lemma OperationsAreBound(env: Env, es: seq<Event>)
    ensures
      var s := Run(Begin(env), es);
      && (forall p | p in s.posts && p.signed.Some? ::
            Bound(p.signed.value, p.task) <==> Guarded(p.task) || p.signed.value == p.asked)
      && (forall a | a in s.applied :: Bound(a.at, a.task) <==> Guarded(a.task) || a.at == a.asked)
      && (forall a | a in s.applied && Guarded(a.task) && ForProfile(a.task.action) ::
            a.profile.Some? && Shown(Checked(a.task), a.profile.value))
      && (forall p | p in s.posts && AccountBound(p.task.action) && !p.opening ::
            IsAccountId(p.task.context.accountId) && p.account == p.task.context.accountId)
      && (forall p | p in s.posts && !Guarded(p.task) :: p.account == p.task.link)
      && (forall i, j | 0 <= i < j < |s.ops| :: s.ops[i].stage.Done? || s.ops[j].stage.Done?)
      && (s.inFlight <==> exists i :: 0 <= i < |s.ops| && !s.ops[i].stage.Done?)
  {
    hide Run, Shown, IsAccountId;
    AlwaysOk(env, es);
    var s := Run(Begin(env), es);
    assert forall op | op in s.ops :: Open(op) <==> !op.stage.Done?;
    if s.inFlight {
      var i :| 0 <= i < |s.ops| && Open(s.ops[i]);
      assert !s.ops[i].stage.Done?;
    }
    assert forall i, j | 0 <= i < j < |s.ops| :: !(Open(s.ops[i]) && Open(s.ops[j]));
  }

  /**
   * Which requests leave while their context is no longer the browser's: those
   * after whose last look the wallet, the network or the mount changed and had
   * not changed back. The last look of a signed request is at its signature, an
   * attach's at its start; every other request has just looked, unless it is a
   * session read that follows its own sign-in, with the last look at that
   * sign-in's signature.
   */
  lemma PostsExactly(env: Env, es: seq<Event>)
    ensures
      forall p | p in Run(Begin(env), es).posts ::
        && (Bound(p.at, p.task) <==> p.at == p.looked)
        && (p.signed.Some? ==> p.looked == if Guarded(p.task) then p.signed.value else p.asked)
        && (p.signed.None? && p.at != p.looked ==>
              && SessionRead(p.task.action) && !ByAccount(p.task.context)
              && HasSignIn(Run(Begin(env), es).posts, p.task, p.looked))
  {
    hide Run, IsAccountId;
    AlwaysOk(env, es);
  }

  // ---- the hook, running ---------------------------------------------------------------------

  datatype Notice = Success(text: string) | Failure(text: string)

  /** `AccountSessionChangedError`'s message, told apart from what any other error says. */
  const SESSION_CHANGED := "changed"

  /**
   * `useAccountOperation` with the requests it runs: its refs and state, what
   * the browser is on, and the operations with what they posted and applied.
   */
  class AccountOperation {
    var mounted: bool
    var network: Network
    var wallet: Option<SessionId>
    var inFlight: bool
    var pending: Option<string>
    var notice: Option<Notice>
    var ops: seq<Op>
    var posts: seq<Post>
    var applied: seq<Applied>

    constructor (network: Network, wallet: Option<SessionId>)
      ensures View() == Begin(Env(false, network, wallet)) && pending == None && notice == None
    {
      this.mounted, this.network, this.wallet := false, network, wallet;
      inFlight, pending, notice := false, None, None;
      ops, posts, applied := [], [], [];
    }

    function Browser(): Env
      reads this
    {
      Env(mounted, network, wallet)
    }

    function View(): State
      reads this
    {
      State(Browser(), inFlight, ops, posts, applied)
    }

    /** A mount, an unmount, a change of network or of wallet. */
    method Observe(env: Env)
      modifies this`mounted, this`network, this`wallet
      ensures View() == Next(old(View()), Change(env))
    {
      mounted, network, wallet := env.mounted, env.network, env.wallet;
    }

    /** The catch and the finally of `run`: the flag goes in every case, the rest only while the context is current. */
    method Fail(i: nat, text: string)
      requires i < |ops| && !ops[i].stage.Done?
      modifies this`inFlight, this`pending, this`notice, this`ops
      ensures View() == Next(old(View()), Throw(i))
      ensures notice == if Current(Browser(), old(ops)[i].task.context) then Some(Failure(text)) else old(notice)
      ensures pending == if Current(Browser(), old(ops)[i].task.context) then None else old(pending)
    {
      var current := Current(Browser(), ops[i].task.context);
      if current {
        notice := Some(Failure(text));
      }
      inFlight := false;
      if current {
        pending := None;
      }
      ops := ops[i := ops[i].(stage := Stage.Done)];
    }

    /** `run` up to the awaited work. */
    method TryStart(operation: string, t: Task) returns (started: bool)
      requires Offered(Browser(), t)
      modifies this`inFlight, this`pending, this`notice, this`ops
      ensures View() == Next(old(View()), Start(t))
      ensures started <==> !old(inFlight) && Current(Browser(), t.context)
      ensures started ==> inFlight && pending == Some(operation) && notice == None
      ensures !started ==> pending == old(pending) && notice == old(notice)
    {
      if inFlight || !Current(Browser(), t.context) {
        return false;
      }
      inFlight, pending, notice := true, Some(operation), None;
      ops := ops + [Op(t, Browser(), Browser(), if t.action.Attach? then Prompted(false) else Called)];
      return true;
    }

    /** The start of `request`: refused, posted with a cookie, or on to the wallet. */
    method Request(i: nat, sessionReady: bool)
      requires i < |ops| && ops[i].stage.Called?
      modifies this`inFlight, this`pending, this`notice, this`ops, this`posts
      ensures View() == Next(old(View()), Call(i, sessionReady))
    {
      hide IsAccountId;
      var t := ops[i].task;
      if Guarded(t) && !Current(Browser(), t.context) {
        Fail(i, SESSION_CHANGED);
        return;
      }
      if AccountBound(t.action) && !IsAccountId(t.context.accountId) {
        Fail(i, "ACCOUNT_ID_REQUIRED");
        return;
      }
      var looked := if Guarded(t) then Browser() else ops[i].looked;
      ops := ops[i := ops[i].(looked := looked)];
      if ByAccount(t.context) || (SessionRead(t.action) && sessionReady) {
        PostOne(i, false, None, Posted(!ByAccount(t.context)));
      } else {
        ops := ops[i := ops[i].(stage := Prompted(SessionRead(t.action)))];
      }
    }

    /** The wallet returned a signature: the guarded session looks again, the attached one does not. */
    method TakeSignature(i: nat)
      requires i < |ops| && ops[i].stage.Prompted?
      modifies this`inFlight, this`pending, this`notice, this`ops
      ensures View() == Next(old(View()), Sign(i))
    {
      Look(i, Stage.Signed(ops[i].stage.opening, Browser()));
    }

    /** A second prompt, for the envelope a hardware wallet signs. */
    method PromptAgain(i: nat)
      requires i < |ops| && ops[i].stage.Signed?
      modifies this`inFlight, this`pending, this`notice, this`ops
      ensures View() == Next(old(View()), AskAgain(i))
    {
      Look(i, Prompted(ops[i].stage.opening));
    }

    /** `assertCurrent`, and on to the next stage. */
    method Look(i: nat, stage: Stage)
      requires i < |ops| && !ops[i].stage.Done?
      modifies this`inFlight, this`pending, this`notice, this`ops
      ensures View() == if Stops(old(View()), i) then Thrown(old(View()), i) else At(Looking(old(View()), i), i, stage)
    {
      if Guarded(ops[i].task) {
        if !Current(Browser(), ops[i].task.context) {
          Fail(i, SESSION_CHANGED);
          return;
        }
        ops := ops[i := ops[i].(looked := Browser())];
      }
      ops := ops[i := ops[i].(stage := stage)];
    }

    /** The POST itself. */
    method PostOne(i: nat, opening: bool, signed: Option<Env>, stage: Stage)
      requires i < |ops|
      modifies this`ops, this`posts
      ensures View() == At(Posting(old(View()), i, opening, signed), i, stage)
    {
      var op := ops[i];
      var account := if opening then None else Carried(op.task.context, op.task.action, op.task.link);
      posts := posts + [Post(op.task, opening, op.asked, op.looked, signed, Browser(), account)];
      ops := ops[i := op.(stage := stage)];
    }

    /** The signed request, or the session's own sign-in, goes out. */
    method SendSigned(i: nat)
      requires i < |ops| && ops[i].stage.Signed?
      modifies this`ops, this`posts
      ensures View() == Next(old(View()), Send(i))
    {
      var stage := ops[i].stage;
      PostOne(i, stage.opening, Some(stage.at), if stage.opening then Opening(stage.at) else Posted(false));
    }

    /** The read goes out over the session just started. */
    method SendOverSession(i: nat)
      requires i < |ops| && ops[i].stage.Ready?
      modifies this`ops, this`posts
      ensures View() == Next(old(View()), SendRead(i))
    {
      PostOne(i, false, None, Posted(true));
    }

    /** The session was started: its read can go out. */
    method SessionStarted(i: nat, profile: Option<Profile>)
      requires i < |ops| && ops[i].stage.Opening?
      modifies this`ops
      ensures View() == Next(old(View()), Answer(i, false, profile))
    {
      ops := ops[i := ops[i].(stage := Ready)];
    }

    /** No session, or one the server refused: the request is signed after all. */
    method SessionRefused(i: nat, profile: Option<Profile>)
      requires i < |ops| && (ops[i].stage.Opening? || (ops[i].stage.Posted? && ops[i].stage.read))
      modifies this`inFlight, this`pending, this`notice, this`ops
      ensures View() == Next(old(View()), Answer(i, true, profile))
    {
      Look(i, Prompted(false));
    }

    /** The server's answer: `assertCurrent`, then `profileRequest`'s check; an attach has neither. */
    method Answered(i: nat, profile: Option<Profile>)
      requires i < |ops| && ops[i].stage.Posted?
      modifies this`inFlight, this`pending, this`notice, this`ops
      ensures View() == Next(old(View()), Answer(i, false, profile))
    {
      hide Shown;
      var t := ops[i].task;
      if Guarded(t) && !Current(Browser(), t.context) {
        Fail(i, SESSION_CHANGED);
        return;
      }
      if Guarded(t) {
        var ok := profile.None?;
        if ForProfile(t.action) {
          ok := Accepts(Checked(t), profile);
        }
        if !ok {
          Fail(i, SESSION_CHANGED);
          return;
        }
        ops := ops[i := ops[i].(looked := Browser())];
      }
      ops := ops[i := ops[i].(stage := Returned(profile))];
    }

    /** The rest of `run` when the work returned; `broken` is what an `apply` that throws says. */
    method Settle(i: nat, broken: Option<string>, success: Option<string>)
      requires i < |ops| && ops[i].stage.Returned?
      modifies this`inFlight, this`pending, this`notice, this`ops, this`applied
      ensures View() == Next(old(View()), Return(i))
      ensures pending == if Current(Browser(), old(ops)[i].task.context) then None else old(pending)
      ensures notice == if !Current(Browser(), old(ops)[i].task.context) then old(notice)
                        else if broken.Some? then Some(Failure(broken.value))
                        else if success.Some? then Some(Success(success.value))
                        else old(notice)
    {
      var op := ops[i];
      var current := Current(Browser(), op.task.context);
      if current {
        applied := applied + [Applied(op.task, op.asked, Browser(), op.stage.profile)];
        if broken.Some? {
          notice := Some(Failure(broken.value));
        } else if success.Some? {
          notice := Some(Success(success.value));
        }
      }
      inFlight := false;
      if current {
        pending := None;
      }
      ops := ops[i := op.(stage := Stage.Done)];
    }
  }

  // ---- what does not hold ---------------------------------------------------------------

  function Reading(): Task {
    Task(Context(Some(1), "w", ByWallet, "devnet", None), Me, None, None)
  }

  function On(): Env {
    Env(true, "devnet", Some(1))
  }

  function Switched(): Env {
    Env(true, "devnet", Some(2))
  }

  function SignedIn(): State {
    State(On(), true, [Op(Reading(), On(), On(), Stage.Signed(true, On()))], [], [])
  }

  function SwitchedAway(): State {
    State(Switched(), true, [Op(Reading(), On(), On(), Ready)],
          [Post(Reading(), true, On(), On(), Some(On()), On(), None)], [])
  }

  lemma SignsIn()
    ensures Run(Begin(On()), [Start(Reading()), Call(0, false), Sign(0)]) == SignedIn()
  {
    RunThree(Begin(On()), Start(Reading()), Call(0, false), Sign(0));
  }

  lemma SwitchesAway()
    ensures Run(SignedIn(), [Send(0), Answer(0, false, None), Change(Switched())]) == SwitchedAway()
  {
    RunThree(SignedIn(), Send(0), Answer(0, false, None), Change(Switched()));
  }

  /**
   * A session read is posted without looking again once the sign-in before it
   * has answered, so it may go out after the wallet changed.
   */
  lemma ReadAfterSwitch()
    ensures
      var es := [Start(Reading()), Call(0, false), Sign(0)] + [Send(0), Answer(0, false, None), Change(Switched())]
                + [SendRead(0)];
      var s := Run(Begin(On()), es);
      |s.posts| == 2 && s.posts[1].task == Reading() && !Current(s.posts[1].at, Reading().context)
  {
    var first := [Start(Reading()), Call(0, false), Sign(0)];
    var second := [Send(0), Answer(0, false, None), Change(Switched())];
    SignsIn();
    SwitchesAway();
    RunMore(Begin(On()), first, second);
    assert (first + second + [SendRead(0)])[..6] == first + second;
    assert Next(SwitchedAway(), SendRead(0)).posts[1] == Post(Reading(), false, On(), On(), None, Switched(), None);
  }

  function Attaching(): Task {
    Task(Context(None, "", ByCookie, "devnet", Some("a")), Attach, Some("a"), Some(1))
  }

  function AttachedPost(during: Env): Post {
    Post(Attaching(), false, On(), On(), Some(during), during, Some("a"))
  }

  function AttachPosted(during: Env): State {
    State(during, true, [Op(Attaching(), On(), On(), Posted(false))], [AttachedPost(during)], [])
  }

  lemma AttachPosts(during: Env)
    ensures Run(Begin(On()), [Start(Attaching()), Change(during)] + [Sign(0), Send(0)]) == AttachPosted(during)
  {
    var s := State(during, true, [Op(Attaching(), On(), On(), Prompted(false))], [], []);
    assert Next(Next(Begin(On()), Start(Attaching())), Change(during)) == s;
    RunTwo(Begin(On()), Start(Attaching()), Change(during));
    RunTwo(s, Sign(0), Send(0));
    RunMore(Begin(On()), [Start(Attaching()), Change(during)], [Sign(0), Send(0)]);
  }

  /**
   * Whatever the browser changes to while the wallet's prompt for an attach is
   * open, unmounted or on another network included, the signed request goes out.
   */
  lemma AttachPostsAnyway(during: Env)
    ensures
      var s := Run(Begin(On()), [Start(Attaching()), Change(during)] + [Sign(0), Send(0)]);
      && s.posts == [AttachedPost(during)]
      && (Bound(during, Attaching()) <==> during == On())
  {
    AttachPosts(during);
  }

  /** And whatever the server answers is what the page shows, for the wallet signed with before a switch, unchecked. */
  lemma AttachAppliesAnything(profile: Option<Profile>)
    ensures
      var es := [Start(Attaching()), Change(Switched())] + [Sign(0), Send(0)] + [Answer(0, false, profile), Return(0)];
      && Run(Begin(On()), es).applied == [Applied(Attaching(), On(), Switched(), profile)]
      && !Bound(Switched(), Attaching())
  {
    var posted := AttachPosted(Switched());
    AttachPosts(Switched());
    RunTwo(posted, Answer(0, false, profile), Return(0));
    RunMore(Begin(On()), [Start(Attaching()), Change(Switched())] + [Sign(0), Send(0)], [Answer(0, false, profile), Return(0)]);
  }

  lemma {:induction false} RunMore(s: State, a: seq<Event>, b: seq<Event>)
    ensures Run(s, a + b) == Run(Run(s, a), b)
  {
    if b == [] {
      assert a + b == a;
    } else {
      RunMore(s, a, b[..|b| - 1]);
      assert (a + b)[..|a + b| - 1] == a + b[..|b| - 1];
    }
  }

  lemma RunTwo(s: State, a: Event, b: Event)
    ensures Run(s, [a, b]) == Next(Next(s, a), b)
  {
    hide Next;
    assert [a, b][..1] == [a] && [a][..0] == [];
    assert Run(s, [a]) == Next(s, a);
  }

  lemma RunThree(s: State, a: Event, b: Event, c: Event)
    ensures Run(s, [a, b, c]) == Next(Next(Next(s, a), b), c)
  {
    RunTwo(s, a, b);
    assert [a, b, c][..2] == [a, b];
  }
}
