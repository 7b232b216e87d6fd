/**
 Single flight and rotation together: the browser never presents a refresh token
 the server has already rotated.
 */
module SessionSafety {
  import opened Wrappers
  import opened AuthTables
  import opened RefreshTokens
  import opened SessionClient

  /** On file and not revoked. */
  predicate Unspent(db: Db, hash: string) {
    exists t :: t in db.tokens && db.tokens[t].hash == hash && db.tokens[t].revokedAt == None
  }

  /** The refresh refreshPromise stands for. */
  function InFlight(cl: Client): Option<SessionClient.Refresh> {
    if cl.current.Some? && cl.current.value in cl.refreshes then Some(cl.refreshes[cl.current.value]) else None
  }

  predicate IsPosting(cl: Client) {
    InFlight(cl).Some? && InFlight(cl).value.Posting?
  }

  /** The server has rotated and its answer is under way. */
  predicate Renewing(cl: Client) {
    InFlight(cl).Some? && InFlight(cl).value.Replied? && InFlight(cl).value.reply.Tokens?
  }

  /** Hashes of the tokens this browser holds or is about to hold. */
  function Mine(cfg: Config, cl: Client): set<string> {
    (if cl.storage.Some? then {cfg.hash(cl.storage.value)} else {})
    + (if IsPosting(cl) then {cfg.hash(InFlight(cl).value.token)} else {})
    + (if Renewing(cl) then {cfg.hash(InFlight(cl).value.reply.refresh)} else {})
  }

  predicate ArrivalOk(cfg: Config, cl: Client, db: Db, token: string) {
    Unspent(db, cfg.hash(token)) && cfg.hash(token) !in Mine(cfg, cl)
  }

  predicate SameTokenHash(cfg: Config, a: string, b: string) {
    cfg.hash(a) == cfg.hash(b)
  }

  /** Storage holds this token. */
  predicate Stored(cfg: Config, cl: Client, token: string) {
    cl.storage.Some? && SameTokenHash(cfg, cl.storage.value, token)
  }

  /** The stored token has been rotated and the answer that replaces it is under way. */
  predicate Superseded(cfg: Config, cl: Client) {
    Renewing(cl) && Stored(cfg, cl, InFlight(cl).value.token)
  }

  /** What the client holds is good on the server, up to a rotation whose answer is still under way. */
  ghost predicate HoldsGood(cfg: Config, cl: Client, db: Db) {
    && (cl.storage.Some? && !Superseded(cfg, cl) ==> Unspent(db, cfg.hash(cl.storage.value)))
    && (IsPosting(cl) ==> Unspent(db, cfg.hash(InFlight(cl).value.token)))
    && (Renewing(cl) ==> && Unspent(db, cfg.hash(InFlight(cl).value.reply.refresh))
                         && RevokedHash(db, cfg.hash(InFlight(cl).value.token)))
  }

  ghost predicate ArrivalsGood(cfg: Config, cl: Client, db: Db, arriving: set<string>) {
    && (forall token :: token in arriving ==> ArrivalOk(cfg, cl, db, token))
    && (forall a, b :: a in arriving && b in arriving && SameTokenHash(cfg, a, b) ==> a == b)
  }

  ghost predicate Safe(cfg: Config, s: State) {
    DbInv(s.db) && SingleFlight(s.client) && HoldsGood(cfg, s.client, s.db) && ArrivalsGood(cfg, s.client, s.db, s.arriving)
  }

  /** An operation of another session: it spends none of this browser's tokens. */
  ghost predicate Foreign(cfg: Config, s: State, op: Op) {
    Spends(cfg, s.db, op) ==>
      cfg.hash(op.token) !in Mine(cfg, s.client) && forall t :: t in s.arriving ==> !SameTokenHash(cfg, t, op.token)
  }

  /** The server accepts the token, revokes its row, and then cannot issue a successor. */
  ghost predicate CutShort(cfg: Config, db: Db, token: string, next: string, fault: Fault, now: int) {
    Spends(cfg, db, Op.Refresh(token, next, fault, now)) && (fault == Late || HashTaken(db, cfg.hash(next)))
  }

  /**
   The three ways to lose a session: the refresh of the stored token is cut short, its answer
   is lost on the way, or somebody else spends a token of this browser.
   */
  ghost predicate Breaks(cfg: Config, s: State, step: Step) {
    match step
    case ServeRefresh(p, _, next, fault, now) =>
      p in s.client.refreshes && s.client.refreshes[p].Posting? && Stored(cfg, s.client, s.client.refreshes[p].token)
      && CutShort(cfg, s.db, s.client.refreshes[p].token, next, fault, now)
    case LoseRefresh(p) =>
      p in s.client.refreshes && s.client.refreshes[p].Replied? && s.client.refreshes[p].reply.Tokens?
      && Stored(cfg, s.client, s.client.refreshes[p].token)
    case Elsewhere(op) => !Foreign(cfg, s, op)
    case _ => false
  }

  ghost predicate CleanRun(cfg: Config, s: State, steps: seq<Step>)
    decreases |steps|
  {
    steps != [] ==> !Breaks(cfg, s, steps[0]) && CleanRun(cfg, Apply(cfg, s, steps[0]), steps[1..])
  }

  // --- What a server call leaves unspent -------------------------------------------------------

  lemma UnspentIsTaken(db: Db, hash: string)
    requires Unspent(db, hash)
    ensures HashTaken(db, hash)
  {
  }

  lemma IssueUnspent(cfg: Config, db: Db, user: nat, next: string, fault: Fault, now: int, hash: string)
    requires DbInv(db) && Unspent(db, hash)
    ensures Unspent(Issue(cfg, db, user, next, fault, now).db, hash)
  {
    var t :| t in db.tokens && db.tokens[t].hash == hash && db.tokens[t].revokedAt == None;
    assert TokenOk(db.users, db.tokens, db.nextToken, t);
    var after := Issue(cfg, db, user, next, fault, now).db;
    assert t in after.tokens && after.tokens[t] == db.tokens[t];
  }

  lemma IssuedUnspent(cfg: Config, db: Db, user: nat, next: string, fault: Fault, now: int)
    requires Issue(cfg, db, user, next, fault, now).outcome.Issued?
    ensures Unspent(Issue(cfg, db, user, next, fault, now).db, cfg.hash(next))
  {
    assert db.nextToken in Issue(cfg, db, user, next, fault, now).db.tokens;
  }

  lemma RevokeUnspent(db: Db, row: nat, now: int, hash: string)
    requires DbInv(db) && Unspent(db, hash) && row in db.tokens && db.tokens[row].hash != hash
    ensures Unspent(Revoke(db, row, now), hash)
  {
    var t :| t in db.tokens && db.tokens[t].hash == hash && db.tokens[t].revokedAt == None;
    var after := Revoke(db, row, now);
    assert t in after.tokens && after.tokens[t] == db.tokens[t];
  }

  lemma OthersSurviveRefresh(cfg: Config, db: Db, op: Op, hash: string)
    requires DbInv(db) && Unspent(db, hash) && op.Refresh?
    requires Spends(cfg, db, op) ==> cfg.hash(op.token) != hash
    ensures Unspent(Do(cfg, db, op).db, hash)
  {
    if op.fault != Early && Live(db, cfg.hash(op.token), op.now) {
      var row := ActiveToken(db, cfg.hash(op.token), op.now).value;
      RevokeKeeps(db, row, op.now);
      RevokeUnspent(db, row, op.now, hash);
      IssueUnspent(cfg, Revoke(db, row, op.now), db.tokens[row].user, op.next, op.fault, op.now, hash);
    }
  }

  /** A call leaves every token unspent but the one it spends. */
  lemma OthersStayUnspent(cfg: Config, db: Db, op: Op, hash: string)
    requires DbInv(db) && Unspent(db, hash)
    requires Spends(cfg, db, op) ==> cfg.hash(op.token) != hash
    ensures Unspent(Do(cfg, db, op).db, hash)
  {
    match op
    case Register(email, password, name, next, fault, now) =>
      if cfg.registrationEnabled && |password| >= MIN_PASSWORD_LEN && fault != Early && !EmailTaken(db, email) {
        CreateUserKeeps(db, email, password, name, |db.users| == 0);
        IssueUnspent(cfg, CreateUser(db, email, password, name, |db.users| == 0), db.nextUser, next, fault, now, hash);
      }
    case Login(email, password, next, fault, now) =>
      forall u | u in db.users ensures Unspent(Issue(cfg, db, u, next, fault, now).db, hash) {
        IssueUnspent(cfg, db, u, next, fault, now, hash);
      }
    case Refresh(_, _, _, _) => OthersSurviveRefresh(cfg, db, op, hash);
    case Logout(token, fault, now) =>
      if fault == NoFault && Live(db, cfg.hash(token), now) {
        RevokeUnspent(db, ActiveToken(db, cfg.hash(token), now).value, now, hash);
      }
  }

  /** The hash a call hands out was unused before and is unspent after. */
  lemma HandsOut(cfg: Config, db: Db, op: Op)
    requires DbInv(db) && !op.Logout? && Do(cfg, db, op).outcome.Issued?
    ensures Unspent(Do(cfg, db, op).db, cfg.hash(op.next)) && !HashTaken(db, cfg.hash(op.next))
  {
    match op
    case Register(email, password, name, next, fault, now) =>
      var mid := CreateUser(db, email, password, name, |db.users| == 0);
      IssuedUnspent(cfg, mid, db.nextUser, next, fault, now);
      assert mid.tokens == db.tokens;
    case Login(email, password, next, fault, now) =>
      forall u | u in db.users && Issue(cfg, db, u, next, fault, now).outcome.Issued?
        ensures Unspent(Issue(cfg, db, u, next, fault, now).db, cfg.hash(next))
      {
        IssuedUnspent(cfg, db, u, next, fault, now);
      }
    case Refresh(token, next, fault, now) =>
      RefreshSucceeds(cfg, db, op);
      var row := ActiveToken(db, cfg.hash(token), now).value;
      IssuedUnspent(cfg, Revoke(db, row, now), db.tokens[row].user, next, fault, now);
    case Logout(_, _, _) =>
  }

  // --- Every step keeps the browser safe ----------------------------------------------------------

  lemma HeldOnFile(cfg: Config, cl: Client, db: Db, hash: string)
    requires HoldsGood(cfg, cl, db) && hash in Mine(cfg, cl)
    ensures HashTaken(db, hash)
  {
  }

  /** Calls that spend none of the browser's tokens leave what it holds good. */
  lemma HoldsAfterCall(cfg: Config, cl: Client, db: Db, op: Op)
    requires DbInv(db) && HoldsGood(cfg, cl, db)
    requires Spends(cfg, db, op) ==> cfg.hash(op.token) !in Mine(cfg, cl)
    ensures HoldsGood(cfg, cl, Do(cfg, db, op).db)
  {
    var after := Do(cfg, db, op).db;
    CallKeeps(cfg, db, op);
    forall hash | hash in Mine(cfg, cl) && Unspent(db, hash) ensures Unspent(after, hash) {
      OthersStayUnspent(cfg, db, op, hash);
    }
    if Renewing(cl) {
      FrameRevoked(db, after, cfg.hash(InFlight(cl).value.token));
    }
  }

  lemma ArrivalsAfterCall(cfg: Config, cl: Client, db: Db, arriving: set<string>, op: Op)
    requires DbInv(db) && ArrivalsGood(cfg, cl, db, arriving)
    requires Spends(cfg, db, op) ==> forall t :: t in arriving ==> !SameTokenHash(cfg, t, op.token)
    ensures ArrivalsGood(cfg, cl, Do(cfg, db, op).db, arriving)
  {
    forall token | token in arriving ensures ArrivalOk(cfg, cl, Do(cfg, db, op).db, token) {
      assert ArrivalOk(cfg, cl, db, token);
      assert Spends(cfg, db, op) ==> !SameTokenHash(cfg, token, op.token);
      OthersStayUnspent(cfg, db, op, cfg.hash(token));
    }
  }

  lemma SafeParts(cfg: Config, cl: Client, db: Db, arriving: set<string>)
    requires DbInv(db) && SingleFlight(cl) && HoldsGood(cfg, cl, db) && ArrivalsGood(cfg, cl, db, arriving)
    ensures Safe(cfg, State(cl, db, arriving))
  {
  }

  lemma SignInParts(cfg: Config, s: State, op: Op)
    requires Safe(cfg, s) && (op.Login? || op.Register?)
    ensures var t := Do(cfg, s.db, op);
            Safe(cfg, State(s.client, t.db, if t.outcome.Issued? then s.arriving + {op.next} else s.arriving))
  {
    var t := Do(cfg, s.db, op);
    AfterCall(cfg, s, op);
    if t.outcome.Issued? {
      NewArrival(cfg, s, op);
      OneMoreArrival(cfg, s.client, t.db, s.arriving, op.next);
      SafeParts(cfg, s.client, t.db, s.arriving + {op.next});
    } else {
      SafeParts(cfg, s.client, t.db, s.arriving);
    }
  }

  lemma SignInSafe(cfg: Config, s: State, op: Op)
    requires Safe(cfg, s) && (op.Login? || op.Register?)
    ensures Safe(cfg, Apply(cfg, s, SignIn(op)))
  {
    SignInParts(cfg, s, op);
    SignInShape(cfg, s, op);
  }

  lemma SignInShape(cfg: Config, s: State, op: Op)
    requires op.Login? || op.Register?
    ensures var t := Do(cfg, s.db, op);
            Apply(cfg, s, SignIn(op)) == State(s.client, t.db, if t.outcome.Issued? then s.arriving + {op.next} else s.arriving)
  {
    assert s.arriving + {} == s.arriving;
  }

  lemma OneMoreArrival(cfg: Config, cl: Client, db: Db, arriving: set<string>, token: string)
    requires ArrivalsGood(cfg, cl, db, arriving) && ArrivalOk(cfg, cl, db, token)
    requires forall other :: other in arriving ==> !SameTokenHash(cfg, other, token)
    ensures ArrivalsGood(cfg, cl, db, arriving + {token})
  {
  }

  /** What a call that spends none of the browser's tokens leaves good. */
  lemma AfterCall(cfg: Config, s: State, op: Op)
    requires Safe(cfg, s) && Foreign(cfg, s, op)
    ensures var after := Do(cfg, s.db, op).db;
            DbInv(after) && HoldsGood(cfg, s.client, after) && ArrivalsGood(cfg, s.client, after, s.arriving)
  {
    CallKeeps(cfg, s.db, op);
    HoldsAfterCall(cfg, s.client, s.db, op);
    ArrivalsAfterCall(cfg, s.client, s.db, s.arriving, op);
  }

  /** A token handed out by a sign-in is unlike any the browser holds or awaits. */
  lemma NewArrival(cfg: Config, s: State, op: Op)
    requires Safe(cfg, s) && !op.Logout? && Do(cfg, s.db, op).outcome.Issued?
    ensures ArrivalOk(cfg, s.client, Do(cfg, s.db, op).db, op.next)
    ensures forall token :: token in s.arriving ==> !SameTokenHash(cfg, token, op.next)
  {
    HandsOut(cfg, s.db, op);
    var hash := cfg.hash(op.next);
    if hash in Mine(cfg, s.client) { HeldOnFile(cfg, s.client, s.db, hash); }
    forall token | token in s.arriving ensures !SameTokenHash(cfg, token, op.next) {
      assert ArrivalOk(cfg, s.client, s.db, token);
      UnspentIsTaken(s.db, cfg.hash(token));
    }
  }

  lemma ElsewhereSafe(cfg: Config, s: State, op: Op)
    requires Safe(cfg, s) && Foreign(cfg, s, op)
    ensures Safe(cfg, Apply(cfg, s, Elsewhere(op)))
  {
    AfterCall(cfg, s, op);
  }

  lemma SignedInSafe(cfg: Config, s: State, token: string, access: string)
    requires Safe(cfg, s) && token in s.arriving
    ensures Safe(cfg, Apply(cfg, s, SignedIn(token, access)))
  {
    var t := Apply(cfg, s, SignedIn(token, access));
    ClientStepKeeps(cfg, s, SignedIn(token, access));
    assert ArrivalOk(cfg, s.client, s.db, token);
    UnspentIsTaken(s.db, cfg.hash(token));
    forall other | other in t.arriving ensures ArrivalOk(cfg, t.client, t.db, other) {
      assert ArrivalOk(cfg, s.client, s.db, other);
      assert !SameTokenHash(cfg, other, token);
    }
  }

  /** A new refresh posts the stored token, which is unspent because none was under way. */
  lemma RefreshOnceSafe(cfg: Config, s: State)
    requires Safe(cfg, s)
    ensures var cl := RefreshOnce(s.client);
            HoldsGood(cfg, cl, s.db) && ArrivalsGood(cfg, cl, s.db, s.arriving)
  {
    var cl := RefreshOnce(s.client);
    assert Mine(cfg, cl) <= Mine(cfg, s.client);
    forall token | token in s.arriving ensures ArrivalOk(cfg, cl, s.db, token) {
      assert ArrivalOk(cfg, s.client, s.db, token);
    }
  }

  lemma SameHoldings(cfg: Config, cl: Client, after: Client, db: Db, arriving: set<string>)
    requires HoldsGood(cfg, cl, db) && ArrivalsGood(cfg, cl, db, arriving)
    requires after.storage == cl.storage && after.current == cl.current && after.refreshes == cl.refreshes
    ensures HoldsGood(cfg, after, db) && ArrivalsGood(cfg, after, db, arriving)
  {
    assert Mine(cfg, after) == Mine(cfg, cl);
    forall token | token in arriving ensures ArrivalOk(cfg, after, db, token) {
      assert ArrivalOk(cfg, cl, db, token);
    }
  }

  lemma CallStepSafe(cfg: Config, s: State, step: Step)
    requires Safe(cfg, s) && (step.Fetch? || step.Serve? || step.Drop?)
    ensures Safe(cfg, Apply(cfg, s, step))
  {
    ClientStepKeeps(cfg, s, step);
    SameHoldings(cfg, s.client, Apply(cfg, s, step).client, s.db, s.arriving);
  }

  /** Holding less, or the same under another name, is as good. */
  lemma FewerHoldings(cfg: Config, cl: Client, after: Client, db: Db, arriving: set<string>)
    requires Mine(cfg, after) <= Mine(cfg, cl) && ArrivalsGood(cfg, cl, db, arriving)
    ensures ArrivalsGood(cfg, after, db, arriving)
  {
    forall token | token in arriving ensures ArrivalOk(cfg, after, db, token) {
      assert ArrivalOk(cfg, cl, db, token);
    }
  }

  lemma ResumeHolds(cfg: Config, s: State, c: nat)
    requires HoldsGood(cfg, s.client, s.db)
    ensures var t := Apply(cfg, s, Resume(c));
            HoldsGood(cfg, t.client, s.db) && Mine(cfg, t.client) <= Mine(cfg, s.client) && t.db == s.db && t.arriving == s.arriving
  {
  }

  lemma ResumeSafe(cfg: Config, s: State, c: nat)
    requires Safe(cfg, s)
    ensures Safe(cfg, Apply(cfg, s, Resume(c)))
  {
    ClientStepKeeps(cfg, s, Resume(c));
    ResumeHolds(cfg, s, c);
    FewerHoldings(cfg, s.client, Apply(cfg, s, Resume(c)).client, s.db, s.arriving);
  }

  lemma FinallySafe(cfg: Config, s: State, p: nat)
    requires Safe(cfg, s)
    ensures Safe(cfg, Apply(cfg, s, Finally(p)))
  {
    ClientStepKeeps(cfg, s, Finally(p));
    if p in s.client.refreshes && s.client.refreshes[p].Settled? {
      assert RefreshOk(s.client, p);
    }
    FewerHoldings(cfg, s.client, Apply(cfg, s, Finally(p)).client, s.db, s.arriving);
  }

  lemma JoinSafe(cfg: Config, s: State, step: Step)
    requires Safe(cfg, s) && (step.Bootstrap? || step.Receive?)
    ensures Safe(cfg, Apply(cfg, s, step))
  {
    var after := Apply(cfg, s, step).client;
    ClientStepKeeps(cfg, s, step);
    RefreshOnceSafe(cfg, s);
    var joined := RefreshOnce(s.client);
    if after.storage == joined.storage && after.current == joined.current && after.refreshes == joined.refreshes {
      SameHoldings(cfg, joined, after, s.db, s.arriving);
    } else {
      SameHoldings(cfg, s.client, after, s.db, s.arriving);
    }
  }

  lemma ReceiveRefreshSafe(cfg: Config, s: State, p: nat)
    requires Safe(cfg, s) && p in s.client.refreshes && s.client.refreshes[p].Replied?
    ensures Safe(cfg, Apply(cfg, s, ReceiveRefresh(p)))
  {
    var t := Apply(cfg, s, ReceiveRefresh(p));
    ClientStepKeeps(cfg, s, ReceiveRefresh(p));
    assert RefreshOk(s.client, p);
    assert Mine(cfg, t.client) <= Mine(cfg, s.client);
    forall token | token in t.arriving ensures ArrivalOk(cfg, t.client, t.db, token) {
      assert ArrivalOk(cfg, s.client, s.db, token);
    }
  }

  /** What a granted refresh leaves on file. */
  lemma GrantLeaves(cfg: Config, db: Db, op: Op)
    requires DbInv(db) && op.Refresh? && Do(cfg, db, op).outcome.Issued?
    ensures var after := Do(cfg, db, op).db;
            DbInv(after) && Unspent(after, cfg.hash(op.next)) && RevokedHash(after, cfg.hash(op.token))
  {
    CallKeeps(cfg, db, op);
    HandsOut(cfg, db, op);
    RefreshSucceeds(cfg, db, op);
    SpendingRevokes(cfg, db, op);
  }

  /** A stored token other than the posted one is untouched by the refresh. */
  lemma StoredOtherKept(cfg: Config, s: State, op: Op)
    requires Safe(cfg, s) && op.Refresh? && IsPosting(s.client) && s.client.storage.Some?
    requires !Stored(cfg, s.client, op.token)
    ensures Unspent(Do(cfg, s.db, op).db, cfg.hash(s.client.storage.value))
  {
    OthersStayUnspent(cfg, s.db, op, cfg.hash(s.client.storage.value));
  }

  lemma RotationStored(cfg: Config, s: State, step: Step, op: Op)
    requires Safe(cfg, s) && step.ServeRefresh?
    requires step.refresh in s.client.refreshes && s.client.refreshes[step.refresh].Posting?
    requires op == Op.Refresh(s.client.refreshes[step.refresh].token, step.next, step.fault, step.now)
    ensures s.client.storage.Some? && !Stored(cfg, s.client, op.token) ==>
              Unspent(Do(cfg, s.db, op).db, cfg.hash(s.client.storage.value))
  {
    assert RefreshOk(s.client, step.refresh);
    if s.client.storage.Some? && !Stored(cfg, s.client, op.token) { StoredOtherKept(cfg, s, op); }
  }

  /** The refresh under way is now the one that was answered. */
  lemma RotationInFlight(cfg: Config, s: State, step: Step)
    requires SingleFlight(s.client) && step.ServeRefresh?
    requires step.refresh in s.client.refreshes && s.client.refreshes[step.refresh].Posting?
    requires Do(cfg, s.db, Op.Refresh(s.client.refreshes[step.refresh].token, step.next, step.fault, step.now)).outcome.Issued?
    ensures InFlight(Apply(cfg, s, step).client) ==
              Some(Replied(s.client.refreshes[step.refresh].token, Tokens(step.access, step.next)))
    ensures Apply(cfg, s, step).client.storage == s.client.storage
    ensures Apply(cfg, s, step).db ==
              Do(cfg, s.db, Op.Refresh(s.client.refreshes[step.refresh].token, step.next, step.fault, step.now)).db
  {
    assert RefreshOk(s.client, step.refresh);
  }

  lemma RotatedHolds(cfg: Config, cl: Client, db: Db, token: string, access: string, next: string)
    requires InFlight(cl) == Some(Replied(token, Tokens(access, next)))
    requires Unspent(db, cfg.hash(next)) && RevokedHash(db, cfg.hash(token))
    requires cl.storage.Some? && !Stored(cfg, cl, token) ==> Unspent(db, cfg.hash(cl.storage.value))
    ensures HoldsGood(cfg, cl, db)
  {
  }

  lemma RotationHolds(cfg: Config, s: State, step: Step)
    requires Safe(cfg, s) && step.ServeRefresh?
    requires step.refresh in s.client.refreshes && s.client.refreshes[step.refresh].Posting?
    requires Do(cfg, s.db, Op.Refresh(s.client.refreshes[step.refresh].token, step.next, step.fault, step.now)).outcome.Issued?
    ensures var t := Apply(cfg, s, step); DbInv(t.db) && HoldsGood(cfg, t.client, t.db)
  {
    var op := Op.Refresh(s.client.refreshes[step.refresh].token, step.next, step.fault, step.now);
    GrantLeaves(cfg, s.db, op);
    RotationStored(cfg, s, step, op);
    RotationInFlight(cfg, s, step);
    RotatedHolds(cfg, Apply(cfg, s, step).client, Do(cfg, s.db, op).db, op.token, step.access, step.next);
  }

  /** The posted token is spent, and from then on the answer on its way is what counts. */
  lemma RotationSafe(cfg: Config, s: State, step: Step)
    requires Safe(cfg, s) && step.ServeRefresh?
    requires step.refresh in s.client.refreshes && s.client.refreshes[step.refresh].Posting?
    requires Do(cfg, s.db, Op.Refresh(s.client.refreshes[step.refresh].token, step.next, step.fault, step.now)).outcome.Issued?
    ensures Safe(cfg, Apply(cfg, s, step))
  {
    ClientStepKeeps(cfg, s, step);
    RotationHolds(cfg, s, step);
    RotationArrivals(cfg, s, step);
  }

  /** A served refresh gives the browser at most the token it hands out. */
  lemma RotationMine(cfg: Config, s: State, step: Step)
    requires Safe(cfg, s) && step.ServeRefresh?
    requires step.refresh in s.client.refreshes && s.client.refreshes[step.refresh].Posting?
    ensures var op := Op.Refresh(s.client.refreshes[step.refresh].token, step.next, step.fault, step.now);
            Mine(cfg, Apply(cfg, s, step).client)
            <= Mine(cfg, s.client) + if Do(cfg, s.db, op).outcome.Issued? then {cfg.hash(step.next)} else {}
  {
    assert RefreshOk(s.client, step.refresh);
  }

  lemma RotationArrivals(cfg: Config, s: State, step: Step)
    requires Safe(cfg, s) && step.ServeRefresh?
    requires step.refresh in s.client.refreshes && s.client.refreshes[step.refresh].Posting?
    ensures var t := Apply(cfg, s, step); ArrivalsGood(cfg, t.client, t.db, t.arriving)
  {
    var op := Op.Refresh(s.client.refreshes[step.refresh].token, step.next, step.fault, step.now);
    var t := Apply(cfg, s, step);
    RotationMine(cfg, s, step);
    forall other | other in s.arriving ensures ArrivalOk(cfg, t.client, t.db, other) {
      RotationArrival(cfg, s, step, op, other);
    }
  }

  lemma RotationArrival(cfg: Config, s: State, step: Step, op: Op, other: string)
    requires Safe(cfg, s) && step.ServeRefresh? && other in s.arriving
    requires step.refresh in s.client.refreshes && s.client.refreshes[step.refresh].Posting?
    requires op == Op.Refresh(s.client.refreshes[step.refresh].token, step.next, step.fault, step.now)
    ensures Unspent(Do(cfg, s.db, op).db, cfg.hash(other)) && cfg.hash(other) !in Mine(cfg, s.client)
    ensures Do(cfg, s.db, op).outcome.Issued? ==> cfg.hash(other) != cfg.hash(step.next)
  {
    assert RefreshOk(s.client, step.refresh);
    assert ArrivalOk(cfg, s.client, s.db, other);
    UnspentIsTaken(s.db, cfg.hash(other));
    OthersStayUnspent(cfg, s.db, op, cfg.hash(other));
    RefreshSucceeds(cfg, s.db, op);
  }

  /** A refresh that neither issues nor is cut short changes nothing on the server. */
  lemma RefusalChangesNothing(cfg: Config, db: Db, op: Op)
    requires DbInv(db) && op.Refresh? && !Do(cfg, db, op).outcome.Issued?
    requires !CutShort(cfg, db, op.token, op.next, op.fault, op.now)
    ensures Do(cfg, db, op).db == db
  {
    RefreshSucceeds(cfg, db, op);
  }

  lemma RefusalHolds(cfg: Config, s: State, step: Step)
    requires Safe(cfg, s) && step.ServeRefresh? && !Breaks(cfg, s, step)
    requires step.refresh in s.client.refreshes && s.client.refreshes[step.refresh].Posting?
    requires !Do(cfg, s.db, Op.Refresh(s.client.refreshes[step.refresh].token, step.next, step.fault, step.now)).outcome.Issued?
    ensures var t := Apply(cfg, s, step); HoldsGood(cfg, t.client, t.db)
  {
    var token := s.client.refreshes[step.refresh].token;
    var op := Op.Refresh(token, step.next, step.fault, step.now);
    assert RefreshOk(s.client, step.refresh);
    if s.client.storage.Some? && !Stored(cfg, s.client, token) {
      StoredOtherKept(cfg, s, op);
    } else if s.client.storage.Some? {
      RefusalChangesNothing(cfg, s.db, op);
    }
    assert InFlight(Apply(cfg, s, step).client).value.Replied?;
  }

  /** A refusal costs the browser nothing, and so does a rotation cut short of a token it no longer stores. */
  lemma RefusalSafe(cfg: Config, s: State, step: Step)
    requires Safe(cfg, s) && step.ServeRefresh? && !Breaks(cfg, s, step)
    requires step.refresh in s.client.refreshes && s.client.refreshes[step.refresh].Posting?
    requires !Do(cfg, s.db, Op.Refresh(s.client.refreshes[step.refresh].token, step.next, step.fault, step.now)).outcome.Issued?
    ensures Safe(cfg, Apply(cfg, s, step))
  {
    ClientStepKeeps(cfg, s, step);
    CallKeeps(cfg, s.db, Op.Refresh(s.client.refreshes[step.refresh].token, step.next, step.fault, step.now));
    RefusalHolds(cfg, s, step);
    RotationArrivals(cfg, s, step);
  }

  /** A lost request, a lost refusal, and a lost answer for a token no longer stored cost nothing. */
  lemma LoseSafe(cfg: Config, s: State, p: nat)
    requires Safe(cfg, s) && !Breaks(cfg, s, LoseRefresh(p))
    requires p in s.client.refreshes && (s.client.refreshes[p].Posting? || s.client.refreshes[p].Replied?)
    ensures Safe(cfg, Apply(cfg, s, LoseRefresh(p)))
  {
    ClientStepKeeps(cfg, s, LoseRefresh(p));
    assert RefreshOk(s.client, p);
    var t := Apply(cfg, s, LoseRefresh(p));
    assert InFlight(t.client) == Some(Settled(Broken));
    FewerHoldings(cfg, s.client, t.client, s.db, s.arriving);
  }

  lemma StepSafe(cfg: Config, s: State, step: Step)
    requires Safe(cfg, s) && !Breaks(cfg, s, step)
    ensures Safe(cfg, Apply(cfg, s, step))
  {
    match step
    case Fetch(_) => CallStepSafe(cfg, s, step);
    case Serve(_, _) => CallStepSafe(cfg, s, step);
    case Drop(_) => CallStepSafe(cfg, s, step);
    case Bootstrap(_) => JoinSafe(cfg, s, step);
    case Receive(_) => JoinSafe(cfg, s, step);
    case ServeRefresh(p, access, next, fault, now) =>
      if p in s.client.refreshes && s.client.refreshes[p].Posting? {
        if Do(cfg, s.db, Op.Refresh(s.client.refreshes[p].token, next, fault, now)).outcome.Issued? {
          RotationSafe(cfg, s, step);
        } else {
          RefusalSafe(cfg, s, step);
        }
      }
    case ReceiveRefresh(p) => if p in s.client.refreshes && s.client.refreshes[p].Replied? { ReceiveRefreshSafe(cfg, s, p); }
    case Finally(p) => FinallySafe(cfg, s, p);
    case Resume(c) => ResumeSafe(cfg, s, c);
    case SignIn(op) => if op.Login? || op.Register? { SignInSafe(cfg, s, op); }
    case SignedIn(token, access) => if token in s.arriving { SignedInSafe(cfg, s, token, access); }
    case Elsewhere(op) => ElsewhereSafe(cfg, s, op);
    case LoseRefresh(p) =>
      if p in s.client.refreshes && (s.client.refreshes[p].Posting? || s.client.refreshes[p].Replied?) { LoseSafe(cfg, s, p); }
  }

  lemma {:induction false} RunSafe(cfg: Config, s: State, steps: seq<Step>)
    requires Safe(cfg, s) && CleanRun(cfg, s, steps)
    ensures Safe(cfg, SessionClient.Run(cfg, s, steps))
    decreases |steps|
  {
    if steps != [] {
      StepSafe(cfg, s, steps[0]);
      RunSafe(cfg, Apply(cfg, s, steps[0]), steps[1..]);
    }
  }

  /** A page that was just loaded, with the refresh token an earlier page left in storage. */
  function Loaded(storage: Option<string>, db: Db): State {
    State(FRESH_CLIENT.(storage := storage), db, {})
  }

  /**
   In every interleaving of any number of calls, failures, sign-ins and other sessions in which no step
   breaks the session: a refresh never carries a rotated token, and the stored token is unrevoked
   whenever no refresh is under way.
   */
  lemma NeverPresentsRotatedToken(cfg: Config, storage: Option<string>, db: Db, steps: seq<Step>)
    requires DbInv(db) && (storage.Some? ==> Unspent(db, cfg.hash(storage.value)))
    requires CleanRun(cfg, Loaded(storage, db), steps)
    ensures var t := SessionClient.Run(cfg, Loaded(storage, db), steps);
            && (forall p :: p in t.client.refreshes && t.client.refreshes[p].Posting? ==>
                  Unspent(t.db, cfg.hash(t.client.refreshes[p].token)))
            && (t.client.current == None && t.client.storage.Some? ==> Unspent(t.db, cfg.hash(t.client.storage.value)))
  {
    var s := Loaded(storage, db);
    assert Safe(cfg, s);
    RunSafe(cfg, s, steps);
    var t := SessionClient.Run(cfg, s, steps);
    forall p | p in t.client.refreshes && t.client.refreshes[p].Posting?
      ensures Unspent(t.db, cfg.hash(t.client.refreshes[p].token))
    {
      assert RefreshOk(t.client, p);
    }
  }

  /** An unrevoked row that has not expired is live. */
  lemma UnspentIsLive(db: Db, hash: string, now: int)
    requires Unspent(db, hash)
    requires forall t :: t in db.tokens && db.tokens[t].hash == hash ==> db.tokens[t].expiresAt > now
    ensures Live(db, hash, now)
  {
    var t :| t in db.tokens && db.tokens[t].hash == hash && db.tokens[t].revokedAt == None;
    assert IsActive(db, hash, t, now);
  }

  /** So before expiry the server grants every refresh the browser sends, unless it fails by itself. */
  lemma EveryRefreshIsGranted(cfg: Config, s: State, p: nat, next: string, now: int)
    requires Safe(cfg, s) && p in s.client.refreshes && s.client.refreshes[p].Posting? && !HashTaken(s.db, cfg.hash(next))
    requires forall t :: t in s.db.tokens && s.db.tokens[t].hash == cfg.hash(s.client.refreshes[p].token) ==>
               s.db.tokens[t].expiresAt > now
    ensures Do(cfg, s.db, Op.Refresh(s.client.refreshes[p].token, next, NoFault, now)).outcome.Issued?
  {
    var token := s.client.refreshes[p].token;
    assert RefreshOk(s.client, p);
    UnspentIsLive(s.db, cfg.hash(token), now);
    RefreshSucceeds(cfg, s.db, Op.Refresh(token, next, NoFault, now));
  }
}
