/**
 Register, Login, Refresh and Logout as atomic calls, and the accounting of
 refresh tokens over every run of them.
 */
module RefreshTokens {
  import opened Wrappers
  import opened AuthTables

  /** Hashing is a parameter; nothing below needs it to be injective, because hashes are unique on file. */
  datatype Config = Config(hash: string -> string, ttl: int, registrationEnabled: bool)

  const MIN_PASSWORD_LEN := 10

  /** Early: a call failed before anything was written.  Late: tokens could not be issued. */
  datatype Fault = NoFault | Early | Late

  /** next is the refresh token the generator would hand out. */
  datatype Op =
    | Register(email: string, password: string, displayName: string, next: string, fault: Fault, now: int)
    | Login(email: string, password: string, next: string, fault: Fault, now: int)
    | Refresh(token: string, next: string, fault: Fault, now: int)
    | Logout(token: string, fault: Fault, now: int)

  datatype AuthError = RegistrationDisabled | WeakPassword | EmailInUse | InvalidCredentials | Internal

  datatype Outcome = Issued(user: nat) | LoggedOut | Failed(error: AuthError)

  datatype Turn = Turn(db: Db, outcome: Outcome)

  /** issueTokens: every failure leaves no row behind. */
  function Issue(cfg: Config, db: Db, user: nat, next: string, fault: Fault, now: int): Turn {
    if fault == Late || HashTaken(db, cfg.hash(next)) then Turn(db, Failed(Internal))
    else Turn(CreateToken(db, user, cfg.hash(next), now + cfg.ttl), Issued(user))
  }

  function DoRegister(cfg: Config, db: Db, op: Op): Turn
    requires op.Register?
  {
    if !cfg.registrationEnabled then Turn(db, Failed(RegistrationDisabled))
    else if |op.password| < MIN_PASSWORD_LEN then Turn(db, Failed(WeakPassword))
    else if op.fault == Early then Turn(db, Failed(Internal))
    else if EmailTaken(db, op.email) then Turn(db, Failed(EmailInUse))
    else Issue(cfg, CreateUser(db, op.email, op.password, op.displayName, |db.users| == 0), db.nextUser, op.next, op.fault, op.now)
  }

  ghost function DoLogin(cfg: Config, db: Db, op: Op): Turn
    requires op.Login?
  {
    if op.fault == Early then Turn(db, Failed(Internal))
    else if !EmailTaken(db, op.email) then Turn(db, Failed(InvalidCredentials))
    else
      var u :| u in db.users && db.users[u].email == op.email;
      if db.users[u].password != op.password then Turn(db, Failed(InvalidCredentials))
      else Issue(cfg, db, u, op.next, op.fault, op.now)
  }

  /** The old token is revoked before the new one is issued. */
  ghost function DoRefresh(cfg: Config, db: Db, op: Op): Turn
    requires op.Refresh?
  {
    if op.fault == Early then Turn(db, Failed(Internal))
    else
      var found := ActiveToken(db, cfg.hash(op.token), op.now);
      if found == None then Turn(db, Failed(InvalidCredentials))
      else Issue(cfg, Revoke(db, found.value, op.now), db.tokens[found.value].user, op.next, op.fault, op.now)
  }

  ghost function DoLogout(cfg: Config, db: Db, op: Op): Turn
    requires op.Logout?
  {
    if op.fault != NoFault then Turn(db, Failed(Internal))
    else
      var found := ActiveToken(db, cfg.hash(op.token), op.now);
      if found == None then Turn(db, LoggedOut) else Turn(Revoke(db, found.value, op.now), LoggedOut)
  }

  ghost function Do(cfg: Config, db: Db, op: Op): Turn {
    match op
    case Register(_, _, _, _, _, _) => DoRegister(cfg, db, op)
    case Login(_, _, _, _, _) => DoLogin(cfg, db, op)
    case Refresh(_, _, _, _) => DoRefresh(cfg, db, op)
    case Logout(_, _, _) => DoLogout(cfg, db, op)
  }

  ghost function Run(cfg: Config, db: Db, ops: seq<Op>): Db
    decreases |ops|
  {
    if ops == [] then db else Run(cfg, Do(cfg, db, ops[0]).db, ops[1..])
  }

  // --- What a call may do to the token table ---------------------------------------------

  predicate RowKept(before: map<nat, Token>, after: map<nat, Token>, t: nat) {
    && t in before && t in after
    && after[t].(revokedAt := None) == before[t].(revokedAt := None)
    && (before[t].revokedAt.Some? ==> after[t].revokedAt == before[t].revokedAt)
  }

  /** Rows stay, keep their hash, expiry and user, and a set revoked_at is never cleared. */
  ghost predicate TokensFrame(before: map<nat, Token>, after: map<nat, Token>) {
    forall t :: t in before ==> RowKept(before, after, t)
  }

  /** The table stays sound and its unrevoked rows change by the given number. */
  ghost predicate Moves(before: Db, after: Db, change: int) {
    DbInv(after) && TokensFrame(before.tokens, after.tokens) && |Unrevoked(after)| == |Unrevoked(before)| + change
  }

  lemma NewHashUnique(tokens: map<nat, Token>, id: nat, row: Token)
    requires UniqueHashes(tokens) && id !in tokens
    requires forall t :: t in tokens ==> !SameHash(tokens[t], row)
    ensures UniqueHashes(tokens[id := row])
  {
    var after := tokens[id := row];
    forall t, r | t in after && r in after && SameHash(after[t], after[r]) ensures t == r {
      if t != id && r != id { assert SameHash(tokens[t], tokens[r]); }
    }
  }

  lemma CreateTokenKeeps(db: Db, user: nat, hash: string, expiresAt: int)
    requires DbInv(db) && user in db.users && !HashTaken(db, hash)
    ensures Moves(db, CreateToken(db, user, hash, expiresAt), 1)
  {
    var after := CreateToken(db, user, hash, expiresAt);
    assert forall t :: t in db.tokens ==> TokenOk(db.users, db.tokens, db.nextToken, t);
    NewHashUnique(db.tokens, db.nextToken, Token(user, hash, expiresAt, None));
    OneMoreUnrevoked(db, user, hash, expiresAt);
    assert TokensOk(after.users, after.tokens, after.nextToken);
  }

  lemma OneMoreUnrevoked(db: Db, user: nat, hash: string, expiresAt: int)
    requires !HashTaken(db, hash) && db.nextToken !in db.tokens
    ensures |Unrevoked(CreateToken(db, user, hash, expiresAt))| == |Unrevoked(db)| + 1
  {
    assert Unrevoked(CreateToken(db, user, hash, expiresAt)) == Unrevoked(db) + {db.nextToken};
  }

  function Net(spends: bool, outcome: Outcome): int {
    (if outcome.Issued? then 1 else 0) - (if spends then 1 else 0)
  }

  lemma IssueKeeps(cfg: Config, db: Db, user: nat, next: string, fault: Fault, now: int)
    requires DbInv(db) && user in db.users
    ensures var t := Issue(cfg, db, user, next, fault, now); Moves(db, t.db, Net(false, t.outcome))
  {
    var t := Issue(cfg, db, user, next, fault, now);
    if t.outcome.Issued? {
      IssuedMoves(cfg, db, user, next, fault, now);
    } else {
      RefusalMoves(db, t);
    }
  }

  lemma IssuedMoves(cfg: Config, db: Db, user: nat, next: string, fault: Fault, now: int)
    requires DbInv(db) && user in db.users && Issue(cfg, db, user, next, fault, now).outcome.Issued?
    ensures Moves(db, Issue(cfg, db, user, next, fault, now).db, 1)
  {
    assert Issue(cfg, db, user, next, fault, now).db == CreateToken(db, user, cfg.hash(next), now + cfg.ttl);
    CreateTokenKeeps(db, user, cfg.hash(next), now + cfg.ttl);
  }

  lemma RefusalMoves(db: Db, t: Turn)
    requires DbInv(db) && t.db == db && !t.outcome.Issued?
    ensures Moves(db, t.db, Net(false, t.outcome))
  {
  }

  lemma OneLessUnrevoked(db: Db, t: nat, now: int)
    requires t in db.tokens && db.tokens[t].revokedAt == None
    ensures |Unrevoked(Revoke(db, t, now))| == |Unrevoked(db)| - 1
  {
    assert Unrevoked(Revoke(db, t, now)) == Unrevoked(db) - {t};
  }

  lemma RevokeKeeps(db: Db, t: nat, now: int)
    requires DbInv(db) && t in db.tokens && db.tokens[t].revokedAt == None
    ensures Moves(db, Revoke(db, t, now), -1)
  {
    var after := Revoke(db, t, now);
    OneLessUnrevoked(db, t, now);
    forall r, q | r in after.tokens && q in after.tokens && SameHash(after.tokens[r], after.tokens[q]) ensures r == q {
      assert SameHash(db.tokens[r], db.tokens[q]);
    }
    forall r | r in after.tokens ensures TokenOk(after.users, after.tokens, after.nextToken, r) {
      assert TokenOk(db.users, db.tokens, db.nextToken, r);
    }
  }

  lemma CreateUserKeeps(db: Db, email: string, password: string, displayName: string, isAdmin: bool)
    requires DbInv(db) && !EmailTaken(db, email)
    ensures var after := CreateUser(db, email, password, displayName, isAdmin);
            DbInv(after) && after.tokens == db.tokens && db.nextUser in after.users
  {
    var after := CreateUser(db, email, password, displayName, isAdmin);
    forall t | t in after.tokens ensures TokenOk(after.users, after.tokens, after.nextToken, t) {
      assert TokenOk(db.users, db.tokens, db.nextToken, t);
    }
    forall u | u in after.users ensures UserOk(after.users, after.nextUser, u) {
      assert u != db.nextUser ==> UserOk(db.users, db.nextUser, u);
    }
    forall u, v | u in after.users && v in after.users && SameEmail(after.users[u], after.users[v]) ensures u == v {
      if u != db.nextUser && v != db.nextUser { assert SameEmail(db.users[u], db.users[v]); }
    }
  }

  lemma MovesCompose(a: Db, b: Db, c: Db, m: int, n: int)
    requires Moves(a, b, m) && Moves(b, c, n)
    ensures Moves(a, c, m + n)
  {
    forall t | t in a.tokens ensures RowKept(a.tokens, c.tokens, t) {
      assert RowKept(a.tokens, b.tokens, t) && RowKept(b.tokens, c.tokens, t);
    }
  }

  /** Whether the call took an active token out of circulation. */
  ghost predicate Spends(cfg: Config, db: Db, op: Op) {
    match op
    case Refresh(token, _, fault, now) => fault != Early && Live(db, cfg.hash(token), now)
    case Logout(token, fault, now) => fault == NoFault && Live(db, cfg.hash(token), now)
    case _ => false
  }

  lemma RegisterKeeps(cfg: Config, db: Db, op: Op)
    requires DbInv(db) && op.Register?
    ensures var t := Do(cfg, db, op); Moves(db, t.db, Net(false, t.outcome))
  {
    if cfg.registrationEnabled && |op.password| >= MIN_PASSWORD_LEN && op.fault != Early && !EmailTaken(db, op.email) {
      CreateUserKeeps(db, op.email, op.password, op.displayName, |db.users| == 0);
      var mid := CreateUser(db, op.email, op.password, op.displayName, |db.users| == 0);
      assert Unrevoked(mid) == Unrevoked(db);
      IssueKeeps(cfg, mid, db.nextUser, op.next, op.fault, op.now);
    }
  }

  lemma LoginKeeps(cfg: Config, db: Db, op: Op)
    requires DbInv(db) && op.Login?
    ensures var t := Do(cfg, db, op); Moves(db, t.db, Net(false, t.outcome))
  {
    if op.fault != Early && EmailTaken(db, op.email) {
      var u :| u in db.users && db.users[u].email == op.email;
      assert forall v :: v in db.users && db.users[v].email == op.email ==> SameEmail(db.users[u], db.users[v]);
      IssueKeeps(cfg, db, u, op.next, op.fault, op.now);
    }
  }

  lemma RefreshKeeps(cfg: Config, db: Db, op: Op)
    requires DbInv(db) && op.Refresh?
    ensures var t := Do(cfg, db, op); Moves(db, t.db, Net(Spends(cfg, db, op), t.outcome))
  {
    var hash := cfg.hash(op.token);
    if op.fault != Early && Live(db, hash, op.now) {
      var t := ActiveToken(db, hash, op.now).value;
      var mid := Revoke(db, t, op.now);
      RevokeKeeps(db, t, op.now);
      assert TokenOk(db.users, db.tokens, db.nextToken, t);
      IssueKeeps(cfg, mid, db.tokens[t].user, op.next, op.fault, op.now);
      var last := Issue(cfg, mid, db.tokens[t].user, op.next, op.fault, op.now);
      MovesCompose(db, mid, last.db, -1, if last.outcome.Issued? then 1 else 0);
    }
  }

  /** Each call keeps the table sound and changes the number of unrevoked rows by what it issued less what it spent. */
  lemma CallKeeps(cfg: Config, db: Db, op: Op)
    requires DbInv(db)
    ensures var t := Do(cfg, db, op); Moves(db, t.db, Net(Spends(cfg, db, op), t.outcome))
  {
    match op
    case Register(_, _, _, _, _, _) => RegisterKeeps(cfg, db, op);
    case Login(_, _, _, _, _) => LoginKeeps(cfg, db, op);
    case Refresh(_, _, _, _) => RefreshKeeps(cfg, db, op);
    case Logout(token, fault, now) =>
      if fault == NoFault && Live(db, cfg.hash(token), now) {
        RevokeKeeps(db, ActiveToken(db, cfg.hash(token), now).value, now);
      }
  }

  // --- Conservation ----------------------------------------------------------------------

  datatype Tally = Tally(registrations: nat, logins: nat, logouts: nat, halfRefreshes: nat)

  /** Successful registrations and logins, effective logouts, refreshes that died after revoking. */
  ghost function Count(cfg: Config, db: Db, ops: seq<Op>): Tally
    decreases |ops|
  {
    if ops == [] then Tally(0, 0, 0, 0)
    else
      var op, turn := ops[0], Do(cfg, db, ops[0]);
      var rest := Count(cfg, turn.db, ops[1..]);
      if op.Register? && turn.outcome.Issued? then rest.(registrations := rest.registrations + 1)
      else if op.Login? && turn.outcome.Issued? then rest.(logins := rest.logins + 1)
      else if op.Logout? && Spends(cfg, db, op) then rest.(logouts := rest.logouts + 1)
      else if op.Refresh? && Spends(cfg, db, op) && !turn.outcome.Issued? then rest.(halfRefreshes := rest.halfRefreshes + 1)
      else rest
  }

  function Balance(c: Tally): int {
    c.registrations + c.logins - c.logouts - c.halfRefreshes
  }

  lemma CountStep(cfg: Config, db: Db, ops: seq<Op>)
    requires ops != []
    ensures var t := Do(cfg, db, ops[0]);
            Balance(Count(cfg, db, ops)) == Balance(Count(cfg, t.db, ops[1..])) + Net(Spends(cfg, db, ops[0]), t.outcome)
  {
    var op := ops[0];
    assert op.Logout? ==> !Do(cfg, db, op).outcome.Issued?;
    assert op.Refresh? && Do(cfg, db, op).outcome.Issued? ==> Spends(cfg, db, op);
  }

  lemma {:induction false} RunKeeps(cfg: Config, db: Db, ops: seq<Op>)
    requires DbInv(db)
    ensures Moves(db, Run(cfg, db, ops), Balance(Count(cfg, db, ops)))
    decreases |ops|, 1
  {
    if ops == [] {
      assert Moves(db, db, 0);
    } else {
      RunStep(cfg, db, ops);
    }
  }

  lemma {:induction false} RunStep(cfg: Config, db: Db, ops: seq<Op>)
    requires DbInv(db) && ops != []
    ensures Moves(db, Run(cfg, db, ops), Balance(Count(cfg, db, ops)))
    decreases |ops|, 0
  {
    var t := Do(cfg, db, ops[0]);
    CallKeeps(cfg, db, ops[0]);
    CountStep(cfg, db, ops);
    var n := Balance(Count(cfg, t.db, ops[1..]));
    RunKeeps(cfg, t.db, ops[1..]);
    MovesCompose(db, t.db, Run(cfg, t.db, ops[1..]), Net(Spends(cfg, db, ops[0]), t.outcome), n);
  }

  /** Unrevoked tokens are registrations plus logins, less effective logouts and refreshes that failed after revoking. */
  lemma Conservation(cfg: Config, ops: seq<Op>)
    ensures var c := Count(cfg, EMPTY_DB, ops);
            |Unrevoked(Run(cfg, EMPTY_DB, ops))| == c.registrations + c.logins - c.logouts - c.halfRefreshes
  {
    RunKeeps(cfg, EMPTY_DB, ops);
  }

  // --- Once only ---------------------------------------------------------------------------

  /** How often the token with this hash was accepted. */
  ghost function Uses(cfg: Config, db: Db, ops: seq<Op>, hash: string): nat
    decreases |ops|
  {
    if ops == [] then 0
    else (if (ops[0].Refresh? || ops[0].Logout?) && cfg.hash(ops[0].token) == hash && Spends(cfg, db, ops[0]) then 1 else 0)
         + Uses(cfg, Do(cfg, db, ops[0]).db, ops[1..], hash)
  }

  /** A row that is on file but not active. */
  predicate Dead(db: Db, hash: string, now: int) {
    HashTaken(db, hash) && !Live(db, hash, now)
  }

  predicate RevokedHash(db: Db, hash: string) {
    exists t :: t in db.tokens && db.tokens[t].hash == hash && db.tokens[t].revokedAt.Some?
  }

  lemma RevokedIsDead(db: Db, hash: string, now: int)
    requires DbInv(db) && RevokedHash(db, hash)
    ensures Dead(db, hash, now)
  {
    var t :| t in db.tokens && db.tokens[t].hash == hash && db.tokens[t].revokedAt.Some?;
    forall o | o in db.tokens && IsActive(db, hash, o, now) ensures false {
      assert SameHash(db.tokens[o], db.tokens[t]);
    }
  }

  lemma SpendingRevokes(cfg: Config, db: Db, op: Op)
    requires DbInv(db) && Spends(cfg, db, op)
    ensures RevokedHash(Do(cfg, db, op).db, cfg.hash(op.token))
  {
    var hash := cfg.hash(op.token);
    var t := ActiveToken(db, hash, op.now).value;
    var mid := Revoke(db, t, op.now);
    RevokeKeeps(db, t, op.now);
    assert mid.tokens[t].hash == hash && mid.tokens[t].revokedAt.Some?;
    assert RevokedHash(mid, hash);
    if op.Refresh? {
      assert TokenOk(db.users, db.tokens, db.nextToken, t);
      IssueKeeps(cfg, mid, db.tokens[t].user, op.next, op.fault, op.now);
      FrameRevoked(mid, Do(cfg, db, op).db, hash);
    }
  }

  lemma FrameRevoked(before: Db, after: Db, hash: string)
    requires TokensFrame(before.tokens, after.tokens) && RevokedHash(before, hash)
    ensures RevokedHash(after, hash)
  {
    var t :| t in before.tokens && before.tokens[t].hash == hash && before.tokens[t].revokedAt.Some?;
    assert RowKept(before.tokens, after.tokens, t);
    assert t in after.tokens && after.tokens[t].hash == hash && after.tokens[t].revokedAt.Some?;
  }

  lemma HashStaysTaken(before: Db, after: Db, hash: string)
    requires TokensFrame(before.tokens, after.tokens) && HashTaken(before, hash)
    ensures HashTaken(after, hash)
  {
    var t :| t in before.tokens && before.tokens[t].hash == hash;
    assert RowKept(before.tokens, after.tokens, t);
    assert t in after.tokens && after.tokens[t].hash == hash;
  }

  lemma {:induction false} RevokedIsUseless(cfg: Config, db: Db, ops: seq<Op>, hash: string)
    requires DbInv(db) && RevokedHash(db, hash)
    ensures Uses(cfg, db, ops, hash) == 0
    decreases |ops|
  {
    if ops != [] {
      if ops[0].Refresh? || ops[0].Logout? { RevokedIsDead(db, hash, ops[0].now); }
      var next := Do(cfg, db, ops[0]).db;
      CallKeeps(cfg, db, ops[0]);
      FrameRevoked(db, next, hash);
      RevokedIsUseless(cfg, next, ops[1..], hash);
    }
  }

  /** Over any run, a token is accepted at most once, by a refresh or by a logout. */
  lemma {:induction false} AcceptedAtMostOnce(cfg: Config, db: Db, ops: seq<Op>, hash: string)
    requires DbInv(db)
    ensures Uses(cfg, db, ops, hash) <= 1
    decreases |ops|
  {
    if ops != [] {
      var next := Do(cfg, db, ops[0]).db;
      CallKeeps(cfg, db, ops[0]);
      if (ops[0].Refresh? || ops[0].Logout?) && cfg.hash(ops[0].token) == hash && Spends(cfg, db, ops[0]) {
        SpendingRevokes(cfg, db, ops[0]);
        RevokedIsUseless(cfg, next, ops[1..], hash);
      } else {
        AcceptedAtMostOnce(cfg, next, ops[1..], hash);
      }
    }
  }

  /** Once dead, revoked or expired, a token stays dead through every run as time goes on. */
  lemma DeadStaysDead(cfg: Config, db: Db, ops: seq<Op>, hash: string, now: int, later: int)
    requires DbInv(db) && Dead(db, hash, now) && now <= later
    ensures Dead(Run(cfg, db, ops), hash, later)
  {
    var after := Run(cfg, db, ops);
    RunKeeps(cfg, db, ops);
    var t :| t in db.tokens && db.tokens[t].hash == hash;
    assert RowKept(db.tokens, after.tokens, t);
    assert !IsActive(db, hash, t, now);
    forall o | o in after.tokens && IsActive(after, hash, o, later) ensures false {
      assert SameHash(after.tokens[o], after.tokens[t]);
    }
  }

  /** A refresh succeeds exactly when its token is live, the successor's hash is unused and nothing fails. */
  lemma RefreshSucceeds(cfg: Config, db: Db, op: Op)
    requires DbInv(db) && op.Refresh?
    ensures Do(cfg, db, op).outcome.Issued? <==>
              op.fault == NoFault && Live(db, cfg.hash(op.token), op.now) && !HashTaken(db, cfg.hash(op.next))
  {
    var hash := cfg.hash(op.token);
    if op.fault != Early && Live(db, hash, op.now) {
      var t := ActiveToken(db, hash, op.now).value;
      var mid := Revoke(db, t, op.now);
      assert forall o :: o in mid.tokens <==> o in db.tokens;
      assert forall o :: o in db.tokens ==> mid.tokens[o].hash == db.tokens[o].hash;
      assert HashTaken(mid, cfg.hash(op.next)) <==> HashTaken(db, cfg.hash(op.next));
    }
  }

  /** A successful refresh leaves the old token dead and, with a positive lifetime, the new one live. */
  lemma RotationHandsOver(cfg: Config, db: Db, op: Op)
    requires DbInv(db) && op.Refresh? && Do(cfg, db, op).outcome.Issued?
    ensures Dead(Do(cfg, db, op).db, cfg.hash(op.token), op.now)
    ensures cfg.ttl > 0 ==> Live(Do(cfg, db, op).db, cfg.hash(op.next), op.now)
  {
    var after := Do(cfg, db, op).db;
    var hash := cfg.hash(op.token);
    CallKeeps(cfg, db, op);
    SpendingRevokes(cfg, db, op);
    RevokedIsDead(after, hash, op.now);
    assert cfg.ttl > 0 ==> IsActive(after, cfg.hash(op.next), db.nextToken, op.now);
  }
}
