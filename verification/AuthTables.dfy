/**
 Accounts and refresh tokens, and the statements the auth store sends.
 Password hashing is left abstract: a stored hash verifies exactly one password.
 */
module AuthTables {
  import opened Wrappers

  datatype User = User(email: string, password: string, displayName: string, isAdmin: bool)

  datatype Token = Token(user: nat, hash: string, expiresAt: int, revokedAt: Option<int>)

  datatype Db = Db(users: map<nat, User>, tokens: map<nat, Token>, nextUser: nat, nextToken: nat)

  const EMPTY_DB := Db(map[], map[], 0, 0)

  predicate EmailTaken(db: Db, email: string) {
    exists u :: u in db.users && db.users[u].email == email
  }

  predicate HashTaken(db: Db, hash: string) {
    exists t :: t in db.tokens && db.tokens[t].hash == hash
  }

  predicate SameHash(a: Token, b: Token) {
    a.hash == b.hash
  }

  predicate SameEmail(a: User, b: User) {
    a.email == b.email
  }

  predicate UserOk(users: map<nat, User>, next: nat, u: nat) {
    u in users && u < next
  }

  predicate TokenOk(users: map<nat, User>, tokens: map<nat, Token>, next: nat, t: nat) {
    t in tokens && t < next && tokens[t].user in users
  }

  ghost predicate UsersOk(users: map<nat, User>, next: nat) {
    && (forall u :: u in users ==> UserOk(users, next, u))
    && (forall u, v :: u in users && v in users && SameEmail(users[u], users[v]) ==> u == v)
  }

  ghost predicate TokensOk(users: map<nat, User>, tokens: map<nat, Token>, next: nat) {
    forall t :: t in tokens ==> TokenOk(users, tokens, next, t)
  }

  /** UNIQUE (token_hash). */
  ghost predicate UniqueHashes(tokens: map<nat, Token>) {
    forall t, r :: t in tokens && r in tokens && SameHash(tokens[t], tokens[r]) ==> t == r
  }

  /** Keys are below the counters, emails and hashes are unique, and tokens have their user. */
  ghost predicate DbInv(db: Db) {
    && UsersOk(db.users, db.nextUser)
    && TokensOk(db.users, db.tokens, db.nextToken)
    && UniqueHashes(db.tokens)
  }

  function CreateUser(db: Db, email: string, password: string, displayName: string, isAdmin: bool): Db {
    if EmailTaken(db, email) then db
    else db.(users := db.users[db.nextUser := User(email, password, displayName, isAdmin)], nextUser := db.nextUser + 1)
  }

  /** A hash already on file violates UNIQUE and inserts nothing. */
  function CreateToken(db: Db, user: nat, hash: string, expiresAt: int): Db {
    if HashTaken(db, hash) then db
    else db.(tokens := db.tokens[db.nextToken := Token(user, hash, expiresAt, None)], nextToken := db.nextToken + 1)
  }

  predicate Active(t: Token, now: int) {
    t.revokedAt == None && t.expiresAt > now
  }

  predicate IsActive(db: Db, hash: string, t: nat, now: int) {
    t in db.tokens && db.tokens[t].hash == hash && Active(db.tokens[t], now)
  }

  predicate Live(db: Db, hash: string, now: int) {
    exists t :: t in db.tokens && IsActive(db, hash, t, now)
  }

  /** FindActiveRefreshToken. */
  ghost function ActiveToken(db: Db, hash: string, now: int): (r: Option<nat>)
    ensures r.Some? <==> Live(db, hash, now)
    ensures r.Some? ==> IsActive(db, hash, r.value, now)
  {
    if Live(db, hash, now) then
      var t :| t in db.tokens && IsActive(db, hash, t, now);
      Some(t)
    else None
  }

  /** UPDATE .. WHERE id = $1 AND revoked_at IS NULL: a revoked row keeps its time. */
  function Revoke(db: Db, t: nat, now: int): Db {
    if t in db.tokens && db.tokens[t].revokedAt == None
    then db.(tokens := db.tokens[t := db.tokens[t].(revokedAt := Some(now))])
    else db
  }

  /** Rows whose revoked_at is null, expired or not. */
  function Unrevoked(db: Db): set<nat> {
    set t | t in db.tokens && db.tokens[t].revokedAt == None
  }

  class AuthStore {
    var users: map<nat, User>
    var tokens: map<nat, Token>
    var nextUser: nat
    var nextToken: nat

    constructor ()
      ensures View() == EMPTY_DB
    {
      users, tokens, nextUser, nextToken := map[], map[], 0, 0;
    }

    function View(): Db
      reads this
    {
      Db(users, tokens, nextUser, nextToken)
    }

    method AddUser(email: string, password: string, displayName: string, isAdmin: bool) returns (r: Option<nat>)
      modifies this
      ensures View() == CreateUser(old(View()), email, password, displayName, isAdmin)
      ensures r == if EmailTaken(old(View()), email) then None else Some(old(nextUser))
    {
      if exists u :: u in users && users[u].email == email {
        return None;
      }
      users := users[nextUser := User(email, password, displayName, isAdmin)];
      r := Some(nextUser);
      nextUser := nextUser + 1;
    }

    method GetUserByEmail(email: string) returns (r: Option<nat>)
      ensures r.Some? <==> EmailTaken(View(), email)
      ensures r.Some? ==> r.value in users && users[r.value].email == email
    {
      if exists u :: u in users && users[u].email == email {
        var u :| u in users && users[u].email == email;
        return Some(u);
      }
      r := None;
    }

    method CreateRefreshToken(user: nat, hash: string, expiresAt: int) returns (ok: bool)
      modifies this`tokens, this`nextToken
      ensures View() == CreateToken(old(View()), user, hash, expiresAt)
      ensures ok <==> !HashTaken(old(View()), hash)
    {
      if exists t :: t in tokens && tokens[t].hash == hash {
        return false;
      }
      tokens := tokens[nextToken := Token(user, hash, expiresAt, None)];
      nextToken := nextToken + 1;
      ok := true;
    }

    method FindActiveRefreshToken(hash: string, now: int) returns (r: Option<nat>)
      requires DbInv(View())
      ensures r == ActiveToken(View(), hash, now)
    {
      if exists t :: t in tokens && IsActive(View(), hash, t, now) {
        var t :| t in tokens && IsActive(View(), hash, t, now);
        assert forall o :: o in tokens && IsActive(View(), hash, o, now) ==> SameHash(tokens[o], tokens[t]);
        return Some(t);
      }
      r := None;
    }

    method RevokeRefreshToken(t: nat, now: int)
      modifies this`tokens
      ensures View() == Revoke(old(View()), t, now)
    {
      if t in tokens && tokens[t].revokedAt == None {
        tokens := tokens[t := tokens[t].(revokedAt := Some(now))];
      }
    }
  }
}
