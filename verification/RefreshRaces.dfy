/**
 Refresh cut into its round trips: lookup, revoke and insert may interleave with
 any number of other calls.
 */
module RefreshRaces {
  import opened Wrappers
  import opened AuthTables
  import opened RefreshTokens

  /** Where a call of Refresh stands; row is the id its lookup returned. */
  datatype Call =
    | Finding(token: string, next: string)
    | Revoking(token: string, next: string, row: nat)
    | Issuing(token: string, next: string, row: nat)
    | Accepted(token: string, next: string)
    | Rejected

  datatype State = State(db: Db, calls: map<nat, Call>)

  /** Other is any whole call by anybody: a login, a logout, another device. */
  datatype Step = Begin(call: nat, token: string, next: string) | Next(call: nat, now: int) | Fail(call: nat) | Other(op: Op)

  function Goto(s: State, c: nat, call: Call): State {
    s.(calls := s.calls[c := call])
  }

  ghost function Advance(cfg: Config, s: State, c: nat, now: int): State
    requires c in s.calls
  {
    match s.calls[c]
    case Finding(token, next) =>
      var row := ActiveToken(s.db, cfg.hash(token), now);
      if row.Some? then Goto(s, c, Revoking(token, next, row.value)) else Goto(s, c, Rejected)
    case Revoking(token, next, row) => Goto(s.(db := Revoke(s.db, row, now)), c, Issuing(token, next, row))
    case Issuing(token, next, row) =>
      if HashTaken(s.db, cfg.hash(next)) || row !in s.db.tokens then Goto(s, c, Rejected)
      else Goto(s.(db := CreateToken(s.db, s.db.tokens[row].user, cfg.hash(next), now + cfg.ttl)), c, Accepted(token, next))
    case _ => s
  }

  ghost function Apply(cfg: Config, s: State, step: Step): State {
    match step
    case Begin(c, token, next) => if c in s.calls then s else Goto(s, c, Finding(token, next))
    case Next(c, now) => if c in s.calls then Advance(cfg, s, c, now) else s
    case Fail(c) => if c in s.calls && !s.calls[c].Accepted? then Goto(s, c, Rejected) else s
    case Other(op) => s.(db := Do(cfg, s.db, op).db)
  }

  ghost function Run(cfg: Config, s: State, steps: seq<Step>): State
    decreases |steps|
  {
    if steps == [] then s else Run(cfg, Apply(cfg, s, steps[0]), steps[1..])
  }

  // --- What a step keeps -------------------------------------------------------------------

  ghost predicate Later(before: Db, after: Db) {
    DbInv(after) && TokensFrame(before.tokens, after.tokens)
  }

  lemma Unchanged(db: Db)
    requires DbInv(db)
    ensures Later(db, db)
  {
  }

  lemma RevokingKeeps(cfg: Config, s: State, c: nat, now: int)
    requires DbInv(s.db) && c in s.calls && s.calls[c].Revoking?
    ensures Later(s.db, Advance(cfg, s, c, now).db)
  {
    var row := s.calls[c].row;
    if row in s.db.tokens && s.db.tokens[row].revokedAt == None {
      RevokeKeeps(s.db, row, now);
    } else {
      Unchanged(s.db);
    }
  }

  lemma IssuingKeeps(cfg: Config, s: State, c: nat, now: int)
    requires DbInv(s.db) && c in s.calls && s.calls[c].Issuing?
    ensures Later(s.db, Advance(cfg, s, c, now).db)
  {
    var next, row := s.calls[c].next, s.calls[c].row;
    if !HashTaken(s.db, cfg.hash(next)) && row in s.db.tokens {
      IssuedLater(s.db, row, cfg.hash(next), now + cfg.ttl);
    } else {
      Unchanged(s.db);
    }
  }

  lemma IssuedLater(db: Db, row: nat, hash: string, expiresAt: int)
    requires DbInv(db) && row in db.tokens && !HashTaken(db, hash)
    ensures Later(db, CreateToken(db, db.tokens[row].user, hash, expiresAt))
  {
    assert TokenOk(db.users, db.tokens, db.nextToken, row);
    CreateTokenKeeps(db, db.tokens[row].user, hash, expiresAt);
  }

  lemma AdvanceKeeps(cfg: Config, s: State, c: nat, now: int)
    requires DbInv(s.db) && c in s.calls
    ensures Later(s.db, Advance(cfg, s, c, now).db)
  {
    match s.calls[c]
    case Revoking(_, _, _) => RevokingKeeps(cfg, s, c, now);
    case Issuing(_, _, _) => IssuingKeeps(cfg, s, c, now);
    case _ => Unchanged(s.db);
  }

  lemma StepKeeps(cfg: Config, s: State, step: Step)
    requires DbInv(s.db)
    ensures Later(s.db, Apply(cfg, s, step).db)
  {
    match step
    case Next(c, now) => if c in s.calls { AdvanceKeeps(cfg, s, c, now); } else { Unchanged(s.db); }
    case Other(op) => CallKeeps(cfg, s.db, op);
    case _ => Unchanged(s.db);
  }

  lemma {:induction false} Append(cfg: Config, s: State, first: seq<Step>, second: seq<Step>)
    ensures Run(cfg, s, first + second) == Run(cfg, Run(cfg, s, first), second)
    decreases |first|
  {
    if first == [] {
      assert first + second == second;
    } else {
      Append(cfg, Apply(cfg, s, first[0]), first[1..], second);
      assert (first + second)[1..] == first[1..] + second;
    }
  }

  lemma OneStep(cfg: Config, s: State, step: Step)
    ensures Run(cfg, s, [step]) == Apply(cfg, s, step)
  {
    assert Run(cfg, Apply(cfg, s, step), []) == Apply(cfg, s, step);
  }

  // --- Lookups after the revoke --------------------------------------------------------------

  predicate AcceptedIn(s: State, c: nat) {
    c in s.calls && s.calls[c].Accepted?
  }

  /** The call has yet to look its token up, or was turned away. */
  predicate Outside(s: State, c: nat, token: string, next: string) {
    c in s.calls && (s.calls[c] == Finding(token, next) || s.calls[c] == Rejected)
  }

  lemma StaysOutside(cfg: Config, s: State, step: Step, c: nat, token: string, next: string)
    requires DbInv(s.db) && RevokedHash(s.db, cfg.hash(token)) && Outside(s, c, token, next)
    ensures Outside(Apply(cfg, s, step), c, token, next)
  {
    if step.Next? { RevokedIsDead(s.db, cfg.hash(token), step.now); }
  }

  /** No call whose lookup comes after the revoke is ever accepted, however its steps mix with others. */
  lemma {:induction false} LookupAfterRevokeFails(cfg: Config, s: State, steps: seq<Step>, c: nat, token: string, next: string)
    requires DbInv(s.db) && RevokedHash(s.db, cfg.hash(token)) && Outside(s, c, token, next)
    ensures !AcceptedIn(Run(cfg, s, steps), c)
    decreases |steps|
  {
    if steps != [] {
      var t := Apply(cfg, s, steps[0]);
      StepKeeps(cfg, s, steps[0]);
      FrameRevoked(s.db, t.db, cfg.hash(token));
      StaysOutside(cfg, s, steps[0], c, token, next);
      LookupAfterRevokeFails(cfg, t, steps[1..], c, token, next);
    }
  }

  /** The call holds the row it looked up. */
  predicate Inside(s: State, c: nat, token: string, next: string) {
    c in s.calls && s.calls[c].Revoking? && s.calls[c].token == token && s.calls[c].next == next && s.calls[c].row in s.db.tokens
  }

  /** The call is on its way to hand out next, or was turned away. */
  predicate Headed(s: State, c: nat, next: string) {
    c in s.calls && !s.calls[c].Accepted? && (s.calls[c] != Rejected ==> s.calls[c].next == next)
  }

  lemma StaysHeaded(cfg: Config, s: State, step: Step, c: nat, next: string)
    requires HashTaken(s.db, cfg.hash(next)) && Headed(s, c, next)
    ensures Headed(Apply(cfg, s, step), c, next)
  {
  }

  /** A call that would hand out a hash already on file is never accepted. */
  lemma {:induction false} CollisionFails(cfg: Config, s: State, steps: seq<Step>, c: nat, next: string)
    requires DbInv(s.db) && HashTaken(s.db, cfg.hash(next)) && Headed(s, c, next)
    ensures !AcceptedIn(Run(cfg, s, steps), c)
    decreases |steps|
  {
    if steps != [] {
      var t := Apply(cfg, s, steps[0]);
      StepKeeps(cfg, s, steps[0]);
      StaysHeaded(cfg, s, steps[0], c, next);
      HashStaysTaken(s.db, t.db, cfg.hash(next));
      CollisionFails(cfg, t, steps[1..], c, next);
    }
  }

  lemma RevokeHashes(db: Db, row: nat, now: int, hash: string)
    ensures HashTaken(Revoke(db, row, now), hash) <==> HashTaken(db, hash)
  {
    var after := Revoke(db, row, now);
    assert after.tokens.Keys == db.tokens.Keys;
    assert forall t :: t in db.tokens ==> after.tokens[t].hash == db.tokens[t].hash;
  }

  /** Two undisturbed round trips decide a call that is inside, revoked row or not. */
  lemma Finishes(cfg: Config, s: State, c: nat, token: string, next: string, now: int)
    requires Inside(s, c, token, next)
    ensures var t := Run(cfg, s, [Next(c, now), Next(c, now)]);
            && c in t.calls
            && t.calls[c] == (if HashTaken(s.db, cfg.hash(next)) then Rejected else Accepted(token, next))
            && (forall o :: o in s.calls && o != c ==> o in t.calls && t.calls[o] == s.calls[o])
    ensures Run(cfg, s, [Next(c, now), Next(c, now)]).db
         == Issue(cfg, Revoke(s.db, s.calls[c].row, now), s.db.tokens[s.calls[c].row].user, next, NoFault, now).db
  {
    var row := s.calls[c].row;
    var mid := Apply(cfg, s, Next(c, now));
    RevokeHashes(s.db, row, now, cfg.hash(next));
    assert mid == Goto(s.(db := Revoke(s.db, row, now)), c, Issuing(token, next, row));
    OneStep(cfg, s, Next(c, now));
    OneStep(cfg, mid, Next(c, now));
    Append(cfg, s, [Next(c, now)], [Next(c, now)]);
    assert [Next(c, now)] + [Next(c, now)] == [Next(c, now), Next(c, now)];
  }

  ghost predicate CanBeAccepted(cfg: Config, s: State, c: nat) {
    exists steps :: AcceptedIn(Run(cfg, s, steps), c)
  }

  /** The last round trip decides a call that has revoked. */
  lemma Issues(cfg: Config, s: State, c: nat, now: int)
    requires c in s.calls && s.calls[c].Issuing? && s.calls[c].row in s.db.tokens
    ensures AcceptedIn(Run(cfg, s, [Next(c, now)]), c) <==> !HashTaken(s.db, cfg.hash(s.calls[c].next))
  {
    OneStep(cfg, s, Next(c, now));
  }

  /** A call with this token and successor, at any point of its course. */
  predicate Presents(s: State, c: nat, token: string, next: string) {
    c in s.calls &&
    match s.calls[c]
    case Finding(t, n) => t == token && n == next
    case Revoking(t, n, row) => t == token && n == next && row in s.db.tokens
    case Issuing(t, n, row) => t == token && n == next && row in s.db.tokens
    case Accepted(t, n) => t == token && n == next
    case Rejected => true
  }

  /** Its lookup was answered, and it is not over. */
  predicate PastLookup(s: State, c: nat) {
    c in s.calls && (s.calls[c].Revoking? || s.calls[c].Issuing?)
  }

  /**
   Once a token is revoked, a call that presents it can still be accepted, or was, if and only if
   its lookup was answered before and its own successor is unused: revoking a revoked row is no error.
   */
  lemma SecondAcceptance(cfg: Config, s: State, c: nat, token: string, next: string)
    requires DbInv(s.db) && RevokedHash(s.db, cfg.hash(token)) && Presents(s, c, token, next)
    ensures CanBeAccepted(cfg, s, c) <==> AcceptedIn(s, c) || (PastLookup(s, c) && !HashTaken(s.db, cfg.hash(next)))
  {
    if AcceptedIn(s, c) {
      assert AcceptedIn(Run(cfg, s, []), c);
    } else if Outside(s, c, token, next) {
      forall steps ensures !AcceptedIn(Run(cfg, s, steps), c) {
        LookupAfterRevokeFails(cfg, s, steps, c, token, next);
      }
    } else if HashTaken(s.db, cfg.hash(next)) {
      forall steps ensures !AcceptedIn(Run(cfg, s, steps), c) {
        CollisionFails(cfg, s, steps, c, next);
      }
    } else {
      PastLookupFinishes(cfg, s, c, token, next);
    }
  }

  lemma PastLookupFinishes(cfg: Config, s: State, c: nat, token: string, next: string)
    requires Presents(s, c, token, next) && PastLookup(s, c) && !HashTaken(s.db, cfg.hash(next))
    ensures CanBeAccepted(cfg, s, c)
  {
    if s.calls[c].Issuing? {
      Issues(cfg, s, c, 0);
      assert AcceptedIn(Run(cfg, s, [Next(c, 0)]), c);
    } else {
      Finishes(cfg, s, c, token, next, 0);
      assert AcceptedIn(Run(cfg, s, [Next(c, 0), Next(c, 0)]), c);
    }
  }

  // --- Alone, and together --------------------------------------------------------------------

  function Alone(c: nat, token: string, next: string, now: int): seq<Step> {
    [Begin(c, token, next), Next(c, now)] + [Next(c, now), Next(c, now)]
  }

  /** Where the lookup leads. */
  ghost function Answered(cfg: Config, db: Db, token: string, next: string, now: int): Call {
    var row := ActiveToken(db, cfg.hash(token), now);
    if row.Some? then Revoking(token, next, row.value) else Rejected
  }

  lemma Enters(cfg: Config, s: State, c: nat, token: string, next: string, now: int)
    requires c !in s.calls
    ensures Run(cfg, s, [Begin(c, token, next), Next(c, now)]) == Goto(s, c, Answered(cfg, s.db, token, next, now))
  {
    var s1 := Apply(cfg, s, Begin(c, token, next));
    OneStep(cfg, s, Begin(c, token, next));
    OneStep(cfg, s1, Next(c, now));
    Append(cfg, s, [Begin(c, token, next)], [Next(c, now)]);
    assert [Begin(c, token, next)] + [Next(c, now)] == [Begin(c, token, next), Next(c, now)];
    var answered := Answered(cfg, s.db, token, next, now);
    assert s.calls[c := Finding(token, next)][c := answered] == s.calls[c := answered];
  }

  /** Run without interruption, the round trips are the atomic call of the token accounting. */
  lemma AloneIsAtomic(cfg: Config, s: State, c: nat, token: string, next: string, now: int)
    requires DbInv(s.db) && c !in s.calls
    ensures var t := Run(cfg, s, Alone(c, token, next, now));
            var op := Op.Refresh(token, next, NoFault, now);
            t.db == Do(cfg, s.db, op).db && (AcceptedIn(t, c) <==> Do(cfg, s.db, op).outcome.Issued?)
  {
    var found := ActiveToken(s.db, cfg.hash(token), now);
    Enters(cfg, s, c, token, next, now);
    Append(cfg, s, [Begin(c, token, next), Next(c, now)], [Next(c, now), Next(c, now)]);
    var t := Run(cfg, s, [Begin(c, token, next), Next(c, now)]);
    if found.Some? {
      RevokeHashes(s.db, found.value, now, cfg.hash(next));
      Finishes(cfg, t, c, token, next, now);
    } else {
      OneStep(cfg, t, Next(c, now));
      Append(cfg, t, [Next(c, now)], [Next(c, now)]);
      assert [Next(c, now)] + [Next(c, now)] == [Next(c, now), Next(c, now)];
    }
  }

  /** Two overlapping refreshes of one live token can both be accepted: its use is once only for whole calls alone. */
  lemma OverlappingRefreshesBothAccepted(cfg: Config, db: Db, token: string, first: string, second: string, now: int)
    returns (steps: seq<Step>)
    requires DbInv(db) && Live(db, cfg.hash(token), now) && cfg.hash(first) != cfg.hash(second)
    requires !HashTaken(db, cfg.hash(first)) && !HashTaken(db, cfg.hash(second))
    ensures var t := Run(cfg, State(db, map[]), steps);
            && AcceptedIn(t, 0) && t.calls[0] == Accepted(token, first)
            && AcceptedIn(t, 1) && t.calls[1] == Accepted(token, second)
  {
    var s := State(db, map[]);
    var row := ActiveToken(db, cfg.hash(token), now).value;
    Enters(cfg, s, 0, token, first, now);
    var s1 := Run(cfg, s, [Begin(0, token, first), Next(0, now)]);
    Enters(cfg, s1, 1, token, second, now);
    var s2 := Run(cfg, s1, [Begin(1, token, second), Next(1, now)]);
    assert s2.db == db && s2.calls[0] == Revoking(token, first, row) && s2.calls[1] == Revoking(token, second, row);
    Finishes(cfg, s2, 0, token, first, now);
    var s3 := Run(cfg, s2, [Next(0, now), Next(0, now)]);
    RevokeHashes(db, row, now, cfg.hash(second));
    RevokeHashes(db, row, now, cfg.hash(first));
    var mid := Revoke(db, row, now);
    assert forall t :: t in s3.db.tokens ==>
      if t == mid.nextToken then s3.db.tokens[t].hash == cfg.hash(first) else t in mid.tokens && s3.db.tokens[t] == mid.tokens[t];
    assert !HashTaken(s3.db, cfg.hash(second));
    assert row in s3.db.tokens;
    Finishes(cfg, s3, 1, token, second, now);
    var a, b := [Begin(0, token, first), Next(0, now)], [Begin(1, token, second), Next(1, now)];
    var c, d := [Next(0, now), Next(0, now)], [Next(1, now), Next(1, now)];
    Append(cfg, s2, c, d);
    Append(cfg, s1, b, c + d);
    Append(cfg, s, a, b + (c + d));
    steps := a + (b + (c + d));
  }
}
