/**
 What a broken session looks like: the stored token is dead, every later refresh
 carries it, and nothing but a new sign-in helps.
 */
module SessionLoss {
  import opened Wrappers
  import opened AuthTables
  import opened RefreshTokens
  import opened SessionClient
  import opened SessionSafety

  lemma RevokedNotUnspent(db: Db, hash: string)
    requires DbInv(db) && RevokedHash(db, hash)
    ensures !Unspent(db, hash)
  {
    var t :| t in db.tokens && db.tokens[t].hash == hash && db.tokens[t].revokedAt.Some?;
    forall o | o in db.tokens && db.tokens[o].hash == hash ensures db.tokens[o].revokedAt.Some? {
      assert SameHash(db.tokens[o], db.tokens[t]);
    }
  }

  /** Whatever the browser holds or posts is revoked, and no answer on its way carries tokens. */
  ghost predicate Doomed(cfg: Config, s: State) {
    && DbInv(s.db) && SingleFlight(s.client) && !Renewing(s.client)
    && (s.client.storage.Some? ==> RevokedHash(s.db, cfg.hash(s.client.storage.value)))
    && (IsPosting(s.client) ==> RevokedHash(s.db, cfg.hash(InFlight(s.client).value.token)))
  }

  /** A refresh cut short, or answered with tokens that never arrive. */
  lemma BreakDooms(cfg: Config, s: State, step: Step)
    requires Safe(cfg, s) && (step.ServeRefresh? || step.LoseRefresh?) && Breaks(cfg, s, step)
    ensures Doomed(cfg, Apply(cfg, s, step)) && Apply(cfg, s, step).client.storage == s.client.storage
  {
    var p := step.refresh;
    ClientStepKeeps(cfg, s, step);
    assert RefreshOk(s.client, p);
    if step.ServeRefresh? {
      var op := Op.Refresh(s.client.refreshes[p].token, step.next, step.fault, step.now);
      CallKeeps(cfg, s.db, op);
      SpendingRevokes(cfg, s.db, op);
      RefreshSucceeds(cfg, s.db, op);
    }
    var after := Apply(cfg, s, step).client;
    assert InFlight(after) == Some(after.refreshes[p]);
  }

  /** A revoked token is refused, whatever else goes wrong. */
  lemma RevokedIsRefused(cfg: Config, db: Db, op: Op)
    requires DbInv(db) && op.Refresh? && RevokedHash(db, cfg.hash(op.token))
    ensures !Do(cfg, db, op).outcome.Issued? && Do(cfg, db, op).db == db
    ensures op.fault != Early ==> Do(cfg, db, op).outcome == Failed(InvalidCredentials)
  {
    RevokedIsDead(db, cfg.hash(op.token), op.now);
  }

  lemma DoomedAfterCall(cfg: Config, s: State, op: Op)
    requires Doomed(cfg, s)
    ensures var after := Do(cfg, s.db, op).db;
            DbInv(after) && forall hash :: RevokedHash(s.db, hash) ==> RevokedHash(after, hash)
  {
    CallKeeps(cfg, s.db, op);
    forall hash | RevokedHash(s.db, hash) ensures RevokedHash(Do(cfg, s.db, op).db, hash) {
      FrameRevoked(s.db, Do(cfg, s.db, op).db, hash);
    }
  }

  lemma DoomedRefreshStep(cfg: Config, s: State, step: Step)
    requires Doomed(cfg, s)
    requires step.ServeRefresh? || step.LoseRefresh? || step.ReceiveRefresh? || step.Finally?
    ensures Doomed(cfg, Apply(cfg, s, step))
  {
    var p := step.refresh;
    ClientStepKeeps(cfg, s, step);
    if p in s.client.refreshes {
      assert RefreshOk(s.client, p);
      if step.ServeRefresh? && s.client.refreshes[p].Posting? {
        RevokedIsRefused(cfg, s.db, Op.Refresh(s.client.refreshes[p].token, step.next, step.fault, step.now));
      }
    }
  }

  lemma DoomedServerStep(cfg: Config, s: State, step: Step)
    requires Doomed(cfg, s) && (step.SignIn? || step.Elsewhere?)
    ensures Doomed(cfg, Apply(cfg, s, step))
  {
    ClientStepKeeps(cfg, s, step);
    DoomedAfterCall(cfg, s, step.op);
    assert Apply(cfg, s, step).client == s.client;
  }

  /** Calls post the stored token, drop it, or leave storage and refreshes as they are. */
  lemma CallStepHoldings(cfg: Config, s: State, step: Step)
    requires SingleFlight(s.client)
    requires step.Fetch? || step.Bootstrap? || step.Serve? || step.Drop? || step.Receive? || step.Resume?
    ensures var t := Apply(cfg, s, step);
            && t.db == s.db && (t.client.storage.Some? ==> t.client.storage == s.client.storage)
            && (InFlight(t.client) == InFlight(s.client) || FreshRefresh(s.client, t.client))
  {
  }

  predicate FreshRefresh(before: Client, after: Client) {
    && InFlight(after).Some?
    && InFlight(after).value == if before.storage == None then Settled(Denied) else Posting(before.storage.value)
  }

  lemma DoomedCallStep(cfg: Config, s: State, step: Step)
    requires Doomed(cfg, s)
    requires step.Fetch? || step.Bootstrap? || step.Serve? || step.Drop? || step.Receive? || step.Resume?
    ensures Doomed(cfg, Apply(cfg, s, step))
  {
    ClientStepKeeps(cfg, s, step);
    CallStepHoldings(cfg, s, step);
  }

  lemma DoomedStep(cfg: Config, s: State, step: Step)
    requires Doomed(cfg, s) && !step.SignedIn?
    ensures Doomed(cfg, Apply(cfg, s, step))
  {
    if step.SignIn? || step.Elsewhere? {
      DoomedServerStep(cfg, s, step);
    } else if step.ServeRefresh? || step.LoseRefresh? || step.ReceiveRefresh? || step.Finally? {
      DoomedRefreshStep(cfg, s, step);
    } else {
      DoomedCallStep(cfg, s, step);
    }
  }

  predicate NoSignedIn(steps: seq<Step>) {
    forall i :: 0 <= i < |steps| ==> !steps[i].SignedIn?
  }

  lemma {:induction false} DoomedRun(cfg: Config, s: State, steps: seq<Step>)
    requires Doomed(cfg, s) && NoSignedIn(steps)
    ensures Doomed(cfg, SessionClient.Run(cfg, s, steps))
    decreases |steps|
  {
    if steps != [] {
      DoomedStep(cfg, s, steps[0]);
      DoomedRun(cfg, Apply(cfg, s, steps[0]), steps[1..]);
    }
  }

  /**
   After a cut-short rotation or a lost answer, in every run without a new sign-in: the stored token
   is a revoked one, every refresh posts a revoked one, and the server answers none of them with tokens.
   */
  lemma BrokenForGood(cfg: Config, s: State, step: Step, steps: seq<Step>)
    requires Safe(cfg, s) && (step.ServeRefresh? || step.LoseRefresh?) && Breaks(cfg, s, step) && NoSignedIn(steps)
    ensures var t := SessionClient.Run(cfg, Apply(cfg, s, step), steps);
            && (t.client.storage.Some? ==> !Unspent(t.db, cfg.hash(t.client.storage.value)))
            && (forall p :: p in t.client.refreshes ==> PostsDead(cfg, t, p))
  {
    BreakDooms(cfg, s, step);
    DoomedRun(cfg, Apply(cfg, s, step), steps);
    var t := SessionClient.Run(cfg, Apply(cfg, s, step), steps);
    if t.client.storage.Some? { RevokedNotUnspent(t.db, cfg.hash(t.client.storage.value)); }
    forall p | p in t.client.refreshes ensures PostsDead(cfg, t, p) {
      assert RefreshOk(t.client, p);
      if t.client.refreshes[p].Posting? {
        forall next, fault, now ensures !Do(cfg, t.db, Op.Refresh(t.client.refreshes[p].token, next, fault, now)).outcome.Issued? {
          RevokedIsRefused(cfg, t.db, Op.Refresh(t.client.refreshes[p].token, next, fault, now));
        }
      }
    }
  }

  /** No tokens are on their way to this refresh, and the server will issue none for what it posts. */
  ghost predicate PostsDead(cfg: Config, s: State, p: nat) {
    p in s.client.refreshes &&
    match s.client.refreshes[p]
    case Posting(token) => forall next, fault, now :: !Do(cfg, s.db, Op.Refresh(token, next, fault, now)).outcome.Issued?
    case Replied(_, reply) => reply.Refused?
    case _ => true
  }

  /** What ends the refresh under way once the breaking step is done. */
  function Settling(step: Step): seq<Step>
    requires step.ServeRefresh? || step.LoseRefresh?
  {
    if step.ServeRefresh? then [ReceiveRefresh(step.refresh), Finally(step.refresh)] else [Finally(step.refresh)]
  }

  /** Of the tokens a safe browser holds, one that was not revoked before cannot be spent now. */
  lemma HeldIsUnspent(cfg: Config, cl: Client, before: Db, after: Db, hash: string)
    requires HoldsGood(cfg, cl, before) && !RevokedHash(before, hash) && hash in Mine(cfg, cl)
    ensures HoldsGood(cfg, cl, after) ==> Unspent(after, hash)
  {
  }

  lemma AwaitedIsUnspent(cfg: Config, cl: Client, after: Db, arriving: set<string>, token: string)
    requires token in arriving && ArrivalsGood(cfg, cl, after, arriving)
    ensures Unspent(after, cfg.hash(token))
  {
    assert ArrivalOk(cfg, cl, after, token);
  }

  /** Spending takes a token that was not revoked and leaves it revoked. */
  lemma SpendingTurns(cfg: Config, db: Db, op: Op)
    requires DbInv(db) && Spends(cfg, db, op)
    ensures !RevokedHash(db, cfg.hash(op.token)) && !Unspent(Do(cfg, db, op).db, cfg.hash(op.token))
  {
    CallKeeps(cfg, db, op);
    SpendingRevokes(cfg, db, op);
    RevokedNotUnspent(Do(cfg, db, op).db, cfg.hash(op.token));
    LiveNotRevoked(db, cfg.hash(op.token), op.now);
  }

  lemma SpentIsHeld(cfg: Config, s: State, after: Db, hash: string)
    requires HoldsGood(cfg, s.client, s.db) && !RevokedHash(s.db, hash) && !Unspent(after, hash)
    requires hash in Mine(cfg, s.client) || exists t :: t in s.arriving && cfg.hash(t) == hash
    ensures !(HoldsGood(cfg, s.client, after) && ArrivalsGood(cfg, s.client, after, s.arriving))
  {
    if hash in Mine(cfg, s.client) {
      HeldIsUnspent(cfg, s.client, s.db, after, hash);
    } else {
      var token :| token in s.arriving && cfg.hash(token) == hash;
      if ArrivalsGood(cfg, s.client, after, s.arriving) { AwaitedIsUnspent(cfg, s.client, after, s.arriving, token); }
    }
  }

  lemma SpendsMine(cfg: Config, s: State, op: Op)
    requires !Foreign(cfg, s, op)
    ensures Spends(cfg, s.db, op)
    ensures cfg.hash(op.token) in Mine(cfg, s.client) || exists t :: t in s.arriving && cfg.hash(t) == cfg.hash(op.token)
  {
  }

  /** Somebody else spending a token of this browser revokes one that had to be good. */
  lemma SpentElsewhere(cfg: Config, s: State, op: Op)
    requires Safe(cfg, s) && !Foreign(cfg, s, op)
    ensures !Safe(cfg, Apply(cfg, s, Elsewhere(op)))
  {
    SpendsMine(cfg, s, op);
    SpendingTurns(cfg, s.db, op);
    SpentIsHeld(cfg, s, Do(cfg, s.db, op).db, cfg.hash(op.token));
    SafeAfterElsewhere(cfg, s, op);
  }

  lemma SafeAfterElsewhere(cfg: Config, s: State, op: Op)
    ensures Safe(cfg, Apply(cfg, s, Elsewhere(op))) ==>
              var after := Do(cfg, s.db, op).db; HoldsGood(cfg, s.client, after) && ArrivalsGood(cfg, s.client, after, s.arriving)
  {
  }

  lemma LiveNotRevoked(db: Db, hash: string, now: int)
    requires DbInv(db) && Live(db, hash, now)
    ensures !RevokedHash(db, hash)
  {
    var o :| o in db.tokens && IsActive(db, hash, o, now);
    forall t | t in db.tokens && db.tokens[t].hash == hash ensures db.tokens[t].revokedAt == None {
      assert SameHash(db.tokens[o], db.tokens[t]);
    }
  }

  /** The exact condition under which a step keeps the browser safe. */
  lemma StepSafeIff(cfg: Config, s: State, step: Step)
    requires Safe(cfg, s)
    ensures Safe(cfg, Apply(cfg, s, step)) <==> !Breaks(cfg, s, step)
  {
    if !Breaks(cfg, s, step) {
      StepSafe(cfg, s, step);
    } else if step.Elsewhere? {
      SpentElsewhere(cfg, s, step.op);
    } else {
      var t := Apply(cfg, s, step);
      BreakDooms(cfg, s, step);
      assert t.client.storage.Some?;
      RevokedNotUnspent(t.db, cfg.hash(t.client.storage.value));
    }
  }

  /** From a state whose refresh is answered or settled, settling ends it. */
  lemma SettlingRun(cfg: Config, s: State, step: Step)
    requires SingleFlight(s.client) && (step.ServeRefresh? || step.LoseRefresh?) && step.refresh in s.client.refreshes
    requires if step.ServeRefresh? then s.client.refreshes[step.refresh].Replied? else s.client.refreshes[step.refresh].Settled?
    ensures var t := SessionClient.Run(cfg, s, Settling(step));
            t.client.current == None && (s.client.storage.Some? ==> t.client.storage.Some?)
    ensures CleanRun(cfg, s, Settling(step)) && NoSignedIn(Settling(step))
  {
    var p := step.refresh;
    if step.ServeRefresh? {
      var t := Apply(cfg, s, ReceiveRefresh(p));
      assert Settling(step)[1..] == [Finally(p)];
      assert SessionClient.Run(cfg, s, Settling(step)) == SessionClient.Run(cfg, t, [Finally(p)]);
      OneStep(cfg, t, Finally(p));
    } else {
      OneStep(cfg, s, Finally(p));
    }
  }

  lemma OneStep(cfg: Config, s: State, step: Step)
    ensures SessionClient.Run(cfg, s, [step]) == Apply(cfg, s, step)
  {
    assert SessionClient.Run(cfg, s, [step]) == SessionClient.Run(cfg, Apply(cfg, s, step), []);
  }

  lemma FirstStep(cfg: Config, s: State, step: Step, steps: seq<Step>)
    ensures SessionClient.Run(cfg, s, [step] + steps) == SessionClient.Run(cfg, Apply(cfg, s, step), steps)
  {
    assert ([step] + steps)[1..] == steps;
  }

  /** A step that answers the refresh under way or loses it. */
  predicate EndsRefresh(s: State, step: Step) {
    && (step.ServeRefresh? || step.LoseRefresh?) && step.refresh in s.client.refreshes
    && (s.client.refreshes[step.refresh].Posting? || (step.LoseRefresh? && s.client.refreshes[step.refresh].Replied?))
  }

  /**
   Once a refresh has been answered or lost and has settled, the stored token is good on the server
   if and only if that step did not break the session.
   */
  lemma SettledTokenIsGoodIff(cfg: Config, s: State, step: Step)
    requires Safe(cfg, s) && EndsRefresh(s, step) && s.client.storage.Some?
    ensures var t := SessionClient.Run(cfg, s, [step] + Settling(step));
            && t.client.current == None && t.client.storage.Some?
            && (Unspent(t.db, cfg.hash(t.client.storage.value)) <==> !Breaks(cfg, s, step))
  {
    var s1 := Apply(cfg, s, step);
    assert RefreshOk(s.client, step.refresh);
    ClientStepKeeps(cfg, s, step);
    FirstStep(cfg, s, step, Settling(step));
    SettlingRun(cfg, s1, step);
    var t := SessionClient.Run(cfg, s1, Settling(step));
    if Breaks(cfg, s, step) {
      BreakDooms(cfg, s, step);
      DoomedRun(cfg, s1, Settling(step));
      RevokedNotUnspent(t.db, cfg.hash(t.client.storage.value));
    } else {
      StepSafe(cfg, s, step);
      RunSafe(cfg, s1, Settling(step));
    }
  }

  /** A page load's refresh from a state at rest, answered by the server. */
  function NextRefresh(s: State, c: nat, access: string, next: string, fault: Fault, now: int): seq<Step> {
    var p := s.client.nextRefresh;
    [Bootstrap(c), ServeRefresh(p, access, next, fault, now), ReceiveRefresh(p), Finally(p), Resume(c)]
  }

  /** The server refuses the dead token it is sent. */
  lemma RefusedReply(cfg: Config, s: State, step: Step)
    requires DbInv(s.db) && step.ServeRefresh? && step.fault != Early
    requires step.refresh in s.client.refreshes && s.client.refreshes[step.refresh].Posting?
    requires RevokedHash(s.db, cfg.hash(s.client.refreshes[step.refresh].token))
    ensures var token := s.client.refreshes[step.refresh].token;
            Apply(cfg, s, step) == s.(client := s.client.(refreshes :=
              s.client.refreshes[step.refresh := Replied(token, Refused(Unauthorized))]))
  {
    RevokedIsRefused(cfg, s.db, Op.Refresh(s.client.refreshes[step.refresh].token, step.next, step.fault, step.now));
  }

  /** The next refresh posts the dead token, is denied, and signs the browser out. */
  lemma NextRefreshIsDenied(cfg: Config, s: State, c: nat, access: string, next: string, fault: Fault, now: int)
    requires Doomed(cfg, s) && s.client.current == None && s.client.storage.Some? && c !in s.client.calls && fault != Early
    ensures var p, t := s.client.nextRefresh, SessionClient.Run(cfg, s, NextRefresh(s, c, access, next, fault, now));
            && Apply(cfg, s, Bootstrap(c)).client.refreshes[p] == Posting(s.client.storage.value)
            && t.client.storage == None && t.client.access == None
            && c in t.client.calls && t.client.calls[c].pc == Done(Unauthorized) && t.db == s.db
  {
    var p, rest := s.client.nextRefresh, NextRefresh(s, c, access, next, fault, now);
    var s1 := Apply(cfg, s, Bootstrap(c));
    RefusedReply(cfg, s1, rest[1]);
    DeniedRun(cfg, Apply(cfg, s1, rest[1]), c, p);
    FirstStep(cfg, s, rest[0], rest[1..]);
    FirstStep(cfg, s1, rest[1], rest[2..]);
    assert rest == [rest[0]] + rest[1..] && rest[1..] == [rest[1]] + rest[2..];
    assert rest[2..] == [ReceiveRefresh(p), Finally(p), Resume(c)];
  }

  lemma DeniedRun(cfg: Config, s: State, c: nat, p: nat)
    requires p in s.client.refreshes && s.client.refreshes[p].Replied? && s.client.refreshes[p].reply == Refused(Unauthorized)
    requires c in s.client.calls && s.client.calls[c].pc == Awaiting(p, false)
    ensures var t := SessionClient.Run(cfg, s, [ReceiveRefresh(p), Finally(p), Resume(c)]);
            && t.client.storage == None && t.client.access == None && t.db == s.db
            && c in t.client.calls && t.client.calls[c].pc == Done(Unauthorized)
  {
    var steps := [ReceiveRefresh(p), Finally(p), Resume(c)];
    var s1 := Apply(cfg, s, steps[0]);
    var s2 := Apply(cfg, s1, steps[1]);
    FirstStep(cfg, s, steps[0], steps[1..]);
    FirstStep(cfg, s1, steps[1], steps[2..]);
    OneStep(cfg, s2, Resume(c));
    assert steps == [steps[0]] + steps[1..] && steps[1..] == [steps[1]] + steps[2..] && steps[2..] == [Resume(c)];
  }

  /**
   So a cut-short rotation or a lost answer ends the session: the refresh settles, the next one
   presents a revoked token, and its refusal signs the browser out.
   */
  lemma BreakEndsSession(cfg: Config, s: State, step: Step, c: nat, access: string, next: string, fault: Fault, now: int)
    requires Safe(cfg, s) && EndsRefresh(s, step) && Breaks(cfg, s, step) && c !in s.client.calls && fault != Early
    ensures var t := SessionClient.Run(cfg, s, [step] + Settling(step));
            var u := SessionClient.Run(cfg, t, NextRefresh(t, c, access, next, fault, now));
            && t.client.current == None && t.client.storage == s.client.storage
            && u.client.storage == None && c in u.client.calls && u.client.calls[c].pc == Done(Unauthorized)
  {
    var s1 := Apply(cfg, s, step);
    assert RefreshOk(s.client, step.refresh);
    BreakDooms(cfg, s, step);
    FirstStep(cfg, s, step, Settling(step));
    SettlingRun(cfg, s1, step);
    DoomedRun(cfg, s1, Settling(step));
    SettlingKeepsStored(cfg, s1, step);
    var t := SessionClient.Run(cfg, s1, Settling(step));
    NextRefreshIsDenied(cfg, t, c, access, next, fault, now);
  }

  lemma SettlingKeepsStored(cfg: Config, s: State, step: Step)
    requires Doomed(cfg, s) && (step.ServeRefresh? || step.LoseRefresh?) && step.refresh in s.client.refreshes
    requires if step.ServeRefresh? then s.client.refreshes[step.refresh].Replied? else s.client.refreshes[step.refresh].Settled?
    ensures var t := SessionClient.Run(cfg, s, Settling(step)).client;
            t.storage == s.client.storage && t.calls == s.client.calls
  {
    var p := step.refresh;
    assert RefreshOk(s.client, p);
    if step.ServeRefresh? {
      assert s.client.refreshes[p].reply.Refused?;
      var t := Apply(cfg, s, ReceiveRefresh(p));
      FirstStep(cfg, s, ReceiveRefresh(p), [Finally(p)]);
      assert Settling(step) == [ReceiveRefresh(p)] + [Finally(p)];
      OneStep(cfg, t, Finally(p));
    } else {
      OneStep(cfg, s, Finally(p));
    }
  }
}
