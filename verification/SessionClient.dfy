/**
 The browser's side of token rotation: apiFetch retries a 401 after a refresh,
 and all refreshes share one module-level promise.  A step is what runs between
 two awaits, a server answer, or a failure.
 */
module SessionClient {
  import opened Wrappers
  import opened AuthTables
  import opened RefreshTokens

  datatype Status = Success | Unauthorized | OtherStatus

  /** How the refresh promise settled. */
  datatype Verdict = Renewed | Denied | Broken

  datatype Reply = Tokens(access: string, refresh: string) | Refused(status: Status)

  /**
   performRefresh: the POST is out, the reply is out, the promise settled but finally has
   not run, refreshPromise is null again.
   */
  datatype Refresh =
    | Posting(token: string)
    | Replied(token: string, reply: Reply)
    | Settled(verdict: Verdict)
    | Cleared(verdict: Verdict)

  /** A call of apiFetch, or of refreshSession alone, which never sends a request of its own. */
  datatype Pc =
    | Requesting(retry: bool, bearer: Option<string>)
    | Responding(retry: bool, status: Status)
    | Awaiting(refresh: nat, thenRetry: bool)
    | Done(status: Status)

  datatype Call = Call(pc: Pc, sent: nat)

  /** storage is the refresh token in local storage, access the session store's access token. */
  datatype Client = Client(
    storage: Option<string>, access: Option<string>, current: Option<nat>,
    refreshes: map<nat, Refresh>, nextRefresh: nat, calls: map<nat, Call>)

  // --- What runs between awaits ----------------------------------------------------------

  /** refreshOnce: join the refresh under way, or start one with the stored token. */
  function Joined(cl: Client): nat {
    cl.current.GetOr(cl.nextRefresh)
  }

  function RefreshOnce(cl: Client): Client {
    if cl.current.Some? then cl
    else cl.(current := Some(cl.nextRefresh), nextRefresh := cl.nextRefresh + 1,
             refreshes := cl.refreshes[cl.nextRefresh := if cl.storage == None then Settled(Denied) else Posting(cl.storage.value)])
  }

  function SetCall(cl: Client, c: nat, call: Call): Client {
    cl.(calls := cl.calls[c := call])
  }

  function StartFetch(cl: Client, c: nat): Client {
    SetCall(cl, c, Call(Requesting(false, cl.access), 1))
  }

  /** refreshSession, as the bootstrap hook calls it. */
  function StartRefresh(cl: Client, c: nat): Client {
    SetCall(RefreshOnce(cl), c, Call(Awaiting(Joined(cl), false), 0))
  }

  function OnResponse(cl: Client, c: nat): Client
    requires c in cl.calls && cl.calls[c].pc.Responding?
  {
    var call := cl.calls[c];
    if call.pc.status == Unauthorized && !call.pc.retry && cl.storage.Some?
    then SetCall(RefreshOnce(cl), c, call.(pc := Awaiting(Joined(cl), true)))
    else SetCall(cl, c, call.(pc := Done(call.pc.status)))
  }

  /** performRefresh after its await. */
  function OnReply(cl: Client, p: nat): Client
    requires p in cl.refreshes && cl.refreshes[p].Replied?
  {
    match cl.refreshes[p].reply
    case Tokens(access, refresh) =>
      cl.(storage := Some(refresh), access := Some(access), refreshes := cl.refreshes[p := Settled(Renewed)])
    case Refused(status) =>
      cl.(refreshes := cl.refreshes[p := Settled(if status == Unauthorized then Denied else Broken)])
  }

  function OnFinally(cl: Client, p: nat): Client
    requires p in cl.refreshes && cl.refreshes[p].Settled?
  {
    cl.(current := None, refreshes := cl.refreshes[p := Cleared(cl.refreshes[p].verdict)])
  }

  /** A caller of refreshSession resumes; every one of them handles a failure for itself. */
  function OnResume(cl: Client, c: nat): Client
    requires c in cl.calls && cl.calls[c].pc.Awaiting?
    requires cl.calls[c].pc.refresh in cl.refreshes && cl.refreshes[cl.calls[c].pc.refresh].Cleared?
  {
    var call := cl.calls[c];
    match cl.refreshes[call.pc.refresh].verdict
    case Renewed =>
      SetCall(cl, c, if call.pc.thenRetry then Call(Requesting(true, cl.access), call.sent + 1) else call.(pc := Done(Success)))
    case Denied => SetCall(cl, c, call.(pc := Done(Unauthorized))).(storage := None, access := None)
    case Broken => SetCall(cl, c, call.(pc := Done(Unauthorized))).(access := None)
  }

  // --- The client and the server together ----------------------------------------------------

  /** arriving holds refresh tokens issued by logins whose response is still under way. */
  datatype State = State(client: Client, db: Db, arriving: set<string>)

  datatype Step =
    | Fetch(call: nat)
    | Bootstrap(call: nat)
    | Serve(call: nat, status: Status)
    | Drop(call: nat)
    | Receive(call: nat)
    | ServeRefresh(refresh: nat, access: string, next: string, fault: Fault, now: int)
    | LoseRefresh(refresh: nat)
    | ReceiveRefresh(refresh: nat)
    | Finally(refresh: nat)
    | Resume(call: nat)
    | SignIn(op: Op)
    | SignedIn(token: string, access: string)
    | Elsewhere(op: Op)

  ghost function AnswerRefresh(cfg: Config, s: State, step: Step): State
    requires step.ServeRefresh? && step.refresh in s.client.refreshes && s.client.refreshes[step.refresh].Posting?
  {
    var token := s.client.refreshes[step.refresh].token;
    var t := Do(cfg, s.db, Op.Refresh(token, step.next, step.fault, step.now));
    var reply := if t.outcome.Issued? then Tokens(step.access, step.next)
                 else if t.outcome == Failed(InvalidCredentials) then Refused(Unauthorized) else Refused(OtherStatus);
    s.(db := t.db, client := s.client.(refreshes := s.client.refreshes[step.refresh := Replied(token, reply)]))
  }

  ghost function Apply(cfg: Config, s: State, step: Step): State {
    var cl := s.client;
    match step
    case Fetch(c) => if c in cl.calls then s else s.(client := StartFetch(cl, c))
    case Bootstrap(c) => if c in cl.calls then s else s.(client := StartRefresh(cl, c))
    case Serve(c, status) =>
      if c in cl.calls && cl.calls[c].pc.Requesting?
      then s.(client := SetCall(cl, c, cl.calls[c].(pc := Responding(cl.calls[c].pc.retry, status)))) else s
    case Drop(c) =>
      if c in cl.calls && (cl.calls[c].pc.Requesting? || cl.calls[c].pc.Responding?)
      then s.(client := SetCall(cl, c, cl.calls[c].(pc := Done(OtherStatus)))) else s
    case Receive(c) => if c in cl.calls && cl.calls[c].pc.Responding? then s.(client := OnResponse(cl, c)) else s
    case ServeRefresh(p, _, _, _, _) => if p in cl.refreshes && cl.refreshes[p].Posting? then AnswerRefresh(cfg, s, step) else s
    case LoseRefresh(p) =>
      if p in cl.refreshes && (cl.refreshes[p].Posting? || cl.refreshes[p].Replied?)
      then s.(client := cl.(refreshes := cl.refreshes[p := Settled(Broken)])) else s
    case ReceiveRefresh(p) => if p in cl.refreshes && cl.refreshes[p].Replied? then s.(client := OnReply(cl, p)) else s
    case Finally(p) => if p in cl.refreshes && cl.refreshes[p].Settled? then s.(client := OnFinally(cl, p)) else s
    case Resume(c) =>
      if c in cl.calls && cl.calls[c].pc.Awaiting? && cl.calls[c].pc.refresh in cl.refreshes
         && cl.refreshes[cl.calls[c].pc.refresh].Cleared?
      then s.(client := OnResume(cl, c)) else s
    case SignIn(op) =>
      if op.Login? || op.Register?
      then s.(db := Do(cfg, s.db, op).db, arriving := s.arriving + if Do(cfg, s.db, op).outcome.Issued? then {op.next} else {})
      else s
    case SignedIn(token, access) =>
      if token in s.arriving
      then s.(client := cl.(storage := Some(token), access := Some(access)), arriving := s.arriving - {token}) else s
    case Elsewhere(op) => s.(db := Do(cfg, s.db, op).db)
  }

  ghost function Run(cfg: Config, s: State, steps: seq<Step>): State
    decreases |steps|
  {
    if steps == [] then s else Run(cfg, Apply(cfg, s, steps[0]), steps[1..])
  }

  lemma {:induction false} RunSnoc(cfg: Config, s: State, steps: seq<Step>, step: Step)
    ensures Run(cfg, s, steps + [step]) == Apply(cfg, Run(cfg, s, steps), step)
    decreases |steps|
  {
    if steps == [] {
      assert [step][1..] == [];
      assert Run(cfg, s, [step]) == Run(cfg, Apply(cfg, s, step), []);
      assert [] + [step] == [step];
    } else {
      assert (steps + [step])[1..] == steps[1..] + [step];
      RunSnoc(cfg, Apply(cfg, s, steps[0]), steps[1..], step);
    }
  }

  // --- One refresh at a time -------------------------------------------------------------------

  predicate CallOk(cl: Client, c: nat) {
    c in cl.calls && (cl.calls[c].pc.Awaiting? ==> cl.calls[c].pc.refresh in cl.refreshes)
  }

  /** A call that can still retry has sent one request; a retry is the second. */
  predicate SentOk(call: Call) {
    match call.pc
    case Requesting(retry, _) => call.sent == if retry then 2 else 1
    case Responding(retry, _) => call.sent == if retry then 2 else 1
    case Awaiting(_, thenRetry) => call.sent == if thenRetry then 1 else 0
    case Done(_) => call.sent <= 2
  }

  predicate RefreshOk(cl: Client, p: nat) {
    p in cl.refreshes && p < cl.nextRefresh && (cl.refreshes[p].Cleared? <==> cl.current != Some(p))
  }

  /** refreshPromise names the only refresh that has not been cleared. */
  ghost predicate SingleFlight(cl: Client) {
    && (forall c :: c in cl.calls ==> CallOk(cl, c) && SentOk(cl.calls[c]))
    && (forall p :: p in cl.refreshes ==> RefreshOk(cl, p))
    && (cl.current.Some? ==> cl.current.value in cl.refreshes)
  }

  lemma CallStaysOk(cfg: Config, s: State, step: Step, c: nat)
    requires SingleFlight(s.client) && c in Apply(cfg, s, step).client.calls
    ensures var after := Apply(cfg, s, step).client; CallOk(after, c) && SentOk(after.calls[c])
  {
    if c in s.client.calls { assert CallOk(s.client, c) && SentOk(s.client.calls[c]); }
  }

  lemma RefreshStaysOk(cfg: Config, s: State, step: Step, p: nat)
    requires SingleFlight(s.client) && p in Apply(cfg, s, step).client.refreshes
    ensures RefreshOk(Apply(cfg, s, step).client, p)
  {
    assert forall q :: q in s.client.refreshes ==> RefreshOk(s.client, q);
  }

  lemma CurrentStays(cfg: Config, s: State, step: Step)
    requires SingleFlight(s.client)
    ensures var after := Apply(cfg, s, step).client; after.current.Some? ==> after.current.value in after.refreshes
  {
  }

  lemma ClientStepKeeps(cfg: Config, s: State, step: Step)
    requires SingleFlight(s.client)
    ensures SingleFlight(Apply(cfg, s, step).client)
  {
    var after := Apply(cfg, s, step).client;
    CurrentStays(cfg, s, step);
    forall c | c in after.calls ensures CallOk(after, c) && SentOk(after.calls[c]) {
      CallStaysOk(cfg, s, step, c);
    }
    forall p | p in after.refreshes ensures RefreshOk(after, p) {
      RefreshStaysOk(cfg, s, step, p);
    }
  }

  lemma {:induction false} RunSingleFlight(cfg: Config, s: State, steps: seq<Step>)
    requires SingleFlight(s.client)
    ensures SingleFlight(Run(cfg, s, steps).client)
    decreases |steps|
  {
    if steps != [] {
      ClientStepKeeps(cfg, s, steps[0]);
      RunSingleFlight(cfg, Apply(cfg, s, steps[0]), steps[1..]);
    }
  }

  const FRESH_CLIENT := Client(None, None, None, map[], 0, map[])

  /** In every run, failures included, no call ever sends a third request. */
  lemma AtMostTwoRequests(cfg: Config, db: Db, steps: seq<Step>, c: nat)
    ensures var calls := Run(cfg, State(FRESH_CLIENT, db, {}), steps).client.calls; c in calls ==> calls[c].sent <= 2
  {
    RunSingleFlight(cfg, State(FRESH_CLIENT, db, {}), steps);
    var cl := Run(cfg, State(FRESH_CLIENT, db, {}), steps).client;
    assert c in cl.calls ==> SentOk(cl.calls[c]);
  }
}
