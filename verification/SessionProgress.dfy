/**
 Every call of apiFetch ends: each answer, resumption or failure lowers a rank,
 and while a call is open some such step is possible.
 */
module SessionProgress {
  import opened Wrappers
  import opened AuthTables
  import opened RefreshTokens
  import opened SessionClient
  import opened SessionSafety

  function CallRank(call: Call): nat {
    match call.pc
    case Requesting(retry, _) => if retry then 2 else 8
    case Responding(retry, _) => if retry then 1 else 7
    case Awaiting(_, thenRetry) => if thenRetry then 3 else 1
    case Done(_) => 0
  }

  function RefreshRank(r: SessionClient.Refresh): nat {
    match r
    case Posting(_) => 3
    case Replied(_, _) => 2
    case Settled(_) => 1
    case Cleared(_) => 0
  }

  function Calls(calls: map<nat, Call>, n: nat): nat {
    if n == 0 then 0 else Calls(calls, n - 1) + if n - 1 in calls then CallRank(calls[n - 1]) else 0
  }

  function Rank(cl: Client, n: nat): nat {
    Calls(cl.calls, n) + if InFlight(cl).Some? then RefreshRank(InFlight(cl).value) else 0
  }

  lemma {:induction false} CallChanges(calls: map<nat, Call>, c: nat, call: Call, n: nat)
    requires c in calls
    ensures Calls(calls[c := call], n) == Calls(calls, n) + if c < n then CallRank(call) - CallRank(calls[c]) else 0
  {
    if n > 0 {
      CallChanges(calls, c, call, n - 1);
    }
  }

  /** What can happen to calls and refreshes already begun. */
  predicate Continues(step: Step) {
    step.Serve? || step.Drop? || step.Receive? || step.ServeRefresh? || step.LoseRefresh? || step.ReceiveRefresh?
    || step.Finally? || step.Resume?
  }

  ghost predicate Effective(cfg: Config, s: State, step: Step) {
    Continues(step) && Apply(cfg, s, step) != s
  }

  predicate Below(cl: Client, n: nat) {
    forall c :: c in cl.calls ==> c < n
  }

  lemma CallStepLowers(cfg: Config, s: State, step: Step, n: nat)
    requires SingleFlight(s.client) && Below(s.client, n) && Effective(cfg, s, step)
    requires step.Serve? || step.Drop? || step.Receive? || step.Resume?
    ensures Rank(Apply(cfg, s, step).client, n) < Rank(s.client, n)
  {
    var c := step.call;
    CallChanges(s.client.calls, c, Apply(cfg, s, step).client.calls[c], n);
    assert CallOk(s.client, c);
  }

  lemma RefreshStepLowers(cfg: Config, s: State, step: Step, n: nat)
    requires SingleFlight(s.client) && Effective(cfg, s, step)
    requires step.ServeRefresh? || step.LoseRefresh? || step.ReceiveRefresh? || step.Finally?
    ensures Rank(Apply(cfg, s, step).client, n) < Rank(s.client, n)
  {
    assert RefreshOk(s.client, step.refresh);
  }

  /** Every continuation that does anything lowers the rank; nothing else but a new call raises it. */
  lemma ContinuationsLowerRank(cfg: Config, s: State, step: Step, n: nat)
    requires SingleFlight(s.client) && Below(s.client, n) && !step.Fetch? && !step.Bootstrap?
    ensures var t := Apply(cfg, s, step);
            && Below(t.client, n)
            && (if Effective(cfg, s, step) then Rank(t.client, n) < Rank(s.client, n) else Rank(t.client, n) == Rank(s.client, n))
  {
    var t := Apply(cfg, s, step);
    assert t.client.calls.Keys == s.client.calls.Keys;
    assert Below(t.client, n) by {
      assert forall c :: c in t.client.calls ==> c in s.client.calls.Keys;
    }
    if Effective(cfg, s, step) {
      if step.Serve? || step.Drop? || step.Receive? || step.Resume? {
        CallStepLowers(cfg, s, step, n);
      } else {
        RefreshStepLowers(cfg, s, step, n);
      }
    }
  }

  ghost predicate Open(cl: Client) {
    exists c :: c in cl.calls && !cl.calls[c].pc.Done?
  }

  /** The step some open call is waiting for; none of them needs a failure. */
  lemma SomethingCanHappen(cfg: Config, s: State) returns (step: Step)
    requires SingleFlight(s.client) && Open(s.client)
    ensures Effective(cfg, s, step) && !step.LoseRefresh? && !step.Drop?
  {
    var c: nat :| c in s.client.calls && !s.client.calls[c].pc.Done?;
    assert CallOk(s.client, c);
    match s.client.calls[c].pc {
      case Requesting(_, _) => step := Serve(c, Success);
      case Responding(_, _) => step := Receive(c);
      case Done(_) =>
      case Awaiting(p, _) =>
        assert RefreshOk(s.client, p);
        match s.client.refreshes[p] {
          case Posting(_) => step := ServeRefresh(p, "", "", Early, 0);
          case Replied(_, _) => step := ReceiveRefresh(p);
          case Settled(_) => step := Finally(p);
          case Cleared(_) => step := Resume(c);
        }
    }
    var cl, after := s.client, Apply(cfg, s, step).client;
    if step.Serve? || step.Receive? || step.Resume? {
      assert after.calls[c].pc != cl.calls[c].pc;
    } else {
      assert after.refreshes[step.refresh] != cl.refreshes[step.refresh];
    }
  }

  ghost predicate EffectiveRun(cfg: Config, s: State, steps: seq<Step>)
    decreases |steps|
  {
    steps != [] ==> Effective(cfg, s, steps[0]) && EffectiveRun(cfg, Apply(cfg, s, steps[0]), steps[1..])
  }

  /** However calls, answers and failures interleave, what is under way is over after at most Rank steps. */
  lemma {:induction false} EffectiveRunsAreShort(cfg: Config, s: State, steps: seq<Step>, n: nat)
    requires SingleFlight(s.client) && Below(s.client, n) && EffectiveRun(cfg, s, steps)
    ensures |steps| <= Rank(s.client, n)
    decreases |steps|
  {
    if steps != [] {
      ContinuationsLowerRank(cfg, s, steps[0], n);
      ClientStepKeeps(cfg, s, steps[0]);
      EffectiveRunsAreShort(cfg, Apply(cfg, s, steps[0]), steps[1..], n);
    }
  }

  /** And a run that cannot go on has answered every call. */
  lemma StuckMeansDone(cfg: Config, s: State)
    requires SingleFlight(s.client)
    requires forall step :: !Effective(cfg, s, step)
    ensures forall c :: c in s.client.calls ==> s.client.calls[c].pc.Done?
  {
    if Open(s.client) {
      var step := SomethingCanHappen(cfg, s);
    }
  }
}
