/**
 The client module as it is written: local storage, the session store and the
 module-level promise, updated between awaits by the continuations below.  The
 ghost trace records each of them as a step of SessionClient together with what
 the server and other sessions did in between, so what is proved about runs
 holds of the fields of every object that was driven through these methods.
 */
module ApiClient {
  import opened Wrappers
  import opened AuthTables
  import opened RefreshTokens
  import opened SessionClient
  import opened SessionSafety

  class ApiClient {
    ghost const cfg: Config
    ghost const start: State
    ghost var state: State
    ghost var trace: seq<Step>

    var refreshToken: Option<string>
    var accessToken: Option<string>
    var refreshPromise: Option<nat>
    var refreshes: map<nat, SessionClient.Refresh>
    var nextRefresh: nat
    var calls: map<nat, Call>

    ghost function View(): Client
      reads this
    {
      Client(refreshToken, accessToken, refreshPromise, refreshes, nextRefresh, calls)
    }

    /** The fields are the browser's part of what the recorded run from the page load leads to. */
    ghost predicate Valid()
      reads this
    {
      && start == Loaded(start.client.storage, start.db)
      && state == SessionClient.Run(cfg, start, trace)
      && View() == state.client
    }

    /** The page was loaded with a good token, and no recorded step broke the session. */
    ghost predicate Unbroken()
      reads this
    {
      && DbInv(start.db) && (start.client.storage.Some? ==> Unspent(start.db, cfg.hash(start.client.storage.value)))
      && CleanRun(cfg, start, trace)
    }

    /** A page load: only local storage survives. */
    constructor (stored: Option<string>, ghost cfg: Config, ghost db: Db)
      ensures Valid() && trace == [] && start == Loaded(stored, db) && this.cfg == cfg && refreshToken == stored
    {
      refreshToken, accessToken, refreshPromise := stored, None, None;
      refreshes, nextRefresh, calls := map[], 0, map[];
      this.cfg, start, state, trace := cfg, Loaded(stored, db), Loaded(stored, db), [];
    }

    /** Records a step whose effect on the browser has been, or is about to be, carried out. */
    ghost method Commit(step: Step)
      requires state == SessionClient.Run(cfg, start, trace)
      modifies this`state, this`trace
      ensures trace == old(trace) + [step] && state == Apply(cfg, old(state), step)
      ensures state == SessionClient.Run(cfg, start, trace)
    {
      RunSnoc(cfg, start, trace, step);
      state := Apply(cfg, state, step);
      trace := trace + [step];
    }

    // --- What holds of the object at any time ------------------------------------------------

    /** Every refresh that has not been cleared is the one the promise stands for. */
    lemma OneRefreshAtATime()
      requires Valid()
      ensures forall p :: p in refreshes && !refreshes[p].Cleared? ==> refreshPromise == Some(p)
      ensures refreshPromise.Some? ==> refreshPromise.value in refreshes && !refreshes[refreshPromise.value].Cleared?
    {
      RunSingleFlight(cfg, start, trace);
      forall p | p in refreshes ensures !refreshes[p].Cleared? ==> refreshPromise == Some(p) {
        assert RefreshOk(state.client, p);
      }
      if refreshPromise.Some? { assert RefreshOk(state.client, refreshPromise.value); }
    }

    lemma NeverThreeRequests(c: nat)
      requires Valid() && c in calls
      ensures calls[c].sent <= 2
    {
      RunSingleFlight(cfg, start, trace);
      assert SentOk(state.client.calls[c]);
    }

    /** No refresh is under way, or it has settled. */
    predicate AtRest()
      reads this
    {
      forall p :: p in refreshes ==> refreshes[p].Settled? || refreshes[p].Cleared?
    }

    /** In an unbroken session no request carries a rotated token, and a token at rest is a good one. */
    lemma TokensAreGood()
      requires Valid() && Unbroken()
      ensures forall p :: p in refreshes && refreshes[p].Posting? ==> Unspent(state.db, cfg.hash(refreshes[p].token))
      ensures refreshToken.Some? && AtRest() ==> Unspent(state.db, cfg.hash(refreshToken.value))
    {
      OneRefreshAtATime();
      NeverPresentsRotatedToken(cfg, start.client.storage, start.db, trace);
      RunSafe(cfg, start, trace);
    }

    // --- The module's own code -----------------------------------------------------------------

    /** performRefresh up to its await: without a stored token it rejects at once. */
    method PerformRefresh() returns (p: nat)
      modifies this`refreshes, this`nextRefresh
      ensures p == old(nextRefresh) && nextRefresh == p + 1
      ensures refreshes == old(refreshes)[p := if refreshToken == None then Settled(Denied) else Posting(refreshToken.value)]
    {
      p := nextRefresh;
      nextRefresh := nextRefresh + 1;
      if refreshToken == None {
        refreshes := refreshes[p := Settled(Denied)];
      } else {
        refreshes := refreshes[p := Posting(refreshToken.value)];
      }
    }

    method RefreshOnce() returns (p: nat)
      modifies this`refreshes, this`nextRefresh, this`refreshPromise
      ensures View() == SessionClient.RefreshOnce(old(View())) && p == Joined(old(View()))
      ensures refreshPromise == Some(p)
    {
      if refreshPromise == None {
        p := PerformRefresh();
        refreshPromise := Some(p);
      }
      p := refreshPromise.value;
    }

    /**
     refreshSession up to its await: the call waits for the one refresh under way, joined if there
     was one, and what a new one posts is a good token.
     */
    method RefreshSession(c: nat)
      requires Valid() && c !in calls
      modifies this
      ensures Valid() && trace == old(trace) + [Bootstrap(c)]
      ensures refreshPromise.Some? && c in calls && calls[c] == Call(Awaiting(refreshPromise.value, false), 0)
      ensures old(refreshPromise).Some? ==> refreshPromise == old(refreshPromise) && refreshes == old(refreshes)
      ensures forall p :: p in refreshes && !refreshes[p].Cleared? ==> p == refreshPromise.value
      ensures Unbroken() && old(refreshPromise) == None && refreshToken.Some? ==> PostsGoodToken(refreshPromise.value)
    {
      var p := RefreshOnce();
      calls := calls[c := Call(Awaiting(p, false), 0)];
      Commit(Bootstrap(c));
      OneRefreshAtATime();
      if Unbroken() { TokensAreGood(); }
    }

    ghost predicate PostsGoodToken(p: nat)
      reads this
    {
      p in refreshes && refreshes[p].Posting? && Unspent(state.db, cfg.hash(refreshes[p].token))
    }

    /** apiFetch up to its first await. */
    method ApiFetch(c: nat)
      requires Valid() && c !in calls
      modifies this`calls, this`state, this`trace
      ensures Valid() && trace == old(trace) + [Fetch(c)]
      ensures c in calls && calls[c].sent == 1 && calls[c].pc == Requesting(false, accessToken)
    {
      calls := calls[c := Call(Requesting(false, accessToken), 1)];
      Commit(Fetch(c));
    }

    /** The server's answer to a request arrives. */
    method Answered(c: nat, status: Status)
      requires Valid() && c in calls && calls[c].pc.Requesting?
      modifies this`calls, this`state, this`trace
      ensures Valid() && trace == old(trace) + [Serve(c, status)]
      ensures c in calls && calls[c].pc == Responding(old(calls)[c].pc.retry, status)
    {
      calls := calls[c := calls[c].(pc := Responding(calls[c].pc.retry, status))];
      Commit(Serve(c, status));
    }

    /** fetch rejects, or the body cannot be read. */
    method RequestLost(c: nat)
      requires Valid() && c in calls && (calls[c].pc.Requesting? || calls[c].pc.Responding?)
      modifies this`calls, this`state, this`trace
      ensures Valid() && trace == old(trace) + [Drop(c)]
      ensures c in calls && calls[c].pc == Done(OtherStatus) && calls[c].sent == old(calls)[c].sent
    {
      calls := calls[c := calls[c].(pc := Done(OtherStatus))];
      Commit(Drop(c));
    }

    /** apiFetch once its response is there: only a first 401, with a token in storage, is retried. */
    method OnResponse(c: nat)
      requires Valid() && c in calls && calls[c].pc.Responding?
      modifies this
      ensures Valid() && trace == old(trace) + [Receive(c)]
      ensures c in calls
      ensures calls[c].pc.Awaiting? <==>
                old(calls)[c].pc.status == Unauthorized && !old(calls)[c].pc.retry && old(refreshToken).Some?
      ensures calls[c].pc.Awaiting? ==> refreshPromise == Some(calls[c].pc.refresh) && calls[c].sent == 1
      ensures !calls[c].pc.Awaiting? ==> calls[c].pc == Done(old(calls)[c].pc.status) && refreshes == old(refreshes)
      ensures Unbroken() && calls[c].pc.Awaiting? && old(refreshPromise) == None ==> PostsGoodToken(calls[c].pc.refresh)
    {
      RunSingleFlight(cfg, start, trace);
      assert SentOk(state.client.calls[c]);
      var call := calls[c];
      if call.pc.status == Unauthorized && !call.pc.retry && refreshToken.Some? {
        var p := RefreshOnce();
        calls := calls[c := call.(pc := Awaiting(p, true))];
        Commit(Receive(c));
        if Unbroken() { TokensAreGood(); }
        return;
      }
      calls := calls[c := call.(pc := Done(call.pc.status))];
      Commit(Receive(c));
    }

    /** The server's answer to a refresh arrives, whatever the server's own step was. */
    method RefreshAnswered(p: nat, reply: Reply, ghost step: Step)
      requires Valid() && p in refreshes && refreshes[p].Posting?
      requires step.ServeRefresh? && step.refresh == p
      requires Apply(cfg, state, step).client.refreshes[p] == Replied(refreshes[p].token, reply)
      modifies this`refreshes, this`state, this`trace
      ensures Valid() && trace == old(trace) + [step]
      ensures p in refreshes && refreshes[p] == Replied(old(refreshes)[p].token, reply)
    {
      refreshes := refreshes[p := Replied(refreshes[p].token, reply)];
      Commit(step);
    }

    /** fetch rejects, or the answer cannot be read. */
    method RefreshLost(p: nat)
      requires Valid() && p in refreshes && (refreshes[p].Posting? || refreshes[p].Replied?)
      modifies this`refreshes, this`state, this`trace
      ensures Valid() && trace == old(trace) + [LoseRefresh(p)]
      ensures Unbroken() && refreshToken.Some? ==> Unspent(state.db, cfg.hash(refreshToken.value))
    {
      OneRefreshAtATime();
      refreshes := refreshes[p := Settled(Broken)];
      Commit(LoseRefresh(p));
      if Unbroken() { TokensAreGood(); }
    }

    /** performRefresh once its reply is there: storage is written before anybody is told. */
    method OnReply(p: nat)
      requires Valid() && p in refreshes && refreshes[p].Replied?
      modifies this`refreshes, this`refreshToken, this`accessToken, this`state, this`trace
      ensures Valid() && trace == old(trace) + [ReceiveRefresh(p)]
      ensures p in refreshes && refreshes[p].Settled?
      ensures refreshes[p].verdict == Renewed <==> old(refreshes)[p].reply.Tokens?
      ensures refreshes[p].verdict == Renewed ==> old(refreshes)[p].reply == Tokens(accessToken.GetOr(""), refreshToken.GetOr(""))
      ensures refreshes[p].verdict != Renewed ==> refreshToken == old(refreshToken) && accessToken == old(accessToken)
      ensures Unbroken() && refreshToken.Some? ==> Unspent(state.db, cfg.hash(refreshToken.value))
    {
      OneRefreshAtATime();
      match refreshes[p].reply {
        case Tokens(access, refresh) =>
          refreshToken := Some(refresh);
          accessToken := Some(access);
          refreshes := refreshes[p := Settled(Renewed)];
        case Refused(status) =>
          refreshes := refreshes[p := Settled(if status == Unauthorized then Denied else Broken)];
      }
      Commit(ReceiveRefresh(p));
      if Unbroken() { TokensAreGood(); }
    }

    /** The finally callback, which runs before anybody who awaits the promise. */
    method OnFinally(p: nat)
      requires Valid() && p in refreshes && refreshes[p].Settled?
      modifies this`refreshes, this`refreshPromise, this`state, this`trace
      ensures Valid() && trace == old(trace) + [Finally(p)]
      ensures old(refreshPromise) == Some(p) && refreshPromise == None
      ensures forall q :: q in refreshes ==> refreshes[q].Cleared?
      ensures Unbroken() && refreshToken.Some? ==> Unspent(state.db, cfg.hash(refreshToken.value))
    {
      OneRefreshAtATime();
      refreshPromise := None;
      refreshes := refreshes[p := Cleared(refreshes[p].verdict)];
      Commit(Finally(p));
      OneRefreshAtATime();
      if Unbroken() { TokensAreGood(); }
    }

    /** The rest of refreshSession, and the one retry of apiFetch after it. */
    method OnResume(c: nat)
      requires Valid() && c in calls && calls[c].pc.Awaiting?
      requires calls[c].pc.refresh in refreshes && refreshes[calls[c].pc.refresh].Cleared?
      modifies this`calls, this`refreshToken, this`accessToken, this`state, this`trace
      ensures Valid() && trace == old(trace) + [Resume(c)]
      ensures c in calls && calls[c].sent <= 2
      ensures calls[c].pc.Done? || calls[c] == Call(Requesting(true, accessToken), 2)
      ensures calls[c].pc == Done(Unauthorized) <==> refreshes[old(calls)[c].pc.refresh].verdict != Renewed
      ensures refreshToken != old(refreshToken) ==> refreshToken == None && refreshes[old(calls)[c].pc.refresh].verdict == Denied
    {
      RunSingleFlight(cfg, start, trace);
      assert SentOk(state.client.calls[c]);
      var call := calls[c];
      var verdict := refreshes[call.pc.refresh].verdict;
      if verdict != Renewed {
        if verdict == Denied {
          refreshToken := None;
        }
        accessToken := None;
        calls := calls[c := call.(pc := Done(Unauthorized))];
        Commit(Resume(c));
        return;
      }
      if call.pc.thenRetry {
        calls := calls[c := Call(Requesting(true, accessToken), call.sent + 1)];
      } else {
        calls := calls[c := call.(pc := Done(Success))];
      }
      Commit(Resume(c));
    }

    /** The login page stores the session it was handed. */
    method StoreSession(token: string, access: string)
      requires Valid() && token in state.arriving
      modifies this`refreshToken, this`accessToken, this`state, this`trace
      ensures Valid() && trace == old(trace) + [SignedIn(token, access)]
      ensures Unbroken() ==> Unspent(state.db, cfg.hash(token))
    {
      if old(Unbroken()) { SignedInGood(token); }
      refreshToken := Some(token);
      accessToken := Some(access);
      Commit(SignedIn(token, access));
      assert trace[..|trace| - 1] == old(trace);
      if Unbroken() { CleanPrefix(cfg, start, old(trace), SignedIn(token, access)); }
    }

    lemma SignedInGood(token: string)
      requires Valid() && Unbroken() && token in state.arriving
      ensures Unspent(state.db, cfg.hash(token))
    {
      RunSafe(cfg, start, trace);
      assert ArrivalOk(cfg, state.client, state.db, token);
    }

    /** A sign-in reaches the server, or another session calls it. */
    ghost method Meanwhile(step: Step)
      requires Valid() && (step.SignIn? || step.Elsewhere?)
      modifies this`state, this`trace
      ensures Valid() && trace == old(trace) + [step]
    {
      Commit(step);
    }
  }

  lemma {:induction false} CleanPrefix(cfg: Config, s: State, steps: seq<Step>, step: Step)
    requires CleanRun(cfg, s, steps + [step])
    ensures CleanRun(cfg, s, steps)
    decreases |steps|
  {
    if steps != [] {
      assert (steps + [step])[1..] == steps[1..] + [step];
      CleanPrefix(cfg, Apply(cfg, s, steps[0]), steps[1..], step);
    }
  }
}
