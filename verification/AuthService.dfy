/**
 The auth service over its store: each method is proved to be the atomic call
 the token accounting speaks of.
 */
module AuthService {
  import opened Wrappers
  import opened AuthTables
  import opened RefreshTokens

  /** The access token is left out; refresh is the token handed to the client. */
  datatype AuthResponse = AuthResponse(user: nat, refresh: string)

  /** What the caller sees of an outcome that was to hand out the token next. */
  function Response(outcome: Outcome, next: string): Result<AuthResponse, AuthError>
    requires !outcome.LoggedOut?
  {
    if outcome.Issued? then Ok(AuthResponse(outcome.user, next)) else Err(outcome.error)
  }

  class AuthService {
    const store: AuthStore
    const cfg: Config

    constructor (store: AuthStore, cfg: Config)
      ensures this.store == store && this.cfg == cfg
    {
      this.store, this.cfg := store, cfg;
    }

    method IssueTokens(user: nat, next: string, fault: Fault, now: int) returns (r: Result<AuthResponse, AuthError>)
      modifies store
      ensures var t := Issue(cfg, old(store.View()), user, next, fault, now);
              store.View() == t.db && r == Response(t.outcome, next)
    {
      if fault == Late {
        return Err(Internal);
      }
      var ok := store.CreateRefreshToken(user, cfg.hash(next), now + cfg.ttl);
      if !ok {
        return Err(Internal);
      }
      r := Ok(AuthResponse(user, next));
    }

    method Register(email: string, password: string, displayName: string, next: string, fault: Fault, now: int)
      returns (r: Result<AuthResponse, AuthError>)
      requires DbInv(store.View())
      modifies store
      ensures var t := Do(cfg, old(store.View()), Op.Register(email, password, displayName, next, fault, now));
              store.View() == t.db && r == Response(t.outcome, next) && DbInv(t.db)
    {
      CallKeeps(cfg, store.View(), Op.Register(email, password, displayName, next, fault, now));
      if !cfg.registrationEnabled {
        return Err(RegistrationDisabled);
      }
      if |password| < MIN_PASSWORD_LEN {
        return Err(WeakPassword);
      }
      if fault == Early {
        return Err(Internal);
      }
      var isAdmin := |store.users| == 0;
      var user := store.AddUser(email, password, displayName, isAdmin);
      if user == None {
        return Err(EmailInUse);
      }
      r := IssueTokens(user.value, next, fault, now);
    }

    method Login(email: string, password: string, next: string, fault: Fault, now: int)
      returns (r: Result<AuthResponse, AuthError>)
      requires DbInv(store.View())
      modifies store
      ensures var t := Do(cfg, old(store.View()), Op.Login(email, password, next, fault, now));
              store.View() == t.db && r == Response(t.outcome, next) && DbInv(t.db)
    {
      CallKeeps(cfg, store.View(), Op.Login(email, password, next, fault, now));
      if fault == Early {
        return Err(Internal);
      }
      var user := store.GetUserByEmail(email);
      if user == None {
        return Err(InvalidCredentials);
      }
      assert forall u :: u in store.users && store.users[u].email == email ==>
        SameEmail(store.users[u], store.users[user.value]);
      if store.users[user.value].password != password {
        return Err(InvalidCredentials);
      }
      r := IssueTokens(user.value, next, fault, now);
    }

    method Refresh(token: string, next: string, fault: Fault, now: int) returns (r: Result<AuthResponse, AuthError>)
      requires DbInv(store.View())
      modifies store
      ensures var t := Do(cfg, old(store.View()), Op.Refresh(token, next, fault, now));
              store.View() == t.db && r == Response(t.outcome, next) && DbInv(t.db)
    {
      CallKeeps(cfg, store.View(), Op.Refresh(token, next, fault, now));
      if fault == Early {
        return Err(Internal);
      }
      var existing := store.FindActiveRefreshToken(cfg.hash(token), now);
      if existing == None {
        return Err(InvalidCredentials);
      }
      var user := store.tokens[existing.value].user;
      store.RevokeRefreshToken(existing.value, now);
      r := IssueTokens(user, next, fault, now);
    }

    method Logout(token: string, fault: Fault, now: int) returns (ok: bool)
      requires DbInv(store.View())
      modifies store
      ensures var t := Do(cfg, old(store.View()), Op.Logout(token, fault, now));
              store.View() == t.db && (ok <==> t.outcome.LoggedOut?) && DbInv(t.db)
    {
      CallKeeps(cfg, store.View(), Op.Logout(token, fault, now));
      if fault != NoFault {
        return false;
      }
      var existing := store.FindActiveRefreshToken(cfg.hash(token), now);
      if existing.Some? {
        store.RevokeRefreshToken(existing.value, now);
      }
      ok := true;
    }
  }
}
