/** The browser-side e-mail/password session store: an in-memory token,
    e-mail and expiry, mirrored into two key/value storage tiers —
    `sessionStorage` (lives as long as the tab, no expiry) and
    `localStorage` (the "remember me" token with an expiry timestamp in
    ms, and the e-mail of the latest login of either kind). The
    remote authentication service is an oracle: each of its endpoints is a
    function from the arguments to a reply that is either a value or an
    error (a rejected promise). */
module EmailAuth {
  import opened JsValues

  const TOKEN_KEY := "auth_token"
  const EMAIL_KEY := "auth_email"
  const EXPIRY_KEY := "auth_expiry"

  /** How long a remembered login lasts: 30 days in milliseconds. */
  const REMEMBER_MS := 30 * 24 * 60 * 60 * 1000

  const NOT_AUTHENTICATED := "Not authenticated"
  const PRINCIPAL_ERROR := "Error retrieving principal"

  /** What an awaited remote call gives back: its value, or an exception. */
  datatype Reply<+T> = Ok(value: T) | Err

  /** The answers the remote auth service gives during one operation.
      `login` answers with a Candid `opt text`: None is `[]`, Some(t) is `[t]`.
      A client that could not be created is an actor whose every reply is Err. */
  datatype AuthActor = AuthActor(
    register: (string, string) -> Reply<bool>,
    login: (string, string) -> Reply<Option<string>>,
    logout: string -> Reply<bool>,
    verifySession: string -> Reply<bool>,
    getPrincipalFromToken: string -> Reply<string>,
    requestPasswordReset: string -> Reply<bool>,
    resetPassword: (string, string, string) -> Reply<bool>)

  /** A call attempted on the remote auth service. */
  datatype Request =
    | RegisterCall(email: string, password: string)
    | LoginCall(email: string, password: string)
    | LogoutCall(token: string)
    | VerifySessionCall(token: string)
    | PrincipalCall(token: string)
    | PasswordResetRequestCall(email: string)
    | ResetPasswordCall(email: string, resetToken: string, newPassword: string)

  /** The whole state the service reads and writes: its three fields and
      the two storage tiers. */
  datatype AuthState = AuthState(
    token: Option<string>,
    email: Option<string>,
    expiryTime: Number,
    session: map<string, string>,
    local: map<string, string>)

  /** `storage.getItem(k)`. */
  function Get(m: map<string, string>, k: string): (v: Option<string>) {
    if k in m then Some(m[k]) else None
  }

  /** `isAuthenticated()`: the in-memory token is truthy; expiry is not consulted. */
  predicate Authenticated(s: AuthState) {
    Truthy(s.token)
  }

  /** localStorage holds a truthy token and a truthy expiry. */
  predicate HasDurableRecord(local: map<string, string>) {
    Truthy(Get(local, TOKEN_KEY)) && Truthy(Get(local, EXPIRY_KEY))
  }

  /** The durable record exists and `now` is strictly past its expiry. */
  predicate DurableExpired(local: map<string, string>, now: int) {
    HasDurableRecord(local) && Greater(now, ParseInt(local[EXPIRY_KEY]))
  }

  /** `clearStoredTokens()`: remove the session token and the three durable
      keys, and reset the fields to null/null/0. */
  function Cleared(s: AuthState): (c: AuthState)
    ensures TOKEN_KEY !in c.session
    ensures TOKEN_KEY !in c.local && EMAIL_KEY !in c.local && EXPIRY_KEY !in c.local
    ensures forall k :: k != TOKEN_KEY ==> Get(c.session, k) == Get(s.session, k)
    ensures forall k :: k != TOKEN_KEY && k != EMAIL_KEY && k != EXPIRY_KEY ==>
              Get(c.local, k) == Get(s.local, k)
    ensures c.token == None && c.email == None && c.expiryTime == Int(0)
    ensures !Authenticated(c)
  {
    AuthState(None, None, Int(0),
              s.session - {TOKEN_KEY},
              s.local - {TOKEN_KEY, EMAIL_KEY, EXPIRY_KEY})
  }

  /** The token `getStoredToken()` returns and the state it leaves behind. */
  datatype Lookup = Lookup(token: Option<string>, state: AuthState)

  /** `getStoredToken()` at time `now`. */
  function LookupToken(s: AuthState, now: int): (r: Lookup)
    // whatever is returned is a truthy token
    ensures r.token.Some? ==> r.token.value != ""
    // a session token wins, and localStorage is not consulted
    ensures Truthy(Get(s.session, TOKEN_KEY)) ==> r == Lookup(Get(s.session, TOKEN_KEY), s)
    // otherwise the durable token, exactly while it is present and unexpired
    ensures !Truthy(Get(s.session, TOKEN_KEY)) ==>
              (r.token.Some? <==> HasDurableRecord(s.local) && !DurableExpired(s.local, now)) &&
              (r.token.Some? ==> r.token == Get(s.local, TOKEN_KEY))
    // an expired durable record is evicted as by clearStoredTokens; otherwise nothing changes
    ensures r.state == if !Truthy(Get(s.session, TOKEN_KEY)) && DurableExpired(s.local, now)
                       then Cleared(s) else s
  {
    var sessionToken := Get(s.session, TOKEN_KEY);
    if Truthy(sessionToken) then Lookup(sessionToken, s)
    else if HasDurableRecord(s.local) then
      if Greater(now, ParseInt(s.local[EXPIRY_KEY])) then Lookup(None, Cleared(s))
      else Lookup(Get(s.local, TOKEN_KEY), s)
    else Lookup(None, s)
  }

  /** `setStoredToken(token, email, remember)` at time `now`. */
  function StoreToken(s: AuthState, token: string, email: string, remember: bool, now: int): (r: AuthState)
    ensures r.token == Some(token) && r.email == Some(email)
    ensures Get(r.local, EMAIL_KEY) == Some(email)
    // remember: the durable tier gets token, e-mail and an expiry 30 days ahead
    ensures remember ==>
              r.session == s.session &&
              Get(r.local, TOKEN_KEY) == Some(token) &&
              EXPIRY_KEY in r.local && ParseInt(r.local[EXPIRY_KEY]) == Int(now + REMEMBER_MS) &&
              r.expiryTime == Int(now + REMEMBER_MS)
    // forget: only the session tier gets the token; durable token, expiry and expiryTime stay
    ensures !remember ==>
              Get(r.session, TOKEN_KEY) == Some(token) &&
              Get(r.local, TOKEN_KEY) == Get(s.local, TOKEN_KEY) &&
              Get(r.local, EXPIRY_KEY) == Get(s.local, EXPIRY_KEY) &&
              r.expiryTime == s.expiryTime
    // no other key of either tier changes
    ensures forall k :: k != TOKEN_KEY ==> Get(r.session, k) == Get(s.session, k)
    ensures forall k :: k != TOKEN_KEY && k != EMAIL_KEY && k != EXPIRY_KEY ==>
              Get(r.local, k) == Get(s.local, k)
  {
    var expiry := now + REMEMBER_MS;
    if remember then
      ParseIntOfIntToString(expiry);
      AuthState(Some(token), Some(email), Int(expiry), s.session,
                s.local[TOKEN_KEY := token][EMAIL_KEY := email][EXPIRY_KEY := IntToString(expiry)])
    else
      AuthState(Some(token), Some(email), s.expiryTime, s.session[TOKEN_KEY := token],
                s.local[EMAIL_KEY := email])
  }

  /** The state right after `new EmailAuthService()` over the given storage. */
  function Initial(session: map<string, string>, local: map<string, string>, now: int): (s: AuthState)
    // authenticated exactly when a session token exists or the durable one is live
    ensures Authenticated(s) <==>
              Truthy(Get(session, TOKEN_KEY)) ||
              (HasDurableRecord(local) && !DurableExpired(local, now))
    // an expired durable record (with no session token) is purged and nothing is restored
    ensures !Truthy(Get(session, TOKEN_KEY)) && DurableExpired(local, now) ==>
              s == Cleared(AuthState(None, None, Int(0), session, local))
    // with nothing expired, storage is left as it was
    ensures !(!Truthy(Get(session, TOKEN_KEY)) && DurableExpired(local, now)) ==>
              s.session == session && s.local == local
    // the token restored: the session one first, then a live durable one
    ensures s.token == if Truthy(Get(session, TOKEN_KEY)) then Get(session, TOKEN_KEY)
                       else if HasDurableRecord(local) && !DurableExpired(local, now)
                       then Get(local, TOKEN_KEY) else None
    // e-mail and expiry come from localStorage whenever nothing was purged
    ensures !(!Truthy(Get(session, TOKEN_KEY)) && DurableExpired(local, now)) ==>
              s.email == (if Truthy(Get(local, EMAIL_KEY)) then Get(local, EMAIL_KEY) else None) &&
              s.expiryTime == (if Truthy(Get(local, EXPIRY_KEY)) then ParseInt(local[EXPIRY_KEY])
                               else Int(0))
  {
    var r := LookupToken(AuthState(None, None, Int(0), session, local), now);
    var storedEmail := Get(r.state.local, EMAIL_KEY);
    var storedExpiry := Get(r.state.local, EXPIRY_KEY);
    AuthState(r.token,
              if Truthy(storedEmail) then storedEmail else None,
              if Truthy(storedExpiry) then ParseInt(storedExpiry.value) else Int(0),
              r.state.session, r.state.local)
  }

  /** A remembered token is honoured in a tab without a session token up to
      and including its expiry instant, and evicted (as by clearStoredTokens)
      from the next millisecond on. */
  lemma RememberedTokenLifetime(s: AuthState, token: string, email: string, now: int,
                                tab: map<string, string>, later: int)
    requires token != ""
    requires !Truthy(Get(tab, TOKEN_KEY))
    ensures var s1 := StoreToken(s, token, email, true, now).(session := tab);
            var r := LookupToken(s1, later);
            (r.token == Some(token) <==> later <= now + REMEMBER_MS) &&
            (later <= now + REMEMBER_MS ==> r.state == s1) &&
            (later > now + REMEMBER_MS ==> r.token == None && r.state == Cleared(s1))
  {
  }

  /** Reloading the page after a remembered login restores token, e-mail and
      expiry until the expiry instant; afterwards it starts unauthenticated
      with the durable record purged. */
  lemma ReloadAfterRemember(s: AuthState, token: string, email: string, now: int,
                            tab: map<string, string>, later: int)
    requires token != ""
    requires !Truthy(Get(tab, TOKEN_KEY))
    ensures var local := StoreToken(s, token, email, true, now).local;
            var r := Initial(tab, local, later);
            (later <= now + REMEMBER_MS ==>
               r.token == Some(token) && Authenticated(r) &&
               r.email == (if email != "" then Some(email) else None) &&
               r.expiryTime == Int(now + REMEMBER_MS) &&
               r.local == local) &&
            (later > now + REMEMBER_MS ==>
               !Authenticated(r) && r.email == None && r.expiryTime == Int(0) &&
               TOKEN_KEY !in r.local && EXPIRY_KEY !in r.local && EMAIL_KEY !in r.local)
  {
  }

  /** A login without "remember me" keeps its token in the tab: a new tab (a
      fresh sessionStorage without a token) restores the token it would have
      restored before the login. The e-mail, however, is written to
      localStorage on every login, so that tab shows the new e-mail, beside a
      token that may belong to an earlier remembered login. */
  lemma SessionLoginStaysInTab(s: AuthState, token: string, email: string, now: int,
                               tab: map<string, string>, later: int)
    requires !Truthy(Get(tab, TOKEN_KEY))
    requires !DurableExpired(s.local, later)
    ensures LookupToken(StoreToken(s, token, email, false, now).(session := tab), later).token
            == LookupToken(s.(session := tab), later).token
    ensures var r := Initial(tab, StoreToken(s, token, email, false, now).local, later);
            r.token == Initial(tab, s.local, later).token &&
            r.email == (if email != "" then Some(email) else None)
  {
  }

  /** User A logs in with "remember me", then user B in the same browser
      without it: a new tab restores A's token under B's e-mail. */
  lemma TokenEmailMismatch(s: AuthState, tokenA: string, emailA: string,
                           tokenB: string, emailB: string, now: int,
                           tab: map<string, string>, later: int)
    requires tokenA != "" && emailB != ""
    requires !Truthy(Get(tab, TOKEN_KEY))
    requires later <= now + REMEMBER_MS
    ensures var afterA := StoreToken(s, tokenA, emailA, true, now);
            var afterB := StoreToken(afterA, tokenB, emailB, false, now);
            var r := Initial(tab, afterB.local, later);
            r.token == Some(tokenA) && r.email == Some(emailB)
  {
  }

  /** An `auth_expiry` that `parseInt` cannot read (NaN) never expires: since
      `now > NaN` is false, the durable token is restored at every instant. */
  lemma GarbageExpiryNeverExpires(s: AuthState, now: int)
    requires !Truthy(Get(s.session, TOKEN_KEY))
    requires HasDurableRecord(s.local) && ParseInt(s.local[EXPIRY_KEY]) == NaN
    ensures LookupToken(s, now) == Lookup(Get(s.local, TOKEN_KEY), s)
    ensures Authenticated(Initial(s.session, s.local, now))
  {
  }

  /** A second lookup at the same instant changes nothing more. */
  lemma LookupIdempotent(s: AuthState, now: int)
    ensures var r := LookupToken(s, now); LookupToken(r.state, now) == r
  {
  }

  /** A user's profile as `getUserProfile()` returns it; the `lastLogin`
      timestamp comes from the clock and is not modelled. */
  datatype Profile = Profile(email: Option<string>)

  class EmailAuthService {
    var token: Option<string>
    var email: Option<string>
    var expiryTime: Number
    /** The browser's `sessionStorage` and `localStorage`. */
    var sessionStorage: map<string, string>
    var localStorage: map<string, string>
    /** Every call attempted on the remote auth service, oldest first. */
    ghost var requests: seq<Request>

    function Model(): AuthState
      reads this
    {
      AuthState(token, email, expiryTime, sessionStorage, localStorage)
    }

    /** `new EmailAuthService()` over the storage the browser holds at time
        `now`. Creating the remote client is not modelled. */
    constructor (session: map<string, string>, local: map<string, string>, now: int)
      ensures Model() == Initial(session, local, now)
      ensures requests == []
    {
      token, email, expiryTime := None, None, Int(0);
      sessionStorage, localStorage := session, local;
      requests := [];
      new;
      var t := GetStoredToken(now);
      token := t;
      var storedEmail := Get(localStorage, EMAIL_KEY);
      email := if Truthy(storedEmail) then storedEmail else None;
      var storedExpiry := Get(localStorage, EXPIRY_KEY);
      expiryTime := if Truthy(storedExpiry) then ParseInt(storedExpiry.value) else Int(0);
    }

    method GetStoredToken(now: int) returns (t: Option<string>)
      modifies this
      ensures Lookup(t, Model()) == LookupToken(old(Model()), now)
      ensures requests == old(requests)
    {
      var sessionToken := Get(sessionStorage, TOKEN_KEY);
      if Truthy(sessionToken) {
        return sessionToken;
      }
      var localToken := Get(localStorage, TOKEN_KEY);
      var storedExpiry := Get(localStorage, EXPIRY_KEY);
      if Truthy(localToken) && Truthy(storedExpiry) {
        if Greater(now, ParseInt(storedExpiry.value)) {
          ClearStoredTokens();
          return None;
        }
        return localToken;
      }
      return None;
    }

    method SetStoredToken(t: string, e: string, remember: bool, now: int)
      modifies this
      ensures Model() == StoreToken(old(Model()), t, e, remember, now)
      ensures requests == old(requests)
    {
      token := Some(t);
      email := Some(e);
      if remember {
        var expiry := now + REMEMBER_MS;
        localStorage := localStorage[TOKEN_KEY := t];
        localStorage := localStorage[EMAIL_KEY := e];
        localStorage := localStorage[EXPIRY_KEY := IntToString(expiry)];
        expiryTime := Int(expiry);
      } else {
        sessionStorage := sessionStorage[TOKEN_KEY := t];
        localStorage := localStorage[EMAIL_KEY := e];
      }
    }

    method ClearStoredTokens()
      modifies this
      ensures Model() == Cleared(old(Model()))
      ensures requests == old(requests)
    {
      sessionStorage := sessionStorage - {TOKEN_KEY};
      localStorage := localStorage - {TOKEN_KEY};
      localStorage := localStorage - {EMAIL_KEY};
      localStorage := localStorage - {EXPIRY_KEY};
      assert localStorage.Keys == old(localStorage).Keys - {TOKEN_KEY, EMAIL_KEY, EXPIRY_KEY};
      token, email, expiryTime := None, None, Int(0);
    }

    method IsAuthenticated() returns (b: bool)
      ensures b == Authenticated(Model())
    {
      b := Truthy(token);
    }

    /** `checkAuthentication()`: ask the service whether the token is still
        valid; any other answer, or an error, logs out. The logout that the
        source starts without awaiting it is modelled as finishing here. */
    method CheckAuthentication(actor: AuthActor) returns (ok: bool)
      modifies this
      ensures ok <==> Truthy(old(token)) && actor.verifySession(old(token).value) == Ok(true)
      ensures !Truthy(old(token)) ==> Model() == old(Model()) && requests == old(requests)
      ensures ok ==> Model() == old(Model()) &&
                     requests == old(requests) + [VerifySessionCall(old(token).value)]
      ensures !ok && Truthy(old(token)) ==>
                Model() == Cleared(old(Model())) &&
                requests == old(requests) + [VerifySessionCall(old(token).value), LogoutCall(old(token).value)]
    {
      if !Truthy(token) {
        return false;
      }
      requests := requests + [VerifySessionCall(token.value)];
      var isValid := actor.verifySession(token.value);
      if isValid == Ok(true) {
        return true;
      }
      Logout(actor);
      return false;
    }

    /** `register(email, password)`: on success, log in without "remember me". */
    method Register(actor: AuthActor, e: string, password: string, now: int) returns (ok: bool)
      modifies this
      ensures ok <==> actor.register(e, password) == Ok(true) && actor.login(e, password).Ok? &&
                      actor.login(e, password).value.Some?
      ensures ok ==> Model() == StoreToken(old(Model()), actor.login(e, password).value.value, e, false, now)
      ensures !ok ==> Model() == old(Model())
      ensures requests == old(requests) + [RegisterCall(e, password)] +
                          (if actor.register(e, password) == Ok(true) then [LoginCall(e, password)] else [])
    {
      requests := requests + [RegisterCall(e, password)];
      var success := actor.register(e, password);
      if success == Ok(true) {
        ok := Login(actor, e, password, false, now);
      } else {
        ok := false;
      }
    }

    /** `login(email, password, remember)`: store the token exactly when the
        service answers with a non-empty option; otherwise change nothing. */
    method Login(actor: AuthActor, e: string, password: string, remember: bool, now: int) returns (ok: bool)
      modifies this
      ensures ok <==> actor.login(e, password).Ok? && actor.login(e, password).value.Some?
      ensures ok ==> Model() == StoreToken(old(Model()), actor.login(e, password).value.value, e, remember, now)
      ensures !ok ==> Model() == old(Model())
      ensures requests == old(requests) + [LoginCall(e, password)]
    {
      requests := requests + [LoginCall(e, password)];
      var tokenOpt := actor.login(e, password);
      if tokenOpt.Ok? && tokenOpt.value.Some? {
        SetStoredToken(tokenOpt.value.value, e, remember, now);
        return true;
      }
      return false;
    }

    /** `logout()`: tell the service when there is a token (its reply, error
        or not, is ignored), then clear everything. */
    method Logout(actor: AuthActor)
      modifies this
      ensures Model() == Cleared(old(Model()))
      ensures !Authenticated(Model())
      ensures requests == old(requests) + (if Truthy(old(token)) then [LogoutCall(old(token).value)] else [])
    {
      if Truthy(token) {
        requests := requests + [LogoutCall(token.value)];
        var _ := actor.logout(token.value);
      }
      ClearStoredTokens();
    }

    /** `getPrincipalId()`: a sentinel without a token, the service's answer
        with one, and another sentinel when the service fails. */
    method GetPrincipalId(actor: AuthActor) returns (p: string)
      modifies this`requests
      ensures !Truthy(token) ==> p == NOT_AUTHENTICATED && requests == old(requests)
      ensures Truthy(token) ==>
                requests == old(requests) + [PrincipalCall(token.value)] &&
                p == match actor.getPrincipalFromToken(token.value)
                     case Ok(principal) => principal
                     case Err => PRINCIPAL_ERROR
    {
      if !Truthy(token) {
        return NOT_AUTHENTICATED;
      }
      requests := requests + [PrincipalCall(token.value)];
      var reply := actor.getPrincipalFromToken(token.value);
      match reply
      case Ok(principal) => p := principal;
      case Err => p := PRINCIPAL_ERROR;
    }

    /** `requestPasswordReset(email)`: the service's answer, or false on error. */
    method RequestPasswordReset(actor: AuthActor, e: string) returns (ok: bool)
      modifies this`requests
      ensures ok <==> actor.requestPasswordReset(e) == Ok(true)
      ensures requests == old(requests) + [PasswordResetRequestCall(e)]
    {
      requests := requests + [PasswordResetRequestCall(e)];
      var result := actor.requestPasswordReset(e);
      ok := result.Ok? && result.value;
    }

    /** `resetPassword(email, token, newPassword)`: the service's answer, or
        false on error. */
    method ResetPassword(actor: AuthActor, e: string, resetToken: string, newPassword: string) returns (ok: bool)
      modifies this`requests
      ensures ok <==> actor.resetPassword(e, resetToken, newPassword) == Ok(true)
      ensures requests == old(requests) + [ResetPasswordCall(e, resetToken, newPassword)]
    {
      requests := requests + [ResetPasswordCall(e, resetToken, newPassword)];
      var result := actor.resetPassword(e, resetToken, newPassword);
      ok := result.Ok? && result.value;
    }

    /** `getUserProfile()`: the stored e-mail when there is a token, else null. */
    method GetUserProfile() returns (p: Option<Profile>)
      ensures p.Some? <==> Truthy(token)
      ensures p.Some? ==> p.value.email == email
    {
      if !Truthy(token) {
        return None;
      }
      return Some(Profile(email));
    }
  }
}
