/** `context/AuthContext.js`: the client-side session. The provider keeps the token in
    `localStorage`, the decoded claims as `user`, a `loading` flag, and drives the router. */
module Session {
  import opened Wrappers
  import opened Records
  import opened Jwt
  import opened Http
  import LoginApi

  const LOGIN_PAGE := "/login"
  const MANAGER_HOME := "/manager/dashboard"
  const EMPLOYEE_HOME := "/dashboard"

  /** The Next.js router, reduced to the pages pushed onto it. */
  class Router {
    var history: seq<string>

    constructor()
      ensures history == []
    {
      history := [];
    }

    /** `router.push(path)`. */
    method Push(path: string)
      modifies this
      ensures history == old(history) + [path]
    {
      history := history + [path];
    }
  }

  /** `Date.now() >= decoded.exp * 1000`: the instant `exp` itself counts as expired. A token
      without `exp` compares against `NaN` and never expires on the client. */
  predicate IsExpired(p: Payload, nowMs: int) {
    p.exp.Some? && nowMs >= p.exp.value * 1000
  }

  /** The page a fresh login lands on. */
  function LandingPage(p: Payload): (page: string)
    ensures page == MANAGER_HOME <==> p.role == Some(MANAGER)
    ensures page == EMPLOYEE_HOME <==> p.role != Some(MANAGER)
  {
    if p.role == Some(MANAGER) then MANAGER_HOME else EMPLOYEE_HOME
  }

  /** The session the mount-time check restores from the stored token: its claims when the
      token is present, decodes and has not expired. */
  function Restored(stored: Option<string>, decode: string -> Option<Payload>, nowMs: int): (r: Option<Payload>)
    ensures r.Some? <==> Truthy(stored) && decode(stored.value).Some? && !IsExpired(decode(stored.value).value, nowMs)
    ensures r.Some? ==> r == decode(stored.value) && !IsExpired(r.value, nowMs)
  {
    if Truthy(stored) && decode(stored.value).Some? && !IsExpired(decode(stored.value).value, nowMs)
    then decode(stored.value) else None
  }

  /** The stored token after the mount-time check: removed when present but undecodable or
      expired, kept otherwise. */
  function Kept(stored: Option<string>, decode: string -> Option<Payload>, nowMs: int): Option<string> {
    if Truthy(stored) && Restored(stored, decode, nowMs).None? then None else stored
  }

  /** After the check a usable token remains exactly when a session was restored. */
  lemma KeptIffRestored(stored: Option<string>, decode: string -> Option<Payload>, nowMs: int)
    ensures Truthy(Kept(stored, decode, nowMs)) <==> Restored(stored, decode, nowMs).Some?
    ensures Restored(stored, decode, nowMs).Some? ==> Kept(stored, decode, nowMs) == stored
  {
  }

  /** The token the login request hands to `localStorage.setItem`: the body's `token` on a
      2xx reply (`"undefined"` when the body has none); nothing on an error status or when
      no reply came, since axios then throws. */
  function Delivered(reply: Option<Response>): (t: Option<string>)
    ensures t.Some? <==> reply.Some? && 200 <= reply.value.status < 300
    ensures t.Some? && reply.value.body.TokenIssued? ==> t.value == reply.value.body.token
  {
    if reply.None? || !(200 <= reply.value.status < 300) then None
    else if reply.value.body.TokenIssued? then Some(reply.value.body.token)
    else Some("undefined")
  }

  /** A reply of the login handler makes the client store a token exactly when the handler
      issued one, and then it stores that token. */
  lemma LoginRepliesDeliverIssuedToken(req: Request, db: Fetch<Tables>, compare: (string, string) -> Fetch<bool>,
                                       sign: Payload -> Fetch<string>, nowMs: int)
    ensures Delivered(Some(LoginApi.Handle(req, db, compare, sign, nowMs))).Some?
            <==> LoginApi.Handle(req, db, compare, sign, nowMs).status == 200
    ensures LoginApi.Handle(req, db, compare, sign, nowMs).status == 200 ==>
              Delivered(Some(LoginApi.Handle(req, db, compare, sign, nowMs)))
              == Some(LoginApi.Handle(req, db, compare, sign, nowMs).body.token)
  {
    var r := LoginApi.Handle(req, db, compare, sign, nowMs);
    assert r.status in {200, 400, 401, 403, 405, 500};
  }

  /** How an axios request settles: with the response body on a 2xx status, otherwise with
      the error's `response.status` (`None` when no response came). */
  datatype Reply<+T> = Ok(data: T) | Failed(status: Option<int>)

  /** The settlement of a request that got `r` (`None`: no response). */
  function Settle(r: Option<Response>): (s: Reply<Body>)
    ensures s.Ok? <==> r.Some? && 200 <= r.value.status < 300
    ensures s.Ok? ==> s.data == r.value.body
    ensures s.Failed? && r.Some? ==> s.status == Some(r.value.status)
    ensures r.None? ==> s == Failed(None)
  {
    if r.None? then Failed(None)
    else if 200 <= r.value.status < 300 then Ok(r.value.body)
    else Failed(Some(r.value.status))
  }

  /** `AuthProvider`'s state. */
  class AuthProvider {
    var storedToken: Option<string>
    var user: Option<Payload>
    var loading: bool
    const router: Router

    /** The state of a freshly rendered provider, before its effect runs. */
    constructor(stored: Option<string>, r: Router)
      ensures storedToken == stored && user.None? && loading && router == r
    {
      storedToken := stored;
      user := None;
      loading := true;
      router := r;
    }

    /** The mount-time effect: restore the session from the stored token, dropping a token
        that does not decode or has expired, then stop loading. */
    method Mount(nowMs: int, decode: string -> Option<Payload>)
      modifies this
      ensures storedToken == Kept(old(storedToken), decode, nowMs)
      ensures user == (if Restored(old(storedToken), decode, nowMs).Some?
                       then Restored(old(storedToken), decode, nowMs) else old(user))
      ensures !loading
    {
      if Truthy(storedToken) {
        var decoded := decode(storedToken.value);
        if decoded.None? {
          storedToken := None;
        } else if IsExpired(decoded.value, nowMs) {
          storedToken := None;
        } else {
          user := decoded;
        }
      }
      loading := false;
    }

    /** `login`: with a 2xx reply the token is stored; when it decodes, the user is set and the
        router goes to the role's landing page. Any other reply changes nothing. */
    method Login(reply: Option<Response>, decode: string -> Option<Payload>)
      modifies this, router
      ensures storedToken == (if Delivered(reply).Some? then Delivered(reply) else old(storedToken))
      ensures Delivered(reply).Some? && decode(Delivered(reply).value).Some? ==>
                user == decode(Delivered(reply).value)
                && router.history == old(router.history) + [LandingPage(user.value)]
      ensures Delivered(reply).None? || decode(Delivered(reply).value).None? ==>
                user == old(user) && router.history == old(router.history)
      ensures loading == old(loading)
    {
      var token := Delivered(reply);
      if token.None? {
        return;
      }
      storedToken := token;
      var decoded := decode(token.value);
      if decoded.None? {
        return;
      }
      user := decoded;
      if decoded.value.role == Some(MANAGER) {
        router.Push(MANAGER_HOME);
      } else {
        router.Push(EMPLOYEE_HOME);
      }
    }

    /** `logout`: drop the token and the user, go to the login page. */
    method Logout()
      modifies this, router
      ensures storedToken.None? && user.None? && loading == old(loading)
      ensures router.history == old(router.history) + [LOGIN_PAGE]
    {
      storedToken := None;
      user := None;
      router.Push(LOGIN_PAGE);
    }
  }

  /** A token minted by the login handler at `issuedMs` stays usable on the client for at
      least 3599001 ms and at most 3600000 ms after issue (`iat` is truncated to the second). */
  lemma ClientLifetime(u: User, issuedMs: int, nowMs: int)
    ensures issuedMs <= nowMs < issuedMs + 3599001 ==> !IsExpired(LoginApi.Claims(u, issuedMs), nowMs)
    ensures nowMs >= issuedMs + 3600000 ==> IsExpired(LoginApi.Claims(u, issuedMs), nowMs)
  {
    var p := LoginApi.Claims(u, issuedMs);
    assert p.exp.value * 1000 == p.iat.value * 1000 + 3600000;
  }

  /** A session restored at mount from a freshly minted token carries the minted claims, and
      its landing page follows the account's role. */
  lemma RestoredLoginToken(u: User, issuedMs: int, nowMs: int, token: string, decode: string -> Option<Payload>)
    requires token != "" && decode(token) == Some(LoginApi.Claims(u, issuedMs))
    requires issuedMs <= nowMs < issuedMs + 3599001
    ensures Restored(Some(token), decode, nowMs) == Some(LoginApi.Claims(u, issuedMs))
    ensures LandingPage(Restored(Some(token), decode, nowMs).value) == MANAGER_HOME <==> u.role == MANAGER
  {
    ClientLifetime(u, issuedMs, nowMs);
  }
}
