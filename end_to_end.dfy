/** The pieces composed: a token issued by the login handler, carried in the client's
    `Authorization: Bearer` header and handed to WordPress by the redirect page. */
module EndToEnd {
  import opened Wrappers
  import opened Records
  import opened Jwt
  import opened Http
  import opened Urls
  import LoginApi
  import UsersListApi
  import MyTasksApi
  import Session
  import WpRedirect
  import WpSso

  /** `Authorization: Bearer ${token}`, the header every dashboard request carries. */
  function BearerHeader(token: string): Option<string> {
    Some(BEARER + token)
  }

  /** A `GET` with the stored token. */
  function AuthorizedGet(token: string): Request {
    Request("GET", BearerHeader(token), map[])
  }

  /** `jwt.verify` with the signing secret returns the claims the handler signed. */
  predicate VerifiesAs(verify: string -> Fetch<Payload>, token: string, p: Payload) {
    verify(token) == Fetched(p)
  }

  /** The header built from a compact token gives the handlers that same token. */
  lemma HeaderCarriesToken(token: string)
    requires Compact(token)
    ensures BearerToken(BearerHeader(token)) == Some(token)
  {
    CompactHasNoDelimiters(token);
    BearerTokenOfHeader(token);
  }

  /** After a successful login, the issued token opens `my-tasks`, which answers with exactly
      the tasks assigned to the account that logged in, earliest deadline first. */
  lemma LoginOpensOwnTasks(login: Request, db: Fetch<Tables>, compare: (string, string) -> Fetch<bool>,
                           sign: Payload -> Fetch<string>, nowMs: int, verify: string -> Fetch<Payload>,
                           later: Tables)
    requires LoginApi.Handle(login, db, compare, sign, nowMs).status == 200
    requires Compact(LoginApi.Handle(login, db, compare, sign, nowMs).body.token)
    requires VerifiesAs(verify, LoginApi.Handle(login, db, compare, sign, nowMs).body.token,
                        LoginApi.Claims(LoginApi.Account(login, db).value, nowMs))
    ensures var token := LoginApi.Handle(login, db, compare, sign, nowMs).body.token;
            var r := MyTasksApi.Handle(AuthorizedGet(token), verify, Fetched(later));
            r.status == 200
            && r.body == OwnTasks(MyTasksApi.MyTasks(later.tasks, Some(LoginApi.Account(login, db).value.id)))
            && forall t :: t in r.body.tasks <==> t in later.tasks && t.assignedToId == LoginApi.Account(login, db).value.id
  {
    HeaderCarriesToken(LoginApi.Handle(login, db, compare, sign, nowMs).body.token);
  }

  /** After a successful login, the issued token lists the users exactly when the account is a
      manager, and is refused with 403 otherwise. */
  lemma LoginTokenAndUserListing(login: Request, db: Fetch<Tables>, compare: (string, string) -> Fetch<bool>,
                                 sign: Payload -> Fetch<string>, nowMs: int, verify: string -> Fetch<Payload>,
                                 later: Tables)
    requires LoginApi.Handle(login, db, compare, sign, nowMs).status == 200
    requires Compact(LoginApi.Handle(login, db, compare, sign, nowMs).body.token)
    requires VerifiesAs(verify, LoginApi.Handle(login, db, compare, sign, nowMs).body.token,
                        LoginApi.Claims(LoginApi.Account(login, db).value, nowMs))
    ensures var token := LoginApi.Handle(login, db, compare, sign, nowMs).body.token;
            var r := UsersListApi.Handle(AuthorizedGet(token), verify, Fetched(later));
            (r.status == 200 <==> LoginApi.Account(login, db).value.role == MANAGER)
            && (r.status == 403 <==> LoginApi.Account(login, db).value.role != MANAGER)
  {
    HeaderCarriesToken(LoginApi.Handle(login, db, compare, sign, nowMs).body.token);
  }

  /** The seeded manager account. */
  function SeedManager(passwordHash: string): User {
    User("manager", "Alice Manager", "manager@taskflow.com", passwordHash, MANAGER, true, 0)
  }

  /** The seeded employee account. */
  function SeedEmployee(passwordHash: string): User {
    User("employee", "Bob Employé", "employee@taskflow.com", passwordHash, EMPLOYEE, true, 1)
  }

  /** A login form submission. */
  function LoginForm(email: string, password: string): Request {
    Request("POST", None, map["email" := email, "password" := password])
  }

  /** The two seeded accounts. */
  function Seeded(managerHash: string, employeeHash: string): Tables {
    Tables([SeedManager(managerHash), SeedEmployee(employeeHash)], [])
  }

  /** On the seeded database the manager's credentials give a token, the token lists both
      users, and the same request without a header is refused with 401. */
  lemma SeedManagerListsUsers(managerHash: string, employeeHash: string, compare: (string, string) -> Fetch<bool>,
                              sign: Payload -> Fetch<string>, nowMs: int, verify: string -> Fetch<Payload>,
                              token: string)
    requires compare("manager123", managerHash) == Fetched(true)
    requires sign(LoginApi.Claims(SeedManager(managerHash), nowMs)) == Fetched(token) && Compact(token)
    requires VerifiesAs(verify, token, LoginApi.Claims(SeedManager(managerHash), nowMs))
    ensures LoginApi.Handle(LoginForm("manager@taskflow.com", "manager123"), Fetched(Seeded(managerHash, employeeHash)),
                            compare, sign, nowMs) == Json(200, TokenIssued(token))
    ensures UsersListApi.Handle(AuthorizedGet(token), verify, Fetched(Seeded(managerHash, employeeHash))).status == 200
    ensures |UsersListApi.Handle(AuthorizedGet(token), verify, Fetched(Seeded(managerHash, employeeHash))).body.users| == 2
    ensures UsersListApi.Handle(Request("GET", None, map[]), verify, Fetched(Seeded(managerHash, employeeHash)))
            == Json(401, Message(UsersListApi.MSG_NO_TOKEN))
  {
    var login := LoginForm("manager@taskflow.com", "manager123");
    assert Field(login, "email") == Some("manager@taskflow.com");
    assert Field(login, "password") == Some("manager123");
    assert LoginApi.Account(login, Fetched(Seeded(managerHash, employeeHash))) == Some(SeedManager(managerHash));
    HeaderCarriesToken(token);
    UsersListApi.ListingCoversTable(Seeded(managerHash, employeeHash).users);
  }

  /** The token the login handler issues, forwarded by the redirect page, is decoded by
      WordPress (when the site shares the secret) but carries no `data.user.email`: nobody is
      logged in to WordPress and no account is provisioned. */
  lemma LoginTokenDoesNotSignInToWordPress(login: Request, db: Fetch<Tables>,
                                           compare: (string, string) -> Fetch<bool>,
                                           sign: Payload -> Fetch<string>, nowMs: int,
                                           destination: Option<string>, secret: string,
                                           sanitize: string -> string,
                                           decode: (string, string) -> Option<WpSso.Decoded>,
                                           accounts: seq<WpSso.Account>, nextId: nat, createSucceeds: bool)
    requires LoginApi.Handle(login, db, compare, sign, nowMs).status == 200
    requires var t := LoginApi.Handle(login, db, compare, sign, nowMs).body.token;
             t != "" && Compact(t) && WpRedirect.PlainDestination(destination)
    requires WpSso.PhpTruthy(Some(secret))
    requires var t := LoginApi.Handle(login, db, compare, sign, nowMs).body.token;
             decode(sanitize(t), secret)
             == Some(WpSso.Decoded(WpSso.ALGORITHM, LoginApi.Claims(LoginApi.Account(login, db).value, nowMs)))
    ensures var t := LoginApi.Handle(login, db, compare, sign, nowMs).body.token;
            var request := Parse(WpRedirect.Target(Some(t), destination), WpRedirect.WP_ORIGIN);
            request.Some? && Get(request.value.query, "jwt") == Some(t)
            && WpSso.Decide(request.value, false, Some(secret), sanitize, decode, accounts, nextId, createSucceeds)
               == WpSso.NoEmail
  {
    var t := LoginApi.Handle(login, db, compare, sign, nowMs).body.token;
    CompactHasNoDelimiters(t);
    WpRedirect.HandoffDeliversToken(t, destination);
    var request := Parse(WpRedirect.Target(Some(t), destination), WpRedirect.WP_ORIGIN).value;
    WpSso.TopLevelClaimsGiveNoEmail(request, secret, sanitize, decode, accounts, nextId, createSucceeds);
  }

  /** The claims set in the envelope the WordPress theme documents for the login handler:
      issuer, issue, not-before and expiry times, and `data.user` with id, e-mail, display
      name and role. */
  function DocumentedEnvelope(u: User, nowMs: int): (p: Payload)
    ensures p.exp.Some? && p.iat.Some? && p.exp.value == p.iat.value + LoginApi.LIFETIME
    ensures WpSso.EmailClaim(p) == Some(u.email) && WpSso.RoleClaim(p) == Some(u.role)
    ensures WpSso.NameClaim(p) == u.name
  {
    var iat := nowMs / 1000;
    Payload(None, None, None, Some("http://localhost:3000"), Some(iat), Some(iat), Some(iat + LoginApi.LIFETIME),
            Some(WpData(Some(WpUser(Some(u.id), Some(u.email), Some(u.name), Some(u.role))))))
  }

  /** A token in the documented envelope, forwarded by the redirect page, provisions a
      WordPress account for a TaskFlow user unknown to the site, with the mapped role. */
  lemma DocumentedEnvelopeSignsIn(u: User, nowMs: int, token: string, destination: Option<string>, secret: string,
                                   sanitize: string -> string, decode: (string, string) -> Option<WpSso.Decoded>,
                                   accounts: seq<WpSso.Account>, nextId: nat)
    requires token != "" && Compact(token) && WpRedirect.PlainDestination(destination)
    requires WpSso.PhpTruthy(Some(secret)) && WpSso.PhpTruthy(Some(u.email))
    requires decode(sanitize(token), secret) == Some(WpSso.Decoded(WpSso.ALGORITHM, DocumentedEnvelope(u, nowMs)))
    requires WpSso.AccountByEmail(accounts, u.email).None? && !WpSso.LoginTaken(accounts, u.name)
    ensures var request := Parse(WpRedirect.Target(Some(token), destination), WpRedirect.WP_ORIGIN);
            request.Some?
            && WpSso.Decide(request.value, false, Some(secret), sanitize, decode, accounts, nextId, true)
               == WpSso.SignedIn(WpSso.Account(nextId, u.name, u.email, WpSso.MapRole(Some(u.role))), true)
  {
    CompactHasNoDelimiters(token);
    WpRedirect.HandoffDeliversToken(token, destination);
    var request := Parse(WpRedirect.Target(Some(token), destination), WpRedirect.WP_ORIGIN).value;
    WpSso.EnvelopeProvisions(request, secret, sanitize, decode, accounts, nextId,
                             WpUser(Some(u.id), Some(u.email), Some(u.name), Some(u.role)));
  }

  /** With the corrected redirect URL the login token reaches WordPress for every
      destination, and still signs nobody in. */
  lemma LoginTokenDoesNotSignInThroughFixedRedirect(login: Request, db: Fetch<Tables>,
                                                    compare: (string, string) -> Fetch<bool>,
                                                    sign: Payload -> Fetch<string>, nowMs: int,
                                                    destination: Option<string>, secret: string,
                                                    sanitize: string -> string,
                                                    decode: (string, string) -> Option<WpSso.Decoded>,
                                                    accounts: seq<WpSso.Account>, nextId: nat,
                                                    createSucceeds: bool)
    requires LoginApi.Handle(login, db, compare, sign, nowMs).status == 200
    requires var t := LoginApi.Handle(login, db, compare, sign, nowMs).body.token;
             t != "" && Compact(t)
    requires WpSso.PhpTruthy(Some(secret))
    requires var t := LoginApi.Handle(login, db, compare, sign, nowMs).body.token;
             decode(sanitize(t), secret)
             == Some(WpSso.Decoded(WpSso.ALGORITHM, LoginApi.Claims(LoginApi.Account(login, db).value, nowMs)))
    ensures var t := LoginApi.Handle(login, db, compare, sign, nowMs).body.token;
            var request := Parse(WpRedirect.TargetFixed(Some(t), destination), WpRedirect.WP_ORIGIN);
            request.Some? && Get(request.value.query, "jwt") == Some(t)
            && WpSso.Decide(request.value, false, Some(secret), sanitize, decode, accounts, nextId, createSucceeds)
               == WpSso.NoEmail
  {
    var t := LoginApi.Handle(login, db, compare, sign, nowMs).body.token;
    CompactHasNoDelimiters(t);
    WpRedirect.FixedHandoffDeliversToken(t, destination);
    var request := Parse(WpRedirect.TargetFixed(Some(t), destination), WpRedirect.WP_ORIGIN).value;
    WpSso.TopLevelClaimsGiveNoEmail(request, secret, sanitize, decode, accounts, nextId, createSucceeds);
  }

  /** With the corrected redirect URL a token in the documented envelope provisions the
      account for every destination. */
  lemma DocumentedEnvelopeSignsInThroughFixedRedirect(u: User, nowMs: int, token: string,
                                                      destination: Option<string>, secret: string,
                                                      sanitize: string -> string,
                                                      decode: (string, string) -> Option<WpSso.Decoded>,
                                                      accounts: seq<WpSso.Account>, nextId: nat)
    requires token != "" && Compact(token)
    requires WpSso.PhpTruthy(Some(secret)) && WpSso.PhpTruthy(Some(u.email))
    requires decode(sanitize(token), secret) == Some(WpSso.Decoded(WpSso.ALGORITHM, DocumentedEnvelope(u, nowMs)))
    requires WpSso.AccountByEmail(accounts, u.email).None? && !WpSso.LoginTaken(accounts, u.name)
    ensures var request := Parse(WpRedirect.TargetFixed(Some(token), destination), WpRedirect.WP_ORIGIN);
            request.Some?
            && WpSso.Decide(request.value, false, Some(secret), sanitize, decode, accounts, nextId, true)
               == WpSso.SignedIn(WpSso.Account(nextId, u.name, u.email, WpSso.MapRole(Some(u.role))), true)
  {
    CompactHasNoDelimiters(token);
    WpRedirect.FixedHandoffDeliversToken(token, destination);
    var request := Parse(WpRedirect.TargetFixed(Some(token), destination), WpRedirect.WP_ORIGIN).value;
    WpSso.EnvelopeProvisions(request, secret, sanitize, decode, accounts, nextId,
                             WpUser(Some(u.id), Some(u.email), Some(u.name), Some(u.role)));
  }
}
