/** The WordPress `init` hook `taskflow_sso_handle_jwt_login` of the Astra child theme: it
    reads a token from the `jwt` query parameter, decodes it with the site secret, finds or
    provisions the WordPress account with the token's e-mail address, logs that account in
    and redirects to the same URL without the token. */
module WpSso {
  import opened Wrappers
  import opened Records
  import opened Jwt
  import opened Urls

  /** The only algorithm the hook passes to `JWT::decode` (HMAC with SHA-256, section 3.2 of RFC 7518). */
  const ALGORITHM := "HS256"
  /** The user name given to a provisioned account whose token carries no `display_name`. */
  const DEFAULT_NAME := "Utilisateur TaskFlow"
  /** The role `wp_create_user` gives a new account before the hook sets the mapped one. */
  const DEFAULT_ROLE := "subscriber"
  /** The current-user id WordPress uses when nobody is logged in. */
  const NOBODY: nat := 0

  /** A WordPress user account. */
  datatype Account = Account(id: nat, login: string, email: string, role: string)

  /** What `JWT::decode` recovers from a token whose signature matches the secret: the header's
      `alg` and the claims set. */
  datatype Decoded = Decoded(alg: string, claims: Payload)

  /** PHP truthiness of a string value: set, and neither `""` nor `"0"`. */
  predicate PhpTruthy(s: Option<string>) {
    s.Some? && s.value != "" && s.value != "0"
  }

  /** The WordPress role for a TaskFlow role (`$roles_map`, with `subscriber` for the rest). */
  function MapRole(role: Option<string>): (r: string)
    ensures r == "editor" <==> role == Some(MANAGER)
    ensures r == "author" <==> role == Some(EMPLOYEE)
    ensures r == DEFAULT_ROLE <==> role != Some(MANAGER) && role != Some(EMPLOYEE)
  {
    if role == Some(MANAGER) then "editor"
    else if role == Some(EMPLOYEE) then "author"
    else DEFAULT_ROLE
  }

  /** `$decoded_token->data->user`, or nothing when any step of the path is missing. */
  function UserClaims(p: Payload): Option<WpUser> {
    if p.data.Some? then p.data.value.user else None
  }

  /** `$decoded_token->data->user->email`. */
  function EmailClaim(p: Payload): Option<string> {
    if UserClaims(p).Some? then UserClaims(p).value.email else None
  }

  /** `$decoded_token->data->user->role`, when set. */
  function RoleClaim(p: Payload): Option<string> {
    if UserClaims(p).Some? then UserClaims(p).value.role else None
  }

  /** The user name of a provisioned account: `display_name` when set, else the default. */
  function NameClaim(p: Payload): string {
    if UserClaims(p).Some? && UserClaims(p).value.displayName.Some? then UserClaims(p).value.displayName.value
    else DEFAULT_NAME
  }

  /** `get_user_by('email', …)`: the first account with that address. */
  function AccountByEmail(accounts: seq<Account>, email: string): (r: Option<Account>)
    ensures r.Some? ==> r.value in accounts && r.value.email == email
    ensures r.None? ==> forall a :: a in accounts ==> a.email != email
  {
    if accounts == [] then None
    else if accounts[0].email == email then Some(accounts[0])
    else AccountByEmail(accounts[1..], email)
  }

  /** `wp_create_user` refuses a user name that an account already has. */
  predicate LoginTaken(accounts: seq<Account>, login: string) {
    exists a :: a in accounts && a.login == login
  }

  /** The claims of a token that `JWT::decode(token, secret, ['HS256'])` accepts; `None` when
      it throws (bad signature, expired, or another algorithm). */
  function Accepted(token: string, secret: string, decode: (string, string) -> Option<Decoded>): (r: Option<Payload>)
    ensures r.Some? <==> decode(token, secret).Some? && decode(token, secret).value.alg == ALGORITHM
    ensures r.Some? ==> r.value == decode(token, secret).value.claims
  {
    var d := decode(token, secret);
    if d.Some? && d.value.alg == ALGORITHM then Some(d.value.claims) else None
  }

  /** How one run of the hook ends. */
  datatype Outcome =
    | Ignored                                  // no `jwt` parameter, or someone is logged in
    | NoSecret                                 // `JWT_AUTH_SECRET_KEY` undefined or falsy
    | Rejected                                 // `JWT::decode` threw
    | NoEmail                                  // no usable `data.user.email`
    | CreationFailed                           // `wp_create_user` returned an error
    | SignedIn(account: Account, created: bool) // logged in, redirected, exited

  /** The account a successful run logs in, for the given e-mail address and claims: the
      existing one, or a new one with the next id, the claimed name and the mapped role. */
  function Provisioned(accounts: seq<Account>, nextId: nat, email: string, p: Payload): Account {
    var existing := AccountByEmail(accounts, email);
    if existing.Some? then existing.value else Account(nextId, NameClaim(p), email, MapRole(RoleClaim(p)))
  }

  /** The hook once it holds an e-mail address: the account with that address, or else a new
      one provisioned from the claims, unless the user name is taken or creation fails. */
  function Admit(accounts: seq<Account>, nextId: nat, email: string, p: Payload,
                 createSucceeds: bool): (o: Outcome)
    ensures o.SignedIn? || o.CreationFailed?
    ensures o.SignedIn? ==>
              o.account.email == email
              && (o.created <==> AccountByEmail(accounts, email).None?)
              && o.account == Provisioned(accounts, nextId, email, p)
    ensures o.SignedIn? && !o.created ==> o.account in accounts
    ensures o.CreationFailed? <==>
              AccountByEmail(accounts, email).None? && (LoginTaken(accounts, NameClaim(p)) || !createSucceeds)
  {
    var existing := AccountByEmail(accounts, email);
    if existing.Some? then SignedIn(existing.value, false)
    else if LoginTaken(accounts, NameClaim(p)) || !createSucceeds then CreationFailed
    else SignedIn(Provisioned(accounts, nextId, email, p), true)
  }

  /** The decision the hook takes, given the request, whether someone is logged in, the
      secret, the library oracles and the account table. `createSucceeds` stands for every
      `wp_create_user` failure other than a taken user name. */
  function Decide(request: Url, loggedIn: bool, secret: Option<string>, sanitize: string -> string,
                  decode: (string, string) -> Option<Decoded>, accounts: seq<Account>, nextId: nat,
                  createSucceeds: bool): (o: Outcome)
    ensures o.Ignored? <==> Get(request.query, "jwt").None? || loggedIn
    ensures o.NoSecret? <==> !o.Ignored? && !PhpTruthy(secret)
    ensures o.Rejected? <==>
              !o.Ignored? && PhpTruthy(secret)
              && Accepted(sanitize(Get(request.query, "jwt").value), secret.value, decode).None?
    ensures o.NoEmail? || o.CreationFailed? || o.SignedIn? ==>
              Accepted(sanitize(Get(request.query, "jwt").value), secret.value, decode).Some?
    ensures o.NoEmail? <==>
              !(o.Ignored? || o.NoSecret? || o.Rejected?)
              && !PhpTruthy(EmailClaim(Accepted(sanitize(Get(request.query, "jwt").value), secret.value, decode).value))
    ensures o.SignedIn? ==>
              var p := Accepted(sanitize(Get(request.query, "jwt").value), secret.value, decode).value;
              PhpTruthy(EmailClaim(p)) && o.account.email == EmailClaim(p).value
              && (o.created <==> AccountByEmail(accounts, o.account.email).None?)
              && o.account == Provisioned(accounts, nextId, o.account.email, p)
    ensures o.SignedIn? && !o.created ==> o.account in accounts
    ensures o.CreationFailed? <==>
              !o.Ignored? && PhpTruthy(secret)
              && Accepted(sanitize(Get(request.query, "jwt").value), secret.value, decode).Some?
              && var p := Accepted(sanitize(Get(request.query, "jwt").value), secret.value, decode).value;
              PhpTruthy(EmailClaim(p))
              && AccountByEmail(accounts, EmailClaim(p).value).None?
              && (LoginTaken(accounts, NameClaim(p)) || !createSucceeds)
  {
    var jwt := Get(request.query, "jwt");
    if jwt.None? || loggedIn then Ignored
    else if !PhpTruthy(secret) then NoSecret
    else
      var claims := Accepted(sanitize(jwt.value), secret.value, decode);
      if claims.None? then Rejected
      else
        var email := EmailClaim(claims.value);
        if !PhpTruthy(email) then NoEmail
        else Admit(accounts, nextId, email.value, claims.value, createSucceeds)
  }

  /** The WordPress site as the hook sees and changes it: the account table, the next account
      id, the logged-in user, the auth cookie, a pending redirect and whether the request ended. */
  class WordPress {
    var accounts: seq<Account>
    var nextId: nat
    var currentUser: nat
    var authCookie: Option<nat>
    var location: Option<Url>
    var exited: bool

    /** Account ids are positive and below the next id, so a new account's id is fresh. */
    ghost predicate Valid()
      reads this
    {
      0 < nextId
      && (forall i :: 0 <= i < |accounts| ==> 0 < accounts[i].id < nextId)
    }

    /** A site with the given accounts where nobody is logged in. */
    constructor(initial: seq<Account>, next: nat)
      requires 0 < next && forall i :: 0 <= i < |initial| ==> 0 < initial[i].id < next
      ensures Valid()
      ensures accounts == initial && nextId == next && currentUser == NOBODY
      ensures authCookie.None? && location.None? && !exited
    {
      accounts := initial;
      nextId := next;
      currentUser := NOBODY;
      authCookie := None;
      location := None;
      exited := false;
    }

    /** `wp_create_user` with the default role, then `$user->set_role` with `role`: the
        account takes the next id and is appended; nothing else changes. */
    method CreateAccount(name: string, email: string, role: string) returns (a: Account)
      requires Valid()
      modifies this
      ensures Valid()
      ensures a == Account(old(nextId), name, email, role)
      ensures accounts == old(accounts) + [a] && nextId == old(nextId) + 1
      ensures currentUser == old(currentUser) && authCookie == old(authCookie)
      ensures location == old(location) && exited == old(exited)
    {
      var id := nextId;
      ghost var before := accounts;
      accounts := accounts + [Account(id, name, email, DEFAULT_ROLE)];
      nextId := nextId + 1;
      a := Account(id, name, email, role);
      assert accounts[..|accounts| - 1] == before;
      accounts := accounts[..|accounts| - 1] + [a];
    }

    /** Steps 3 and 4 of the hook for a known e-mail address: find the account or create it,
        then log it in and redirect to the request without `jwt`; a failed creation changes
        nothing. */
    method SignIn(request: Url, email: string, p: Payload, createSucceeds: bool) returns (o: Outcome)
      requires Valid()
      modifies this
      ensures Valid()
      ensures o == Admit(old(accounts), old(nextId), email, p, createSucceeds)
      ensures o.SignedIn? ==>
                accounts == (if o.created then old(accounts) + [o.account] else old(accounts))
                && nextId == (if o.created then old(nextId) + 1 else old(nextId))
                && currentUser == o.account.id && authCookie == Some(o.account.id)
                && location == Some(RemoveArg(request, "jwt")) && exited
      ensures o.CreationFailed? ==>
                accounts == old(accounts) && nextId == old(nextId) && currentUser == old(currentUser)
                && authCookie == old(authCookie) && location == old(location) && exited == old(exited)
    {
      var user := AccountByEmail(accounts, email);
      var account: Account;
      if user.None? {
        var name := NameClaim(p);
        if LoginTaken(accounts, name) || !createSucceeds {
          return CreationFailed;
        }
        account := CreateAccount(name, email, MapRole(RoleClaim(p)));
        o := SignedIn(account, true);
      } else {
        account := user.value;
        o := SignedIn(account, false);
      }
      currentUser := account.id;
      authCookie := Some(account.id);
      location := Some(RemoveArg(request, "jwt"));
      exited := true;
    }

    /** One run of the hook on `request`. On `SignedIn` a created account is appended, the
        account becomes the current user and the cookie's owner, and the request is
        redirected to itself without `jwt` and ended; every other outcome changes nothing. */
    method HandleJwtLogin(request: Url, secret: Option<string>, sanitize: string -> string,
                          decode: (string, string) -> Option<Decoded>, createSucceeds: bool)
      returns (o: Outcome)
      requires Valid()
      modifies this
      ensures Valid()
      ensures o == Decide(request, old(currentUser) != NOBODY, secret, sanitize, decode,
                          old(accounts), old(nextId), createSucceeds)
      ensures o.SignedIn? ==>
                accounts == (if o.created then old(accounts) + [o.account] else old(accounts))
                && nextId == (if o.created then old(nextId) + 1 else old(nextId))
                && currentUser == o.account.id && authCookie == Some(o.account.id)
                && location == Some(RemoveArg(request, "jwt")) && exited
      ensures !o.SignedIn? ==>
                accounts == old(accounts) && nextId == old(nextId) && currentUser == old(currentUser)
                && authCookie == old(authCookie) && location == old(location) && exited == old(exited)
    {
      var jwt := Get(request.query, "jwt");
      if jwt.None? || currentUser != NOBODY {
        return Ignored;
      }
      if !PhpTruthy(secret) {
        return NoSecret;
      }
      var claims := Accepted(sanitize(jwt.value), secret.value, decode);
      if claims.None? {
        return Rejected;
      }
      var email := EmailClaim(claims.value);
      if !PhpTruthy(email) {
        return NoEmail;
      }
      o := SignIn(request, email.value, claims.value, createSucceeds);
    }
  }

  /** A claims set without the `data` envelope (the shape TaskFlow's login mints) is accepted
      by `JWT::decode` and then stops at the e-mail check: nobody is logged in. */
  lemma TopLevelClaimsGiveNoEmail(request: Url, secret: string, sanitize: string -> string,
                                  decode: (string, string) -> Option<Decoded>, accounts: seq<Account>,
                                  nextId: nat, createSucceeds: bool)
    requires Get(request.query, "jwt").Some? && PhpTruthy(Some(secret))
    requires decode(sanitize(Get(request.query, "jwt").value), secret).Some?
    requires decode(sanitize(Get(request.query, "jwt").value), secret).value.alg == ALGORITHM
    requires decode(sanitize(Get(request.query, "jwt").value), secret).value.claims.data.None?
    ensures Decide(request, false, Some(secret), sanitize, decode, accounts, nextId, createSucceeds) == NoEmail
  {
  }

  /** A claims set in the `data.user` envelope with a usable e-mail address, for an address
      and a name no account has, provisions a new account with the mapped role and logs it in. */
  lemma EnvelopeProvisions(request: Url, secret: string, sanitize: string -> string,
                           decode: (string, string) -> Option<Decoded>, accounts: seq<Account>,
                           nextId: nat, u: WpUser)
    requires Get(request.query, "jwt").Some? && PhpTruthy(Some(secret))
    requires decode(sanitize(Get(request.query, "jwt").value), secret).Some?
    requires decode(sanitize(Get(request.query, "jwt").value), secret).value.alg == ALGORITHM
    requires decode(sanitize(Get(request.query, "jwt").value), secret).value.claims.data == Some(WpData(Some(u)))
    requires PhpTruthy(u.email) && AccountByEmail(accounts, u.email.value).None?
    requires u.displayName.Some? && !LoginTaken(accounts, u.displayName.value)
    ensures Decide(request, false, Some(secret), sanitize, decode, accounts, nextId, true)
            == SignedIn(Account(nextId, u.displayName.value, u.email.value, MapRole(u.role)), true)
  {
  }

  /** Appending an account with a new address makes it the one `get_user_by` finds. */
  lemma {:induction false} ByEmailAppended(accounts: seq<Account>, a: Account)
    requires AccountByEmail(accounts, a.email).None?
    ensures AccountByEmail(accounts + [a], a.email) == Some(a)
  {
    if accounts != [] {
      assert (accounts + [a])[1..] == accounts[1..] + [a];
      ByEmailAppended(accounts[1..], a);
    } else {
      assert accounts + [a] == [a];
    }
  }

  /** Provisioning happens once per address: after a run creates an account, a later run with
      a token for the same address (from a browser where nobody is logged in) logs that same
      account in and creates nothing. */
  lemma ProvisionOnce(request: Url, secret: Option<string>, sanitize: string -> string,
                      decode: (string, string) -> Option<Decoded>, accounts: seq<Account>,
                      nextId: nat, createSucceeds: bool, later: Url, createLater: bool, a: Account)
    requires Decide(request, false, secret, sanitize, decode, accounts, nextId, createSucceeds) == SignedIn(a, true)
    requires Get(later.query, "jwt").Some?
    requires Accepted(sanitize(Get(later.query, "jwt").value), secret.value, decode).Some?
    requires EmailClaim(Accepted(sanitize(Get(later.query, "jwt").value), secret.value, decode).value) == Some(a.email)
    ensures Decide(later, false, secret, sanitize, decode, accounts + [a], nextId + 1, createLater) == SignedIn(a, false)
  {
    ByEmailAppended(accounts, a);
  }

  /** Two TaskFlow users with the same display name: the second to arrive cannot be
      provisioned, because the name is already a user name. */
  lemma NameClashBlocksProvisioning(request: Url, secret: Option<string>, sanitize: string -> string,
                                    decode: (string, string) -> Option<Decoded>, accounts: seq<Account>,
                                    nextId: nat, createSucceeds: bool, p: Payload)
    requires Get(request.query, "jwt").Some? && PhpTruthy(secret)
    requires Accepted(sanitize(Get(request.query, "jwt").value), secret.value, decode) == Some(p)
    requires PhpTruthy(EmailClaim(p)) && AccountByEmail(accounts, EmailClaim(p).value).None?
    requires exists a :: a in accounts && a.login == NameClaim(p)
    ensures Decide(request, false, secret, sanitize, decode, accounts, nextId, createSucceeds) == CreationFailed
  {
  }
}
