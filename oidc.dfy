/**
 * app/services/oidc.py: the OIDC relying party. It loads the provider's endpoints
 * from discovery, builds the authorization and token requests, and on the callback
 * resolves the user's role, provisions the account and its membership, records the
 * login and issues either a web-app token or a console token pair.
 */
module Oidc {
  import opened Wrappers
  import opened Strings
  import opened Config
  import opened Passport
  import opened KeyValue
  import opened AccountModel
  import TS = TokenService
  import AS = AccountService

  /** The three endpoints of a discovery document (`None`: the field is absent). */
  datatype Endpoints = Endpoints(authorization: Option<string>, token: Option<string>, userinfo: Option<string>)

  /** The reply of the discovery `GET`: its status and, when it is JSON, the endpoint fields. */
  datatype DiscoveryReply = DiscoveryReply(status: int, document: Endpoints)

  /** The reply of the token endpoint: its status and the `access_token` field of the body. */
  datatype TokenReply = TokenReply(status: int, accessToken: Option<string>)

  /** The claims of the userinfo reply; `roles` defaults to the empty list when missing. */
  datatype UserInfo = UserInfo(name: Option<string>, email: Option<string>, roles: seq<string>)

  datatype UserInfoReply = UserInfoReply(status: int, info: UserInfo)

  datatype OidcError =
    | ConfigLoadFailed        // "Failed to load OIDC configuration"
    | TokenRequestFailed      // "Failed to get token"
    | UserInfoRequestFailed   // "Failed to get user info"
    | MissingEmail            // the userinfo carries no (truthy) email

  /** `_load_oidc_config`: only a 200 reply yields endpoints. */
  function LoadOidcConfig(reply: DiscoveryReply): (r: Result<Endpoints, OidcError>)
    ensures r.Ok? <==> reply.status == 200
    ensures r.Ok? ==> r.value == reply.document
    ensures r.Err? ==> r.error == ConfigLoadFailed
  {
    if reply.status == 200 then Ok(reply.document) else Err(ConfigLoadFailed)
  }

  /** A form or query field list, in insertion order. */
  type Fields = seq<(string, string)>

  /** The URL `get_login_url` returns, before `urlencode` renders the fields. */
  datatype AuthorizationRequest = AuthorizationRequest(endpoint: Option<string>, query: Fields)

  /** The form `get_token` posts to the token endpoint. */
  datatype TokenRequest = TokenRequest(endpoint: Option<string>, form: Fields)

  /** The `Authorization` header `get_user_info` sends; a missing token renders as "None". */
  function BearerHeader(accessToken: Option<string>): (h: string)
    ensures accessToken.Some? ==> h == "Bearer " + accessToken.value
    ensures accessToken.None? ==> h == "Bearer None"
  {
    "Bearer " + match accessToken case Some(t) => t case None => "None"
  }

  /** The fields of `Fields` with the given name, in order. */
  function Lookup(fields: Fields, name: string): (vs: seq<string>)
    ensures |vs| <= |fields|
  {
    if |fields| == 0 then []
    else (if fields[0].0 == name then [fields[0].1] else []) + Lookup(fields[1..], name)
  }

  /** A name that occurs in exactly one field looks up to that field's value alone. */
  lemma {:induction false} LookupUnique(fields: Fields, name: string, k: nat)
    requires k < |fields| && fields[k].0 == name
    requires forall i :: 0 <= i < |fields| && i != k ==> fields[i].0 != name
    ensures Lookup(fields, name) == [fields[k].1]
  {
    if k > 0 {
      LookupUnique(fields[1..], name, k - 1);
    } else {
      LookupAbsent(fields[1..], name);
    }
  }

  /** A name that occurs in no field looks up to nothing. */
  lemma {:induction false} LookupAbsent(fields: Fields, name: string)
    requires forall i :: 0 <= i < |fields| ==> fields[i].0 != name
    ensures Lookup(fields, name) == []
  {
    if |fields| > 0 {
      LookupAbsent(fields[1..], name);
    }
  }

  /** The OIDC client, built from the SSO and application settings. */
  class OidcService {
    const sso: SsoConfig
    const app: AppConfig
    /** `urllib.parse.unquote`, taken as given. */
    const unquote: string -> string
    var endpoints: Endpoints

    constructor (sso: SsoConfig, app: AppConfig, unquote: string -> string, endpoints: Endpoints)
      ensures this.sso == sso && this.app == app && this.unquote == unquote && this.endpoints == endpoints
    {
      this.sso := sso;
      this.app := app;
      this.unquote := unquote;
      this.endpoints := endpoints;
    }

    /** `__init__`: the service exists only when discovery succeeded. */
    static method Create(sso: SsoConfig, app: AppConfig, unquote: string -> string, reply: DiscoveryReply)
      returns (r: Result<OidcService, OidcError>)
      ensures r == Err(ConfigLoadFailed) <==> reply.status != 200
      ensures r.Ok? ==> fresh(r.value) && r.value.endpoints == reply.document
                        && r.value.sso == sso && r.value.app == app && r.value.unquote == unquote
    {
      var loaded := LoadOidcConfig(reply);
      if loaded.Err? {
        return Err(loaded.error);
      }
      var s := new OidcService(sso, app, unquote, loaded.value);
      return Ok(s);
    }

    /** `check_oidc_config`: every endpoint is present and not empty. */
    function CheckOidcConfig(): (ok: bool)
      reads this
      ensures ok ==> endpoints.authorization.Some? && endpoints.token.Some? && endpoints.userinfo.Some?
    {
      Truthy(endpoints.authorization) && Truthy(endpoints.token) && Truthy(endpoints.userinfo)
    }

    /** The `redirect_uri` sent for the given extra parameters. */
    function RedirectUriFor(redirectUriParams: string): (u: string)
      ensures redirectUriParams == "" ==> u == sso.redirectUri
      ensures redirectUriParams != "" ==> u == sso.redirectUri + "?" + unquote(redirectUriParams)
    {
      if redirectUriParams != "" then sso.redirectUri + "?" + unquote(redirectUriParams) else sso.redirectUri
    }

    /** `get_login_url`: the authorization endpoint with the five query fields. */
    function GetLoginUrl(redirectUriParams: string): (req: AuthorizationRequest)
      reads this
      ensures req.endpoint == endpoints.authorization
      ensures |req.query| == 5
      ensures req.query[0] == ("client_id", sso.clientId) && req.query[1] == ("response_type", sso.responseType)
      ensures req.query[2] == ("scope", sso.scope)
      ensures req.query[3] == ("redirect_uri", RedirectUriFor(redirectUriParams))
      ensures req.query[4] == ("state", "random_state")
    {
      AuthorizationRequest(endpoints.authorization,
        [("client_id", sso.clientId), ("response_type", sso.responseType), ("scope", sso.scope),
         ("redirect_uri", RedirectUriFor(redirectUriParams)), ("state", "random_state")])
    }

    /** `get_token`: the form of the authorization-code grant. */
    function GetTokenRequest(code: string, redirectUriParams: string): (req: TokenRequest)
      reads this
      ensures req.endpoint == endpoints.token
      ensures |req.form| == 5
      ensures req.form[0] == ("grant_type", "authorization_code") && req.form[1] == ("code", code)
      ensures req.form[2] == ("redirect_uri", RedirectUriFor(redirectUriParams))
      ensures req.form[3] == ("client_id", sso.clientId) && req.form[4] == ("client_secret", sso.clientSecret)
    {
      TokenRequest(endpoints.token,
        [("grant_type", "authorization_code"), ("code", code), ("redirect_uri", RedirectUriFor(redirectUriParams)),
         ("client_id", sso.clientId), ("client_secret", sso.clientSecret)])
    }

    /**
     * The token request repeats the authorization request's redirect URI and client,
     * as the authorization-code grant requires (section 4.1.3 of RFC 6749), and
     * the client secret travels only in the token request.
     */
    lemma RedirectUriAgrees(code: string, redirectUriParams: string)
      ensures Lookup(GetTokenRequest(code, redirectUriParams).form, "redirect_uri")
              == Lookup(GetLoginUrl(redirectUriParams).query, "redirect_uri")
              == [RedirectUriFor(redirectUriParams)]
      ensures Lookup(GetTokenRequest(code, redirectUriParams).form, "client_id")
              == Lookup(GetLoginUrl(redirectUriParams).query, "client_id") == [sso.clientId]
      ensures Lookup(GetLoginUrl(redirectUriParams).query, "client_secret") == []
    {
      var q := GetLoginUrl(redirectUriParams).query;
      var f := GetTokenRequest(code, redirectUriParams).form;
      LookupUnique(q, "redirect_uri", 3);
      LookupUnique(f, "redirect_uri", 2);
      LookupUnique(q, "client_id", 0);
      LookupUnique(f, "client_id", 3);
      LookupAbsent(q, "client_secret");
    }

    /**
     * `handle_callback`: exchange the code, fetch the userinfo, provision the account
     * and its membership of the configured tenant, record the login, then issue tokens:
     * a web-app token when redirect parameters are present, otherwise a console
     * access token and a stored refresh token. The clock is read at `createdAt` when
     * the account is created, at `loginAt` for the login time and at `tokenAt` for the
     * token expiry. A failed callback changes nothing;
     * a successful one changes no account but the first one with the user's email.
     */
    method HandleCallback(dir: Directory, store: KvStore, code: string, clientHost: string,
                          redirectUriParams: string, tokenReply: TokenReply, userInfoReply: UserInfoReply,
                          createdAt: int, loginAt: int, tokenAt: int, newAccountId: string, entropy: seq<TS.Byte>)
      returns (r: Result<CallbackTokens, OidcError>)
      requires dir.Valid() && dir.IdIsFresh(newAccountId)
      requires |entropy| == TS.RefreshTokenBytes
      modifies dir, store
      modifies (set a | a in dir.accounts)`lastLoginAt, (set a | a in dir.accounts)`lastLoginIp
      modifies (set a | a in dir.accounts)`status, (set a | a in dir.accounts)`name
      ensures dir.Valid()
      ensures r.Err? <==> tokenReply.status != 200 || userInfoReply.status != 200 || !Truthy(userInfoReply.info.email)
      ensures r.Err? ==> dir.accounts == old(dir.accounts) && dir.joins == old(dir.joins)
                         && store.data == old(store.data)
      ensures r.Err? ==> forall b :: b in old(dir.accounts) ==> unchanged(b)
      ensures r.Ok? ==> forall b :: b in old(dir.accounts) && Some(b) != FindByEmail(dir.accounts, userInfoReply.info.email.value)
                          ==> unchanged(b)
      ensures r.Ok? ==>
        var info := userInfoReply.info;
        var email := info.email.value;
        FindByEmail(dir.accounts, email).Some?
        && var a := FindByEmail(dir.accounts, email).value;
        var role := ResolveRole(app.accountDefaultRole, info.roles);
        (old(FindByEmail(dir.accounts, email)).Some? ==>
           dir.accounts == old(dir.accounts) && a == old(FindByEmail(dir.accounts, email)).value)
        && (old(FindByEmail(dir.accounts, email)).None? ==>
              dir.accounts == old(dir.accounts) + [a] && a.id == newAccountId && a.avatar == Some("")
              && HasCreateDefaults(a, createdAt))
        && dir.joins == SyncMembership(old(dir.joins), app.tenantId, a.id, role)
        && a.status == StatusName(Active) && a.name == DisplayName(info)
        && a.lastLoginAt == Some(loginAt) && a.lastLoginIp == Some(clientHost)
        && (redirectUriParams != "" ==>
              r.value == WebappTokens(WebappAccessToken(app, a.id, a.email, tokenAt)) && store.data == old(store.data))
        && (redirectUriParams == "" ==>
              r.value == ConsoleTokens(AS.GetAccountJwtToken(app, a.id, tokenAt), TS.GenerateRefreshToken(entropy))
              && store.data == TS.StoredRefreshToken(old(store.data), app, TS.RefreshTokenTtl(app),
                                                     TS.GenerateRefreshToken(entropy), a.id))
    {
      if tokenReply.status != 200 {
        return Err(TokenRequestFailed);
      }
      if userInfoReply.status != 200 {
        return Err(UserInfoRequestFailed);
      }
      var info := userInfoReply.info;
      if !Truthy(info.email) {
        return Err(MissingEmail);
      }
      var tokens := CompleteCallback(dir, store, clientHost, redirectUriParams, info, createdAt, loginAt, tokenAt,
                                     newAccountId, entropy);
      return Ok(tokens);
    }

    /**
     * The part of the callback after both replies succeeded and the email is
     * present: provision and sign in the account, then issue the tokens.
     */
    method CompleteCallback(dir: Directory, store: KvStore, clientHost: string, redirectUriParams: string,
                            info: UserInfo, createdAt: int, loginAt: int, tokenAt: int, newAccountId: string,
                            entropy: seq<TS.Byte>)
      returns (tokens: CallbackTokens)
      requires dir.Valid() && dir.IdIsFresh(newAccountId)
      requires |entropy| == TS.RefreshTokenBytes && Truthy(info.email)
      modifies dir, store
      modifies (set a | a in dir.accounts)`lastLoginAt, (set a | a in dir.accounts)`lastLoginIp
      modifies (set a | a in dir.accounts)`status, (set a | a in dir.accounts)`name
      ensures dir.Valid()
      ensures forall b :: b in old(dir.accounts) && Some(b) != FindByEmail(dir.accounts, info.email.value) ==> unchanged(b)
      ensures
        var email := info.email.value;
        FindByEmail(dir.accounts, email).Some?
        && var a := FindByEmail(dir.accounts, email).value;
        var role := ResolveRole(app.accountDefaultRole, info.roles);
        (old(FindByEmail(dir.accounts, email)).Some? ==>
           dir.accounts == old(dir.accounts) && a == old(FindByEmail(dir.accounts, email)).value)
        && (old(FindByEmail(dir.accounts, email)).None? ==>
              dir.accounts == old(dir.accounts) + [a] && a.id == newAccountId && a.avatar == Some("")
              && HasCreateDefaults(a, createdAt))
        && dir.joins == SyncMembership(old(dir.joins), app.tenantId, a.id, role)
        && a.status == StatusName(Active) && a.name == DisplayName(info)
        && a.lastLoginAt == Some(loginAt) && a.lastLoginIp == Some(clientHost)
        && (redirectUriParams != "" ==>
              tokens == WebappTokens(WebappAccessToken(app, a.id, a.email, tokenAt)) && store.data == old(store.data))
        && (redirectUriParams == "" ==>
              tokens == ConsoleTokens(AS.GetAccountJwtToken(app, a.id, tokenAt), TS.GenerateRefreshToken(entropy))
              && store.data == TS.StoredRefreshToken(old(store.data), app, TS.RefreshTokenTtl(app),
                                                     TS.GenerateRefreshToken(entropy), a.id))
    {
      var email := info.email.value;
      var userName := DisplayName(info);
      var role := ResolveRole(app.accountDefaultRole, info.roles);

      var account := SignInAccount(dir, email, userName, app.tenantId, role, newAccountId, createdAt,
                                   clientHost, loginAt);

      if redirectUriParams != "" {
        return WebappTokens(WebappAccessToken(app, account.id, account.email, tokenAt));
      }
      var consoleAccessToken := AS.GetAccountJwtToken(app, account.id, tokenAt);
      var refreshToken := TS.GenerateRefreshToken(entropy);
      TS.StoreRefreshToken(store, app, refreshToken, account.id);
      return ConsoleTokens(consoleAccessToken, refreshToken);
    }
  }

  /**
   * The provisioning step of the callback: find the account by email or create it
   * (with an empty avatar and the given id), then create or update its membership
   * of the tenant so that it carries `role`.
   */
  method ProvisionAccount(dir: Directory, email: string, userName: string, tenantId: string, role: string,
                          newAccountId: string, now: int) returns (account: Account)
    requires dir.Valid() && dir.IdIsFresh(newAccountId)
    modifies dir
    ensures dir.Valid()
    ensures FindByEmail(dir.accounts, email) == Some(account)
    ensures old(FindByEmail(dir.accounts, email)).Some? ==>
              dir.accounts == old(dir.accounts) && account == old(FindByEmail(dir.accounts, email)).value
    ensures old(FindByEmail(dir.accounts, email)).None? ==>
              fresh(account) && dir.accounts == old(dir.accounts) + [account] && account.id == newAccountId
              && account.name == userName && account.avatar == Some("") && HasCreateDefaults(account, now)
    ensures dir.joins == SyncMembership(old(dir.joins), tenantId, account.id, role)
  {
    var found := FindByEmail(dir.accounts, email);
    if found.None? {
      account := dir.CreateAccount(email, userName, Some(""), None, newAccountId, now);
      FindByEmailAfterCreate(old(dir.accounts), account);
      assert GetByAccount(dir.joins, tenantId, account.id).None? by {
        assert forall j :: j in dir.joins ==> j.accountId != newAccountId;
      }
      var ok := dir.CreateJoin(tenantId, account.id, role);
    } else {
      account := found.value;
      var ta := GetByAccount(dir.joins, tenantId, account.id);
      if ta.None? {
        var ok := dir.CreateJoin(tenantId, account.id, role);
      } else if ta.value.role != role {
        dir.SetJoinRole(tenantId, account.id, role);
      }
    }
  }

  /**
   * The account half of the callback: provision the account and its membership,
   * then record the login on it; every other account is left alone, including
   * another account with the same email, which `.first()` never returns.
   */
  method SignInAccount(dir: Directory, email: string, userName: string, tenantId: string, role: string,
                       newAccountId: string, createdAt: int, clientHost: string, loginAt: int)
    returns (account: Account)
    requires dir.Valid() && dir.IdIsFresh(newAccountId)
    modifies dir
    modifies (set a | a in dir.accounts)`lastLoginAt, (set a | a in dir.accounts)`lastLoginIp
    modifies (set a | a in dir.accounts)`status, (set a | a in dir.accounts)`name
    ensures dir.Valid()
    ensures FindByEmail(dir.accounts, email) == Some(account)
    ensures old(FindByEmail(dir.accounts, email)).Some? ==>
              dir.accounts == old(dir.accounts) && account == old(FindByEmail(dir.accounts, email)).value
    ensures old(FindByEmail(dir.accounts, email)).None? ==>
              dir.accounts == old(dir.accounts) + [account] && account.id == newAccountId
              && account.avatar == Some("") && HasCreateDefaults(account, createdAt)
    ensures dir.joins == SyncMembership(old(dir.joins), tenantId, account.id, role)
    ensures account.status == StatusName(Active) && account.name == userName
    ensures account.lastLoginAt == Some(loginAt) && account.lastLoginIp == Some(clientHost)
    ensures forall b :: b in old(dir.accounts) && b != account ==> unchanged(b)
  {
    account := ProvisionAccount(dir, email, userName, tenantId, role, newAccountId, createdAt);
    assert account.email == email;
    RecordLogin(account, userName, clientHost, loginAt);
  }

  /**
   * The login bookkeeping of the callback: time, address, active status and the
   * resolved name; no other field of the account changes.
   */
  method RecordLogin(account: Account, userName: string, clientHost: string, now: int)
    modifies account`lastLoginAt, account`lastLoginIp, account`status, account`name
    ensures account.lastLoginAt == Some(now) && account.lastLoginIp == Some(clientHost)
    ensures account.status == StatusName(Active) && account.name == userName
  {
    account.lastLoginAt := Some(now);
    account.lastLoginIp := Some(clientHost);
    if account.status != StatusName(Active) {
      account.status := StatusName(Active);
    }
    if account.name != userName {
      account.name := userName;
    }
  }

  /** `check_oidc_config` fails exactly when some endpoint is missing or empty. */
  lemma CheckOidcConfigFails(s: OidcService)
    ensures !s.CheckOidcConfig() <==>
              s.endpoints.authorization in {None, Some("")} || s.endpoints.token in {None, Some("")}
              || s.endpoints.userinfo in {None, Some("")}
  {
  }

  /** The user name: the `name` claim when truthy, else the part of the email before the first "@". */
  function DisplayName(info: UserInfo): (n: string)
    requires Truthy(info.email)
    ensures Truthy(info.name) ==> n == info.name.value
    ensures !Truthy(info.name) ==> n == Split(info.email.value, '@')[0] && '@' !in n
  {
    if Truthy(info.name) then info.name.value
    else
      BeforeFirstIsFirstPiece(info.email.value, '@');
      BeforeFirst(info.email.value, '@')
  }

  /**
   * The role of a callback: the configured default when it is a valid role (else
   * normal), overridden by the first of admin, editor, normal found among the claims.
   */
  function ResolveRole(defaultRole: string, roles: seq<string>): (role: string)
    ensures role == defaultRole || role in {"admin", "editor", "normal"}
    ensures role == defaultRole ==> IsValidRole(role) || role == "normal"
  {
    if RoleName(Admin) in roles then RoleName(Admin)
    else if RoleName(Editor) in roles then RoleName(Editor)
    else if RoleName(Normal) in roles then RoleName(Normal)
    else if IsValidRole(defaultRole) then defaultRole
    else RoleName(Normal)
  }

  /** Claims outrank the default in the fixed order admin, editor, normal. */
  lemma ResolveRolePriority(defaultRole: string, roles: seq<string>)
    ensures "admin" in roles ==> ResolveRole(defaultRole, roles) == "admin"
    ensures "admin" !in roles && "editor" in roles ==> ResolveRole(defaultRole, roles) == "editor"
    ensures "admin" !in roles && "editor" !in roles && "normal" in roles ==> ResolveRole(defaultRole, roles) == "normal"
    ensures "admin" !in roles && "editor" !in roles && "normal" !in roles ==>
              ResolveRole(defaultRole, roles) == (if IsValidRole(defaultRole) then defaultRole else "normal")
  {
  }

  /** The resolved role is always a valid role, and owner or dataset_operator only by default. */
  lemma ResolveRoleIsValid(defaultRole: string, roles: seq<string>)
    ensures IsValidRole(ResolveRole(defaultRole, roles))
    ensures ResolveRole(defaultRole, roles) in {"owner", "dataset_operator"} ==> ResolveRole(defaultRole, roles) == defaultRole
  {
  }

  /** The tokens a callback returns, by branch. */
  datatype CallbackTokens =
    | WebappTokens(accessToken: Jwt)
    | ConsoleTokens(accessToken: Jwt, refreshToken: string)

  const WebappSubject := "Web API Passport"

  /** The web-app token: the account as user, its email as session, and the access expiry. */
  function WebappAccessToken(cfg: AppConfig, accountId: string, email: string, now: int): (t: Jwt)
    ensures t.payload.Keys == {"user_id", "session_id", "auth_type", "token_source", "exp", "sub"}
    ensures t.payload["user_id"] == Str(accountId) && t.payload["session_id"] == Str(email)
    ensures t.payload["auth_type"] == Str("internal") && t.payload["token_source"] == Str("webapp_login_token")
    ensures t.payload["exp"] == Int(TS.AccessExpiry(cfg, now)) && t.payload["sub"] == Str(WebappSubject)
  {
    Signed(map["user_id" := Str(accountId), "session_id" := Str(email), "auth_type" := Str("internal"),
               "token_source" := Str("webapp_login_token"), "exp" := Int(TS.AccessExpiry(cfg, now)),
               "sub" := Str(WebappSubject)])
  }

  /**
   * The two kinds of token for one account never coincide: their subjects differ,
   * yet both name the same user and expire at the same moment.
   */
  lemma WebappAndConsoleTokensDiffer(cfg: AppConfig, accountId: string, email: string, now: int)
    ensures WebappAccessToken(cfg, accountId, email, now) != AS.GetAccountJwtToken(cfg, accountId, now)
    ensures WebappAccessToken(cfg, accountId, email, now).payload["user_id"]
            == AS.GetAccountJwtToken(cfg, accountId, now).payload["user_id"]
    ensures WebappAccessToken(cfg, accountId, email, now).payload["exp"]
            == AS.GetAccountJwtToken(cfg, accountId, now).payload["exp"]
  {
    assert WebappAccessToken(cfg, accountId, email, now).payload["sub"]
        != AS.GetAccountJwtToken(cfg, accountId, now).payload["sub"];
  }
}
