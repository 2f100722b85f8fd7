# dify-sso access-control and login core, modelled in Dafny

This project models the core of dify-sso. dify-sso is an enterprise-edition stand-in for Dify that adds OIDC single sign-on and a web-app access policy to a Dify deployment. The model covers these parts:

- **Web-app access policy** (`WebApp`). A grant for an app is three keys in the key-value store: its access mode, the comma-joined list of allowed account ids, and the comma-joined list of group ids. The sites table maps app codes to app ids. Modelled operations:
  - writing a grant;
  - the mode getters, single and batch;
  - the token-based permission check `get_app_permission`, including its `Authorization: Bearer` parsing and the `"visitor"` fallback;
  - the trusted-userId permission check and its batch form;
  - clearing a grant;
  - the pagination of the subject search.
- **OIDC login** (`Oidc`). Loading the endpoints, the endpoint check, the authorization and token requests, and the callback. The callback resolves the role, provisions the account and its tenant membership, records the login, and issues either a web-app token or a console access token with a stored refresh token.
- **Roles, statuses, accounts and memberships** (`AccountModel`). Covers the role enum and its predicate sets, account status, `Account.create` and the current-tenant setters. Memberships (`tenant_account_joins`) are kept unique per (tenant, account). `Directory` is the account and membership tables, as the database session sees them.
- **Token bookkeeping**:
  - `TokenService`: cookie naming, refresh and CSRF token shapes, refresh-token storage in both directions and cookie attributes.
  - `AccountService`: the console JWT payload, login bookkeeping and the token pair a login returns.
- **Small utilities**:
  - `RedisExt`: the single-assignment Redis client wrapper, the `redis_fallback` decorator and the host-list parsing of `init_app`.
  - `SiteModel`: the site disclaimer guard and unique code generation.
  - `Helper`: random strings and remote-IP extraction.

How the model represents things:

- **The store.** The key-value store is `KeyValue.KvStore`, a map from key to value. The TTL a write set is recorded as data.
- **The database.** The tables are in-memory sequences and maps. A query's `.first()` is "the first matching row in table order".
- **Signed tokens.** JWT signing is not modelled: an issued token (`Passport.Jwt`) is the claim map it carries. `PassportService.verify` is a parameter. app/services/passport.py defines only `issue`, so as written the call at app/api/dify/webapp.py:156 raises `AttributeError`, which the handler at :159-161 catches, and every caller resolves to "visitor". That is the instance of the parameter that never returns a payload (`WebApp.UndefinedVerifyIsVisitor`); the model keeps `verify` general, for its evident meaning.
- **Clocks and randomness.** These are parameters too:
  - each clock read is its own instant in whole seconds (`createdAt`, `loginAt`, `tokenAt`, `csrfAt`), with no assumed order;
  - `entropy` is the random bytes of `secrets.token_hex`;
  - alphabet draws feed `secrets.choice`;
  - `newAccountId` is the database-generated id, with a freshness precondition.

Where the code and its documented intent disagree, the model follows the code in these places:

- **Two truthiness tests on the stored mode.** `get_app_access_mode` tests the stored mode for truthiness, so a stored empty mode reads as "public". The permission checks test `is not None`, so the same empty mode falls through to the allow-list (`WebApp.EmptyModeDiverges`).
- **A visitor under a private mode.** Under `private_all`/`sso_verified`, a visitor is not denied outright: the check falls through to the allow-list (`WebApp.VisitorUnderPrivateFallsThrough`).
- **Two refresh-token TTLs.**
  - `AccountService.store_refresh_token` passes the bare `REFRESH_TOKEN_EXPIRE_DAYS` to `setex`, which reads it as seconds.
  - `TokenService.store_refresh_token` passes that many days.
  - The model keeps both as written. `AccountService.RefreshTtlMismatch` states the difference: with the defaults, 30 seconds against 30 days.

In one place the model follows the evident intent instead, because the code as written cannot run:

- **Mismatched calls in `handle_callback`.** `handle_callback` calls `Account.get_by_email(email)`, `Account.create(...)` and `TenantAccountJoin.get_by_account(tenant, account)` without the session argument their definitions in app/models/account.py require, so as written the call at app/services/oidc.py:127 raises a `TypeError`. It also calls `TenantAccountJoin.create`, which is not defined there. The model gives these calls their evident meaning as `Directory` operations (`FindByEmail`, `CreateAccount`, `GetByAccount`, `CreateJoin`, `SetJoinRole`).

## Model

| member | source | states |
|---|---|---|
| WebApp.GrantKeysDistinct | app/api/dify/webapp.py:80-82 | the mode, accounts and groups keys of one app are three distinct keys |
| WebApp.GrantKeysOfOtherApps | app/api/dify/webapp.py:80-82 | keys of two different apps whose ids contain no ':' never collide |
| WebApp.IdsOfType | app/api/dify/webapp.py:72-78 | the ids of the subjects of one type, and nothing else |
| WebApp.WriteGrant | app/api/dify/webapp.py:72-82 | exactly the app's three keys are added or rewritten, other keys keep their entries, and the groups key holds the comma-joined group ids without a TTL |
| WebApp.IdsOfTypeMembers | app/api/dify/webapp.py:72-78 | an id is in the account (group) list iff some subject carries it with that type |
| WebApp.OtherTypesDropped | app/api/dify/webapp.py:72-78 | a subject of any other type lands in neither list |
| WebApp.SetAppAccessMode | app/api/dify/webapp.py:61-84 | empty appId: answers public/false and writes nothing; otherwise it rewrites all three keys with the mode and the comma-joined account and group ids in input order, and answers mode/true |
| WebApp.ModeOrPublic | app/api/dify/webapp.py:103-109 | a truthy stored mode is returned, an absent or empty one reads as "public"; never empty |
| WebApp.ResolveAppId | app/api/dify/webapp.py:95-98 | a non-empty code found in the sites table overrides appId, otherwise appId stands |
| WebApp.GetAppAccessMode | app/api/dify/webapp.py:90-109 | an empty resolved id is public, otherwise the truthy-tested stored mode of the resolved id |
| WebApp.GetWebappAccessModeCode | app/api/dify/webapp.py:298-321 | `app_code` takes precedence over `appCode`; an empty or unknown code is public, a known one reads its app's mode |
| WebApp.GetWebappAccessModeBatch | app/api/dify/webapp.py:113-125 | one entry per requested id, each the truthy-tested mode or public |
| WebApp.StoredMode | app/api/dify/webapp.py:163-166 | any stored value, even an empty one, is the mode; only a missing key means public |
| WebApp.AllowListed | app/api/dify/webapp.py:176-187 | allowed iff the account list is truthy and its comma split contains the (string) subject |
| WebApp.AppDecision | app/api/dify/webapp.py:168-187 | public allows; private_all/sso_verified allow a non-visitor; everything else is decided by the allow-list |
| WebApp.TrustedDecision | app/api/dify/webapp.py:344-363 | public and private modes allow anyone; other modes are decided by the allow-list |
| WebApp.ParseBearer | app/api/dify/webapp.py:145-154 | no header, a header without a space, a failed one-split or a scheme other than "bearer" yields no token; otherwise the second piece of the split |
| WebApp.FirstWordOfWord | app/api/dify/webapp.py:151 | the first word of `word + white-space...` is the whole word |
| WebApp.ParseBearerWellFormed | app/api/dify/webapp.py:148-154 | `<scheme> <token>` with scheme "bearer" in any letter case yields exactly the token |
| WebApp.ResolveUser | app/api/dify/webapp.py:144-161 | the subject is end_user_id, else user_id of the verified payload, else "visitor"; a parse or verify failure leaves "visitor" |
| WebApp.UndefinedVerifyIsVisitor | app/api/dify/webapp.py:156-161 | with the `verify` that `PassportService` as written does not provide (it always fails), every request resolves to "visitor" |
| WebApp.NoBearerIsVisitor | app/api/dify/webapp.py:145-154 | every malformed header leaves the subject as "visitor" |
| WebApp.GetAppPermission | app/api/dify/webapp.py:130-187 | an app code that does not resolve denies whatever the token; an app whose mode was never stored allows every request |
| WebApp.GetWebappPermission | app/api/dify/webapp.py:325-363 | an app code that does not resolve denies whatever the user; an app whose mode was never stored allows every user |
| WebApp.GetWebappPermissionBatch | app/api/dify/webapp.py:367-404 | one entry per code; unknown codes stay false without stopping the loop; known ones get the trusted decision |
| WebApp.BatchAgreesWithSingle | app/api/dify/webapp.py:324-404 | for a non-empty code the batch entry equals the single trusted check |
| WebApp.CleanWebappAccessMode | app/api/dify/webapp.py:408-419 | empty appId: false and no change; otherwise deletes exactly the three keys and answers true |
| WebApp.SetThenGetMode | app/api/dify/webapp.py:99-109 | after a grant is written, the getter returns its mode (public for an empty one) and the permission checks see it as stored |
| WebApp.WriteGrantFrame | app/api/dify/webapp.py:80-82 | writing one app's grant leaves every other app's mode and allow-list unchanged |
| WebApp.JoinOfNonEmpty | app/api/dify/webapp.py:81 | a joined list whose first id is non-empty is a truthy value |
| WebApp.RestrictedAllowsExactlyListed | app/api/dify/webapp.py:163-187 | under a mode that is neither public nor private, a written grant with non-empty, comma-free account ids allows exactly those ids: in the trusted check, in the allow-list test, and in the token check, where the request's resolved subject must be one of them |
| WebApp.VisitorUnderPrivateFallsThrough | app/api/dify/webapp.py:172-187 | a visitor under private_all is decided by the allow-list, not denied outright |
| WebApp.EmptyModeDiverges | app/api/dify/webapp.py:104-165 | a stored empty mode reads back as public from the getter (truthiness, line 104) but both permission checks (`is not None`, line 165) decide it by the allow-list, for the trusted user id and for the token's resolved subject |
| WebApp.CleanResetsGrant | app/api/dify/webapp.py:415-417 | after a clean, the mode reads as public, the allow-list admits nobody and the trusted check allows |
| WebApp.CeilDiv | app/api/dify/webapp.py:273 | the ceiling is zero exactly for zero rows |
| WebApp.CeilDivBounds | app/api/dify/webapp.py:273 | `ceil(total/size)` pages cover every row and one page fewer would not |
| WebApp.DivBounds | app/api/dify/webapp.py:253 | row k lies within page `k / size` |
| WebApp.RowPageWithinTotal | app/api/dify/webapp.py:253-273 | every row's page number is at most totalPages |
| WebApp.PageOffset | app/api/dify/webapp.py:253 | the offset of a page is `(page - 1) * size` |
| WebApp.PageSlice | app/api/dify/webapp.py:253-254 | a page holds at most `size` rows: the window of ordered matches from its offset, or none past the end |
| WebApp.Clamp | app/api/dify/webapp.py:223 | the page size is within 1..100 and a size already in range is kept |
| WebApp.SearchAppSubjects | app/api/dify/webapp.py:219-288 | a malformed number is the 400 error; otherwise page ≥ 1, 1 ≤ size ≤ 100, totalPages = ceil(total/size), the page is the parsed page number when above 1 and 1 otherwise, hasMore iff page < totalPages, the rows are the page's window, and no matches keep the requested page as currPage with totalPages 0, no rows and hasMore false |
| WebApp.EveryMatchOnItsPage | app/api/dify/webapp.py:253-274 | the k-th match appears on page `k / size + 1` at position `k % size`, and that page is within totalPages |
| WebApp.PagesPastTheEndEmpty | app/api/dify/webapp.py:253-273 | a page beyond totalPages is empty |
| Oidc.LoadOidcConfig | app/services/oidc.py:31-42 | only a 200 discovery reply yields the endpoints; any other status is the load error |
| Oidc.BearerHeader | app/services/oidc.py:87 | the userinfo request carries `Bearer <access token>`, "Bearer None" when the token is missing |
| Oidc.Lookup | app/services/oidc.py:51-57 | a field lookup yields no more values than there are fields |
| Oidc.LookupUnique | app/services/oidc.py:51-73 | a field name that occurs once looks up to exactly its value |
| Oidc.LookupAbsent | app/services/oidc.py:51-57 | a field name that does not occur looks up to nothing |
| Oidc.OidcService.constructor | app/services/oidc.py:16-26 | the service keeps the SSO and app settings and the loaded endpoints |
| Oidc.OidcService.Create | app/services/oidc.py:16-42 | construction fails with the load error exactly when discovery does not answer 200; otherwise the endpoints are the discovery document's |
| Oidc.OidcService.CheckOidcConfig | app/services/oidc.py:44-47 | passing implies all three endpoints are present (the exact condition is CheckOidcConfigFails) |
| Oidc.OidcService.RedirectUriFor | app/services/oidc.py:55-76 | the configured redirect URI when there are no params, `base + "?" + unquote(params)` otherwise |
| Oidc.OidcService.GetLoginUrl | app/services/oidc.py:49-63 | the authorization endpoint with client_id, response_type, scope, the composed redirect_uri and state "random_state", in that order |
| Oidc.OidcService.GetTokenRequest | app/services/oidc.py:65-78 | the token endpoint with grant_type authorization_code, the code, the composed redirect_uri, client id and secret |
| Oidc.OidcService.RedirectUriAgrees | app/services/oidc.py:55-76 | login URL and token request carry one and the same redirect_uri and client_id, and the secret never appears in the login URL |
| Oidc.OidcService.HandleCallback | app/services/oidc.py:95-208 | fails iff the token or userinfo call fails or the email is missing or empty; on failure no table, store entry or account field changes; on success no previously existing account changes except the first one with the user's email (the `.first()` match); a newly created account carries the new id, an empty avatar and `create`'s theme, language, timezone and `initialized_at` at `createdAt`; the account found or created is active, named as resolved and stamped with the login time and client host, its membership is synchronised to the resolved role, and the branch decides between a web-app token alone and a console token with a stored refresh token |
| Oidc.OidcService.CompleteCallback | app/services/oidc.py:126-204 | after both replies succeeded with an email: the account found or created by email is signed in (a created one with `create`'s defaults and `initialized_at` at `createdAt`), its membership synchronised, every other account untouched (a second account with the same email included), and the tokens issued by branch |
| Oidc.ProvisionAccount | app/services/oidc.py:126-151 | an unknown email creates one account with the new id, the resolved name, an empty avatar and `create`'s defaults (theme light, language zh-Hans, timezone Asia/Shanghai, initialised at the creation read); either way the (tenant, account) membership is created or updated to the role; accounts found are left in place |
| Oidc.RecordLogin | app/services/oidc.py:153-162 | last login time and IP are set, status becomes active and the name the resolved one; the frame allows no other field to change |
| Oidc.SignInAccount | app/services/oidc.py:126-162 | the account found or created by email carries the synchronised membership and the login fields, and a created one also `create`'s defaults with `initialized_at` at `createdAt`; every other account object is unchanged |
| Oidc.CheckOidcConfigFails | app/services/oidc.py:44-47 | the check fails exactly when one of the three endpoints is missing or empty |
| Oidc.DisplayName | app/services/oidc.py:114-115 | a truthy name claim is kept, otherwise the email part before the first '@' |
| Oidc.ResolveRole | app/services/oidc.py:118-124 | the role is the default or one of admin, editor, normal, and the default is used only when valid |
| Oidc.ResolveRolePriority | app/services/oidc.py:118-124 | admin beats editor beats normal among the claims; without them the configured default if valid, else normal |
| Oidc.ResolveRoleIsValid | app/services/oidc.py:118-124 | the resolved role is always valid, and other claim values (owner, dataset_operator, anything else) never produce the result |
| Oidc.WebappAccessToken | app/services/oidc.py:170-184 | the web-app payload: user_id, session_id = email, auth_type internal, token_source webapp_login_token, the access expiry and sub "Web API Passport" — and no iss |
| Oidc.WebappAndConsoleTokensDiffer | app/services/oidc.py:170-204 | the two payload shapes never coincide although they name the same user and expiry |
| AccountModel.ParseRole | app/models/account.py:14-19 | a string is a role exactly when it is the value of one of the five members |
| AccountModel.IsValidRole | app/models/account.py:21-31 | valid exactly when the string is the value of an enum member, which excludes the falsy "" |
| AccountModel.IsPrivilegedRole | app/models/account.py:33-37 | present and parsing as owner or admin |
| AccountModel.IsAdminRole | app/models/account.py:39-43 | present and parsing as admin |
| AccountModel.IsNonOwnerRole | app/models/account.py:45-54 | present and parsing as any role but owner |
| AccountModel.IsEditingRole | app/models/account.py:56-60 | present and parsing as owner, admin or editor |
| AccountModel.IsDatasetEditRole | app/models/account.py:62-71 | present and parsing as any role but normal |
| AccountModel.ValidRoleIsRoleName | app/models/account.py:21-31 | is_valid_role holds exactly for the five role values and not for "" |
| AccountModel.RolePredicatesNest | app/models/account.py:33-71 | admin ⇒ privileged ⇒ editing ⇒ dataset-edit ⇒ valid |
| AccountModel.NonOwnerIsValidButOwner | app/models/account.py:45-54 | is_non_owner_role holds iff the role is valid and not owner |
| AccountModel.FalsyRoleHasNoRights | app/models/account.py:35-59 | every predicate is false for None and "" |
| AccountModel.ParseStatus | app/models/account.py:74-79 | a string is a status exactly when it is the value of one of the members |
| AccountModel.StatusRoundTrip | app/models/account.py:74-79 | every status parses back from its value |
| AccountModel.FindJoin | app/models/account.py:276-277 | the index of the first join matching both ids, or none iff no join matches |
| AccountModel.GetByAccount | app/models/account.py:274-277 | the join found matches both ids; none exactly when no join matches |
| AccountModel.GetByAccountIsTheJoin | app/models/account.py:262-277 | under the uniqueness constraint the join found is the only one for the pair |
| AccountModel.SyncMembership | app/services/oidc.py:137-151 | one join more exactly when the pair had none; every join of another pair is kept in place |
| AccountModel.SyncMembershipKeepsUnique | app/models/account.py:262 | creating or updating a membership keeps (tenant, account) unique |
| AccountModel.SyncMembershipEstablishes | app/services/oidc.py:137-150 | after provisioning, the membership for the pair exists with the resolved role |
| AccountModel.SyncMembershipIdempotent | app/services/oidc.py:137-151 | repeating the provisioning step with the same inputs changes nothing |
| AccountModel.SyncMembershipFrame | app/services/oidc.py:137-151 | memberships of every other pair are untouched |
| AccountModel.Tenant.constructor | app/models/account.py:227-231 | a tenant starts with no current role |
| AccountModel.Account.constructor | app/models/account.py:196-205 | the new account is active, initialised now, with theme light, language zh-Hans and timezone Asia/Shanghai, and with `_current_tenant` not yet assigned |
| AccountModel.Account.GetStatus | app/models/account.py:152-154 | the status member for the stored string, or the ValueError case for a string that is no status |
| AccountModel.Account.SetCurrentTenant | app/models/account.py:112-121 | with a join for (tenant, account) the tenant becomes current and takes the join's role; without one the current tenant is None and the tenant's role is kept; afterwards `current_tenant_id` reads that tenant's id or None; the frame allows nothing else to change |
| AccountModel.Account.SetCurrentTenantId | app/models/account.py:127-146 | the one row of the tenant × membership query becomes current with its join's role; no row, or several (which raise), leaves None; afterwards `current_tenant_id` reads the row's tenant id or None; every other tenant's role is kept |
| AccountModel.JoinsFor | app/models/account.py:133-134 | exactly the memberships of (tenant, account) |
| AccountModel.JoinsForUnique | app/models/account.py:262 | under the uniqueness constraint those memberships are none or the one `get_by_account` finds |
| AccountModel.QueryRows | app/models/account.py:130-134 | the query pairs tenants with joins: |tenants| × |joins| rows drawn from both |
| AccountModel.OneOrNone | app/models/account.py:135 | a row exactly when there is exactly one |
| AccountModel.TenantIdQuery | app/models/account.py:130-144 | a row exactly when one tenant has the id and one membership matches; the row is such a tenant and membership |
| AccountModel.TenantIdQueryUnderUniqueness | app/models/account.py:130-144 | within the uniqueness constraint the query finds a row iff one tenant has the id and `get_by_account` finds the membership, and it carries that membership |
| AccountModel.Account.CurrentTenantId | app/models/account.py:123-125 | the `AttributeError` exactly when neither setter has run yet (`create` never assigns `_current_tenant`); afterwards the current tenant's id, or None without one |
| AccountModel.Account.CurrentRole | app/models/account.py:148-150 | the current tenant's role; reading it before a setter ran, or without a current tenant, fails |
| AccountModel.TenantsWithId | app/models/account.py:130-136 | exactly the tenants with the requested id |
| AccountModel.FindByEmail | app/models/account.py:188-191 | the first account with the email, none iff no account has it |
| AccountModel.FindByEmailAfterCreate | app/models/account.py:188-219 | an account created for an unknown email is what the next lookup finds |
| AccountModel.Directory.constructor | app/models/account.py:256-263 | the empty tables satisfy the uniqueness constraint |
| AccountModel.Directory.CreateAccount | app/models/account.py:194-219 | the account is appended active with the create defaults; a membership with role editor is added iff a tenant id is given; uniqueness is kept |
| AccountModel.Directory.CreateJoin | app/models/account.py:262 | a membership is added iff the pair has none; a duplicate is refused and the table is unchanged |
| AccountModel.Directory.SetJoinRole | app/services/oidc.py:148-151 | the found membership takes the new role, in place, keeping uniqueness |
| TokenService.RealCookieName | app/services/token.py:22-23 | "__Host-" + name when secure, the plain name otherwise |
| TokenService.EmptyUrlKeepsNames | app/services/token.py:17-19 | an empty console URL is not secure, so no cookie is renamed |
| TokenService.Hex | app/services/token.py:27-28 | two lower-case hex digits per byte |
| TokenService.HexDigitInjective | app/services/token.py:27-28 | different nibbles give different hex digits |
| TokenService.HexInjective | app/services/token.py:27-28 | different random bytes give different tokens |
| TokenService.GenerateRefreshToken | app/services/token.py:27-28 | the refresh token is 128 lower-case hex characters from 64 bytes |
| TokenService.AccessExpiry | app/services/token.py:32 | the access expiry lies after now |
| TokenService.GenerateCsrfToken | app/services/token.py:31-37 | the CSRF payload has exactly sub = user id and exp after now |
| TokenService.DefaultPrefixesDisjoint | app/services/token.py:42-43 | the default refresh and account-refresh prefixes do not begin one another |
| TokenService.IsSecure | app/services/token.py:17-19 | secure exactly when the console URL begins with "https" (so the emptiness test adds nothing) |
| TokenService.RefreshTokenKey | app/services/token.py:42 | REFRESH_TOKEN_PREFIX + token (stated by StoreKeysDetermineTheirSuffix and StoreKeysDistinct) |
| TokenService.AccountRefreshTokenKey | app/services/token.py:43 | ACCOUNT_REFRESH_TOKEN_PREFIX + account id (stated by StoreKeysDetermineTheirSuffix and StoreKeysDistinct) |
| TokenService.StoreKeysDetermineTheirSuffix | app/services/token.py:42-43 | each key begins with its prefix, and two keys of one kind are equal exactly when their tokens (or account ids) are |
| TokenService.StoreKeysDistinct | app/services/token.py:42-43 | with disjoint prefixes the two refresh keys are always different keys |
| TokenService.RefreshTokenTtl | app/services/token.py:46 | the refresh TTL is 86400 seconds per configured day |
| TokenService.StoredRefreshTokenResolves | app/services/token.py:46-50 | after a store, the token resolves to the account, the account to the token, both with the TTL, and every other key is unchanged |
| TokenService.StoreRefreshToken | app/services/token.py:41-50 | both directions are written with a TTL of the configured days |
| TokenService.AccessTokenCookie | app/services/token.py:53-62 | HttpOnly, secure = is_secure, the given SameSite (a default parameter of "Lax"), path "/", max-age 60 × minutes |
| TokenService.RefreshTokenCookie | app/services/token.py:65-74 | HttpOnly, secure = is_secure, SameSite Lax, path "/", max-age 86400 × days |
| TokenService.CsrfTokenCookie | app/services/token.py:77-86 | not HttpOnly, secure = is_secure, SameSite Lax, path "/", max-age 60 × minutes |
| TokenService.CookiesLaxByDefault | app/services/token.py:53 | without an explicit samesite all three cookies are SameSite=Lax |
| TokenService.AuthCookiesRespectHostPrefix | app/services/token.py:53-86 | every cookie named with the `__Host-` prefix is secure with path "/" |
| TokenService.CookieLifetimesMatchTokens | app/services/token.py:32-86 | the access and CSRF cookies expire with the access token, and the refresh cookie lives as long as the TTL of the refresh token |
| TokenService.Response.constructor | app/services/token.py:53 | a response starts without cookies |
| TokenService.Response.SetAccessTokenToCookie | app/services/token.py:53-62 | appends the access cookie |
| TokenService.Response.SetRefreshTokenToCookie | app/services/token.py:65-74 | appends the refresh cookie |
| TokenService.Response.SetCsrfTokenToCookie | app/services/token.py:77-86 | appends the CSRF cookie |
| AccountService.GetAccountJwtToken | app/services/account.py:41-52 | the console payload has exactly user_id, exp (the access expiry), iss = EDITION and sub "Console API Passport" |
| AccountService.StoreRefreshToken | app/services/account.py:33-38 | both directions are written with the bare REFRESH_TOKEN_EXPIRE_DAYS as TTL |
| AccountService.RefreshTtlMismatch | app/services/account.py:34-37 | that TTL is 86400 times shorter than the one in token.py and the refresh cookie |
| AccountService.UpdateLoginInfo | app/services/account.py:55-59 | sets last login time and IP; the frame allows no other field to change |
| AccountService.StatusAfterLogin | app/services/account.py:66-68 | pending becomes active, every other status is kept |
| AccountService.LoginTokens | app/services/account.py:70-76 | the pair is the console token at its clock read, a fresh refresh token and the CSRF token at its own clock read |
| AccountService.LoginTokensAgree | app/services/account.py:70-76 | the access and CSRF tokens name the same account, their expiries differ by exactly the time between the two clock reads (equal when the reads agree), and the refresh token is 128 hex characters |
| AccountService.LoginRefreshTokensDiffer | app/services/account.py:71 | different entropy gives different refresh tokens |
| AccountService.Login | app/services/account.py:62-76 | login info changes only for a truthy IP, pending becomes active, no other account field may change, the pair is as issued, and the refresh token is stored both ways |
| RedisExt.RedisClientWrapper.constructor | app/extensions/ext_redis.py:40-41 | the wrapper starts without a client |
| RedisExt.RedisClientWrapper.Initialize | app/extensions/ext_redis.py:43-45 | only the first client is kept |
| RedisExt.RedisClientWrapper.GetAttr | app/extensions/ext_redis.py:47-50 | raises the not-initialised RuntimeError iff there is no client, otherwise delegates to it |
| RedisExt.RedisFallback | app/extensions/ext_redis.py:127-146 | returned values and non-Redis exceptions pass through, a RedisError becomes default_return |
| RedisExt.RedisFallbackAbsorbs | app/extensions/ext_redis.py:138-142 | a wrapped call never raises RedisError, and wrapping twice is wrapping once |
| RedisExt.ParseNode | app/extensions/ext_redis.py:85 | the host is the part before the first ':'; an item without ':' is an IndexError; otherwise it succeeds exactly when the second ':'-separated part parses as an integer, that integer is the port, and a failure is the ValueError carrying that part |
| RedisExt.ParseEach | app/extensions/ext_redis.py:84-86 | every item parses, in order, or the list fails exactly when some item fails |
| RedisExt.MapOk | app/extensions/ext_redis.py:84-86 | a comprehension whose item may raise: all items map in order, or the first failing item's error |
| RedisExt.ParseNodes | app/extensions/ext_redis.py:99-102 | one node per comma-separated item, failing exactly when some item fails |
| RedisExt.ParseRenderedNode | app/extensions/ext_redis.py:100 | `host:port` parses back to (host, port) |
| RedisExt.ParseRenderedNodes | app/extensions/ext_redis.py:99-102 | `h1:p1,h2:p2,...` parses to the same node list in order |
| RedisExt.ClientFor | app/extensions/ext_redis.py:59-122 | Sentinel first, then cluster, else a single server; in the Sentinel and cluster branches a missing node list is an AssertionError, and a present one gives the client exactly when it parses, with the parsed nodes (and the Sentinel service name), or else the parse error; the client-side cache is on iff requested and the protocol is ≥ 3 |
| RedisExt.InitApp | app/extensions/ext_redis.py:56-124 | the built client goes to the wrapper only when it has none yet and the configuration is valid |
| KeyValue.KvStore.Set | app/api/dify/webapp.py:80-82 | SET stores the value without a TTL and changes no other key |
| KeyValue.KvStore.SetEx | app/services/token.py:49-50 | SETEX stores the value with its TTL and changes no other key |
| KeyValue.KvStore.Delete | app/api/dify/webapp.py:415-417 | DEL removes the key and nothing else |
| SiteModel.Site.constructor | app/models/model.py:32 | a new site's disclaimer is "" |
| SiteModel.Site.CustomDisclaimer | app/models/model.py:43-45 | the getter returns the stored disclaimer |
| SiteModel.Site.SetCustomDisclaimer | app/models/model.py:47-51 | more than 512 characters is a ValueError and leaves the value; otherwise it is stored, so the bound is kept |
| SiteModel.Candidate | app/libs/helper.py:7-13 | a candidate code has length n (0 for n ≤ 0) and only letters and digits |
| SiteModel.FirstFree | app/models/model.py:55-60 | the chosen code is used by no site, has length n and only letters and digits |
| SiteModel.FirstFreeNoneMeansAllTaken | app/models/model.py:57-58 | no result means every drawn candidate was already taken |
| SiteModel.GenerateCode | app/models/model.py:53-60 | returns the first drawn code no site has, of length n |
| Helper.AlphabetChar | app/libs/helper.py:8 | every alphabet position is an ASCII letter or digit |
| Helper.AlphabetShape | app/libs/helper.py:8 | the alphabet is a–z, A–Z, 0–9: 62 characters |
| Helper.GenerateString | app/libs/helper.py:7-13 | length n (0 for n ≤ 0), the i-th character is the alphabet at the i-th draw, all letters and digits |
| Helper.HeaderValues | app/libs/helper.py:23-24 | every value comes from a header with that name, compared without case |
| Helper.HeaderValuesComplete | app/libs/helper.py:23-24 | every header with the name contributes its value, and the first value is that of the first matching header |
| Helper.HeaderGet | app/libs/helper.py:21-22 | a value exactly when some header has the name (without case), and then the value of the first such header |
| Helper.ExtractRemoteIp | app/libs/helper.py:20-26 | a non-empty Remoteip wins; otherwise the first X-Forwarded-For value; otherwise remote_addr |
| Helper.ExtractRemoteIpComesFromRequest | app/libs/helper.py:20-26 | the address is always one the request carried |
| Strings.Split | app/api/dify/webapp.py:178 | `split` yields at least one piece |
| Strings.SplitJoin | app/api/dify/webapp.py:178 | joining separator-free pieces and splitting again gives them back |
| Strings.JoinSplit | app/api/dify/webapp.py:81 | splitting then joining gives back every string |
| Strings.FirstWord | app/api/dify/webapp.py:151 | the leading word is a prefix free of white space, ends at white space or at the end, and is not empty when the text does not start with white space |
| Strings.SplitOnceOnSpace | app/api/dify/webapp.py:151 | `split(None, 1)` gives at most two pieces, none empty; no pieces exactly when the text is all white space; the first is the leading word after the leading white space, and the second, when present, is the text after that word with its leading white space removed |
| Strings.TrimStartIsSuffix | app/api/dify/webapp.py:224 | `lstrip` leaves a suffix and removes only white space |
| Strings.TrimEndIsPrefix | app/api/dify/webapp.py:224 | `rstrip` leaves a prefix and removes only white space |
| Strings.ParseInt | app/api/dify/webapp.py:222-223 | a parsed integer comes from non-blank text |
| Strings.ParseIntOfStripped | app/api/dify/webapp.py:222-223 | `int()` succeeds exactly on text that strips to an optional sign followed by at least one ASCII digit, and gives their value, negated under '-' |
| Strings.ParseIntOfPadded | app/extensions/ext_redis.py:85 | white space, an optional sign with digits, and white space parse to the signed value of the digits |
| Strings.ParseIntShape | app/api/dify/webapp.py:222-223 | every text `int()` accepts is leading white space, signed digits and trailing white space |
| Strings.ParseIntOfNat | app/extensions/ext_redis.py:85 | `int(str(n)) == n` for every natural number |

## Left out

- **Network I/O.** HTTP to the identity provider (discovery, token and userinfo calls) is left out. Their replies are inputs: `DiscoveryReply`, `TokenReply` and `UserInfoReply`. The body of a non-JSON reply is not modelled.
- **Library calls.** JWT signing and verification, `urlencode` and `unquote` are represented in these ways:
  - a token is its claim map;
  - `verify` and `unquote` are function parameters;
  - the login URL is returned as its endpoint and ordered field list, not as rendered text.
- **Clock and randomness.** The clock, `secrets`, and database-generated ids are parameters. Each clock read is a separate instant; nothing is assumed about their order, so properties across reads are stated as differences (`AccountService.LoginTokensAgree`).
- **Oidc.OidcService.HandleCallback: the `TypeError` as written.** The mismatched calls described above are modelled by their intent, so the exception they raise as written is not modelled.
- **Redis connection construction.** Connection pools, SSL classes, Sentinel and cluster clients are left out. `init_app` is modelled by the client description it would build.
- **Redis expiry.** Expiry is not modelled; the TTL is recorded as data.
- **SQL and sessions.** SQLAlchemy queries, sessions and commits are left out. Each operation changes the in-memory tables as one update.
- **The subject search query.** The search's query (active status, ilike on name and email, order by name and id) is not modelled. `WebApp.SearchAppSubjects` takes the ordered matching rows. The response's per-subject dictionaries are the rows themselves.
- **Static and plumbing handlers.** The constant endpoints of webapp.py (`/info`, last-update-time, `check-credential-policy-compliance`) and `get_app_subjects` (a plain query) are not part of this model.
- **Logging.**
- **Oidc.OidcService.HandleCallback: abbreviated inputs.**
  - The roles claim is a list of strings; a JSON `null` roles claim, which makes the Python code raise, is not modelled.
  - Claim values other than strings are not modelled either.
  - The outbound requests are built by `GetTokenRequest` and `BearerHeader` but are not part of the method's result.
- **Oidc.OidcService.HandleCallback: exception wrapping.** Any exception raised by a database call is not modelled.
- **Strings.ParseInt: not all of Python's `int()`.** It accepts ASCII digits with an optional sign and surrounding white space. It does not accept underscores between digits or non-ASCII digits, both of which Python's `int()` accepts.
- **SiteModel.GenerateCode: draws are finite.** `generate_code` retries without bound. The model consumes a finite sequence of draws and returns `None` when all of them are taken (`SiteModel.FirstFreeNoneMeansAllTaken`).
- **The sites table.** It is a map from code to app id, so codes are unique. The sites query's `.first()` over a non-unique code is not modelled.
- **AccountModel.Account.SetCurrentTenantId: no typed error.** The several-rows case (`MultipleResultsFound`) does not raise a typed error; like the `except` around the query, it ends with no current tenant. Other database exceptions caught by the same `except` are not modelled.
- **The role properties of `Account`.** `is_admin_or_owner`, `is_admin`, `is_editor`, `is_dataset_editor` and `is_dataset_operator` each apply a role predicate to the current tenant's role. The model covers them through the `AccountModel` role predicates and `Account.CurrentRole`, not as separate members.
