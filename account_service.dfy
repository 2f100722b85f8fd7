/**
 * app/services/account.py: console access tokens, login bookkeeping and the
 * token pair a console login returns.
 */
module AccountService {
  import opened Wrappers
  import opened Strings
  import opened Config
  import opened Passport
  import opened KeyValue
  import opened AccountModel
  import TS = TokenService

  /** The pair a login returns. */
  datatype TokenPair = TokenPair(accessToken: Jwt, refreshToken: string, csrfToken: Jwt)

  const ConsoleSubject := "Console API Passport"

  /** `get_account_jwt_token`: the console access token for an account, issued at `now`. */
  function GetAccountJwtToken(cfg: AppConfig, accountId: string, now: int): (t: Jwt)
    ensures t.payload.Keys == {"user_id", "exp", "iss", "sub"}
    ensures t.payload["user_id"] == Str(accountId) && t.payload["iss"] == Str(cfg.edition)
    ensures t.payload["sub"] == Str(ConsoleSubject)
    ensures t.payload["exp"] == Int(TS.AccessExpiry(cfg, now))
  {
    Signed(map["user_id" := Str(accountId), "exp" := Int(TS.AccessExpiry(cfg, now)),
               "iss" := Str(cfg.edition), "sub" := Str(ConsoleSubject)])
  }

  /**
   * `AccountService.store_refresh_token`: both directions, with `setex` given the bare
   * `REFRESH_TOKEN_EXPIRE_DAYS` value, which Redis reads as a number of seconds.
   */
  method StoreRefreshToken(store: KvStore, cfg: AppConfig, refreshToken: string, accountId: string)
    modifies store
    ensures store.data == TS.StoredRefreshToken(old(store.data), cfg, cfg.refreshTokenExpireDays, refreshToken, accountId)
  {
    store.SetEx(TS.RefreshTokenKey(cfg, refreshToken), cfg.refreshTokenExpireDays, accountId);
    store.SetEx(TS.AccountRefreshTokenKey(cfg, accountId), cfg.refreshTokenExpireDays, refreshToken);
  }

  /**
   * The two stores disagree: this one keeps the refresh token for
   * `REFRESH_TOKEN_EXPIRE_DAYS` seconds, `TokenService.store_refresh_token` and the
   * refresh cookie for that many days; with the defaults, 30 seconds against 30 days.
   */
  lemma RefreshTtlMismatch(cfg: AppConfig)
    ensures TS.RefreshTokenTtl(cfg) == 86400 * cfg.refreshTokenExpireDays
    ensures cfg.refreshTokenExpireDays < TS.RefreshTokenTtl(cfg) == TS.RefreshTokenCookie(cfg, "").maxAge
    ensures cfg == DefaultAppConfig ==> cfg.refreshTokenExpireDays == 30 && TS.RefreshTokenTtl(cfg) == 2592000
  {
  }

  /** `update_login_info`: the login time and address of the account, and nothing else. */
  method UpdateLoginInfo(account: Account, ipAddress: string, now: int)
    modifies account`lastLoginAt, account`lastLoginIp
    ensures account.lastLoginAt == Some(now) && account.lastLoginIp == Some(ipAddress)
  {
    account.lastLoginAt := Some(now);
    account.lastLoginIp := Some(ipAddress);
  }

  /** The status a login leaves: pending accounts become active, all others keep theirs. */
  function StatusAfterLogin(status: string): (r: string)
    ensures status == StatusName(Pending) ==> r == StatusName(Active)
    ensures status != StatusName(Pending) ==> r == status
  {
    if status == StatusName(Pending) then StatusName(Active) else status
  }

  /**
   * The tokens a login issues for an account from 64 bytes of entropy. The console
   * token and the CSRF token each read the clock: at `tokenAt` and `csrfAt`.
   */
  function LoginTokens(cfg: AppConfig, accountId: string, tokenAt: int, csrfAt: int, entropy: seq<TS.Byte>)
    : (p: TokenPair)
    requires |entropy| == TS.RefreshTokenBytes
    ensures p.accessToken == GetAccountJwtToken(cfg, accountId, tokenAt)
    ensures p.refreshToken == TS.GenerateRefreshToken(entropy)
    ensures p.csrfToken == TS.GenerateCsrfToken(cfg, accountId, csrfAt)
  {
    TokenPair(GetAccountJwtToken(cfg, accountId, tokenAt), TS.GenerateRefreshToken(entropy),
              TS.GenerateCsrfToken(cfg, accountId, csrfAt))
  }

  /**
   * The pair belongs together: the access token's user and the CSRF token's subject
   * are the account, the CSRF token outlives the access token by exactly the time
   * between the two clock reads (so they expire together when both reads fall on the
   * same second), and the refresh token is 128 hexadecimal digits.
   */
  lemma LoginTokensAgree(cfg: AppConfig, accountId: string, tokenAt: int, csrfAt: int, entropy: seq<TS.Byte>)
    requires |entropy| == TS.RefreshTokenBytes
    ensures var p := LoginTokens(cfg, accountId, tokenAt, csrfAt, entropy);
            p.accessToken.payload["user_id"] == p.csrfToken.payload["sub"] == Str(accountId)
            && p.csrfToken.payload["exp"].i - p.accessToken.payload["exp"].i == csrfAt - tokenAt
            && (tokenAt == csrfAt ==> p.accessToken.payload["exp"] == p.csrfToken.payload["exp"])
            && p.accessToken.payload["exp"].i > tokenAt
            && |p.refreshToken| == 128
            && (forall i :: 0 <= i < |p.refreshToken| ==> TS.IsLowerHex(p.refreshToken[i]))
  {
  }

  /** Two logins drawing different entropy hand out different refresh tokens. */
  lemma LoginRefreshTokensDiffer(cfg: AppConfig, accountId: string, tokenAt: int, csrfAt: int,
                                 e1: seq<TS.Byte>, e2: seq<TS.Byte>)
    requires |e1| == TS.RefreshTokenBytes && |e2| == TS.RefreshTokenBytes && e1 != e2
    ensures LoginTokens(cfg, accountId, tokenAt, csrfAt, e1).refreshToken
            != LoginTokens(cfg, accountId, tokenAt, csrfAt, e2).refreshToken
  {
    if TS.Hex(e1) == TS.Hex(e2) {
      TS.HexInjective(e1, e2);
    }
  }

  /**
   * `login`: a truthy address updates the login info (clock read at `loginAt`), a
   * pending account becomes active, and the issued refresh token is stored in both
   * directions. No other field of the account changes.
   */
  method Login(account: Account, ipAddress: Option<string>, store: KvStore, cfg: AppConfig,
               loginAt: int, tokenAt: int, csrfAt: int, entropy: seq<TS.Byte>) returns (pair: TokenPair)
    requires |entropy| == TS.RefreshTokenBytes
    modifies account`lastLoginAt, account`lastLoginIp, account`status, store
    ensures pair == LoginTokens(cfg, account.id, tokenAt, csrfAt, entropy)
    ensures Truthy(ipAddress) ==> account.lastLoginAt == Some(loginAt) && account.lastLoginIp == ipAddress
    ensures !Truthy(ipAddress) ==>
              account.lastLoginAt == old(account.lastLoginAt) && account.lastLoginIp == old(account.lastLoginIp)
    ensures account.status == StatusAfterLogin(old(account.status))
    ensures store.data == TS.StoredRefreshToken(old(store.data), cfg, cfg.refreshTokenExpireDays,
                                                pair.refreshToken, account.id)
  {
    if Truthy(ipAddress) {
      UpdateLoginInfo(account, ipAddress.value, loginAt);
    }
    if account.status == StatusName(Pending) {
      account.status := StatusName(Active);
    }
    var accessToken := GetAccountJwtToken(cfg, account.id, tokenAt);
    var refreshToken := TS.GenerateRefreshToken(entropy);
    var csrfToken := TS.GenerateCsrfToken(cfg, account.id, csrfAt);
    StoreRefreshToken(store, cfg, refreshToken, account.id);
    pair := TokenPair(accessToken, refreshToken, csrfToken);
  }
}
