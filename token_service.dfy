/**
 * app/services/token.py: cookie naming, refresh and CSRF token generation,
 * refresh-token storage with its expiry, and the three auth cookies.
 */
module TokenService {
  import opened Wrappers
  import opened Strings
  import opened Config
  import opened Passport
  import opened KeyValue

  const CookieNameAccessToken := "access_token"
  const CookieNameRefreshToken := "refresh_token"
  const CookieNameCsrfToken := "csrf_token"

  /** The prefix browsers reserve for secure, host-only cookies with path "/". */
  const HostPrefix := "__Host-"

  /** `is_secure`: an empty console URL is not secure; otherwise it must begin with "https". */
  function IsSecure(cfg: AppConfig): (secure: bool)
    ensures secure <==> |cfg.consoleWebUrl| >= 5 && cfg.consoleWebUrl[..5] == "https"
  {
    cfg.consoleWebUrl != "" && StartsWith(cfg.consoleWebUrl, "https")
  }

  /** `real_cookie_name`: secure deployments use the `__Host-` prefixed name. */
  function RealCookieName(cfg: AppConfig, cookieName: string): (r: string)
    ensures IsSecure(cfg) ==> r == HostPrefix + cookieName
    ensures !IsSecure(cfg) ==> r == cookieName
  {
    if IsSecure(cfg) then HostPrefix + cookieName else cookieName
  }

  /** Without a console URL no cookie is renamed. */
  lemma EmptyUrlKeepsNames(cfg: AppConfig, cookieName: string)
    requires cfg.consoleWebUrl == ""
    ensures RealCookieName(cfg, cookieName) == cookieName
  {
  }

  // ---------------------------------------------------------------- tokens

  /** One byte of `secrets.token_bytes`. */
  type Byte = x: int | 0 <= x < 256

  type Nibble = x: int | 0 <= x < 16

  function HexDigit(d: Nibble): char
  {
    if d < 10 then ('0' as int + d) as char else ('a' as int + (d - 10)) as char
  }

  predicate IsLowerHex(c: char)
  {
    '0' <= c <= '9' || 'a' <= c <= 'f'
  }

  /** `bytes.hex()`: two lower-case hexadecimal digits per byte, high nibble first. */
  function Hex(bytes: seq<Byte>): (s: string)
    ensures |s| == 2 * |bytes|
    ensures forall i :: 0 <= i < |s| ==> IsLowerHex(s[i])
  {
    if |bytes| == 0 then ""
    else [HexDigit(bytes[0] / 16), HexDigit(bytes[0] % 16)] + Hex(bytes[1..])
  }

  lemma HexDigitInjective(a: Nibble, b: Nibble)
    requires HexDigit(a) == HexDigit(b)
    ensures a == b
  {
  }

  /** Distinct entropy gives distinct tokens: the hex encoding loses nothing. */
  lemma {:induction false} HexInjective(a: seq<Byte>, b: seq<Byte>)
    requires |a| == |b|
    requires Hex(a) == Hex(b)
    ensures a == b
  {
    if |a| > 0 {
      var ha := Hex(a);
      var hb := Hex(b);
      assert ha[0] == hb[0] && ha[1] == hb[1];
      HexDigitInjective(a[0] / 16, b[0] / 16);
      HexDigitInjective(a[0] % 16, b[0] % 16);
      assert a[0] == b[0];
      assert ha[2..] == Hex(a[1..]) && hb[2..] == Hex(b[1..]);
      HexInjective(a[1..], b[1..]);
      assert a == [a[0]] + a[1..] && b == [b[0]] + b[1..];
    }
  }

  /** The number of random bytes in a refresh token. */
  const RefreshTokenBytes := 64

  /** `generate_refresh_token`: `secrets.token_hex(64)`, the 64 bytes given as `entropy`. */
  function GenerateRefreshToken(entropy: seq<Byte>): (token: string)
    requires |entropy| == RefreshTokenBytes
    ensures |token| == 128
    ensures forall i :: 0 <= i < |token| ==> IsLowerHex(token[i])
  {
    Hex(entropy)
  }

  /** The access-token expiry: `now` plus the configured minutes, in whole seconds. */
  function AccessExpiry(cfg: AppConfig, now: int): (exp: int)
    ensures exp > now
  {
    now + 60 * cfg.accessTokenExpireMinutes
  }

  /** `generate_csrf_token(user_id)`: a token carrying the user as `sub` and the access expiry. */
  function GenerateCsrfToken(cfg: AppConfig, userId: string, now: int): (t: Jwt)
    ensures t.payload.Keys == {"exp", "sub"}
    ensures t.payload["sub"] == Str(userId)
    ensures t.payload["exp"].Int? && t.payload["exp"].i > now
  {
    Signed(map["exp" := Int(AccessExpiry(cfg, now)), "sub" := Str(userId)])
  }

  // ---------------------------------------------------------------- refresh-token storage

  /** The key under which a refresh token maps to its account. */
  function RefreshTokenKey(cfg: AppConfig, refreshToken: string): string
  {
    cfg.refreshTokenPrefix + refreshToken
  }

  /** The key under which an account maps to its current refresh token. */
  function AccountRefreshTokenKey(cfg: AppConfig, accountId: string): string
  {
    cfg.accountRefreshTokenPrefix + accountId
  }

  /** Neither prefix begins the other. */
  predicate PrefixesDisjoint(cfg: AppConfig)
  {
    !StartsWith(cfg.refreshTokenPrefix, cfg.accountRefreshTokenPrefix)
    && !StartsWith(cfg.accountRefreshTokenPrefix, cfg.refreshTokenPrefix)
  }

  lemma DefaultPrefixesDisjoint()
    ensures PrefixesDisjoint(DefaultAppConfig)
  {
    assert DefaultAppConfig.refreshTokenPrefix[0] != DefaultAppConfig.accountRefreshTokenPrefix[0];
  }

  /** Each key begins with its prefix and determines the token or account it was built from. */
  lemma {:induction false} StoreKeysDetermineTheirSuffix(cfg: AppConfig, t1: string, t2: string, a1: string, a2: string)
    ensures StartsWith(RefreshTokenKey(cfg, t1), cfg.refreshTokenPrefix)
    ensures StartsWith(AccountRefreshTokenKey(cfg, a1), cfg.accountRefreshTokenPrefix)
    ensures RefreshTokenKey(cfg, t1) == RefreshTokenKey(cfg, t2) <==> t1 == t2
    ensures AccountRefreshTokenKey(cfg, a1) == AccountRefreshTokenKey(cfg, a2) <==> a1 == a2
  {
    var p := cfg.refreshTokenPrefix;
    var q := cfg.accountRefreshTokenPrefix;
    assert (p + t1)[|p|..] == t1 && (p + t2)[|p|..] == t2;
    assert (q + a1)[|q|..] == a1 && (q + a2)[|q|..] == a2;
  }

  /** With disjoint prefixes, the two keys of a store can never be the same key. */
  lemma StoreKeysDistinct(cfg: AppConfig, refreshToken: string, accountId: string)
    requires PrefixesDisjoint(cfg)
    ensures RefreshTokenKey(cfg, refreshToken) != AccountRefreshTokenKey(cfg, accountId)
  {
    var p := cfg.refreshTokenPrefix;
    var q := cfg.accountRefreshTokenPrefix;
    if |p| <= |q| {
      assert (p + refreshToken)[..|p|] == p;
      assert (q + accountId)[..|p|] == q[..|p|];
    } else {
      assert (p + refreshToken)[..|q|] == p[..|q|];
      assert (q + accountId)[..|q|] == q;
    }
  }

  /** `timedelta(days=REFRESH_TOKEN_EXPIRE_DAYS)` in seconds. */
  function RefreshTokenTtl(cfg: AppConfig): (ttl: Seconds)
    ensures ttl == 86400 * cfg.refreshTokenExpireDays
  {
    60 * 60 * 24 * cfg.refreshTokenExpireDays
  }

  /** The store after both `setex` calls of a refresh-token store with the given TTL. */
  function StoredRefreshToken(data: map<string, Entry>, cfg: AppConfig, ttl: Seconds,
                              refreshToken: string, accountId: string): map<string, Entry>
  {
    data[RefreshTokenKey(cfg, refreshToken) := Entry(accountId, Some(ttl))]
        [AccountRefreshTokenKey(cfg, accountId) := Entry(refreshToken, Some(ttl))]
  }

  /**
   * After storing, the token resolves to its account and the account to its token,
   * both with the given TTL, and every other key is as before.
   */
  lemma StoredRefreshTokenResolves(data: map<string, Entry>, cfg: AppConfig, ttl: Seconds,
                                   refreshToken: string, accountId: string, other: string)
    requires PrefixesDisjoint(cfg)
    requires other != RefreshTokenKey(cfg, refreshToken) && other != AccountRefreshTokenKey(cfg, accountId)
    ensures var d := StoredRefreshToken(data, cfg, ttl, refreshToken, accountId);
            d[RefreshTokenKey(cfg, refreshToken)] == Entry(accountId, Some(ttl))
            && d[AccountRefreshTokenKey(cfg, accountId)] == Entry(refreshToken, Some(ttl))
            && Get(d, other) == Get(data, other)
  {
    StoreKeysDistinct(cfg, refreshToken, accountId);
  }

  /** `TokenService.store_refresh_token`: both directions, each expiring after the configured days. */
  method StoreRefreshToken(store: KvStore, cfg: AppConfig, refreshToken: string, accountId: string)
    modifies store
    ensures store.data == StoredRefreshToken(old(store.data), cfg, RefreshTokenTtl(cfg), refreshToken, accountId)
  {
    var expiry := RefreshTokenTtl(cfg);
    store.SetEx(RefreshTokenKey(cfg, refreshToken), expiry, accountId);
    store.SetEx(AccountRefreshTokenKey(cfg, accountId), expiry, refreshToken);
  }

  // ---------------------------------------------------------------- cookies

  /** One `Set-Cookie` of a response. */
  datatype Cookie = Cookie(name: string, value: string, httpOnly: bool, secure: bool,
                           sameSite: string, maxAge: int, path: string)

  /** The access cookie; `samesite` defaults to "Lax" as in `set_access_token_to_cookie`'s signature. */
  function AccessTokenCookie(cfg: AppConfig, token: string, sameSite: string := "Lax"): (c: Cookie)
    ensures c.name == RealCookieName(cfg, CookieNameAccessToken) && c.value == token
    ensures c.httpOnly && c.secure == IsSecure(cfg) && c.sameSite == sameSite && c.path == "/"
    ensures c.maxAge == 60 * cfg.accessTokenExpireMinutes
  {
    Cookie(RealCookieName(cfg, CookieNameAccessToken), token, true, IsSecure(cfg), sameSite,
           cfg.accessTokenExpireMinutes * 60, "/")
  }

  function RefreshTokenCookie(cfg: AppConfig, token: string): (c: Cookie)
    ensures c.name == RealCookieName(cfg, CookieNameRefreshToken) && c.value == token
    ensures c.httpOnly && c.secure == IsSecure(cfg) && c.sameSite == "Lax" && c.path == "/"
    ensures c.maxAge == RefreshTokenTtl(cfg)
  {
    Cookie(RealCookieName(cfg, CookieNameRefreshToken), token, true, IsSecure(cfg), "Lax",
           60 * 60 * 24 * cfg.refreshTokenExpireDays, "/")
  }

  /** The CSRF cookie is the one a page script may read: it is not HTTP-only. */
  function CsrfTokenCookie(cfg: AppConfig, token: string): (c: Cookie)
    ensures c.name == RealCookieName(cfg, CookieNameCsrfToken) && c.value == token
    ensures !c.httpOnly && c.secure == IsSecure(cfg) && c.sameSite == "Lax" && c.path == "/"
    ensures c.maxAge == 60 * cfg.accessTokenExpireMinutes
  {
    Cookie(RealCookieName(cfg, CookieNameCsrfToken), token, false, IsSecure(cfg), "Lax",
           60 * cfg.accessTokenExpireMinutes, "/")
  }

  /** Without an explicit `samesite` every auth cookie is SameSite=Lax. */
  lemma CookiesLaxByDefault(cfg: AppConfig, token: string)
    ensures AccessTokenCookie(cfg, token).sameSite == "Lax"
    ensures RefreshTokenCookie(cfg, token).sameSite == "Lax" && CsrfTokenCookie(cfg, token).sameSite == "Lax"
  {
  }

  /** The rule of the `__Host-` prefix: such a cookie is secure and scoped to path "/". */
  predicate HostPrefixRespected(c: Cookie)
  {
    StartsWith(c.name, HostPrefix) ==> c.secure && c.path == "/"
  }

  /** Every auth cookie the service sets obeys the `__Host-` rule. */
  lemma AuthCookiesRespectHostPrefix(cfg: AppConfig, token: string, sameSite: string)
    ensures HostPrefixRespected(AccessTokenCookie(cfg, token, sameSite))
    ensures HostPrefixRespected(RefreshTokenCookie(cfg, token))
    ensures HostPrefixRespected(CsrfTokenCookie(cfg, token))
  {
    assert CookieNameAccessToken[0] != HostPrefix[0];
    assert CookieNameRefreshToken[0] != HostPrefix[0];
    assert CookieNameCsrfToken[0] != HostPrefix[0];
  }

  /**
   * The cookies live as long as what they carry: the access and CSRF cookies until the
   * access expiry, the refresh cookie as long as the stored refresh token.
   */
  lemma CookieLifetimesMatchTokens(cfg: AppConfig, token: string, sameSite: string, now: int)
    ensures now + AccessTokenCookie(cfg, token, sameSite).maxAge == AccessExpiry(cfg, now)
    ensures now + CsrfTokenCookie(cfg, token).maxAge == AccessExpiry(cfg, now)
    ensures GenerateCsrfToken(cfg, token, now).payload["exp"] == Int(now + CsrfTokenCookie(cfg, token).maxAge)
    ensures RefreshTokenCookie(cfg, token).maxAge == RefreshTokenTtl(cfg)
  {
  }

  /** The response under construction: its `Set-Cookie` headers in order. */
  class Response {
    var cookies: seq<Cookie>

    constructor ()
      ensures cookies == []
    {
      cookies := [];
    }

    /** `set_access_token_to_cookie`; its default for `samesite` is "Lax". */
    method SetAccessTokenToCookie(cfg: AppConfig, token: string, sameSite: string := "Lax")
      modifies this
      ensures cookies == old(cookies) + [AccessTokenCookie(cfg, token, sameSite)]
    {
      cookies := cookies + [AccessTokenCookie(cfg, token, sameSite)];
    }

    method SetRefreshTokenToCookie(cfg: AppConfig, token: string)
      modifies this
      ensures cookies == old(cookies) + [RefreshTokenCookie(cfg, token)]
    {
      cookies := cookies + [RefreshTokenCookie(cfg, token)];
    }

    method SetCsrfTokenToCookie(cfg: AppConfig, token: string)
      modifies this
      ensures cookies == old(cookies) + [CsrfTokenCookie(cfg, token)]
    {
      cookies := cookies + [CsrfTokenCookie(cfg, token)];
    }
  }
}
