/**
 * Injected configuration. The defaults are those of the settings classes in
 * app/configs/app_config.py and app/configs/sso_config.py.
 */
module Config {

  type PositiveInt = x: int | x > 0 witness 1

  datatype AppConfig = AppConfig(
    consoleWebUrl: string,
    tenantId: string,
    edition: string,
    accountDefaultRole: string,
    accessTokenExpireMinutes: PositiveInt,
    refreshTokenExpireDays: PositiveInt,
    refreshTokenPrefix: string,
    accountRefreshTokenPrefix: string)

  const DefaultAppConfig := AppConfig(
    "", "", "SELF_HOSTED", "normal", 900, 30, "refresh_token:", "account_refresh_token:")

  datatype SsoConfig = SsoConfig(
    clientId: string,
    clientSecret: string,
    discoveryUrl: string,
    redirectUri: string,
    scope: string,
    responseType: string)

  const DefaultSsoConfig := SsoConfig("", "", "", "", "openid profile email roles", "code")
}
