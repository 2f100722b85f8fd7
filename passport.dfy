/**
 * Issued tokens. PassportService.issue signs a claim map with HS256; the signature
 * is not modelled, so an issued token is represented by the claims it carries.
 */
module Passport {

  /** A JSON claim value as it appears in the payloads of the core. */
  datatype Claim = Str(s: string) | Int(i: int)

  type Payload = map<string, Claim>

  /** The token `PassportService().issue(payload)` returns. */
  datatype Jwt = Signed(payload: Payload)
}
