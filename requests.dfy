/** What the HTTP handlers share: JavaScript truthiness of a request
    field and the outcome of `auth.getUser()` for the caller's bearer
    credential. */
module Requests {
  import opened Wrappers

  /** A string field is truthy when present and non-empty. */
  predicate TruthyString(x: Option<string>) {
    x.Some? && x.value != ""
  }

  /** How the caller's identity was settled: `auth.getUser()` answered with
      the caller's user id, or refused with the service's error message when
      there was one; or the client could not be built at all (`createClient`
      throws on an empty service URL or key), so `getUser()` never ran. */
  datatype Auth =
    | Authenticated(userId: string)
    | Rejected(message: Option<string>)
    | ClientFailed

  const POST := "POST"
  const METHOD_NOT_ALLOWED := "Method Not Allowed"
  const UNAUTHORIZED := "Unauthorized"
}
