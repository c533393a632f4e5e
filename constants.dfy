/** The configuration constants the core reads (src/constant/index.ts) and the length the
  * entity hook asks of the token generator. */
module Constants {

  /** The two permission ids that may log in (enum PERMISSIONS). */
  const ADMIN: int := 1
  const SUPER_ADMIN: int := 2

  /** Default page size. */
  const PAGE_LIMIT: nat := 20

  /** Lifetime of a cached response, in milliseconds. */
  const CACHE_TIME: nat := 60000

  /** Paths whose responses are cached: empty in the shipped configuration. */
  const CACHE_API: seq<string> := []

  /** Length of the rotating token regenerated on every save of a user. */
  const TOKEN_LENGTH: nat := 20

  /** Lifetime of a bearer token, in seconds, when the environment does not set one. */
  const JWT_DEFAULT_EXPIRY: nat := 36000
}
