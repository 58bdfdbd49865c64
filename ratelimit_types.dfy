/** Records shared by the rate limiter and the client registry (package
    ratelimiter, types.go). Times are integer milliseconds. */
module RateLimitTypes {

  /** A registered per-client override of the bucket capacity and refill rate. */
  datatype ClientConfig = ClientConfig(
    clientID: string,
    capacity: int,
    ratePerSec: int,
    createdAt: int,
    lastUpdated: int)

  /** The body of a rate-limit denial; the retry hint is in milliseconds. */
  datatype RateLimitResponse = RateLimitResponse(code: int, message: string, retryAfterMs: int)
}
