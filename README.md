# highload_balancer in Dafny

A model of the request path of the highload_balancer gateway, an HTTP reverse
proxy written in Go, with proofs about it. The gateway:

- answers its own health probe;
- serves an admin API over a registry of per-client rate-limit overrides;
- admits every other request through a per-client token bucket;
- forwards admitted requests to a backend chosen by round-robin or
  least-connections among the backends currently marked alive.

The model is sequential. Time is a caller-supplied integer number of
milliseconds. The client store is a map whose every call may fail. Request
bodies arrive already decoded. Responses are values, and forwarding is an
outcome, not I/O.

Modules, one per source file or group of source files:

- `Options`: the `Option` type.
- `RateLimitTypes` (`ratelimiter/types.go`): the `ClientConfig` and `RateLimitResponse` records.
- `TokenBuckets` (`ratelimiter/limiter.go` and `RateLimiter.AllowWithConfig`):
  - bucket values, with refill and take as functions;
  - the `TokenBucket` and `RateLimiter` classes, whose methods are proved against those functions.
- `Clients` (`ratelimiter/client.go`): the storage interface as a class, and the `ClientManager` cache written through to it.
- `Balancer` (`balancer/algorithms.go`, `balancer/balancer.go`, `balancer/types.go`):
  - strategy selection;
  - the two strategies;
  - the bounded retry of `GetNextBackend` and the 503 decision.
- `Utils` (`utils/utils.go`):
  - client-key extraction (`X-Forwarded-For`, `X-Real-Ip`, the peer address), with `strings.TrimSpace` and `net.SplitHostPort` written out;
  - the health-probe test.
- `Gateway` (`server/server.go`): routing, the status decisions of the admin handlers, and the rate-limited hand-off to the load balancer.

Behaviour of the code that the names of its parts do not suggest, and that the
model keeps:

- Round-robin increments its counter before using it. A fresh strategy therefore
  sends its first request to index 1. Over three alive backends the order is
  1, 2, 0, 1.
- Least-connections keeps no connection count. It returns the first alive
  backend, or nil.
- The pool may be empty. Round-robin then divides by zero.
- A per-client override may carry any integer capacity. The bucket invariant is
  therefore `tokens <= capacity && (tokens < 0 ==> tokens == capacity)`. This
  is `0 <= tokens <= capacity` whenever the capacity is not negative.

The composed handlers follow the code as written: `Balancer.LoadBalancer.ServeHTTP`,
`Gateway.Server.HandleProxyRequest`, `Gateway.Server.HandleClientsAPI` and
`Gateway.Server.ServeHTTP` call the unchecked backend selection and the
as-written PATCH handler. The corrections of the first two findings below are
composed separately, in `Balancer.LoadBalancer.ServeHTTPChecked`,
`Gateway.Server.HandleProxyRequestChecked`,
`Gateway.Server.HandleClientsAPICorrected` and `Gateway.Server.ServeHTTPCorrected`.

Each request handler is specified by a predicate over the gateway state before
and after the request (`Gateway.GatewayState`: cached registry, stored records,
buckets, round-robin counter) and the response: `ListOutcome`, `CreateOutcome`,
`DeleteOutcome`, `PatchOutcomeAsWritten` and `PatchOutcome`, `ProxyOutcome`, and
for the dispatchers `AdminOutcome` and `RequestOutcome`, which give every route
the outcome of its handler.

Three routines called by the code are not defined in the files that make up
this model:

- `ClientManager.UpdateClient`
- `RateLimiter.RemoveBucket`
- `utils.WriteErrorResponse`

Each is given a stated contract, which is an assumption of the model:

- `UpdateClient` stores a config and then caches it, like `AddClient`.
- `RemoveBucket` deletes the key.
- `WriteErrorResponse` writes the status with the message as the body.

## Model

| member | source | states |
|---|---|---|
| Utils.HeaderValue | highload_balancer/utils/utils.go:11-16 | a header lookup gives the value, or "" when the header is absent |
| Utils.IsHealthCheckRequest | highload_balancer/utils/utils.go:27-29 | the health check holds iff the path is "/health" and the method is GET |
| Utils.FirstField | highload_balancer/utils/utils.go:12-13 | the first element of a split on ",": a prefix of the input with no comma, followed by a comma unless it is all of the input |
| Utils.TrimSpace | highload_balancer/utils/utils.go:13 | the result is empty or starts and ends with a non-space; input already in that form is returned unchanged |
| Utils.TrimSpaceIdempotent | highload_balancer/utils/utils.go:13 | trimming twice equals trimming once |
| Utils.TrimSpaceRemovesOnlySpace | highload_balancer/utils/utils.go:13 | the result is a contiguous slice of the input, and every character removed on either side is white space |
| Utils.SplitHostPort | highload_balancer/utils/utils.go:20-23 | a successful split rebuilds the input as host:port or [host]:port; the port holds no colon or bracket; an address with no colon does not split |
| Utils.SplitJoinRoundTrip | highload_balancer/utils/utils.go:20-24 | splitting a joined address gives back its host and port (hosts without brackets, ports without colons or brackets) |
| Utils.GetClientIP | highload_balancer/utils/utils.go:10-25 | a non-empty X-Forwarded-For wins: its first entry, trimmed, no comma, no surrounding space; else a non-empty X-Real-Ip verbatim; else the host of the peer address, or the whole peer address when it does not split |
| TokenBuckets.WellFormedBounds | highload_balancer/internal/ratelimiter/limiter.go:71-73 | with a capacity that is not negative, the bucket invariant is exactly 0 <= tokens <= capacity |
| TokenBuckets.Min | highload_balancer/internal/ratelimiter/limiter.go:104-109 | the result is one of the arguments and no greater than either |
| TokenBuckets.NewBucket | highload_balancer/internal/ratelimiter/limiter.go:82-92 | a new bucket is full (tokens = capacity) and has the given rate; its last refill is now; it satisfies the invariant |
| TokenBuckets.TruncThousandths | highload_balancer/internal/ratelimiter/limiter.go:68-69 | a conversion of thousandths to whole tokens that truncates toward zero; the result is positive iff at least one whole token was earned |
| TokenBuckets.Refilled | highload_balancer/internal/ratelimiter/limiter.go:63-75 | with less than one token earned the bucket, including its last-refill time, is unchanged; otherwise tokens = min(capacity, tokens + the truncated amount earned) and the last refill is now |
| TokenBuckets.RefillKeepsInvariant | highload_balancer/internal/ratelimiter/limiter.go:71-73 | a refill keeps the invariant and never lowers the token count |
| TokenBuckets.Take | highload_balancer/internal/ratelimiter/limiter.go:94-101 | allowed iff tokens > 0; then exactly one token is taken, otherwise the bucket is unchanged; the invariant is kept; tokens never go negative |
| TokenBuckets.Admit | highload_balancer/internal/ratelimiter/limiter.go:77-102 | after one request the key has a bucket, holding one token fewer than the bucket used (the existing one, else the created one) when admitted and the same count when denied |
| TokenBuckets.AdmitTouchesOnlyKey | highload_balancer/internal/ratelimiter/limiter.go:77-102 | an admission adds at most the requesting key and leaves every other key's bucket unchanged |
| TokenBuckets.AdmitDecision | highload_balancer/internal/ratelimiter/limiter.go:77-102 | the existing bucket is used, else the created one; the request is admitted iff that bucket has a token; an admission takes exactly one token; a denial changes nothing |
| TokenBuckets.AdmitKeepsInvariant | highload_balancer/internal/ratelimiter/limiter.go:97-99 | an admission keeps every bucket within the invariant |
| TokenBuckets.AdmitKeepsExistingConfig | highload_balancer/internal/ratelimiter/client.go:143-168 | an existing bucket keeps its capacity and rate whatever config the request carries; the config matters only for a new key |
| TokenBuckets.RefillAll | highload_balancer/internal/ratelimiter/limiter.go:54-61 | the same keys, each bucket refilled |
| TokenBuckets.RefillAllKeepsInvariant | highload_balancer/internal/ratelimiter/limiter.go:54-61 | refilling all buckets keeps every invariant and lowers no count |
| TokenBuckets.CapacityFiveScenario | highload_balancer/internal/ratelimiter/limiter.go:63-102 | with capacity 5 and rate 1: five admissions, then a denial, then an admission after a refill at least 1000 ms later |
| TokenBuckets.TokenBucket.constructor | highload_balancer/internal/ratelimiter/limiter.go:84-89 | the fields of a new bucket equal NewBucket |
| TokenBuckets.TokenBucket.TryTake | highload_balancer/internal/ratelimiter/limiter.go:97-101 | the decision and the new fields are those of Take on the old fields |
| TokenBuckets.TokenBucket.Refill | highload_balancer/internal/ratelimiter/limiter.go:63-75 | the new fields are Refilled of the old fields |
| TokenBuckets.RateLimiter.constructor | highload_balancer/internal/ratelimiter/limiter.go:24-34 | no buckets, and the given defaults |
| TokenBuckets.RateLimiter.RefillAllBuckets | highload_balancer/internal/ratelimiter/limiter.go:54-61 | the loop over the map refills every bucket in place, adds and removes no key, and keeps the invariant: the new view is RefillAll of the old view |
| TokenBuckets.RateLimiter.BucketFor | highload_balancer/internal/ratelimiter/limiter.go:79-92 | the existing bucket of the key, or a fresh full one inserted under it; no other key changes |
| TokenBuckets.RateLimiter.TakeFrom | highload_balancer/internal/ratelimiter/limiter.go:94-101 | a take on the key's bucket; no other bucket changes |
| TokenBuckets.RateLimiter.TakeOrCreate | highload_balancer/internal/ratelimiter/limiter.go:77-102 | lookup or lazy creation, then a take: the result and new view are Take of the existing or new bucket; everything else unchanged; the invariant kept |
| TokenBuckets.RateLimiter.Allow | highload_balancer/internal/ratelimiter/limiter.go:77-102 | the decision and new view equal Admit with a bucket created from the defaults |
| TokenBuckets.RateLimiter.AllowWithConfig | highload_balancer/internal/ratelimiter/client.go:143-168 | the decision and new view equal Admit with a bucket created from the config's capacity and rate |
| TokenBuckets.RateLimiter.RemoveBucket | highload_balancer/internal/ratelimiter/client.go:94 | assumed contract: the key is gone, all other buckets stay |
| TokenBuckets.CapacityFiveRun | highload_balancer/internal/ratelimiter/limiter.go:63-102 | the capacity-5 scenario run on the objects gives true five times, then false, then true |
| Clients.Storage.SaveClient | highload_balancer/internal/ratelimiter/postgres.go:56-72 | an upsert keyed by client ID, or on failure no change |
| Clients.Storage.DeleteClient | highload_balancer/internal/ratelimiter/postgres.go:74-80 | the record is gone, or on failure no change |
| Clients.Storage.GetAllClients | highload_balancer/internal/ratelimiter/postgres.go:16 | on success, exactly the stored records |
| Clients.ErrorText | highload_balancer/internal/ratelimiter/client.go:82-86 | the missing-client error reads "client not found"; a storage error reads "database error: " followed by the storage error's own text |
| Clients.ErrorTextIdentifiesNotFound | highload_balancer/internal/ratelimiter/client.go:81-87 | the text "client not found" belongs to the missing-client error and to no wrapped database error |
| Clients.ClientManager.constructor | highload_balancer/internal/ratelimiter/client.go:36-43 | no rate limiter attached; the cache is empty, or equal to storage when the initial load succeeds |
| Clients.ClientManager.WithLimiter | highload_balancer/internal/ratelimiter/client.go:36-43 | the same construction with the limiter attached |
| Clients.ClientManager.LoadInitialClients | highload_balancer/internal/ratelimiter/client.go:45-55 | on success the cache equals the stored records; on failure the cache is unchanged |
| Clients.ClientManager.AddClient | highload_balancer/internal/ratelimiter/client.go:57-74 | on success the cache and storage map the id to the new config, the other entries unchanged; on error neither changes; write-through coherence is kept |
| Clients.ClientManager.UpdateClient | highload_balancer/internal/server/server.go:188 | assumed contract: like AddClient with the given config |
| Clients.ClientManager.OverwriteCached | highload_balancer/internal/server/server.go:181-186 | the cached entry is replaced in place, storage untouched |
| Clients.ClientManager.RemoveClient | highload_balancer/internal/ratelimiter/client.go:76-98 | an unknown id gives "not found" and changes nothing; a storage error gives a database error and changes nothing; success drops the id from cache and storage, and drops its bucket exactly when a limiter is attached |
| Clients.ClientManager.GetClientConfig | highload_balancer/internal/ratelimiter/client.go:100-105 | found iff the id is cached, and then the cached config |
| Clients.ClientManager.GetAllClients | highload_balancer/internal/ratelimiter/client.go:19-34 | the copy built in the loop has the cache's keys and field values |
| Clients.RemovalKeepsBucket | highload_balancer/internal/ratelimiter/client.go:89-95 | for a manager built by NewClientManager, removing a client that has a bucket leaves the bucket in place |
| Clients.RemovalEvictsBucket | highload_balancer/internal/ratelimiter/client.go:89-95 | with the limiter attached, a successful removal evicts the bucket |
| Balancer.KindOf | highload_balancer/internal/balancer/balancer.go:19-29 | least-connections iff the name is "least-connections"; round-robin otherwise |
| Balancer.KindOfNames | highload_balancer/internal/balancer/balancer.go:19-29 | "round-robin" and "least-connections" give their own strategy; any other name gives round-robin |
| Balancer.Backend.constructor | highload_balancer/internal/balancer/balancer.go:60-64 | a backend has its URL and starts alive |
| Balancer.Backend.IsAlive | highload_balancer/internal/balancer/balancer.go:37-42 | the alive flag as last set by the constructor or SetAlive |
| Balancer.Backend.SetAlive | highload_balancer/internal/balancer/balancer.go:31-42 | IsAlive afterwards returns the value set |
| Balancer.RecordProbe | highload_balancer/internal/balancer/balancer.go:114-125 | a backend is marked alive iff its probe answered with status 200 |
| Balancer.FirstAlive | highload_balancer/internal/balancer/algorithms.go:21-33 | the lowest index whose flag is set, with all earlier flags clear; or none when all flags are clear |
| Balancer.LeastConnectionsScan | highload_balancer/internal/balancer/algorithms.go:21-33 | the read-only scan loop returns FirstAlive of the alive flags |
| Balancer.StrategyStep | highload_balancer/internal/balancer/algorithms.go:13-33 | round-robin raises the counter by one and picks inside the pool, dividing by zero exactly on an empty pool; least-connections keeps the counter and never divides |
| Balancer.LeastConnectionsPicksFirstAlive | highload_balancer/internal/balancer/algorithms.go:21-33 | least-connections picks an alive backend with no alive one before it, and nil iff none is alive |
| Balancer.Strategy.constructor | highload_balancer/internal/balancer/balancer.go:19-29 | the strategy is KindOf the name, with a zero counter |
| Balancer.Strategy.GetNextBackend | highload_balancer/internal/balancer/algorithms.go:13-33 | the pick and the new counter are StrategyStep of the old counter and the alive flags |
| Balancer.RoundRobinPicks | highload_balancer/internal/balancer/algorithms.go:13-16 | call j after counter c picks (c + j + 1) mod n |
| Balancer.RoundRobinFair | highload_balancer/internal/balancer/algorithms.go:13-16 | any n consecutive round-robin picks are distinct and cover every index |
| Balancer.RoundRobinCalls | highload_balancer/internal/balancer/algorithms.go:13-16 | calls on a new round-robin strategy return RoundRobinPicks from counter 0, so the first is index 1 |
| Balancer.Retry | highload_balancer/internal/balancer/balancer.go:93-101 | the retry loop: a chosen backend is alive; it never divides by zero; least-connections keeps the counter; round-robin moves it by at most the attempts left |
| Balancer.RoundRobinRetry | highload_balancer/internal/balancer/balancer.go:93-101 | round-robin's retry as a walk over counters: the chosen backend is the first alive one along the walk; none is chosen only after the attempts run out on dead backends |
| Balancer.Select | highload_balancer/internal/balancer/balancer.go:92-102 | a chosen backend is alive; round-robin calls the strategy between 1 and n + 1 times; least-connections leaves the counter alone |
| Balancer.RetryRoundRobin | highload_balancer/internal/balancer/balancer.go:93-101 | under round-robin the retry loop equals the counter walk RoundRobinRetry |
| Balancer.RoundRobinNilIffNoneAlive | highload_balancer/internal/balancer/balancer.go:92-102 | round-robin over a non-empty pool never panics, and returns nil iff no backend is alive |
| Balancer.LeastConnectionsAllDeadDereferencesNil | highload_balancer/internal/balancer/balancer.go:93-96 | as written, least-connections over a non-empty all-dead pool makes GetNextBackend dereference nil |
| Balancer.SelectChecked | highload_balancer/internal/balancer/balancer.go:92-102 | with the nil check: no nil dereference; a chosen backend is alive; where the original does not dereference nil the result is the same |
| Balancer.SelectCheckedNilIffNoneAlive | highload_balancer/internal/balancer/balancer.go:92-102 | with the nil check, both strategies over a non-empty pool return nil iff no backend is alive; least-connections returns the first alive backend |
| Balancer.ThreeAliveScenario | highload_balancer/internal/balancer/algorithms.go:13-16 | three alive backends under round-robin serve 1, 2, 0, 1 |
| Balancer.OneDeadScenario | highload_balancer/internal/balancer/balancer.go:92-102 | with [dead, alive], every selection is backend 1 |
| Balancer.ServeOutcome | highload_balancer/internal/balancer/balancer.go:104-112 | forwarded iff a backend was chosen, to that backend; 503 exactly when the selection is nil |
| Balancer.LoadBalancer.constructor | highload_balancer/internal/balancer/balancer.go:51-78 | one new, distinct, alive backend per URL, in input order |
| Balancer.LoadBalancer.GetNextBackend | highload_balancer/internal/balancer/balancer.go:92-102 | as written: the result and the new counter are Select of the old counter and the alive flags |
| Balancer.LoadBalancer.GetNextBackendChecked | highload_balancer/internal/balancer/balancer.go:92-102 | with the nil check: the result and the new counter are SelectChecked of the old counter and the flags |
| Balancer.LoadBalancer.ServeHTTP | highload_balancer/internal/balancer/balancer.go:104-112 | as written: forwards to the backend Select chooses, answers 503 when it is nil, aborts when the selection dereferences nil or divides by zero, and leaves the counter Select gives |
| Balancer.LoadBalancer.ServeHTTPChecked | highload_balancer/internal/balancer/balancer.go:92-112 | corrected: the same over SelectChecked, so a non-empty pool with no alive backend is answered 503 under either strategy |
| Balancer.OneDeadRun | highload_balancer/internal/balancer/balancer.go:92-112 | on objects: two backends, the first set dead, three requests all forwarded to the second |
| Gateway.ErrorResponse | highload_balancer/internal/server/server.go:59 | assumed contract of WriteErrorResponse: a reply with the status and the message |
| Gateway.RouteOf | highload_balancer/internal/server/server.go:34-60 | GET /health is the health route before all else; on /api/clients: GET, POST, DELETE and PATCH each go to their handler, any other method gets 405; every other path is proxied |
| Gateway.DeleteTarget | highload_balancer/internal/server/server.go:103-115 | a non-empty query id wins; else the decoded body id; else "" |
| Gateway.MergePatch | highload_balancer/internal/server/server.go:181-186 | each field present in the patch is taken from the patch; all other fields are kept |
| Gateway.MergePatchLaws | highload_balancer/internal/server/server.go:181-186 | an empty patch is the identity; a patch is idempotent; two patches compose, the later one's present fields winning |
| Gateway.ProxyResponse | highload_balancer/internal/balancer/balancer.go:104-112 | relayed iff forwarded, to the same backend; 503 "No available backends" iff none; aborted iff a panic |
| Gateway.CreatedBucket | highload_balancer/internal/server/server.go:137-144 | a new key's bucket comes from the registered config of the IP if there is one, else from the defaults |
| Gateway.CheckedProxyNeverAborts | highload_balancer/internal/balancer/balancer.go:92-112 | corrected: behind the nil-checked balancer, a proxied request over a non-empty pool is relayed, answered 429 or 503, never aborted |
| Gateway.UncheckedProxyAbortsWhenAllDead | highload_balancer/internal/balancer/balancer.go:93-96 | as written: under least-connections, an admitted request over a non-empty pool with no alive backend is aborted |
| Gateway.Server.constructor | highload_balancer/internal/server/server.go:20-26 | the server holds the given balancer, limiter and registry |
| Gateway.Server.GetClients | highload_balancer/internal/server/server.go:63-78 | ListOutcome: a given unknown id gets 404; a known id gets 200 with its config; no id gets 200 with the whole registry; nothing changes |
| Gateway.Server.CreateClient | highload_balancer/internal/server/server.go:80-100 | CreateOutcome: a body that fails to decode, or has an empty id, gets 400; then either a storage error gets 500 and nothing changes, or 201 with the location and the new config, registered in cache and storage; coherence is kept |
| Gateway.Server.DeleteClient | highload_balancer/internal/server/server.go:102-133 | DeleteOutcome: no id gets 400; an unknown id gets 404; then either a storage error gets 500 and nothing changes, or 204 drops the id from cache and storage, and from the buckets only with the limiter attached; coherence is kept |
| Gateway.Server.PatchClientAsWritten | highload_balancer/internal/server/server.go:158-194 | as written (PatchOutcomeAsWritten): 400 for no id, 404 for an unknown id (before decoding), 400 for a bad body, each changing nothing; then 200 with the merged config in cache and storage, or 500 with the merged config cached but not stored; every answer but 500 keeps coherence, and a 500 for a patch that changes the config breaks it |
| Gateway.Server.PatchClient | highload_balancer/internal/server/server.go:158-194 | corrected (PatchOutcome): the same refusals; then 200 with the merged config in cache and storage, or 500 with nothing changed; coherence is kept |
| Gateway.Server.WriteMergedAsWritten | highload_balancer/internal/server/server.go:181-194 | the cached entry takes the merged config; then 200 with it stored too, or 500 with storage unchanged, which breaks coherence when the merge changed the config |
| Gateway.Server.AdmitClient | highload_balancer/internal/server/server.go:136-144 | the decision and new buckets are Admit under the bucket CreatedBucket gives |
| Gateway.Server.HandleProxyRequest | highload_balancer/internal/server/server.go:135-156 | as written (ProxyOutcome): the buckets become Admit under CreatedBucket for the client IP; a denial gets 429 with the one-second retry body and leaves the counter; an admitted request gets ProxyResponse of the as-written Select: relayed, 503, or aborted; the registry never changes |
| Gateway.Server.HandleProxyRequestChecked | highload_balancer/internal/server/server.go:135-156 | corrected: the same admission, with the answer and counter of SelectChecked |
| Gateway.Server.HandleClientsAPI | highload_balancer/internal/server/server.go:48-61 | AdminOutcome as written: GET, POST, DELETE and PATCH each get exactly their handler's answer and state change, PATCH the as-written one; any other method gets 405 and changes nothing; the cache keeps agreeing with storage except after a 500 answer to PATCH |
| Gateway.Server.HandleClientsAPICorrected | highload_balancer/internal/server/server.go:48-61 | AdminOutcome corrected: the same with PATCH to PatchClient; the cache always keeps agreeing with storage |
| Gateway.Server.ServeHTTP | highload_balancer/internal/server/server.go:28-46 | RequestOutcome as written: GET /health gets 200 and changes nothing; each admin route gets its AdminOutcome; every other request gets its ProxyOutcome over the unchecked selection (429, relay, 503 or abort); the cache keeps agreeing with storage except after a 500 answer to PATCH |
| Gateway.Server.ServeHTTPCorrected | highload_balancer/internal/server/server.go:28-46 | RequestOutcome corrected: the same routing over the corrected PATCH and the nil-checked selection; the cache always keeps agreeing with storage; a proxied request over a non-empty pool is never aborted |

## Left out

- Concurrency:
  - mutexes, atomics, goroutines, the `autoRefill` ticker and `Stop`;
  - the concurrent `HealthCheck` loop, of which only "alive iff the probe answered 200" (`RecordProbe`) is kept;
  - the race in lazy bucket creation.
- Wall-clock time and floating point:
  - time is an integer number of milliseconds, and elapsed × rate is computed exactly in thousandths;
  - the stored `CreatedAt`/`LastUpdated` are the caller's `now`.
- JSON encoding and decoding, `WriteJSONResponse`, headers other than `Location`, request logging, and the `ReverseProxy` forwarding: bodies arrive decoded and forwarding is the `Relayed` outcome.
- `url.Parse` and `log.Fatal` in `NewLoadBalancer`: URLs are kept as strings. The health-check start when an interval is configured is left out with the rest of health checking.
- The SQL store (`PostgresStorage`): storage is a map whose calls may fail. `GetClient` and `Close` of the interface are not used by the modelled code.
- TokenBuckets.Refilled: `tb.tokens+tokensToAdd` (limiter.go:72) is a 64-bit Go `int` that can wrap with a huge admin-set rate or a long idle time; the model adds without bounds, so that overflow is not modelled.
- Balancer.Strategy.GetNextBackend: the round-robin counter is unbounded; the uint64 wrap-around is not modelled.
- Utils.SplitHostPort: only the error cases that decide the outcome here are modelled (missing port, extra colons, misplaced brackets). The function does not reproduce Go's error values.
- `HandleClientAPI` in `client.go`: a second HTTP handler that the server does not use.
- `cmd/main.go` and the YAML configuration loader: process wiring.

## Findings

| source | as written | input that shows it | evidently intended | confidence | as-written member | corrected member |
|---|---|---|---|---|---|---|
| highload_balancer/internal/balancer/balancer.go:93-96 | `next.IsAlive()` is called on the strategy's result with no nil check | least-connections over one or more backends, all marked dead | a nil pick ends the search, and ServeHTTP answers 503 (proved in SelectCheckedNilIffNoneAlive) | not executed | Balancer.LeastConnectionsAllDeadDereferencesNil | Balancer.LoadBalancer.GetNextBackendChecked |
| highload_balancer/internal/server/server.go:181-188 | the patch is written into the cached config (the pointer GetClientConfig returns) before UpdateClient; a failed update answers 500 but leaves the cache changed | PATCH with a new capacity for a known client while the storage write fails | cache and storage take the patch together or not at all | not executed | Gateway.Server.PatchClientAsWritten | Gateway.Server.PatchClient |
| highload_balancer/internal/ratelimiter/client.go:36-43 | NewClientManager never sets `rateLimiter`, so the eviction at lines 93-95 never runs | remove a client after one of its requests has created a bucket | the removed client's bucket is evicted | not executed | Clients.RemovalKeepsBucket | Clients.RemovalEvictsBucket |
