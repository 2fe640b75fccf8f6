# Smart-mirror backend: rate limiter and DeepSeek request handling in Dafny

This project models the two pieces of control logic of the smart-mirror
backend and proves properties of them.

- **The sliding-window rate limiter** (`RateLimitMiddleware`). For each client
  id it keeps the list of admitted requests as `(timestamp, path)` entries. It
  judges every request that is not on an exempt path against two per-minute
  quotas: an LLM quota for paths containing `/api/llm/`, and a global quota
  for all paths. Every five minutes at most it purges entries older than two
  minutes. An admitted request is recorded. A rejected request gets a 429 with
  `retry_after` "60 seconds".
- **The DeepSeek request and response handling** (`DeepSeekService.query`).
  It refuses to run without an API key. It builds the message list, the
  payload and the headers. It turns the one POST's outcome into either the
  reply text or the Python exception that the service raises.

Files:

- `wrappers.dfy`: the `Option` and `Result` types.
- `text.dfy`: the Python string operations the core uses. These are the `in`
  substring test, `split(",")[0]`, `strip()` and `str(int)`.
- `rate_limit.dfy`: the limiter's behaviour as functions over a value state
  `Limiter`. It also holds the class `RateLimitMiddleware`, whose map field
  and `lastCleanup` field the methods update in place. Each method is proved
  to follow the corresponding function.
- `rate_limit_properties.dfy`: what the limiter guarantees. This covers filter
  algebra, cleanup results, window-only counting, the quota invariant over
  runs of requests, and the 10-admitted / 11th-rejected burst.
- `deepseek.dfy`: the pure part of `query`, with the network outcome as an
  input.

Time is an integer number of microseconds, the resolution of Python's
`datetime`. The source reads the clock three times per request: in the
cleanup, in the check and when it records the request. The model passes one
`now` per request and uses it for all three.

The model follows the code:

- `query` makes exactly one attempt. The fallback-provider and retry settings
  exist in `app/core/config.py` but nothing reads them, so there is no
  retry/fallback logic to model.
- An LLM request is selected by a substring test on `/api/llm/`, not by a
  prefix test.
- A lookup does not shrink the stored list. The check filters a copy.
- The rate limiter is defined but `app/main.py` does not register it. The
  model verifies it as written.

## Model

| member | source | states |
|---|---|---|
| `Text.ContainsIff` | app/api/middleware/rate_limit.py:53-54 | Python's `sub in s` is true exactly when `sub` occurs at some index of `s` |
| `Text.FirstField` | app/api/middleware/rate_limit.py:79 | `split(",")[0]` is a prefix of the header, holds no comma, and is the whole header or is followed by a comma |
| `Text.Strip` | app/api/middleware/rate_limit.py:79 | `strip()` returns a slice of its input with only whitespace cut from both sides, and the result neither starts nor ends with whitespace |
| `Text.NatToDecimalRoundTrip` | app/api/middleware/rate_limit.py:61 | the rendering of a quota in a message is canonical decimal: no leading zero, and it reads back as the same number |
| `Text.IntToDecimalInjective` | app/api/middleware/rate_limit.py:67 | different quotas give different message texts |
| `RateLimit.After` | app/api/middleware/rate_limit.py:48-50 | the comprehension `ts > cutoff` never lengthens the list. Its members and order are stated by the `AfterMembers` and `AfterIsSubsequence` lemmas |
| `RateLimit.LlmOnly` | app/api/middleware/rate_limit.py:54 | the LLM comprehension never lengthens the list. Its members are stated by the `LlmOnlyMembers` lemma |
| `RateLimit.Touch` | app/api/middleware/rate_limit.py:49 | reading the `defaultdict` adds the client with an empty list and changes nothing else |
| `RateLimit.Check` | app/api/middleware/rate_limit.py:37-69 | the LLM quota is tested first and only for LLM paths, and its rejection carries "LLM rate limit exceeded: L requests per minute". Otherwise a request whose in-window count reaches `requests_per_minute` is rejected with "Rate limit exceeded: M requests per minute", and any other request is admitted with an empty message |
| `RateLimit.ClientId` | app/api/middleware/rate_limit.py:76-79 | without the header, or with an empty one, the id is the peer host. Otherwise it is the stripped first comma-separated field of the header, which has no surrounding whitespace |
| `RateLimit.Purge` | app/api/middleware/rate_limit.py:29-34 | a client keeps exactly its entries after the cutoff, and clients left with no entries are removed |
| `RateLimit.Cleanup` | app/api/middleware/rate_limit.py:24-35 | no change unless strictly more than 5 minutes have passed. After a cleanup, `last_cleanup` is `now` |
| `RateLimit.Handle` | app/api/middleware/rate_limit.py:71-93 | an exempt path returns Allow with the state unchanged. Otherwise the request is admitted iff `Check` on the client's list after cleanup does not limit it. A rejection is a 429 with `Check`'s message and "60 seconds", and leaves the client's list as it was. An admission appends exactly `(now, path)` to the end of the client's list. The requesting client is now tracked, and every other client's list equals its list after cleanup |
| `RateLimit.RateLimitMiddleware.constructor` | app/api/middleware/rate_limit.py:14-22 | the quotas are the arguments (defaults 60 and 10), the history is empty, and `last_cleanup` is the construction time |
| `RateLimit.RateLimitMiddleware.CleanupOldRequests` | app/api/middleware/rate_limit.py:24-35 | the loop that rebuilds and deletes clients over a snapshot of the keys leaves exactly `Cleanup` of the old state |
| `RateLimit.RateLimitMiddleware.IsRateLimited` | app/api/middleware/rate_limit.py:37-69 | returns `Check` on the client's old list, and its only state change is the `defaultdict` insertion |
| `RateLimit.RateLimitMiddleware.Dispatch` | app/api/middleware/rate_limit.py:71-93 | the new state and the response are exactly those of `Handle`: a 429 with the verdict's message and nothing recorded on a rejection, exactly `(now, path)` appended on an admission |
| `RateLimitProperties.AfterMembers` | app/api/middleware/rate_limit.py:48-50 | the window filter keeps exactly the entries with `ts > cutoff` |
| `RateLimitProperties.AfterIsSubsequence` | app/api/middleware/rate_limit.py:30-32 | the filtered list keeps the surviving entries in their original order |
| `RateLimitProperties.LlmOnlyMembers` | app/api/middleware/rate_limit.py:54 | the LLM filter keeps exactly the entries whose path contains `/api/llm/`, and drops every other entry |
| `RateLimitProperties.AfterConcat` | app/api/middleware/rate_limit.py:48-50 | filtering a concatenation gives the concatenation of the filtered parts |
| `RateLimitProperties.LlmOnlyConcat` | app/api/middleware/rate_limit.py:54 | the LLM filter also distributes over concatenation |
| `RateLimitProperties.AfterAfter` | app/api/middleware/rate_limit.py:28-45 | filtering at one cutoff and then at a later cutoff equals filtering at the later cutoff alone |
| `RateLimitProperties.AfterKeepsNewer` | app/api/middleware/rate_limit.py:48-50 | a list whose entries are all newer than the cutoff passes the filter unchanged |
| `RateLimitProperties.AfterDropsOlder` | app/api/middleware/rate_limit.py:48-50 | a list whose entries are all at or before the cutoff filters to nothing |
| `RateLimitProperties.LlmOnlyKeepsLlm` | app/api/middleware/rate_limit.py:54 | a list of LLM entries passes the LLM filter unchanged |
| `RateLimitProperties.LlmOnlyAfterShrinks` | app/api/middleware/rate_limit.py:54 | filtering by time never increases the LLM count |
| `RateLimitProperties.RecentShrinks` | app/api/middleware/rate_limit.py:44-54 | as the clock advances, no list gains in-window entries, of any path or of LLM paths |
| `RateLimitProperties.CleanupGuarantees` | app/api/middleware/rate_limit.py:24-35 | after a cleanup that runs: every entry is newer than 2 minutes, survivors keep their order, no client has an empty list, every newer entry survives, and `last_cleanup` is `now`. Otherwise the state is unchanged |
| `RateLimitProperties.CleanupKeepsRecent` | app/api/middleware/rate_limit.py:28-45 | a cleanup never changes a client's in-window entries, because it keeps 2 minutes and the window is 1 |
| `RateLimitProperties.StaleEntriesIgnored` | app/api/middleware/rate_limit.py:44-50 | entries at or before `now - 60s` never change the decision, however many are still stored |
| `RateLimitProperties.MoreHistoryStaysLimited` | app/api/middleware/rate_limit.py:53-67 | more recorded requests never turn a rejection into an admission |
| `RateLimitProperties.LlmHealthIsLimited` | app/api/middleware/rate_limit.py:53-74 | `/api/llm/health` is not exempt and counts as an LLM path. `/health` is exempt |
| `RateLimitProperties.LlmPathHasM` | app/api/middleware/rate_limit.py:53 | every path that contains the LLM marker contains its letter `m` |
| `RateLimitProperties.ExemptNotLlm` | app/api/middleware/rate_limit.py:53-74 | no exempt path is an LLM path |
| `RateLimitProperties.ClientIdFromHeader` | app/api/middleware/rate_limit.py:78-79 | a header `a,rest` (with no comma in `a`) gives the client id `strip(a)`, whatever follows |
| `RateLimitProperties.FirstFieldOfPrefix` | app/api/middleware/rate_limit.py:79 | the first comma-separated field of `a + "," + rest` is `a` when `a` holds no comma |
| `RateLimitProperties.WithinQuotaLater` | app/api/middleware/rate_limit.py:44-54 | a history within both quotas at one time stays within them at any later time |
| `RateLimitProperties.CleanupKeepsQuota` | app/api/middleware/rate_limit.py:24-35 | a cleanup keeps every client within both quotas |
| `RateLimitProperties.AdmitKeepsQuota` | app/api/middleware/rate_limit.py:53-93 | appending an admitted request keeps its client within both quotas |
| `RateLimitProperties.HandleKeepsQuota` | app/api/middleware/rate_limit.py:71-93 | handling one request, with a clock that did not go back, keeps every client within both quotas |
| `RateLimitProperties.RunKeepsQuota` | app/api/middleware/rate_limit.py:14-93 | from a fresh middleware and a clock that never goes back, no client ever holds more in-window entries than `requests_per_minute`, nor more in-window LLM entries than `llm_requests_per_minute` |
| `RateLimitProperties.Recorded` | app/api/middleware/rate_limit.py:93 | the entries that a run of admitted requests leaves, one per request, in arrival order |
| `RateLimitProperties.RecordedAllCount` | app/api/middleware/rate_limit.py:44-54 | inside the burst's minute, every recorded entry is in the window and on an LLM path |
| `RateLimitProperties.BurstStep` | app/api/middleware/rate_limit.py:53-93 | within a burst, a request is admitted and recorded while fewer than L LLM entries are in the window. Once L are, it is rejected with the LLM message |
| `RateLimitProperties.BurstAdmitted` | app/api/middleware/rate_limit.py:53-93 | the first L requests of a one-minute LLM burst are all admitted and recorded |
| `RateLimitProperties.BurstLimit` | app/api/middleware/rate_limit.py:53-90 | with LLM quota L not above the global quota, of L+1 LLM requests in the first minute the first L are admitted and the last gets a 429 with the LLM message |
| `RateLimitProperties.EleventhLlmRequestRejected` | test_mvp.py:61-82 | with the default quotas, 10 LLM requests within a minute are admitted and the 11th is rejected |
| `RateLimitProperties.DefaultMessages` | app/api/middleware/rate_limit.py:61-67 | the default messages read "LLM rate limit exceeded: 10 requests per minute" and "Rate limit exceeded: 60 requests per minute" |
| `DeepSeek.RoleName` | app/services/llm/deepseek.py:37-40 | a message's role is sent as "system" for the system prompt and "user" for the user's text, and as nothing else |
| `DeepSeek.BuildMessages` | app/services/llm/deepseek.py:37-40 | two messages with the system prompt first when the prompt is truthy, otherwise one. The last message is the user's text, and every message before it is a system message |
| `DeepSeek.MessagesRoundTrip` | app/services/llm/deepseek.py:37-40 | the text and the effective prompt can be read back from the messages. The only thing lost is the difference between `None` and `""` |
| `DeepSeek.BuildRequest` | app/services/llm/deepseek.py:43-58 | the URL is `base_url + "/chat/completions"`. The headers are the bearer token and JSON content type. The payload has the configured model, the built messages, temperature 0.7 and max_tokens 500 |
| `DeepSeek.BearerRoundTrip` | app/services/llm/deepseek.py:50-51 | the Authorization header is "Bearer " followed by exactly the API key |
| `DeepSeek.ExtractContent` | app/services/llm/deepseek.py:67-71 | the result is a reply iff the first choice has a message with content, and then it is that content. A missing or empty `choices` gives `ValueError` "Invalid response format from DeepSeek API". A first choice without message or content gives a `KeyError` and never a `ValueError` |
| `DeepSeek.Query` | app/services/llm/deepseek.py:33-81 | with no key, `ValueError` "DeepSeek API key not configured" whatever the network would do. Otherwise a reply comes back iff the one POST answered 2xx with content in its first choice. A timeout gives `Exception` "DeepSeek API timeout". A non-2xx status gives `Exception` "DeepSeek API error: <status>". Any other exception from the client is raised unchanged. A 2xx body gives exactly what `ExtractContent` gives |
| `DeepSeek.FailureCauses` | app/services/llm/deepseek.py:67-81 | a `ValueError` means no key, no choices, or the client's own ValueError. A plain `Exception` means timeout ("DeepSeek API timeout"), a non-2xx status ("DeepSeek API error: <status>"), or the client's own exception. A `KeyError` means a malformed choice or the client's own KeyError |
| `DeepSeek.StatusMessagesDistinct` | app/services/llm/deepseek.py:73-75 | different status codes give different error messages |
| `DeepSeek.GreetingScenario` | app/services/llm/deepseek.py:64-68 | a stubbed 200 response whose first choice says "Привет! Чем помочь?" yields exactly that reply to "Привет" |

## Left out

- Concurrency: `dispatch` is async and the check-then-append has no lock. The model runs requests one at a time, so the over-admission a race allows is not modelled.
- Clock: `datetime.now()` is read three times per request. The model uses one `now` parameter per request. The quota invariant assumes the clock never goes back.
- `call_next`, `JSONResponse` and the downstream handler's response are not modelled. `Allow` stands for passing the request on, and `Reject` holds the 429 status and the JSON fields.
- `request.client` being `None` (Starlette allows it) is not modelled; the peer host is always a string.
- Logging calls are dropped.
- The HTTP POST, its timeout setting, and JSON decoding are not modelled. Their result is the input `Outcome`. A non-JSON body appears as `Raised` with the exception the decoder would raise.
- A JSON `null` content is not modelled; content is a string or absent.
- JSON shapes other than the expected ones are not modelled: `choices` is a list or absent, `message` an object or absent, `content` a string or absent. The source also accepts other shapes. For example, a `choices` that is a string makes the indexing raise `TypeError`, which is re-raised, and a non-string `content` is returned as it is. The model can express the exceptions such shapes cause only as `Raised` outcomes of the POST.
- Retry/fallback orchestration is not modelled, because the source has none.
- Text.IsSpace: the whitespace set of Python's `str.isspace()` is written out by code point. No other Unicode handling (normalisation, case) is involved.
- app/services/music/yandex.py, the FastAPI endpoints, the pydantic schemas, app/main.py and app/core/config.py are not part of this model. They are wiring, schema declarations, or wrappers over an external music library.
- RateLimitProperties.BurstLimit: requires the LLM quota to be non-negative and not above the global quota. If the global quota is lower, the global check rejects first, and the lemma does not cover that case.
