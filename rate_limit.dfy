/**
 * The sliding-window rate limiter of app/api/middleware/rate_limit.py.
 *
 * Per client id the limiter keeps the admitted requests as a list of
 * (timestamp, path) entries. A request is judged against two quotas over the
 * trailing minute: one for paths that contain "/api/llm/" and one for all
 * paths. Every five minutes at most, entries older than two minutes are
 * purged and clients left with nothing are forgotten.
 *
 * Time is an integer count of microseconds, the resolution of Python's
 * `datetime`. The source reads the clock three times per request (in the
 * cleanup, in the check and when it records the request); here one `now`
 * is passed in per request and used for all three readings.
 *
 * The first half of the module states the behaviour as functions over a value
 * `Limiter`; the class `RateLimitMiddleware` at the end holds the state the
 * source mutates and its methods are proved to follow those functions.
 */
module RateLimit {
  import opened Wrappers
  import opened Text

  const Second: int := 1_000_000
  const Minute: int := 60 * Second
  /** Only entries newer than this count towards a quota. */
  const Window: int := Minute
  /** A cleanup keeps entries newer than this. */
  const Retention: int := 2 * Minute
  /** A cleanup runs only when strictly more than this has passed since the last one. */
  const CleanupInterval: int := 5 * Minute

  /** A path containing this string is an LLM request. */
  const LlmMarker: string := "/api/llm/"
  /** Paths that bypass rate limiting altogether. */
  const ExemptPaths: seq<string> := ["/health", "/", "/docs", "/openapi.json"]
  const TooManyRequests: int := 429
  const RetryAfter: string := "60 seconds"

  /** One admitted request: when it was recorded and which path it asked for. */
  datatype Entry = Entry(ts: int, path: string)

  /** Client id to that client's admitted requests, oldest first. */
  type History = map<string, seq<Entry>>

  datatype Config = Config(requestsPerMinute: int, llmRequestsPerMinute: int)

  /** The constructor's default quotas. */
  const DefaultConfig: Config := Config(60, 10)

  /** The mutable state of the middleware, as a value. */
  datatype Limiter = Limiter(history: History, lastCleanup: int)

  /** The state right after construction at time `now`. */
  function Init(now: int): Limiter
  {
    Limiter(map[], now)
  }

  /** What `_is_rate_limited` returns: `(is_limited, error_message)`. */
  datatype Verdict = Verdict(limited: bool, message: string)

  /** The parts of an HTTP request the middleware looks at. */
  datatype Request = Request(path: string, host: string, forwardedFor: Option<string>)

  /** `Allow` stands for passing the request on to `call_next`; `Reject` for the 429 JSON response. */
  datatype Response = Allow | Reject(status: int, detail: string, retryAfter: string)

  predicate IsLlmPath(path: string)
  {
    Contains(path, LlmMarker)
  }

  predicate IsExempt(path: string)
  {
    path in ExemptPaths
  }

  /** The list comprehension keeping the entries with `ts > cutoff`, in their order. */
  function After(s: seq<Entry>, cutoff: int): (r: seq<Entry>)
    ensures |r| <= |s|
  {
    if s == [] then []
    else (if s[0].ts > cutoff then [s[0]] else []) + After(s[1..], cutoff)
  }

  /** The list comprehension keeping the entries whose path is an LLM path, in their order. */
  function LlmOnly(s: seq<Entry>): (r: seq<Entry>)
    ensures |r| <= |s|
  {
    if s == [] then []
    else (if IsLlmPath(s[0].path) then [s[0]] else []) + LlmOnly(s[1..])
  }

  /** The entries inside the trailing minute ending at `now`. */
  function Recent(s: seq<Entry>, now: int): seq<Entry>
  {
    After(s, now - Window)
  }

  /** Reading a `defaultdict(list)`: an unseen client has no entries. */
  function Lookup(h: History, ip: string): seq<Entry>
  {
    if ip in h then h[ip] else []
  }

  /** The side effect of that read: an unseen client gets an empty list. */
  function Touch(h: History, ip: string): (r: History)
    ensures r.Keys == h.Keys + {ip}
    ensures forall k :: k in r ==> r[k] == Lookup(h, k)
  {
    if ip in h then h else h[ip := []]
  }

  function LlmLimitMessage(cfg: Config): string
  {
    "LLM rate limit exceeded: " + IntToDecimal(cfg.llmRequestsPerMinute) + " requests per minute"
  }

  function GlobalLimitMessage(cfg: Config): string
  {
    "Rate limit exceeded: " + IntToDecimal(cfg.requestsPerMinute) + " requests per minute"
  }

  /**
   * `_is_rate_limited` on the client's entries `s`: the LLM quota is checked
   * first and only for LLM paths; the global quota counts entries of any path.
   */
  function Check(cfg: Config, s: seq<Entry>, path: string, now: int): (v: Verdict)
    ensures IsLlmPath(path) && |LlmOnly(Recent(s, now))| >= cfg.llmRequestsPerMinute
            ==> v == Verdict(true, LlmLimitMessage(cfg))
    ensures !(IsLlmPath(path) && |LlmOnly(Recent(s, now))| >= cfg.llmRequestsPerMinute)
            ==> v == (if |Recent(s, now)| >= cfg.requestsPerMinute then Verdict(true, GlobalLimitMessage(cfg))
                      else Verdict(false, ""))
  {
    var recent := Recent(s, now);
    if IsLlmPath(path) && |LlmOnly(recent)| >= cfg.llmRequestsPerMinute then
      Verdict(true, LlmLimitMessage(cfg))
    else if |recent| >= cfg.requestsPerMinute then
      Verdict(true, GlobalLimitMessage(cfg))
    else
      Verdict(false, "")
  }

  /** The client id: the first field of a non-empty X-Forwarded-For, stripped; else the peer address. */
  function ClientId(req: Request): (id: string)
    ensures (req.forwardedFor.None? || req.forwardedFor.value == []) ==> id == req.host
    ensures req.forwardedFor.Some? && req.forwardedFor.value != [] ==>
              id == Strip(FirstField(req.forwardedFor.value, ','))
    ensures req.forwardedFor.Some? && req.forwardedFor.value != [] ==>
              id == [] || (!IsSpace(id[0]) && !IsSpace(id[|id| - 1]))
  {
    match req.forwardedFor
    case Some(header) => if header != [] then Strip(FirstField(header, ',')) else req.host
    case None => req.host
  }

  /** What a cleanup leaves of the history: the entries after `cutoff`, and no empty lists. */
  function Purge(h: History, cutoff: int): (r: History)
    ensures r.Keys <= h.Keys
    ensures forall ip :: ip in r ==> r[ip] == After(h[ip], cutoff) && r[ip] != []
    ensures forall ip :: ip in h && After(h[ip], cutoff) != [] ==> ip in r
  {
    map ip | ip in h && After(h[ip], cutoff) != [] :: After(h[ip], cutoff)
  }

  /** `_cleanup_old_requests`. */
  function Cleanup(st: Limiter, now: int): (r: Limiter)
    ensures now - st.lastCleanup <= CleanupInterval ==> r == st
    ensures now - st.lastCleanup > CleanupInterval ==> r.lastCleanup == now
  {
    if now - st.lastCleanup > CleanupInterval then Limiter(Purge(st.history, now - Retention), now)
    else st
  }

  /**
   * `dispatch`: exempt paths pass untouched; otherwise clean up, judge the
   * client's entries, and record the request only when it is admitted.
   */
  function Handle(cfg: Config, st: Limiter, req: Request, now: int): (r: (Limiter, Response))
    ensures IsExempt(req.path) ==> r == (st, Allow)
    ensures r.1 == Allow || r.1 == Reject(TooManyRequests, r.1.detail, RetryAfter)
    ensures !IsExempt(req.path) ==>
              && r.0.lastCleanup == Cleanup(st, now).lastCleanup
              && ClientId(req) in r.0.history
              && forall ip :: ip != ClientId(req) ==>
                   Lookup(r.0.history, ip) == Lookup(Cleanup(st, now).history, ip)
    ensures !IsExempt(req.path) ==>
              var ip := ClientId(req);
              var prior := Lookup(Cleanup(st, now).history, ip);
              var v := Check(cfg, prior, req.path, now);
              && (r.1 == Allow <==> !v.limited)
              && (v.limited ==> r.1 == Reject(TooManyRequests, v.message, RetryAfter) && r.0.history[ip] == prior)
              && (!v.limited ==> r.0.history[ip] == prior + [Entry(now, req.path)])
  {
    if IsExempt(req.path) then (st, Allow)
    else
      var ip := ClientId(req);
      var cleaned := Cleanup(st, now);
      var prior := Lookup(cleaned.history, ip);
      var touched := Touch(cleaned.history, ip);
      var verdict := Check(cfg, prior, req.path, now);
      if verdict.limited then
        (Limiter(touched, cleaned.lastCleanup), Reject(TooManyRequests, verdict.message, RetryAfter))
      else
        (Limiter(touched[ip := prior + [Entry(now, req.path)]], cleaned.lastCleanup), Allow)
  }

  /** The middleware object: its quotas are fixed, its history and cleanup time change in place. */
  class RateLimitMiddleware {
    const requestsPerMinute: int
    const llmRequestsPerMinute: int
    var history: History
    var lastCleanup: int

    function Limits(): Config
      reads this
    {
      Config(requestsPerMinute, llmRequestsPerMinute)
    }

    function State(): Limiter
      reads this
    {
      Limiter(history, lastCleanup)
    }

    constructor (now: int, requestsPerMinute: int := 60, llmRequestsPerMinute: int := 10)
      ensures Limits() == Config(requestsPerMinute, llmRequestsPerMinute)
      ensures State() == Init(now)
    {
      this.requestsPerMinute := requestsPerMinute;
      this.llmRequestsPerMinute := llmRequestsPerMinute;
      history := map[];
      lastCleanup := now;
    }

    /**
     * Rebuilds each client's list and deletes the emptied ones, visiting the
     * clients of a snapshot of the keys; each client is handled on its own, so
     * the order of the visits does not matter.
     */
    method CleanupOldRequests(now: int)
      modifies this
      ensures State() == Cleanup(old(State()), now)
    {
      if now - lastCleanup > CleanupInterval {
        var cutoff := now - Retention;
        ghost var before := history;
        var pending := history.Keys;
        while pending != {}
          invariant pending <= before.Keys
          invariant history.Keys <= before.Keys
          invariant forall ip :: ip in pending ==> ip in history && history[ip] == before[ip]
          invariant forall ip :: ip in before && ip !in pending ==>
                      (ip in history <==> ip in Purge(before, cutoff))
          invariant forall ip :: ip in history && ip !in pending ==>
                      history[ip] == After(before[ip], cutoff)
          decreases pending
        {
          var ip :| ip in pending;
          var kept := After(history[ip], cutoff);
          history := history[ip := kept];
          if kept == [] {
            history := history - {ip};
          }
          pending := pending - {ip};
        }
        lastCleanup := now;
      }
    }

    /** `_is_rate_limited`; reading the client's list inserts an empty one for a new client. */
    method IsRateLimited(ip: string, path: string, now: int) returns (limited: bool, message: string)
      modifies this
      ensures Verdict(limited, message) == Check(Limits(), Lookup(old(history), ip), path, now)
      ensures history == Touch(old(history), ip) && lastCleanup == old(lastCleanup)
    {
      if ip !in history {
        history := history[ip := []];
      }
      var recent := Recent(history[ip], now);
      if IsLlmPath(path) {
        var llmRequests := LlmOnly(recent);
        if |llmRequests| >= llmRequestsPerMinute {
          return true, LlmLimitMessage(Limits());
        }
      }
      if |recent| >= requestsPerMinute {
        return true, GlobalLimitMessage(Limits());
      }
      return false, "";
    }

    /** `dispatch` minus the call to the next handler. */
    method Dispatch(req: Request, now: int) returns (response: Response)
      modifies this
      ensures (State(), response) == Handle(Limits(), old(State()), req, now)
    {
      if IsExempt(req.path) {
        return Allow;
      }
      var clientIp := ClientId(req);
      CleanupOldRequests(now);
      var isLimited, errorMsg := IsRateLimited(clientIp, req.path, now);
      if isLimited {
        return Reject(TooManyRequests, errorMsg, RetryAfter);
      }
      history := history[clientIp := history[clientIp] + [Entry(now, req.path)]];
      return Allow;
    }
  }
}
