/**
 * What the rate limiter guarantees: the algebra of its two filters, what a
 * cleanup leaves behind, that only the trailing minute counts, and — over a
 * whole run of requests with a clock that never goes back — that no client
 * ever has more in-window entries than its quotas allow.
 */
module RateLimitProperties {
  import opened Wrappers
  import opened Text
  import opened RateLimit

  /** `a` is `b` with some elements left out, the rest in their original order. */
  ghost predicate IsSubsequence(a: seq<Entry>, b: seq<Entry>)
    decreases |b|
  {
    if b == [] then a == []
    else IsSubsequence(a, b[1..]) || (a != [] && a[0] == b[0] && IsSubsequence(a[1..], b[1..]))
  }

  lemma {:induction false} AfterIsSubsequence(s: seq<Entry>, cutoff: int)
    ensures IsSubsequence(After(s, cutoff), s)
    decreases |s|
  {
    if s != [] {
      AfterIsSubsequence(s[1..], cutoff);
      if s[0].ts > cutoff {
        assert After(s, cutoff)[1..] == After(s[1..], cutoff);
      } else {
        assert After(s, cutoff) == After(s[1..], cutoff);
      }
    }
  }

  /** The filter keeps exactly the entries newer than the cutoff. */
  lemma {:induction false} AfterMembers(s: seq<Entry>, cutoff: int)
    ensures forall e :: e in After(s, cutoff) <==> e in s && e.ts > cutoff
    decreases |s|
  {
    if s != [] {
      AfterMembers(s[1..], cutoff);
      assert s == [s[0]] + s[1..];
    }
  }

  /** Filtering a concatenation filters each part. */
  lemma {:induction false} AfterConcat(a: seq<Entry>, b: seq<Entry>, cutoff: int)
    ensures After(a + b, cutoff) == After(a, cutoff) + After(b, cutoff)
    decreases |a|
  {
    if a != [] {
      AfterConcat(a[1..], b, cutoff);
      assert (a + b)[0] == a[0] && (a + b)[1..] == a[1..] + b;
      var head := if a[0].ts > cutoff then [a[0]] else [];
      calc {
        After(a + b, cutoff);
        head + After(a[1..] + b, cutoff);
        head + (After(a[1..], cutoff) + After(b, cutoff));
        (head + After(a[1..], cutoff)) + After(b, cutoff);
      }
    } else {
      assert a + b == b;
    }
  }

  lemma {:induction false} LlmOnlyConcat(a: seq<Entry>, b: seq<Entry>)
    ensures LlmOnly(a + b) == LlmOnly(a) + LlmOnly(b)
    decreases |a|
  {
    if a != [] {
      LlmOnlyConcat(a[1..], b);
      assert (a + b)[0] == a[0] && (a + b)[1..] == a[1..] + b;
      var head := if IsLlmPath(a[0].path) then [a[0]] else [];
      calc {
        LlmOnly(a + b);
        head + LlmOnly(a[1..] + b);
        head + (LlmOnly(a[1..]) + LlmOnly(b));
        (head + LlmOnly(a[1..])) + LlmOnly(b);
      }
    } else {
      assert a + b == b;
    }
  }

  /** Filtering by a cutoff and then by a later one is filtering by the later one. */
  lemma {:induction false} AfterAfter(s: seq<Entry>, c1: int, c2: int)
    requires c1 <= c2
    ensures After(After(s, c1), c2) == After(s, c2)
    decreases |s|
  {
    if s != [] {
      AfterAfter(s[1..], c1, c2);
      AfterConcat(if s[0].ts > c1 then [s[0]] else [], After(s[1..], c1), c2);
    }
  }

  /** Every entry newer than the cutoff survives the filter. */
  lemma {:induction false} AfterKeepsNewer(s: seq<Entry>, cutoff: int)
    requires forall e :: e in s ==> e.ts > cutoff
    ensures After(s, cutoff) == s
    decreases |s|
  {
    if s != [] {
      AfterKeepsNewer(s[1..], cutoff);
      assert [s[0]] + s[1..] == s;
    }
  }

  /** No entry at or before the cutoff survives the filter. */
  lemma {:induction false} AfterDropsOlder(s: seq<Entry>, cutoff: int)
    requires forall e :: e in s ==> e.ts <= cutoff
    ensures After(s, cutoff) == []
    decreases |s|
  {
    if s != [] {
      AfterDropsOlder(s[1..], cutoff);
    }
  }

  lemma {:induction false} LlmOnlyKeepsLlm(s: seq<Entry>)
    requires forall e :: e in s ==> IsLlmPath(e.path)
    ensures LlmOnly(s) == s
    decreases |s|
  {
    if s != [] {
      LlmOnlyKeepsLlm(s[1..]);
      assert [s[0]] + s[1..] == s;
    }
  }

  /** The LLM filter keeps exactly the entries whose path contains the marker. */
  lemma {:induction false} LlmOnlyMembers(s: seq<Entry>)
    ensures forall e :: e in LlmOnly(s) <==> e in s && IsLlmPath(e.path)
    decreases |s|
  {
    if s != [] {
      LlmOnlyMembers(s[1..]);
      assert s == [s[0]] + s[1..];
    }
  }

  /** Filtering by path never counts more than filtering the unfiltered list would. */
  lemma {:induction false} LlmOnlyAfterShrinks(s: seq<Entry>, cutoff: int)
    ensures |LlmOnly(After(s, cutoff))| <= |LlmOnly(s)|
    decreases |s|
  {
    if s != [] {
      LlmOnlyAfterShrinks(s[1..], cutoff);
      var head := if s[0].ts > cutoff then [s[0]] else [];
      LlmOnlyConcat(head, After(s[1..], cutoff));
      assert s == [s[0]] + s[1..];
      LlmOnlyConcat([s[0]], s[1..]);
    }
  }

  /** As time moves on, a list holds no more in-window entries than before, of any path or of LLM paths. */
  lemma RecentShrinks(s: seq<Entry>, earlier: int, later: int)
    requires earlier <= later
    ensures |Recent(s, later)| <= |Recent(s, earlier)|
    ensures |LlmOnly(Recent(s, later))| <= |LlmOnly(Recent(s, earlier))|
  {
    AfterAfter(s, earlier - Window, later - Window);
    LlmOnlyAfterShrinks(Recent(s, earlier), later - Window);
  }

  /**
   * After a cleanup that runs, every stored entry is younger than two minutes,
   * each client's survivors keep their order, no client is left with an empty
   * list and the cleanup time is `now`; a cleanup that does not run changes nothing.
   */
  lemma CleanupGuarantees(st: Limiter, now: int)
    ensures var r := Cleanup(st, now);
      if now - st.lastCleanup > CleanupInterval then
        && r.lastCleanup == now
        && r.history.Keys <= st.history.Keys
        && (forall ip, e :: ip in r.history && e in r.history[ip] ==> e.ts > now - Retention)
        && (forall ip :: ip in r.history ==> r.history[ip] != [] && IsSubsequence(r.history[ip], st.history[ip]))
        && (forall ip, e :: ip in st.history && e in st.history[ip] && e.ts > now - Retention ==>
              ip in r.history && e in r.history[ip])
      else r == st
  {
    forall ip | ip in st.history
      ensures IsSubsequence(After(st.history[ip], now - Retention), st.history[ip])
      ensures forall e :: e in After(st.history[ip], now - Retention) <==> e in st.history[ip] && e.ts > now - Retention
    {
      AfterIsSubsequence(st.history[ip], now - Retention);
      AfterMembers(st.history[ip], now - Retention);
    }
  }

  /** A cleanup never changes what is in the window: it keeps two minutes, the window is one. */
  lemma CleanupKeepsRecent(st: Limiter, ip: string, now: int)
    ensures Recent(Lookup(Cleanup(st, now).history, ip), now) == Recent(Lookup(st.history, ip), now)
  {
    var c := Cleanup(st, now);
    if now - st.lastCleanup > CleanupInterval && ip in st.history {
      AfterAfter(st.history[ip], now - Retention, now - Window);
    }
  }

  /** Entries at or before the window's start never affect the decision, however many there are. */
  lemma StaleEntriesIgnored(cfg: Config, stale: seq<Entry>, s: seq<Entry>, path: string, now: int)
    requires forall e :: e in stale ==> e.ts <= now - Window
    ensures Check(cfg, stale + s, path, now) == Check(cfg, s, path, now)
  {
    AfterConcat(stale, s, now - Window);
    AfterDropsOlder(stale, now - Window);
    assert Recent(stale + s, now) == Recent(s, now);
  }

  /** More recorded requests never turn a rejection into an admission. */
  lemma MoreHistoryStaysLimited(cfg: Config, s: seq<Entry>, t: seq<Entry>, path: string, now: int)
    requires Check(cfg, s, path, now).limited
    ensures Check(cfg, s + t, path, now).limited
  {
    AfterConcat(s, t, now - Window);
    LlmOnlyConcat(Recent(s, now), Recent(t, now));
  }

  /** The LLM health route is rate limited under the LLM quota; the plain health route is exempt. */
  lemma LlmHealthIsLimited()
    ensures IsLlmPath("/api/llm/health") && !IsExempt("/api/llm/health")
    ensures IsExempt("/health") && !IsLlmPath("/health")
  {
    assert "/api/llm/health" == LlmMarker + "health";
    ContainsPrefix(LlmMarker, "health");
    ContainsIff("/health", LlmMarker);
  }

  /** A header `a, rest` names client `a`, stripped, whatever follows the first comma. */
  lemma {:induction false} ClientIdFromHeader(host: string, a: string, rest: string)
    requires ',' !in a
    ensures ClientId(Request("/", host, Some(a + "," + rest))) == Strip(a)
    decreases |a|
  {
    FirstFieldOfPrefix(a, rest);
  }

  lemma {:induction false} FirstFieldOfPrefix(a: string, rest: string)
    requires ',' !in a
    ensures FirstField(a + "," + rest, ',') == a
    decreases |a|
  {
    if a != [] {
      FirstFieldOfPrefix(a[1..], rest);
      assert (a + "," + rest)[1..] == a[1..] + "," + rest;
    }
  }

  /** Quotas as counts: a negative quota admits nothing, so it bounds like zero. */
  function Quota(n: int): nat
  {
    if n < 0 then 0 else n
  }

  /** No client holds more in-window entries at `now` than either quota allows. */
  ghost predicate WithinQuota(cfg: Config, h: History, now: int)
  {
    forall ip :: ip in h ==>
      && |Recent(h[ip], now)| <= Quota(cfg.requestsPerMinute)
      && |LlmOnly(Recent(h[ip], now))| <= Quota(cfg.llmRequestsPerMinute)
  }

  lemma WithinQuotaLater(cfg: Config, h: History, earlier: int, later: int)
    requires earlier <= later && WithinQuota(cfg, h, earlier)
    ensures WithinQuota(cfg, h, later)
  {
    forall ip | ip in h {
      RecentShrinks(h[ip], earlier, later);
    }
  }

  /** A cleanup keeps every client within its quotas: it never changes what is in the window. */
  lemma CleanupKeepsQuota(cfg: Config, st: Limiter, now: int)
    requires WithinQuota(cfg, st.history, now)
    ensures WithinQuota(cfg, Cleanup(st, now).history, now)
  {
    var cleaned := Cleanup(st, now).history;
    forall ip | ip in cleaned
      ensures |Recent(cleaned[ip], now)| <= Quota(cfg.requestsPerMinute)
      ensures |LlmOnly(Recent(cleaned[ip], now))| <= Quota(cfg.llmRequestsPerMinute)
    {
      CleanupKeepsRecent(st, ip, now);
      assert Lookup(cleaned, ip) == cleaned[ip];
    }
  }

  /** Recording an admitted request keeps its client within both quotas. */
  lemma AdmitKeepsQuota(cfg: Config, prior: seq<Entry>, path: string, now: int)
    requires |Recent(prior, now)| <= Quota(cfg.requestsPerMinute)
    requires |LlmOnly(Recent(prior, now))| <= Quota(cfg.llmRequestsPerMinute)
    requires !Check(cfg, prior, path, now).limited
    ensures |Recent(prior + [Entry(now, path)], now)| <= Quota(cfg.requestsPerMinute)
    ensures |LlmOnly(Recent(prior + [Entry(now, path)], now))| <= Quota(cfg.llmRequestsPerMinute)
  {
    var e := Entry(now, path);
    AfterConcat(prior, [e], now - Window);
    assert After([e], now - Window) == [e];
    LlmOnlyConcat(Recent(prior, now), [e]);
    assert LlmOnly([e]) == if IsLlmPath(path) then [e] else [];
  }

  /** Handling one request keeps every client within its quotas, provided the clock did not go back. */
  lemma HandleKeepsQuota(cfg: Config, st: Limiter, req: Request, earlier: int, now: int)
    requires earlier <= now && WithinQuota(cfg, st.history, earlier)
    ensures WithinQuota(cfg, Handle(cfg, st, req, now).0.history, now)
  {
    WithinQuotaLater(cfg, st.history, earlier, now);
    if !IsExempt(req.path) {
      var ip := ClientId(req);
      var cleaned := Cleanup(st, now);
      CleanupKeepsQuota(cfg, st, now);
      var prior := Lookup(cleaned.history, ip);
      var touched := Touch(cleaned.history, ip);
      assert WithinQuota(cfg, touched, now);
      var verdict := Check(cfg, prior, req.path, now);
      if !verdict.limited {
        AdmitKeepsQuota(cfg, prior, req.path, now);
        var h := touched[ip := prior + [Entry(now, req.path)]];
        assert Handle(cfg, st, req, now).0.history == h;
      } else {
        assert Handle(cfg, st, req, now).0.history == touched;
      }
    }
  }

  /** A request as it reaches the middleware: the request and the clock reading for it. */
  datatype Arrival = Arrival(request: Request, at: int)

  /** The clock never goes back along the arrivals. */
  ghost predicate Chronological(arrivals: seq<Arrival>)
  {
    forall i, j :: 0 <= i < j < |arrivals| ==> arrivals[i].at <= arrivals[j].at
  }

  /** Feeding the arrivals to `dispatch` one after another: the final state and every response. */
  function Run(cfg: Config, st: Limiter, arrivals: seq<Arrival>): (r: (Limiter, seq<Response>))
    ensures |r.1| == |arrivals|
    decreases |arrivals|
  {
    if arrivals == [] then (st, [])
    else
      var last := arrivals[|arrivals| - 1];
      var (before, responses) := Run(cfg, st, arrivals[..|arrivals| - 1]);
      var (after, response) := Handle(cfg, before, last.request, last.at);
      (after, responses + [response])
  }

  /** The clock reading of the last arrival, or the construction time when there is none. */
  function LastTime(t0: int, arrivals: seq<Arrival>): int
  {
    if arrivals == [] then t0 else arrivals[|arrivals| - 1].at
  }

  /**
   * Starting from a freshly constructed middleware, with a clock that never
   * goes back, after any run no client holds more in-window entries than
   * `requests_per_minute`, nor more in-window LLM entries than `llm_requests_per_minute`.
   */
  lemma {:induction false} RunKeepsQuota(cfg: Config, t0: int, arrivals: seq<Arrival>)
    requires Chronological(arrivals)
    requires arrivals != [] ==> t0 <= arrivals[0].at
    ensures WithinQuota(cfg, Run(cfg, Init(t0), arrivals).0.history, LastTime(t0, arrivals))
    decreases |arrivals|
  {
    if arrivals != [] {
      var prefix := arrivals[..|arrivals| - 1];
      var last := arrivals[|arrivals| - 1];
      RunKeepsQuota(cfg, t0, prefix);
      var before := Run(cfg, Init(t0), prefix).0;
      assert LastTime(t0, prefix) <= last.at by {
        if prefix != [] {
          assert prefix[|prefix| - 1] == arrivals[|arrivals| - 2];
        }
      }
      HandleKeepsQuota(cfg, before, last.request, LastTime(t0, prefix), last.at);
    }
  }

  /** The entries the first `k` arrivals leave when every one of them is admitted. */
  function Recorded(arrivals: seq<Arrival>, k: nat): (r: seq<Entry>)
    requires k <= |arrivals|
    ensures |r| == k
    ensures forall i :: 0 <= i < k ==> r[i] == Entry(arrivals[i].at, arrivals[i].request.path)
    decreases k
  {
    if k == 0 then [] else Recorded(arrivals, k - 1) + [Entry(arrivals[k - 1].at, arrivals[k - 1].request.path)]
  }

  /** The arrivals of a burst: one LLM request, repeated, all inside the first minute after `t0`. */
  ghost predicate LlmBurst(t0: int, req: Request, arrivals: seq<Arrival>)
  {
    && IsLlmPath(req.path)
    && Chronological(arrivals)
    && (forall i :: 0 <= i < |arrivals| ==> arrivals[i].request == req)
    && (forall i :: 0 <= i < |arrivals| ==> t0 <= arrivals[i].at < t0 + Window)
  }

  /** Every LLM path contains the letter 'm' of "/api/llm/". */
  lemma LlmPathHasM(path: string)
    requires IsLlmPath(path)
    ensures 'm' in path
  {
    ContainsIff(path, LlmMarker);
    var i :| OccursAt(path, LlmMarker, i);
    assert path[i + 7] == LlmMarker[7] == 'm';
  }

  /** Inside the burst's minute, everything a burst recorded is in the window and on an LLM path. */
  lemma {:induction false} RecordedAllCount(t0: int, req: Request, arrivals: seq<Arrival>, k: nat, now: int)
    requires LlmBurst(t0, req, arrivals) && k <= |arrivals| && now < t0 + Window
    ensures Recent(Recorded(arrivals, k), now) == Recorded(arrivals, k)
    ensures LlmOnly(Recorded(arrivals, k)) == Recorded(arrivals, k)
    decreases k
  {
    if k > 0 {
      RecordedAllCount(t0, req, arrivals, k - 1, now);
      var prior := Recorded(arrivals, k - 1);
      var e := Entry(arrivals[k - 1].at, arrivals[k - 1].request.path);
      assert Recorded(arrivals, k) == prior + [e];
      assert e.ts >= t0 && e.path == req.path;
      AfterConcat(prior, [e], now - Window);
      assert After([e], now - Window) == [e];
      LlmOnlyConcat(prior, [e]);
      assert LlmOnly([e]) == [e];
    }
  }

  /** The state a burst leaves after `k` admitted requests. */
  function BurstState(t0: int, req: Request, arrivals: seq<Arrival>, k: nat): Limiter
    requires k <= |arrivals|
  {
    Limiter(if k == 0 then map[] else map[ClientId(req) := Recorded(arrivals, k)], t0)
  }

  /** One request of a burst: admitted and recorded while fewer than L are in the window, rejected once L are. */
  lemma BurstStep(cfg: Config, t0: int, req: Request, arrivals: seq<Arrival>, k: nat)
    requires LlmBurst(t0, req, arrivals)
    requires k < |arrivals| && k <= cfg.llmRequestsPerMinute <= cfg.requestsPerMinute
    ensures var r := Handle(cfg, BurstState(t0, req, arrivals, k), req, arrivals[k].at);
      if k < cfg.llmRequestsPerMinute then r == (BurstState(t0, req, arrivals, k + 1), Allow)
      else r.1 == Reject(TooManyRequests, LlmLimitMessage(cfg), RetryAfter)
  {
    var st := BurstState(t0, req, arrivals, k);
    var now := arrivals[k].at;
    var ip := ClientId(req);
    ExemptNotLlm(req.path);
    assert Cleanup(st, now) == st;
    var prior := Recorded(arrivals, k);
    assert Lookup(st.history, ip) == prior;
    RecordedAllCount(t0, req, arrivals, k, now);
    if k < cfg.llmRequestsPerMinute {
      assert Check(cfg, prior, req.path, now) == Verdict(false, "");
      assert prior + [Entry(now, req.path)] == Recorded(arrivals, k + 1);
      assert Touch(st.history, ip)[ip := Recorded(arrivals, k + 1)] == map[ip := Recorded(arrivals, k + 1)];
    }
  }

  /** While the LLM quota is not used up, a burst's requests are all admitted and all recorded. */
  lemma {:induction false} BurstAdmitted(cfg: Config, t0: int, req: Request, arrivals: seq<Arrival>, k: nat)
    requires LlmBurst(t0, req, arrivals)
    requires k <= |arrivals| && k <= cfg.llmRequestsPerMinute <= cfg.requestsPerMinute
    ensures Run(cfg, Init(t0), arrivals[..k]).0 == BurstState(t0, req, arrivals, k)
    ensures forall i :: 0 <= i < k ==> Run(cfg, Init(t0), arrivals[..k]).1[i] == Allow
    decreases k
  {
    if k > 0 {
      BurstAdmitted(cfg, t0, req, arrivals, k - 1);
      assert arrivals[..k][..k - 1] == arrivals[..k - 1];
      assert arrivals[..k][k - 1] == arrivals[k - 1];
      BurstStep(cfg, t0, req, arrivals, k - 1);
    }
  }

  /** No exempt path is an LLM path: none of them contains an 'm'. */
  lemma ExemptNotLlm(path: string)
    ensures IsExempt(path) ==> !IsLlmPath(path)
  {
    if IsLlmPath(path) {
      LlmPathHasM(path);
    }
  }

  /**
   * With quotas L (LLM) and M >= L (global), of L + 1 LLM requests from one
   * client within the first minute after construction, the first L are
   * admitted and the last is rejected with the LLM message and a 429.
   */
  lemma BurstLimit(cfg: Config, t0: int, req: Request, arrivals: seq<Arrival>)
    requires 0 <= cfg.llmRequestsPerMinute <= cfg.requestsPerMinute
    requires |arrivals| == cfg.llmRequestsPerMinute + 1
    requires LlmBurst(t0, req, arrivals)
    ensures forall i :: 0 <= i < cfg.llmRequestsPerMinute ==> Run(cfg, Init(t0), arrivals).1[i] == Allow
    ensures Run(cfg, Init(t0), arrivals).1[cfg.llmRequestsPerMinute]
            == Reject(TooManyRequests, LlmLimitMessage(cfg), RetryAfter)
  {
    var n := cfg.llmRequestsPerMinute;
    BurstAdmitted(cfg, t0, req, arrivals, n);
    assert arrivals[..n] == arrivals[..|arrivals| - 1];
    BurstStep(cfg, t0, req, arrivals, n);
  }

  /** With the default quotas (60 and 10), the 11th LLM request within a minute is the first one rejected. */
  lemma EleventhLlmRequestRejected(t0: int, req: Request, arrivals: seq<Arrival>)
    requires |arrivals| == 11
    requires LlmBurst(t0, req, arrivals)
    ensures forall i :: 0 <= i < 10 ==> Run(DefaultConfig, Init(t0), arrivals).1[i] == Allow
    ensures Run(DefaultConfig, Init(t0), arrivals).1[10]
            == Reject(TooManyRequests, LlmLimitMessage(DefaultConfig), RetryAfter)
  {
    BurstLimit(DefaultConfig, t0, req, arrivals);
  }

  /** The two rejection messages under the default quotas, spelled out. */
  lemma DefaultMessages()
    ensures LlmLimitMessage(DefaultConfig) == "LLM rate limit exceeded: 10 requests per minute"
    ensures GlobalLimitMessage(DefaultConfig) == "Rate limit exceeded: 60 requests per minute"
  {
    assert NatToDecimal(10) == NatToDecimal(1) + [DigitChar(0)];
    assert NatToDecimal(60) == NatToDecimal(6) + [DigitChar(0)];
  }
}
