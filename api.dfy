/**
 * The service layer of `api.py`: the request check on subject and content, the
 * sliding-window rate limiter, the static API-key table, the statistics the routes
 * keep and the arithmetic of the batch route. The clock is a parameter (`now`), the
 * classifier's answer for an email is a parameter of the route that would ask for it,
 * and the HTTP plumbing is left out.
 */
module Api {
  import opened Wrappers
  import opened Text
  import opened Patterns
  import opened EmailClassification

  /** `EmailRequest.not_empty`: None when the value is empty or all whitespace (the
      validator raises), otherwise the stripped value. */
  function NotEmpty(v: string): (r: Option<string>)
    ensures r.None? <==> forall i :: 0 <= i < |v| ==> IsSpace(v[i])
    ensures r.Some? ==> r.value == Strip(v) && r.value != []
  {
    StripEmptyIffAllSpace(v);
    var s := Strip(v);
    if v == [] || s == [] then None else Some(s)
  }

  /** A value the check accepted passes it again unchanged. */
  lemma NotEmptyIdempotent(v: string)
    requires NotEmpty(v).Some?
    ensures NotEmpty(NotEmpty(v).value) == NotEmpty(v)
  {
    StripIdempotent(v);
  }

  // ----------------------------------------------------------------------------
  // Rate limiting
  // ----------------------------------------------------------------------------

  /** The timestamps with `now - t < window`, in their stored order. */
  function Recent(ts: seq<real>, now: real, window: int): (r: seq<real>)
    ensures |r| <= |ts|
    ensures forall t :: t in r <==> t in ts && now - t < window as real
  {
    if ts == [] then []
    else
      var n := |ts| - 1;
      assert ts == ts[..n] + [ts[n]];
      Recent(ts[..n], now, window) + (if now - ts[n] < window as real then [ts[n]] else [])
  }

  /** `Recent` filters element by element: it distributes over concatenation and keeps
      a single element exactly when the condition holds, so its result is the
      subsequence of the input that meets the condition, in order. */
  lemma {:induction false} RecentAppend(a: seq<real>, b: seq<real>, t: real, now: real, window: int)
    ensures Recent(a + b, now, window) == Recent(a, now, window) + Recent(b, now, window)
    ensures Recent([t], now, window) == if now - t < window as real then [t] else []
    decreases |b|
  {
    assert [t][..0] == [];
    if b == [] {
      assert a + b == a;
    } else {
      var n := |b| - 1;
      assert (a + b)[..|a + b| - 1] == a + b[..n];
      RecentAppend(a, b[..n], t, now, window);
    }
  }

  /** Dropping the old timestamps a second time drops nothing more. */
  lemma {:induction false} RecentIdempotent(ts: seq<real>, now: real, window: int)
    ensures Recent(Recent(ts, now, window), now, window) == Recent(ts, now, window)
    decreases |ts|
  {
    if ts != [] {
      var n := |ts| - 1;
      var prev := Recent(ts[..n], now, window);
      RecentIdempotent(ts[..n], now, window);
      if now - ts[n] < window as real {
        var r := prev + [ts[n]];
        assert Recent(ts, now, window) == r;
        assert r[..|r| - 1] == prev && r[|r| - 1] == ts[n];
      } else {
        assert Recent(ts, now, window) == prev + [] == prev;
      }
    }
  }

  /** The most requests a client can have stored: `max_requests`, or none at all when
      that is not positive (every call is then refused). */
  function Capacity(maxRequests: int): nat {
    if maxRequests > 0 then maxRequests else 0
  }

  /** `RateLimiter`: per client, the times of its admitted requests in the window. */
  class RateLimiter {
    const maxRequests: int
    const timeWindow: int
    var requests: map<string, seq<real>>

    /** No client ever has more than `max_requests` stored requests. */
    ghost predicate Valid()
      reads this`requests
    {
      forall c :: c in requests ==> |requests[c]| <= Capacity(maxRequests)
    }

    /** `self.requests[client_id]` of the `defaultdict`: empty for a new client. */
    function Stored(client: string): seq<real>
      reads this`requests
    {
      if client in requests then requests[client] else []
    }

    constructor (maxRequests: int, timeWindow: int)
      ensures Valid()
      ensures this.maxRequests == maxRequests && this.timeWindow == timeWindow && requests == map[]
    {
      this.maxRequests := maxRequests;
      this.timeWindow := timeWindow;
      requests := map[];
    }

    /** `is_allowed`: the client's old timestamps are dropped; the request is admitted,
        and its time recorded, only when fewer than `max_requests` remain. Every other
        client's list is left as it was. */
    method IsAllowed(client: string, now: real) returns (allowed: bool)
      requires Valid()
      modifies this`requests
      ensures Valid()
      ensures var kept := Recent(old(Stored(client)), now, timeWindow);
        && (allowed <==> |kept| < maxRequests)
        && requests == old(requests)[client := if allowed then kept + [now] else kept]
    {
      var kept := Recent(Stored(client), now, timeWindow);
      requests := requests[client := kept];
      if |kept| >= maxRequests {
        return false;
      }
      requests := requests[client := kept + [now]];
      allowed := true;
    }
  }

  // ----------------------------------------------------------------------------
  // Authentication
  // ----------------------------------------------------------------------------

  datatype UserInfo = UserInfo(name: string, tier: string)

  /** `APIKeyAuth.valid_keys` */
  const ValidKeys: map<string, UserInfo> := map[
    "demo_key_12345" := UserInfo("demo_user", "basic"),
    "prod_key_67890" := UserInfo("production_user", "premium")]

  /** `validate_key`: the user record of exactly the two static keys. */
  function ValidateKey(apiKey: string): (r: Option<UserInfo>)
    ensures r.Some? <==> apiKey == "demo_key_12345" || apiKey == "prod_key_67890"
    ensures apiKey == "demo_key_12345" ==> r == Some(UserInfo("demo_user", "basic"))
    ensures apiKey == "prod_key_67890" ==> r == Some(UserInfo("production_user", "premium"))
  {
    if apiKey in ValidKeys then Some(ValidKeys[apiKey]) else None
  }

  // ----------------------------------------------------------------------------
  // Statistics
  // ----------------------------------------------------------------------------

  /** A `defaultdict(int)` read: 0 for a key never counted. */
  function Get<K>(m: map<K, nat>, k: K): nat {
    if k in m then m[k] else 0
  }

  /** `counts[k] += 1` on a `defaultdict(int)`. */
  function Bump<K(!new)>(m: map<K, nat>, k: K): (r: map<K, nat>)
    ensures r.Keys == m.Keys + {k}
    ensures Get(r, k) == Get(m, k) + 1
    ensures forall j :: j != k ==> Get(r, j) == Get(m, j)
  {
    m[k := Get(m, k) + 1]
  }

  const MaxResponseTimes: nat := 1000

  /** `times[-1000:]` once the list is longer than 1000. */
  function LastWindow(s: seq<real>): (r: seq<real>)
    ensures |r| <= |s| && |r| <= MaxResponseTimes && r == s[|s| - |r|..]
    ensures |s| <= MaxResponseTimes ==> r == s
    ensures |s| > MaxResponseTimes ==> |r| == MaxResponseTimes
  {
    if |s| > MaxResponseTimes then s[|s| - MaxResponseTimes..] else s
  }

  /** Trimming after every append keeps the same list as trimming the whole history
      once: the window always holds the most recent times, most recent last. */
  lemma WindowOfWindow(s: seq<real>, x: real)
    ensures LastWindow(LastWindow(s) + [x]) == LastWindow(s + [x])
  {
    if |s| > MaxResponseTimes {
      var w := s[|s| - MaxResponseTimes..];
      assert (w + [x])[1..] == (s + [x])[|s| + 1 - MaxResponseTimes..];
    }
  }

  /** Appending a list of times one by one, trimming after each, is trimming once. */
  lemma {:induction false} WindowOfAppends(s: seq<real>, xs: seq<real>)
    ensures AppendEach(s, xs) == LastWindow(s + xs)
    decreases |xs|
  {
    if xs == [] {
      assert s + xs == s;
      if |s| > MaxResponseTimes {
        assert LastWindow(s) == s[|s| - MaxResponseTimes..];
      }
    } else {
      var n := |xs| - 1;
      WindowOfAppends(s, xs[..n]);
      WindowOfWindow(s + xs[..n], xs[n]);
      SplitLast(s, xs);
    }
  }

  lemma SplitLast(s: seq<real>, xs: seq<real>)
    requires xs != []
    ensures s + xs == (s + xs[..|xs| - 1]) + [xs[|xs| - 1]]
  {
    assert xs == xs[..|xs| - 1] + [xs[|xs| - 1]];
  }

  /** The window after `_update_stats` ran once per time in `xs`. */
  function AppendEach(s: seq<real>, xs: seq<real>): (r: seq<real>)
    ensures |r| <= MaxResponseTimes
  {
    if xs == [] then LastWindow(s)
    else LastWindow(AppendEach(s, xs[..|xs| - 1]) + [xs[|xs| - 1]])
  }

  /** The results without an `error`, in order. */
  function Successes(rs: seq<ClassificationResult>): (r: seq<ClassificationResult>)
    ensures |r| <= |rs|
    ensures forall x :: x in r <==> x in rs && x.error.None?
  {
    if rs == [] then []
    else
      var n := |rs| - 1;
      assert rs == rs[..n] + [rs[n]];
      Successes(rs[..n]) + (if rs[n].error.None? then [rs[n]] else [])
  }

  /** `Successes` filters element by element: it distributes over concatenation and keeps
      a single element exactly when the condition holds, so its result is the
      subsequence of the input that meets the condition, in order. */
  lemma {:induction false} SuccessesAppend(a: seq<ClassificationResult>, b: seq<ClassificationResult>, x: ClassificationResult)
    ensures Successes(a + b) == Successes(a) + Successes(b)
    ensures Successes([x]) == if x.error.None? then [x] else []
    decreases |b|
  {
    assert [x][..0] == [];
    if b == [] {
      assert a + b == a;
    } else {
      var n := |b| - 1;
      assert (a + b)[..|a + b| - 1] == a + b[..n];
      SuccessesAppend(a, b[..n], x);
    }
  }

  /** How many results of `rs` carry no error and have urgency `l`. */
  function CountUrgency(rs: seq<ClassificationResult>, l: Level): nat {
    if rs == [] then 0
    else CountUrgency(rs[..|rs| - 1], l) + (if rs[|rs| - 1].error.None? && rs[|rs| - 1].urgency == l then 1 else 0)
  }

  /** How many results of `rs` carry no error and have department `d`. */
  function CountDepartment(rs: seq<ClassificationResult>, d: Department): nat {
    if rs == [] then 0
    else CountDepartment(rs[..|rs| - 1], d) + (if rs[|rs| - 1].error.None? && rs[|rs| - 1].department == d then 1 else 0)
  }

  /** The per-level counts add up to the number of successes. */
  lemma {:induction false} UrgencyCountsAddUp(rs: seq<ClassificationResult>)
    ensures CountUrgency(rs, Critical) + CountUrgency(rs, High) + CountUrgency(rs, Medium) + CountUrgency(rs, Low)
         == |Successes(rs)|
    decreases |rs|
  {
    if rs != [] {
      UrgencyCountsAddUp(rs[..|rs| - 1]);
    }
  }

  function ProcessingTimes(rs: seq<ClassificationResult>): (ts: seq<real>)
    ensures |ts| == |rs|
    ensures forall i :: 0 <= i < |rs| ==> ts[i] == rs[i].processingTime
  {
    if rs == [] then [] else ProcessingTimes(rs[..|rs| - 1]) + [rs[|rs| - 1].processingTime]
  }

  function OverallConfidences(rs: seq<ClassificationResult>): (cs: seq<real>)
    ensures |cs| == |rs|
    ensures forall i :: 0 <= i < |rs| ==> cs[i] == rs[i].overallConfidence
  {
    if rs == [] then [] else OverallConfidences(rs[..|rs| - 1]) + [rs[|rs| - 1].overallConfidence]
  }

  /** One more result extends the successes by itself when it carries no error. */
  lemma BatchStep(results: seq<ClassificationResult>, i: nat)
    requires i < |results|
    ensures Successes(results[..i + 1]) == Successes(results[..i]) + (if results[i].error.None? then [results[i]] else [])
  {
    assert results[..i + 1][..i] == results[..i];
  }

  /** Counting one more result of a batch into per-level counts `m` that so far hold
      `m0` plus the tallies of `results[..i]`. */
  lemma UrgencyCountsStep(m0: map<Level, nat>, m: map<Level, nat>, results: seq<ClassificationResult>, i: nat)
    requires i < |results|
    requires forall l: Level :: Get(m, l) == Get(m0, l) + CountUrgency(results[..i], l)
    ensures var m' := if results[i].error.None? then Bump(m, results[i].urgency) else m;
      forall l: Level :: Get(m', l) == Get(m0, l) + CountUrgency(results[..i + 1], l)
  {
    assert results[..i + 1][..i] == results[..i];
  }

  /** The same for the per-department counts. */
  lemma DepartmentCountsStep(m0: map<Department, nat>, m: map<Department, nat>, results: seq<ClassificationResult>, i: nat)
    requires i < |results|
    requires forall d: Department :: Get(m, d) == Get(m0, d) + CountDepartment(results[..i], d)
    ensures var m' := if results[i].error.None? then Bump(m, results[i].department) else m;
      forall d: Department :: Get(m', d) == Get(m0, d) + CountDepartment(results[..i + 1], d)
  {
    assert results[..i + 1][..i] == results[..i];
  }

  lemma TimesStep(s: seq<real>, ok: seq<ClassificationResult>, r: ClassificationResult)
    ensures ProcessingTimes(ok + [r]) == ProcessingTimes(ok) + [r.processingTime]
    ensures AppendEach(s, ProcessingTimes(ok) + [r.processingTime]) == LastWindow(AppendEach(s, ProcessingTimes(ok)) + [r.processingTime])
  {
    assert (ok + [r])[..|ok|] == ok;
    var ts := ProcessingTimes(ok) + [r.processingTime];
    assert ts[..|ts| - 1] == ProcessingTimes(ok);
  }

  /** `errors / max(total_requests, 1) * 100` as written. */
  function ErrorRate(errors: nat, total: nat): (rate: real)
    ensures rate >= 0.0
    ensures errors == 0 <==> rate == 0.0
  {
    (errors as real / (if total >= 1 then total else 1) as real) * 100.0
  }

  /** `total_requests` only counts the requests that succeeded (`_update_stats` runs
      only after a result without error) while `errors` counts the others, so two
      failures after one success read as an error rate of 200 per cent. */
  lemma ErrorRateExceedsHundred()
    ensures ErrorRate(2, 1) == 200.0
  {
  }

  /** The share of failed requests among all that reached the classifier, in per cent. */
  function ErrorPercentage(errors: nat, successes: nat): (rate: real)
    ensures 0.0 <= rate <= 100.0
    ensures errors == 0 <==> rate == 0.0
    ensures successes == 0 && errors > 0 ==> rate == 100.0
  {
    var n := errors + successes;
    var d := (if n >= 1 then n else 1) as real;
    DivideBounds(errors as real, d, 0.0, 1.0);
    (errors as real / d) * 100.0
  }

  /** What the batch route returns: the results without error, how many there are and
      the mean of their overall confidences (0 for none). */
  datatype BatchResponse = BatchResponse(results: seq<ClassificationResult>, totalProcessed: nat, averageConfidence: real)

  /** What the single-email route answers. */
  datatype RouteAnswer = TooManyRequests | ServerError(detail: string) | Classified(response: ClassificationResult)

  const MaxBatch: nat := 50

  /** The statistics of `EmailClassifierAPI` and its rate limiter. */
  class EmailClassifierApi {
    const rateLimiter: RateLimiter
    var totalRequests: nat
    var urgencyCounts: map<Level, nat>
    var departmentCounts: map<Department, nat>
    var responseTimes: seq<real>
    var errors: nat

    /** The response-time list never holds more than 1000 entries. */
    ghost predicate Valid()
      reads this`responseTimes
    {
      |responseTimes| <= MaxResponseTimes
    }

    /** `__init__`: a limiter of 1000 requests per hour and empty statistics. */
    constructor ()
      ensures Valid() && rateLimiter.Valid() && fresh(rateLimiter)
      ensures rateLimiter.maxRequests == 1000 && rateLimiter.timeWindow == 3600
      ensures totalRequests == 0 && errors == 0 && responseTimes == []
      ensures urgencyCounts == map[] && departmentCounts == map[]
    {
      rateLimiter := new RateLimiter(1000, 3600);
      totalRequests := 0;
      urgencyCounts := map[];
      departmentCounts := map[];
      responseTimes := [];
      errors := 0;
    }

    /** `_update_stats`: one more request, one more for its urgency and its department,
        and its time appended to the last 1000. */
    method UpdateStats(urgency: Level, department: Department, responseTime: real)
      requires Valid()
      modifies this`totalRequests, this`urgencyCounts, this`departmentCounts, this`responseTimes
      ensures Valid()
      ensures totalRequests == old(totalRequests) + 1
      ensures urgencyCounts == Bump(old(urgencyCounts), urgency)
      ensures departmentCounts == Bump(old(departmentCounts), department)
      ensures responseTimes == LastWindow(old(responseTimes) + [responseTime])
    {
      totalRequests := totalRequests + 1;
      urgencyCounts := urgencyCounts[urgency := Get(urgencyCounts, urgency) + 1];
      departmentCounts := departmentCounts[department := Get(departmentCounts, department) + 1];
      responseTimes := responseTimes + [responseTime];
      if |responseTimes| > MaxResponseTimes {
        responseTimes := responseTimes[|responseTimes| - MaxResponseTimes..];
      }
    }

    /** The `/classify` route once the user is authenticated: the rate limiter is asked
        under the user's name; an admitted request whose result carries an error counts
        one error and answers 500, otherwise the response carries the route's own
        processing time and the statistics record it. `result` is what the classifier
        answers. */
    method ClassifyRoute(user: UserInfo, now: real, result: ClassificationResult, processingTime: real)
      returns (answer: RouteAnswer)
      requires Valid() && rateLimiter.Valid()
      modifies this`totalRequests, this`urgencyCounts, this`departmentCounts, this`responseTimes, this`errors,
               rateLimiter`requests
      ensures Valid() && rateLimiter.Valid()
      ensures var kept := Recent(old(rateLimiter.Stored(user.name)), now, rateLimiter.timeWindow);
        && (answer.TooManyRequests? <==> |kept| >= rateLimiter.maxRequests)
        && rateLimiter.requests == old(rateLimiter.requests)[user.name := if answer.TooManyRequests? then kept else kept + [now]]
      ensures answer.ServerError? <==> !answer.TooManyRequests? && result.error.Some?
      ensures answer.Classified? ==> answer.response == result.(processingTime := processingTime)
      ensures errors == old(errors) + (if answer.ServerError? then 1 else 0)
      ensures answer.Classified? ==>
        && totalRequests == old(totalRequests) + 1
        && urgencyCounts == Bump(old(urgencyCounts), result.urgency)
        && departmentCounts == Bump(old(departmentCounts), result.department)
        && responseTimes == LastWindow(old(responseTimes) + [processingTime])
      ensures !answer.Classified? ==>
        && totalRequests == old(totalRequests) && urgencyCounts == old(urgencyCounts)
        && departmentCounts == old(departmentCounts) && responseTimes == old(responseTimes)
    {
      var allowed := rateLimiter.IsAllowed(user.name, now);
      ghost var kept := Recent(old(rateLimiter.Stored(user.name)), now, rateLimiter.timeWindow);
      ghost var admitted := rateLimiter.requests;
      assert admitted == old(rateLimiter.requests)[user.name := if allowed then kept + [now] else kept];
      if !allowed {
        return TooManyRequests;
      }
      if result.error.Some? {
        errors := errors + 1;
        assert rateLimiter.requests == admitted;
        return ServerError(result.error.value);
      }
      UpdateStats(result.urgency, result.department, processingTime);
      assert rateLimiter.requests == admitted;
      answer := Classified(result.(processingTime := processingTime));
    }

    /** The `/classify/batch` route: more than 50 emails are refused; otherwise each
        result without an error is kept, in order, and recorded in the statistics with
        its own processing time, and the failures are only counted locally. */
    method ClassifyBatchRoute(results: seq<ClassificationResult>) returns (r: Option<BatchResponse>)
      requires Valid()
      modifies this`totalRequests, this`urgencyCounts, this`departmentCounts, this`responseTimes
      ensures Valid()
      ensures r.None? <==> |results| > MaxBatch
      ensures r.Some? ==> var ok := Successes(results);
        && r.value == BatchResponse(ok, |ok|, Mean(OverallConfidences(ok)))
        && totalRequests == old(totalRequests) + |ok|
        && (forall l: Level :: Get(urgencyCounts, l) == Get(old(urgencyCounts), l) + CountUrgency(results, l))
        && (forall d: Department :: Get(departmentCounts, d) == Get(old(departmentCounts), d) + CountDepartment(results, d))
        && responseTimes == LastWindow(old(responseTimes) + ProcessingTimes(ok))
      ensures r.None? ==>
        && totalRequests == old(totalRequests) && urgencyCounts == old(urgencyCounts)
        && departmentCounts == old(departmentCounts) && responseTimes == old(responseTimes)
    {
      if |results| > MaxBatch {
        return None;
      }
      var ok: seq<ClassificationResult> := [];
      var failures := 0;
      for i := 0 to |results|
        invariant Valid()
        invariant ok == Successes(results[..i])
        invariant totalRequests == old(totalRequests) + |ok|
        invariant forall l: Level :: Get(urgencyCounts, l) == Get(old(urgencyCounts), l) + CountUrgency(results[..i], l)
        invariant forall d: Department :: Get(departmentCounts, d) == Get(old(departmentCounts), d) + CountDepartment(results[..i], d)
        invariant responseTimes == AppendEach(old(responseTimes), ProcessingTimes(ok))
      {
        var result := results[i];
        BatchStep(results, i);
        UrgencyCountsStep(old(urgencyCounts), urgencyCounts, results, i);
        DepartmentCountsStep(old(departmentCounts), departmentCounts, results, i);
        if result.error.Some? {
          failures := failures + 1;
        } else {
          TimesStep(old(responseTimes), ok, result);
          ok := ok + [result];
          UpdateStats(result.urgency, result.department, result.processingTime);
        }
      }
      assert results[..|results|] == results;
      WindowOfAppends(old(responseTimes), ProcessingTimes(ok));
      r := Some(BatchResponse(ok, |ok|, Mean(OverallConfidences(ok))));
    }
  }
}
