/** The resilience and progress utilities of src/utils.py: the retry
    decorator's attempt loop, the rate limiter's one-slot clock, the progress
    tracker, and filename sanitising.

    Clocks and sleeps are parameters: the current time is passed in, and
    every sleep is returned to the caller as its duration. The rate limiter
    counts time in integer milliseconds; backoff waits and percentages are
    reals. */
module Utils {
  import opened Wrappers

  // ---------------------------------------------------------------------
  // retry_on_failure

  /** How a wrapped call ends: the value of a successful attempt, the last
      attempt's exception, or `raise None` (a TypeError) when
      range(max_retries + 1) is empty. */
  datatype RetryOutcome<T, E> = Returned(value: T) | Raised(error: E) | RaisedNone

  function Pow(b: real, k: nat): real {
    if k == 0 then 1.0 else b * Pow(b, k - 1)
  }

  /** The waits before retries 0 .. n-1: delay * backoff ** attempt. */
  function BackoffSchedule(delay: real, backoff: real, n: nat): (waits: seq<real>)
    ensures |waits| == n
    ensures forall k :: 0 <= k < n ==> waits[k] == delay * Pow(backoff, k)
  {
    seq(n, (k: int) requires 0 <= k < n => delay * Pow(backoff, k))
  }

  function Sum(xs: seq<real>): real {
    if xs == [] then 0.0 else Sum(xs[..|xs| - 1]) + xs[|xs| - 1]
  }

  /** The decorator's wrapper. Attempt k of the operation yields op(k); the
      waits are the asyncio.sleep durations between attempts. */
  method RetryOnFailure<T, E>(op: nat -> Result<T, E>, maxRetries: int, delay: real, backoff: real)
    returns (outcome: RetryOutcome<T, E>, attempts: nat, waits: seq<real>)
    ensures attempts <= if maxRetries < 0 then 0 else maxRetries + 1
    ensures forall k :: 0 <= k < attempts - 1 ==> op(k).Failure?
    ensures outcome.Returned? ==> attempts > 0 && op(attempts - 1) == Success(outcome.value)
    ensures outcome.Raised? ==> attempts == maxRetries + 1 && attempts > 0 && op(attempts - 1) == Failure(outcome.error)
    ensures outcome.RaisedNone? <==> maxRetries < 0
    ensures waits == BackoffSchedule(delay, backoff, if attempts == 0 then 0 else attempts - 1)
  {
    attempts, waits := 0, [];
    var attempt := 0;
    while attempt < maxRetries + 1
      invariant 0 <= attempt && (maxRetries >= 0 ==> attempt <= maxRetries) && (maxRetries < 0 ==> attempt == 0)
      invariant attempts == attempt
      invariant forall k :: 0 <= k < attempt ==> op(k).Failure?
      invariant waits == BackoffSchedule(delay, backoff, attempt)
    {
      var r := op(attempt);
      attempts := attempts + 1;
      if r.Success? {
        return Returned(r.value), attempts, waits;
      }
      if attempt == maxRetries {
        return Raised(r.error), attempts, waits;
      }
      var waitTime := delay * Pow(backoff, attempt);
      waits := waits + [waitTime];
      attempt := attempt + 1;
    }
    // The body returns on every path once it runs, so this is reached only
    // when the range is empty and last_exception is still None.
    outcome := RaisedNone;
  }

  lemma GeometricStep(total: real, delay: real, backoff: real, p: real)
    requires total * (backoff - 1.0) == delay * (p - 1.0)
    ensures (total + delay * p) * (backoff - 1.0) == delay * (backoff * p - 1.0)
  {
    calc {
      (total + delay * p) * (backoff - 1.0);
      total * (backoff - 1.0) + delay * p * (backoff - 1.0);
      delay * (p - 1.0) + delay * p * (backoff - 1.0);
      delay * (backoff * p - 1.0);
    }
  }

  /** The total time slept before giving up is a geometric sum:
      delay * (backoff ** n - 1) / (backoff - 1) for n retries. */
  lemma {:induction false} BackoffTotal(delay: real, backoff: real, n: nat)
    ensures Sum(BackoffSchedule(delay, backoff, n)) * (backoff - 1.0) == delay * (Pow(backoff, n) - 1.0)
  {
    if n > 0 {
      var w := BackoffSchedule(delay, backoff, n);
      var p := Pow(backoff, n - 1);
      var before := Sum(BackoffSchedule(delay, backoff, n - 1));
      assert Sum(w) == before + delay * p by {
        assert w[..n - 1] == BackoffSchedule(delay, backoff, n - 1);
      }
      assert before * (backoff - 1.0) == delay * (p - 1.0) by {
        BackoffTotal(delay, backoff, n - 1);
      }
      GeometricStep(before, delay, backoff, p);
    }
  }

  /** With the decorator's defaults (delay 1.0, backoff 2.0) the waits are
      1, 2 and 4 seconds, 7 in all. */
  lemma DefaultBackoffSchedule()
    ensures BackoffSchedule(1.0, 2.0, 3) == [1.0, 2.0, 4.0]
    ensures Sum(BackoffSchedule(1.0, 2.0, 3)) == 7.0
  {
    var w := BackoffSchedule(1.0, 2.0, 3);
    assert Pow(2.0, 1) == 2.0 && Pow(2.0, 2) == 4.0;
    assert w == [1.0, 2.0, 4.0];
    assert w[..2] == [1.0, 2.0] && w[..2][..1] == [1.0] && w[..2][..1][..0] == [];
    assert Sum([1.0]) == 1.0;
    assert Sum([1.0, 2.0]) == 3.0;
  }

  // ---------------------------------------------------------------------
  // rate_limiter

  /** min_interval = 2.0 seconds, in milliseconds. */
  const MinInterval := 2000

  /** The sleep before a call that comes `elapsed` after the previous grant:
      none once the interval has passed, otherwise exactly the rest of it. */
  function SleepBefore(elapsed: int): (d: int)
    ensures d >= 0
    ensures d > 0 <==> elapsed < MinInterval
    ensures d > 0 ==> elapsed + d == MinInterval
  {
    if elapsed < MinInterval then MinInterval - elapsed else 0
  }

  /** The closure variable `last_call_time` of one decorated function. */
  class RateLimiter {
    var lastCallTime: int

    constructor ()
      ensures lastCallTime == 0
    {
      lastCallTime := 0;
    }

    /** The wrapper up to the wrapped call. `now` is the first time.time()
        reading; the second one, after the sleep, comes `overshoot` later
        than the sleep's end. The overshoot is negative when the wall clock
        stepped back or the timer fired early, so the spacing from the
        previous grant is min_interval only up to it. Returns the sleep
        duration. */
    method Acquire(now: int, overshoot: int) returns (slept: int)
      modifies this
      ensures slept == SleepBefore(now - old(lastCallTime))
      ensures lastCallTime == now + slept + overshoot
      ensures lastCallTime >= old(lastCallTime) + MinInterval + overshoot
    {
      var elapsed := now - lastCallTime;
      slept := 0;
      if elapsed < MinInterval {
        slept := MinInterval - elapsed;
      }
      lastCallTime := now + slept + overshoot;
    }
  }

  /** One call through the limiter: its first clock reading and the overshoot of its sleep. */
  datatype Call = Call(now: int, overshoot: int)

  function Grant(last: int, c: Call): int {
    c.now + SleepBefore(c.now - last) + c.overshoot
  }

  /** The grant times of a sequence of calls, starting from `last`. */
  function Grants(last: int, calls: seq<Call>): (g: seq<int>)
    ensures |g| == |calls|
    decreases |calls|
  {
    if calls == [] then []
    else [Grant(last, calls[0])] + Grants(Grant(last, calls[0]), calls[1..])
  }

  /** Sequential grants are at least min_interval apart, up to each call's
      overshoot, and the first comes that long after the starting `last`. */
  lemma {:induction false} GrantsSpaced(last: int, calls: seq<Call>)
    ensures |calls| > 0 ==> Grants(last, calls)[0] >= last + MinInterval + calls[0].overshoot
    ensures forall i :: 0 < i < |calls| ==> Grants(last, calls)[i] >= Grants(last, calls)[i - 1] + MinInterval + calls[i].overshoot
    decreases |calls|
  {
    if |calls| > 0 {
      var g0 := Grant(last, calls[0]);
      GrantsSpaced(g0, calls[1..]);
      var g := Grants(last, calls);
      assert g == [g0] + Grants(g0, calls[1..]);
      forall i | 0 < i < |calls| ensures g[i] >= g[i - 1] + MinInterval + calls[i].overshoot {
        assert calls[i] == calls[1..][i - 1];
        if i > 1 {
          assert g[i] == Grants(g0, calls[1..])[i - 1];
        }
      }
    }
  }

  // ---------------------------------------------------------------------
  // ProgressTracker

  /** update's new `current`: the sum, clamped to total. */
  function Advance(current: int, increment: int, total: int): (r: int)
    ensures r <= total
    ensures current + increment <= total ==> r == current + increment
    ensures current + increment > total ==> r == total
  {
    var c := current + increment;
    if c > total then total else c
  }

  /** (current / total) * 100, or 0 when total is not positive. */
  function Percentage(current: int, total: int): (p: real)
    ensures total <= 0 ==> p == 0.0
    ensures total > 0 && current == total ==> p == 100.0
    ensures total > 0 && 0 <= current <= total ==> 0.0 <= p <= 100.0
  {
    if total > 0 then (current as real / total as real) * 100.0 else 0.0
  }

  /** `current` after n calls of update(1). */
  function AfterUnitUpdates(current: int, total: int, n: nat): int {
    if n == 0 then current else Advance(AfterUnitUpdates(current, total, n - 1), 1, total)
  }

  /** From 0 with total >= 0, n unit updates leave min(n, total); so after
      total of them the tracker is complete, at 100 percent when total > 0. */
  lemma {:induction false} UnitUpdatesReachTotal(total: int, n: nat)
    requires total >= 0
    ensures AfterUnitUpdates(0, total, n) == if n < total then n else total
    ensures n >= total ==> AfterUnitUpdates(0, total, n) >= total
    ensures n >= total && total > 0 ==> Percentage(AfterUnitUpdates(0, total, n), total) == 100.0
  {
    if n > 0 {
      UnitUpdatesReachTotal(total, n - 1);
    }
  }

  /** A registered callable, by identity. */
  type Callback = nat

  /** One callback call made by update, and whether it raised. */
  datatype Invocation = Invocation(callback: Callback, current: int, total: int, percentage: real, raised: bool)

  class ProgressTracker {
    const total: int
    var current: int
    const description: string
    var startTime: int
    var callbacks: seq<Callback>

    constructor (total: int, description: string, now: int)
      ensures this.total == total && this.description == description
      ensures current == 0 && startTime == now && callbacks == []
      ensures IsComplete() <==> total <= 0
    {
      this.total := total;
      this.description := description;
      current := 0;
      startTime := now;
      callbacks := [];
    }

    method AddCallback(callback: Callback)
      modifies this
      ensures callbacks == old(callbacks) + [callback]
      ensures current == old(current) && startTime == old(startTime)
    {
      callbacks := callbacks + [callback];
    }

    /** update(increment). `raises(cb, current, total, percentage)` says
        whether callable cb raises on that call; the exception is logged and
        the loop goes on. */
    method Update(increment: int, raises: (Callback, int, int, real) -> bool) returns (calls: seq<Invocation>)
      modifies this
      ensures current == Advance(old(current), increment, total)
      ensures current <= total
      ensures callbacks == old(callbacks) && startTime == old(startTime)
      ensures |calls| == |callbacks|
      ensures forall i :: 0 <= i < |calls| ==>
        var p := Percentage(current, total);
        calls[i] == Invocation(callbacks[i], current, total, p, raises(callbacks[i], current, total, p))
    {
      current := current + increment;
      if current > total {
        current := total;
      }
      var percentage := Percentage(current, total);
      calls := [];
      var i := 0;
      while i < |callbacks|
        invariant 0 <= i <= |callbacks|
        invariant |calls| == i
        invariant forall j :: 0 <= j < i ==>
          calls[j] == Invocation(callbacks[j], current, total, percentage, raises(callbacks[j], current, total, percentage))
      {
        var cb := callbacks[i];
        var raised := raises(cb, current, total, percentage);
        calls := calls + [Invocation(cb, current, total, percentage, raised)];
        i := i + 1;
      }
    }

    method Reset(now: int)
      modifies this
      ensures current == 0 && startTime == now && callbacks == old(callbacks)
    {
      current := 0;
      startTime := now;
    }

    predicate IsComplete()
      reads this
      ensures IsComplete() && current <= total && total > 0 ==> Percentage(current, total) == 100.0
      ensures !IsComplete() && 0 <= current ==> Percentage(current, total) < 100.0
    {
      current >= total
    }
  }

  // ---------------------------------------------------------------------
  // sanitize_filename and str.strip

  /** Python's str.isspace characters, which str.strip() removes. */
  const Whitespace: set<char> := {
    ' ', '\t', '\n', '\r', '\U{000B}', '\U{000C}', '\U{001C}', '\U{001D}', '\U{001E}', '\U{001F}',
    '\U{0085}', '\U{00A0}', '\U{1680}', '\U{2000}', '\U{2001}', '\U{2002}', '\U{2003}', '\U{2004}',
    '\U{2005}', '\U{2006}', '\U{2007}', '\U{2008}', '\U{2009}', '\U{200A}', '\U{2028}', '\U{2029}',
    '\U{202F}', '\U{205F}', '\U{3000}' }

  /** How many characters at the start of s are in cs. */
  function LeadingRun(s: string, cs: set<char>): (k: nat)
    ensures k <= |s|
    ensures forall i :: 0 <= i < k ==> s[i] in cs
    ensures k < |s| ==> s[k] !in cs
  {
    if s != [] && s[0] in cs then 1 + LeadingRun(s[1..], cs) else 0
  }

  /** How many characters at the end of s are in cs. */
  function TrailingRun(s: string, cs: set<char>): (k: nat)
    ensures k <= |s|
    ensures forall i :: |s| - k <= i < |s| ==> s[i] in cs
    ensures k < |s| ==> s[|s| - 1 - k] !in cs
  {
    if s != [] && s[|s| - 1] in cs then 1 + TrailingRun(s[..|s| - 1], cs) else 0
  }

  /** str.lstrip(chars) */
  function StripLeading(s: string, cs: set<char>): string {
    s[LeadingRun(s, cs)..]
  }

  /** str.rstrip(chars) */
  function StripTrailing(s: string, cs: set<char>): string {
    s[..|s| - TrailingRun(s, cs)]
  }

  /** str.strip(chars). */
  function Strip(s: string, cs: set<char>): string {
    StripTrailing(StripLeading(s, cs), cs)
  }

  /** Stripping keeps the slice of s between the leading and the trailing
      run of stripped characters; the slice neither begins nor ends with one. */
  lemma StripSlice(s: string, cs: set<char>)
    ensures var r := Strip(s, cs); var lo := LeadingRun(s, cs);
      && lo + |r| <= |s| && r == s[lo..lo + |r|]
      && (forall i :: 0 <= i < lo ==> s[i] in cs)
      && (forall i :: lo + |r| <= i < |s| ==> s[i] in cs)
      && (r == [] || (r[0] !in cs && r[|r| - 1] !in cs))
  {
    var lo := LeadingRun(s, cs);
    var l := s[lo..];
    var k := TrailingRun(l, cs);
    var r := l[..|l| - k];
    assert r == s[lo..lo + |r|];
    forall i | lo + |r| <= i < |s| ensures s[i] in cs {
      assert s[i] == l[i - lo];
    }
  }

  /** A string that neither begins nor ends with a stripped character is its own strip. */
  lemma StripIdentity(s: string, cs: set<char>)
    requires s == [] || (s[0] !in cs && s[|s| - 1] !in cs)
    ensures Strip(s, cs) == s
  {
    assert s[0..] == s;
    assert s[..|s|] == s;
  }

  const InvalidFilenameChars: seq<char> := ['<', '>', ':', '"', '/', '\\', '|', '?', '*']
  const EdgeChars: set<char> := {'.', ' '}
  const MaxFilenameLength := 200

  /** str.replace for one character. */
  function Replace(s: string, from: char, to: char): string {
    seq(|s|, i requires 0 <= i < |s| => if s[i] == from then to else s[i])
  }

  /** Every invalid character replaced, one for one, by an underscore. */
  function ReplaceInvalid(s: string): string {
    seq(|s|, i requires 0 <= i < |s| => if s[i] in InvalidFilenameChars then '_' else s[i])
  }

  function Truncate(s: string): string {
    if |s| > MaxFilenameLength then s[..MaxFilenameLength] else s
  }

  /** What sanitize_filename returns: replace, strip dots and spaces, cut to 200. */
  function SanitizedName(s: string): string {
    Truncate(Strip(ReplaceInvalid(s), EdgeChars))
  }

  method SanitizeFilename(filename: string) returns (r: string)
    ensures r == SanitizedName(filename)
  {
    var name := filename;
    for i := 0 to |InvalidFilenameChars|
      invariant |name| == |filename|
      invariant forall k :: 0 <= k < |name| ==>
        name[k] == if filename[k] in InvalidFilenameChars[..i] then '_' else filename[k]
    {
      name := Replace(name, InvalidFilenameChars[i], '_');
    }
    assert InvalidFilenameChars[..|InvalidFilenameChars|] == InvalidFilenameChars;
    assert name == ReplaceInvalid(filename);
    name := Strip(name, EdgeChars);
    if |name| > MaxFilenameLength {
      name := name[..MaxFilenameLength];
    }
    r := name;
  }

  /** The result is a contiguous slice, starting where the leading strip
      ended, of the input with invalid characters replaced; it is at most 200
      long, does not begin with a dot or a space, and ends with neither
      unless the cut to 200 characters exposed one. */
  lemma SanitizedNameSlice(s: string)
    ensures var r := SanitizedName(s); var m := ReplaceInvalid(s);
      && |r| <= MaxFilenameLength
      && (r == [] || r[0] !in EdgeChars)
      && (|Strip(m, EdgeChars)| <= MaxFilenameLength ==> r == [] || r[|r| - 1] !in EdgeChars)
      && var lo := LeadingRun(m, EdgeChars);
         lo + |r| <= |s| && r == m[lo..lo + |r|]
  {
    var m := ReplaceInvalid(s);
    StripSlice(m, EdgeChars);
    var t := Strip(m, EdgeChars);
    var r := SanitizedName(s);
    assert r == t[..|r|];
  }

  /** In addition, the result contains no invalid character and is no longer than the input. */
  lemma SanitizedNameSafe(s: string)
    ensures var r := SanitizedName(s);
      && (forall i :: 0 <= i < |r| ==> r[i] !in InvalidFilenameChars)
      && |r| <= MaxFilenameLength && |r| <= |s|
      && (r == [] || r[0] !in EdgeChars)
      && (|Strip(ReplaceInvalid(s), EdgeChars)| <= MaxFilenameLength ==> r == [] || r[|r| - 1] !in EdgeChars)
  {
    SanitizedNameSlice(s);
    var m := ReplaceInvalid(s);
    var lo := LeadingRun(m, EdgeChars);
    var r := SanitizedName(s);
    forall i | 0 <= i < |r| ensures r[i] !in InvalidFilenameChars {
      assert r[i] == m[lo + i];
    }
  }

  /** The 200-character cut can leave a trailing dot, so sanitising twice
      differs from sanitising once. */
  lemma SanitizedNameNotIdempotent()
    ensures var s := seq(199, _ => 'a') + ['.', 'b'];
      && SanitizedName(s) == seq(199, _ => 'a') + ['.']
      && SanitizedName(SanitizedName(s)) == seq(199, _ => 'a')
      && SanitizedName(SanitizedName(s)) != SanitizedName(s)
  {
    var a := seq(199, _ => 'a');
    var s := a + ['.', 'b'];
    var once := a + ['.'];
    assert SanitizedName(s) == once by {
      assert ReplaceInvalid(s) == s;
      assert s[0] == 'a' && s[|s| - 1] == 'b';
      StripIdentity(s, EdgeChars);
      assert s[..200] == once;
    }
    assert SanitizedName(once) == a by {
      assert ReplaceInvalid(once) == once;
      assert LeadingRun(once, EdgeChars) == 0 && once[0..] == once;
      assert once[..|once| - 1] == a;
      assert TrailingRun(a, EdgeChars) == 0;
      assert TrailingRun(once, EdgeChars) == 1;
    }
    assert |a| != |once|;
  }

  /** sanitize_filename with the strip of trailing dots and spaces applied
      after the cut as well, so that the result never ends with one. */
  function SanitizedNameFixed(s: string): string {
    StripTrailing(SanitizedName(s), EdgeChars)
  }

  /** The corrected result has every property of the original and also never
      ends with a dot or a space; sanitising it again changes nothing. */
  lemma SanitizedNameFixedSafe(s: string)
    ensures var r := SanitizedNameFixed(s);
      && (forall i :: 0 <= i < |r| ==> r[i] !in InvalidFilenameChars)
      && |r| <= MaxFilenameLength && |r| <= |s|
      && (r == [] || (r[0] !in EdgeChars && r[|r| - 1] !in EdgeChars))
      && SanitizedNameFixed(r) == r
  {
    SanitizedNameSafe(s);
    var u := SanitizedName(s);
    var r := SanitizedNameFixed(s);
    assert r == u[..|r|];
    assert forall i :: 0 <= i < |r| ==> r[i] == u[i];
    assert ReplaceInvalid(r) == r;
    StripIdentity(r, EdgeChars);
    assert SanitizedName(r) == r;
  }
}
