/** The per-IP request limiter: a counter and the time of the first request of the current window. */
module RateLimiter {

  datatype Entry = Entry(count: nat, firstReq: int)

  /** One request: who asks, and when. */
  datatype Request = Request(ip: string, now: int)

  // ---------------------------------------------------------------- the limiter

  class IpRateLimiter {
    var ips: map<string, Entry>
    const rate: int
    const window: int

    constructor (rate: int, window: int)
      ensures ips == map[] && this.rate == rate && this.window == window
    {
      this.rate, this.window, ips := rate, window, map[];
    }

    /** The whole of it runs under the limiter's mutex. */
    method IsAllowed(ip: string, now: int) returns (allowed: bool)
      modifies this
      ensures ips == Step(rate, window, old(ips), Request(ip, now))
      ensures allowed == Allows(rate, window, old(ips), Request(ip, now))
    {
      if ip !in ips {
        ips := ips[ip := Entry(1, now)];
        return true;
      }
      var req := ips[ip];
      if now - req.firstReq >= window {
        ips := ips[ip := Entry(1, now)];
        return true;
      }
      if req.count < rate {
        ips := ips[ip := req.(count := req.count + 1)];
        return true;
      }
      return false;
    }
  }

  // ---------------------------------------------------------------- specification

  predicate Opens(window: int, ips: map<string, Entry>, r: Request) {
    r.ip !in ips || r.now - ips[r.ip].firstReq >= window
  }

  predicate Allows(rate: int, window: int, ips: map<string, Entry>, r: Request) {
    Opens(window, ips, r) || ips[r.ip].count < rate
  }

  function Step(rate: int, window: int, ips: map<string, Entry>, r: Request): map<string, Entry> {
    if Opens(window, ips, r) then ips[r.ip := Entry(1, r.now)]
    else if ips[r.ip].count < rate then ips[r.ip := Entry(ips[r.ip].count + 1, ips[r.ip].firstReq)]
    else ips
  }

  /** The limiter after a history of requests. */
  function After(rate: int, window: int, history: seq<Request>): map<string, Entry> {
    if history == [] then map[]
    else Step(rate, window, After(rate, window, history[..|history| - 1]), history[|history| - 1])
  }

  /** The times of the requests of one address that were let through, oldest first. */
  function Allowed(rate: int, window: int, history: seq<Request>, ip: string): seq<int> {
    if history == [] then []
    else
      var before := history[..|history| - 1];
      var r := history[|history| - 1];
      if r.ip == ip && Allows(rate, window, After(rate, window, before), r)
      then Allowed(rate, window, before, ip) + [r.now]
      else Allowed(rate, window, before, ip)
  }

  predicate Monotone(history: seq<Request>) {
    forall i, j :: 0 <= i < j < |history| ==> history[i].now <= history[j].now
  }

  function Burst(rate: int): nat { if rate < 1 then 1 else rate }

  // ---------------------------------------------------------------- windows

  /** How an address's allowed times are cut into windows: `starts` holds the index of the first
      request of each window, and each window holds at most Burst requests, all of them less than a
      window length after its first; the next window opens no earlier than that. */
  ghost predicate Cut(times: seq<int>, starts: seq<nat>, rate: int, window: int) {
    && (forall k :: 0 <= k < |starts| ==> starts[k] < |times|)
    && (times != [] ==> starts != [] && starts[0] == 0)
    && (forall k :: 0 <= k < |starts| - 1 ==>
          && starts[k] < starts[k + 1] <= starts[k] + Burst(rate)
          && times[starts[k + 1]] >= times[starts[k]] + window)
    && (starts != [] ==> |times| <= starts[|starts| - 1] + Burst(rate))
    && (forall i, j :: 0 <= i < j < |times| ==> times[i] <= times[j])
  }

  /** The entry of an address describes its last window. */
  ghost predicate Describes(ips: map<string, Entry>, ip: string, times: seq<int>, starts: seq<nat>) {
    if times == [] then ip !in ips && starts == []
    else
      && starts != [] && ip in ips
      && starts[|starts| - 1] < |times|
      && ips[ip].firstReq == times[starts[|starts| - 1]]
      && ips[ip].count == |times| - starts[|starts| - 1]
  }

  function Last(history: seq<Request>): Request
    requires history != []
  {
    history[|history| - 1]
  }

  lemma {:induction false} AllowedTimesBounded(rate: int, window: int, history: seq<Request>, ip: string, i: nat)
    requires Monotone(history)
    requires i < |Allowed(rate, window, history, ip)|
    ensures history != [] && Allowed(rate, window, history, ip)[i] <= Last(history).now
    decreases |history|
  {
    var before := history[..|history| - 1];
    if i < |Allowed(rate, window, before, ip)| {
      AllowedTimesBounded(rate, window, before, ip, i);
    }
  }

  lemma CutOpens(times: seq<int>, starts: seq<nat>, rate: int, window: int, t: int)
    requires Cut(times, starts, rate, window)
    requires times == [] ==> starts == []
    requires times != [] ==> t >= times[starts[|starts| - 1]] + window
    requires forall i :: 0 <= i < |times| ==> times[i] <= t
    ensures Cut(times + [t], starts + [|times|], rate, window)
  {
    var times', starts' := times + [t], starts + [|times|];
    forall k | 0 <= k < |starts'| - 1
      ensures starts'[k] < starts'[k + 1] <= starts'[k] + Burst(rate)
      ensures times'[starts'[k + 1]] >= times'[starts'[k]] + window
    {
      if k < |starts| - 1 {
        OldWindowStays(times, starts, rate, window, t, k);
      } else {
        LastWindowCloses(times, starts, rate, window, t);
      }
    }
  }

  lemma OldWindowStays(times: seq<int>, starts: seq<nat>, rate: int, window: int, t: int, k: nat)
    requires Cut(times, starts, rate, window) && k < |starts| - 1
    ensures starts[k] < starts[k + 1] <= starts[k] + Burst(rate) && starts[k + 1] < |times|
    ensures (times + [t])[starts[k + 1]] >= (times + [t])[starts[k]] + window
  {
    assert times[starts[k + 1]] >= times[starts[k]] + window;
  }

  lemma LastWindowCloses(times: seq<int>, starts: seq<nat>, rate: int, window: int, t: int)
    requires Cut(times, starts, rate, window) && starts != []
    requires times != [] ==> t >= times[starts[|starts| - 1]] + window
    ensures starts[|starts| - 1] < |times| <= starts[|starts| - 1] + Burst(rate)
    ensures t >= (times + [t])[starts[|starts| - 1]] + window
  {
    var first := starts[|starts| - 1];
    assert (times + [t])[first] == times[first];
  }

  lemma CutGrows(times: seq<int>, starts: seq<nat>, rate: int, window: int, t: int)
    requires Cut(times, starts, rate, window)
    requires times != [] && |times| < starts[|starts| - 1] + Burst(rate)
    requires forall i :: 0 <= i < |times| ==> times[i] <= t
    ensures Cut(times + [t], starts, rate, window)
  {
    forall k | 0 <= k < |starts| - 1
      ensures (times + [t])[starts[k + 1]] >= (times + [t])[starts[k]] + window
    {
      OldWindowStays(times, starts, rate, window, t, k);
    }
  }

  lemma DescribesOpens(ips: map<string, Entry>, r: Request, rate: int, window: int, times: seq<int>, starts: seq<nat>)
    requires Describes(ips, r.ip, times, starts) && Opens(window, ips, r)
    ensures Describes(Step(rate, window, ips, r), r.ip, times + [r.now], starts + [|times|])
  {
    var times', starts' := times + [r.now], starts + [|times|];
    assert starts'[|starts'| - 1] == |times| && times'[|times|] == r.now;
  }

  lemma DescribesGrows(ips: map<string, Entry>, r: Request, rate: int, window: int, times: seq<int>, starts: seq<nat>)
    requires Describes(ips, r.ip, times, starts)
    requires !Opens(window, ips, r) && Allows(rate, window, ips, r)
    ensures Describes(Step(rate, window, ips, r), r.ip, times + [r.now], starts)
    ensures times != [] && |times| < starts[|starts| - 1] + Burst(rate)
  {
    var first := starts[|starts| - 1];
    assert (times + [r.now])[first] == times[first];
  }

  lemma DescribesKept(ips: map<string, Entry>, r: Request, ip: string, rate: int, window: int, times: seq<int>, starts: seq<nat>)
    requires Describes(ips, ip, times, starts)
    requires r.ip != ip || !Allows(rate, window, ips, r)
    ensures Describes(Step(rate, window, ips, r), ip, times, starts)
  {
  }

  /** One more request keeps the allowed times cut into windows and the entry describing the last. */
  lemma OneMore(ips: map<string, Entry>, r: Request, rate: int, window: int, times: seq<int>, starts: seq<nat>) returns (starts': seq<nat>)
    requires Cut(times, starts, rate, window) && Describes(ips, r.ip, times, starts)
    requires forall i :: 0 <= i < |times| ==> times[i] <= r.now
    requires Allows(rate, window, ips, r)
    ensures Cut(times + [r.now], starts', rate, window)
    ensures Describes(Step(rate, window, ips, r), r.ip, times + [r.now], starts')
  {
    if Opens(window, ips, r) {
      CutOpens(times, starts, rate, window, r.now);
      DescribesOpens(ips, r, rate, window, times, starts);
      starts' := starts + [|times|];
    } else {
      DescribesGrows(ips, r, rate, window, times, starts);
      CutGrows(times, starts, rate, window, r.now);
      starts' := starts;
    }
  }

  lemma AllTimesBounded(rate: int, window: int, history: seq<Request>, ip: string, now: int)
    requires Monotone(history)
    requires history != [] ==> Last(history).now <= now
    ensures forall i :: 0 <= i < |Allowed(rate, window, history, ip)| ==> Allowed(rate, window, history, ip)[i] <= now
  {
    forall i | 0 <= i < |Allowed(rate, window, history, ip)|
      ensures Allowed(rate, window, history, ip)[i] <= now
    {
      AllowedTimesBounded(rate, window, history, ip, i);
    }
  }

  /** After any history the allowed times of an address are cut into windows, and its entry holds
      the start and the size of the last of them. */
  lemma {:induction false} WindowsExist(rate: int, window: int, history: seq<Request>, ip: string) returns (starts: seq<nat>)
    requires Monotone(history)
    ensures Cut(Allowed(rate, window, history, ip), starts, rate, window)
    ensures Describes(After(rate, window, history), ip, Allowed(rate, window, history, ip), starts)
    decreases |history|
  {
    if history == [] {
      return [];
    }
    var before, r := history[..|history| - 1], Last(history);
    starts := WindowsExist(rate, window, before, ip);
    var ips, times := After(rate, window, before), Allowed(rate, window, before, ip);
    if r.ip == ip && Allows(rate, window, ips, r) {
      AllTimesBounded(rate, window, before, ip, r.now);
      starts := OneMore(ips, r, rate, window, times, starts);
    } else {
      DescribesKept(ips, r, ip, rate, window, times, starts);
    }
  }

  // ---------------------------------------------------------------- the bound

  /** The window an allowed request falls into. */
  lemma {:induction false} WindowOf(times: seq<int>, starts: seq<nat>, rate: int, window: int, i: nat, upTo: nat) returns (k: nat)
    requires Cut(times, starts, rate, window)
    requires i < |times| && upTo < |starts|
    requires upTo < |starts| - 1 ==> i < starts[upTo + 1]
    ensures k <= upTo && starts[k] <= i
    ensures k < |starts| - 1 ==> i < starts[k + 1]
  {
    if starts[upTo] <= i {
      k := upTo;
    } else {
      k := WindowOf(times, starts, rate, window, i, upTo - 1);
    }
  }

  /** Counting on from any allowed request, 2 * Burst - 1 requests later a whole window has passed. */
  lemma Spacing(times: seq<int>, starts: seq<nat>, rate: int, window: int, i: nat)
    requires Cut(times, starts, rate, window)
    requires i + 2 * Burst(rate) - 1 < |times|
    ensures times[i + 2 * Burst(rate) - 1] >= times[i] + window
  {
    var m := Burst(rate);
    var k := WindowOf(times, starts, rate, window, i, |starts| - 1);
    assert k < |starts| - 1;
    assert times[starts[k + 1]] >= times[starts[k]] + window;
    if starts[k] < i {
      assert starts[k + 1] <= i + m - 1;
      assert k + 1 < |starts| - 1;
      assert starts[k + 2] <= starts[k + 1] + m;
      assert times[starts[k + 2]] >= times[starts[k + 1]] + window;
    }
  }

  /** How many of the times lie in [from, from + window). */
  function CountIn(times: seq<int>, from: int, window: int): nat {
    if times == [] then 0
    else
      var last := times[|times| - 1];
      CountIn(times[..|times| - 1], from, window) + (if from <= last < from + window then 1 else 0)
  }

  /** In a sorted sequence the times in an interval are consecutive. */
  lemma {:induction false} InIntervalConsecutive(times: seq<int>, from: int, window: int) returns (lo: nat)
    requires forall i, j :: 0 <= i < j < |times| ==> times[i] <= times[j]
    ensures lo + CountIn(times, from, window) <= |times|
    ensures forall i :: lo <= i < lo + CountIn(times, from, window) ==> from <= times[i] < from + window
    ensures forall i :: lo + CountIn(times, from, window) <= i < |times| ==> times[i] >= from + window
    ensures forall i :: 0 <= i < lo ==> times[i] < from || window <= 0
    decreases |times|
  {
    if times == [] {
      return 0;
    }
    var init, t := times[..|times| - 1], times[|times| - 1];
    lo := InIntervalConsecutive(init, from, window);
    if t < from || window <= 0 {
      lo := |times|;
      CountNone(init, from, window);
    }
  }

  lemma {:induction false} CountNone(times: seq<int>, from: int, window: int)
    requires forall i :: 0 <= i < |times| ==> times[i] < from || window <= 0
    ensures CountIn(times, from, window) == 0
    decreases |times|
  {
    if times != [] {
      CountNone(times[..|times| - 1], from, window);
    }
  }

  /** Times cut into windows are spaced out enough. */
  lemma CutBoundsCount(times: seq<int>, starts: seq<nat>, rate: int, window: int, from: int)
    requires Cut(times, starts, rate, window)
    ensures CountIn(times, from, window) <= 2 * Burst(rate) - 1
  {
    var n := CountIn(times, from, window);
    var lo := InIntervalConsecutive(times, from, window);
    if n >= 2 * Burst(rate) {
      var last := lo + 2 * Burst(rate) - 1;
      assert last < lo + n;
      assert from <= times[lo] && times[last] < from + window;
      Spacing(times, starts, rate, window, lo);
    }
  }

  /** Main result: whatever the clock shows, no interval of one window length ever contains more than
      2 * max(1, rate) - 1 requests of one address that were let through. */
  lemma AtMostTwoBursts(rate: int, window: int, history: seq<Request>, ip: string, from: int)
    requires Monotone(history)
    ensures CountIn(Allowed(rate, window, history, ip), from, window) <= 2 * Burst(rate) - 1
  {
    var starts := WindowsExist(rate, window, history, ip);
    CutBoundsCount(Allowed(rate, window, history, ip), starts, rate, window, from);
  }

  /** What a refusal says about the windows: the last one is full and has not run out. */
  lemma RefusedMeansFull(ips: map<string, Entry>, r: Request, rate: int, window: int, times: seq<int>, starts: seq<nat>)
    requires Cut(times, starts, rate, window) && Describes(ips, r.ip, times, starts)
    requires !Allows(rate, window, ips, r)
    ensures starts != [] && starts[|starts| - 1] < |times|
    ensures |times| - starts[|starts| - 1] >= Burst(rate)
    ensures times[starts[|starts| - 1]] > r.now - window
  {
  }

  lemma SuffixIsRecent(times: seq<int>, starts: seq<nat>, rate: int, window: int, first: nat, now: int)
    requires Cut(times, starts, rate, window)
    requires first < |times| && times[first] > now - window
    requires forall i :: 0 <= i < |times| ==> times[i] <= now
    ensures forall i :: first <= i < |times| ==> now - window + 1 <= times[i] < now - window + 1 + window
  {
    forall i | first <= i < |times|
      ensures times[i] >= times[first]
    {
      if first < i {
        assert times[first] <= times[i];
      }
    }
  }

  lemma FullWindowCounts(ips: map<string, Entry>, r: Request, rate: int, window: int, times: seq<int>, starts: seq<nat>)
    requires Cut(times, starts, rate, window) && Describes(ips, r.ip, times, starts)
    requires !Allows(rate, window, ips, r)
    requires forall i :: 0 <= i < |times| ==> times[i] <= r.now
    ensures CountIn(times, r.now - window + 1, window) >= Burst(rate)
  {
    RefusedMeansFull(ips, r, rate, window, times, starts);
    RecentSuffixCounts(times, starts, rate, window, starts[|starts| - 1], r.now);
  }

  lemma RecentSuffixCounts(times: seq<int>, starts: seq<nat>, rate: int, window: int, first: nat, now: int)
    requires Cut(times, starts, rate, window)
    requires first < |times| && times[first] > now - window
    requires forall i :: 0 <= i < |times| ==> times[i] <= now
    ensures CountIn(times, now - window + 1, window) >= |times| - first
  {
    SuffixIsRecent(times, starts, rate, window, first, now);
    CountSuffix(times, now - window + 1, window, first);
  }

  /** A refusal is deserved: at least `rate` requests of the address, and at least one, were let
      through within the last window length. */
  lemma RefusalIsDeserved(rate: int, window: int, history: seq<Request>, r: Request)
    requires Monotone(history)
    requires history != [] ==> Last(history).now <= r.now
    requires !Allows(rate, window, After(rate, window, history), r)
    ensures CountIn(Allowed(rate, window, history, r.ip), r.now - window + 1, window) >= Burst(rate)
  {
    var starts := WindowsExist(rate, window, history, r.ip);
    AllTimesBounded(rate, window, history, r.ip, r.now);
    FullWindowCounts(After(rate, window, history), r, rate, window, Allowed(rate, window, history, r.ip), starts);
  }

  lemma {:induction false} CountSuffix(times: seq<int>, from: int, window: int, first: nat)
    requires first <= |times|
    requires forall i :: first <= i < |times| ==> from <= times[i] < from + window
    ensures CountIn(times, from, window) >= |times| - first
    decreases |times|
  {
    if first < |times| {
      CountSuffix(times[..|times| - 1], from, window, first);
    }
  }

  /** The requests of one address. */
  function Of(history: seq<Request>, ip: string): seq<Request> {
    if history == [] then []
    else
      var rest := Of(history[..|history| - 1], ip);
      if Last(history).ip == ip then rest + [Last(history)] else rest
  }

  predicate SameFor(ip: string, a: map<string, Entry>, b: map<string, Entry>) {
    (ip in a <==> ip in b) && (ip in a ==> a[ip] == b[ip])
  }

  lemma Snoc(rate: int, window: int, before: seq<Request>, r: Request, ip: string)
    ensures After(rate, window, before + [r]) == Step(rate, window, After(rate, window, before), r)
    ensures Allowed(rate, window, before + [r], ip)
         == Allowed(rate, window, before, ip)
          + (if r.ip == ip && Allows(rate, window, After(rate, window, before), r) then [r.now] else [])
  {
    assert (before + [r])[..|before + [r]| - 1] == before;
  }

  lemma StepSameFor(rate: int, window: int, a: map<string, Entry>, b: map<string, Entry>, r: Request, ip: string)
    requires SameFor(ip, a, b)
    ensures r.ip != ip ==> SameFor(ip, Step(rate, window, a, r), b)
    ensures r.ip == ip ==> SameFor(ip, Step(rate, window, a, r), Step(rate, window, b, r))
    ensures r.ip == ip ==> Allows(rate, window, a, r) == Allows(rate, window, b, r)
  {
  }

  /** Addresses do not affect each other: what is allowed for one depends on its own requests only. */
  lemma {:induction false} OthersDoNotMatter(rate: int, window: int, history: seq<Request>, ip: string)
    ensures Allowed(rate, window, history, ip) == Allowed(rate, window, Of(history, ip), ip)
    ensures SameFor(ip, After(rate, window, history), After(rate, window, Of(history, ip)))
    decreases |history|
  {
    if history != [] {
      var before, r := history[..|history| - 1], Last(history);
      assert history == before + [r];
      OthersDoNotMatter(rate, window, before, ip);
      Snoc(rate, window, before, r, ip);
      StepSameFor(rate, window, After(rate, window, before), After(rate, window, Of(before, ip)), r, ip);
      if r.ip == ip {
        Snoc(rate, window, Of(before, ip), r, ip);
      }
    }
  }

  // ---------------------------------------------------------------- the bound is met

  function Times<T>(x: T, n: nat): (s: seq<T>)
    ensures |s| == n
  {
    if n == 0 then [] else Times(x, n - 1) + [x]
  }

  lemma {:induction false} CountTimes(times: seq<int>, t: int, n: nat, from: int, window: int)
    requires from <= t < from + window
    ensures CountIn(times + Times(t, n), from, window) == CountIn(times, from, window) + n
  {
    if n == 0 {
      assert times + Times(t, n) == times;
    } else {
      CountTimes(times, t, n - 1, from, window);
      var all := times + Times(t, n);
      assert all[..|all| - 1] == times + Times(t, n - 1);
    }
  }

  lemma FillStep(rate: int, window: int, ips: map<string, Entry>, history: seq<Request>, r: Request, e: Entry)
    requires After(rate, window, history) == ips[r.ip := e]
    requires r.now - e.firstReq < window && e.count < rate
    ensures After(rate, window, history + [r]) == ips[r.ip := Entry(e.count + 1, e.firstReq)]
    ensures Allowed(rate, window, history + [r], r.ip) == Allowed(rate, window, history, r.ip) + [r.now]
  {
    Snoc(rate, window, history, r, r.ip);
    assert ips[r.ip := e][r.ip := Entry(e.count + 1, e.firstReq)] == ips[r.ip := Entry(e.count + 1, e.firstReq)];
  }

  /** While the window lasts and has room, every further request of the address is let through. */
  lemma {:induction false} Fills(rate: int, window: int, ips: map<string, Entry>, history: seq<Request>, r: Request, e: Entry, n: nat)
    requires After(rate, window, history) == ips[r.ip := e]
    requires r.now - e.firstReq < window && e.count + n <= rate
    ensures After(rate, window, history + Times(r, n)) == ips[r.ip := Entry(e.count + n, e.firstReq)]
    ensures Allowed(rate, window, history + Times(r, n), r.ip) == Allowed(rate, window, history, r.ip) + Times(r.now, n)
    decreases n
  {
    if n == 0 {
      assert history + Times(r, n) == history;
      assert Allowed(rate, window, history, r.ip) + Times(r.now, n) == Allowed(rate, window, history, r.ip);
    } else {
      FillStep(rate, window, ips, history, r, e);
      Fills(rate, window, ips, history + [r], r, Entry(e.count + 1, e.firstReq), n - 1);
      Prepend(history, r, n);
      Prepend(Allowed(rate, window, history, r.ip), r.now, n);
    }
  }

  lemma {:induction false} Prepend<T>(s: seq<T>, x: T, n: nat)
    requires n > 0
    ensures s + Times(x, n) == (s + [x]) + Times(x, n - 1)
  {
    if n == 1 {
      assert Times(x, 1) == [x] && Times(x, 0) == [];
    } else {
      Prepend(s, x, n - 1);
      assert s + Times(x, n) == s + Times(x, n - 1) + [x];
      assert (s + [x]) + Times(x, n - 1) == (s + [x]) + Times(x, n - 2) + [x];
    }
  }

  /** One request, the rest of its burst at the end of the window, and a full burst as the next opens. */
  function Worst(rate: nat, window: nat, ip: string): seq<Request>
    requires rate >= 1 && window >= 2
  {
    [Request(ip, 0)] + Times(Request(ip, window - 1), rate - 1) + [Request(ip, window)] + Times(Request(ip, window), rate - 1)
  }

  lemma {:induction false} TimesAt<T>(x: T, n: nat, i: nat)
    requires i < n
    ensures Times(x, n)[i] == x
  {
    if i < n - 1 {
      TimesAt(x, n - 1, i);
    }
  }

  lemma WorstIsMonotone(rate: nat, window: nat, ip: string)
    requires rate >= 1 && window >= 2
    ensures Monotone(Worst(rate, window, ip))
  {
    var h := Worst(rate, window, ip);
    forall i | 0 <= i < |h|
      ensures h[i].now == if i == 0 then 0 else if i < rate then window - 1 else window
    {
      if 0 < i < rate {
        TimesAt(Request(ip, window - 1), rate - 1, i - 1);
      } else if i > rate {
        TimesAt(Request(ip, window), rate - 1, i - rate - 1);
      }
    }
  }

  lemma Opening(rate: int, window: int, history: seq<Request>, r: Request)
    requires Opens(window, After(rate, window, history), r)
    ensures After(rate, window, history + [r]) == After(rate, window, history)[r.ip := Entry(1, r.now)]
    ensures Allowed(rate, window, history + [r], r.ip) == Allowed(rate, window, history, r.ip) + [r.now]
  {
    Snoc(rate, window, history, r, r.ip);
  }

  lemma WorstFirstRequest(rate: nat, window: nat, ip: string)
    requires rate >= 1 && window >= 2
    ensures After(rate, window, [Request(ip, 0)]) == map[ip := Entry(1, 0)]
    ensures Allowed(rate, window, [Request(ip, 0)], ip) == [0]
  {
    Opening(rate, window, [], Request(ip, 0));
    assert [] + [Request(ip, 0)] == [Request(ip, 0)];
  }

  lemma WorstFirstHalf(rate: nat, window: nat, ip: string)
    requires rate >= 1 && window >= 2
    ensures var half := [Request(ip, 0)] + Times(Request(ip, window - 1), rate - 1);
            && After(rate, window, half) == map[ip := Entry(rate, 0)]
            && Allowed(rate, window, half, ip) == [0] + Times(window - 1, rate - 1)
  {
    var first, r := [Request(ip, 0)], Request(ip, window - 1);
    WorstFirstRequest(rate, window, ip);
    Fills(rate, window, map[], first, r, Entry(1, 0), rate - 1);
    assert 1 + (rate - 1) == rate;
  }

  lemma WorstIsAllowed(rate: nat, window: nat, ip: string)
    requires rate >= 1 && window >= 2
    ensures Allowed(rate, window, Worst(rate, window, ip), ip)
         == [0] + Times(window - 1, rate - 1) + [window] + Times(window, rate - 1)
  {
    WorstFirstHalf(rate, window, ip);
    var half, r := [Request(ip, 0)] + Times(Request(ip, window - 1), rate - 1), Request(ip, window);
    Opening(rate, window, half, r);
    Fills(rate, window, map[ip := Entry(rate, 0)], half + [r], r, Entry(1, window), rate - 1);
  }

  lemma WorstCounts(rate: nat, window: nat)
    requires rate >= 1 && window >= 2
    ensures CountIn([0] + Times(window - 1, rate - 1) + [window] + Times(window, rate - 1), 1, window) == 2 * rate - 1
  {
    var first := [0] + Times(window - 1, rate - 1);
    assert [0][..0] == [] && CountIn([0], 1, window) == 0;
    CountTimes([0], window - 1, rate - 1, 1, window);
    assert (first + [window])[..|first|] == first;
    CountTimes(first + [window], window, rate - 1, 1, window);
  }

  /** The bound of AtMostTwoBursts cannot be improved: every limiter has a history that meets it. */
  lemma BoundIsMet(rate: nat, window: nat, ip: string)
    requires rate >= 1 && window >= 2
    ensures Monotone(Worst(rate, window, ip))
    ensures CountIn(Allowed(rate, window, Worst(rate, window, ip), ip), 1, window) == 2 * Burst(rate) - 1
  {
    WorstIsMonotone(rate, window, ip);
    WorstIsAllowed(rate, window, ip);
    WorstCounts(rate, window);
  }
}
