/** The two retry combinators. A closure over captured variables is a function that takes their values
    and the number of the attempt, and gives back their new values with its reply. */
module Retry {
  import opened Options

  /** What one call of the operation leaves behind: `go` is the code's RetryContinue. */
  datatype Reply<+S, +E> = Reply(state: S, go: bool, err: Option<E>)

  datatype Outcome<+E> = Returned(err: Option<E>) | Cancelled

  datatype LinearConfig = LinearConfig(initial: nat, max: nat, attempts: int, increment: nat)

  datatype BackoffConfig = BackoffConfig(initial: nat, max: nat, attempts: int, factor: nat)

  // ---------------------------------------------------------------- what a retried operation does

  /** The captured variables before attempt k, if the loop gets that far. */
  function Before<S, E>(s0: S, op: (S, nat) -> Reply<S, E>, k: nat): S
    requires k >= 1
  {
    if k == 1 then s0 else op(Before(s0, op, k - 1), k - 1).state
  }

  function ReplyAt<S, E>(s0: S, op: (S, nat) -> Reply<S, E>, k: nat): Reply<S, E>
    requires k >= 1
  {
    op(Before(s0, op, k), k)
  }

  /** A reply that ends the loop by itself: success, or an explicit stop. */
  predicate Final<S, E>(r: Reply<S, E>) { !r.go || r.err.None? }

  /** The whole contract of a retry loop: it calls until the first final reply, the first cancelled
      wait or the last attempt, and hands on what that call said. Without attempts it calls nothing
      and reports no error. */
  ghost predicate Retried<S, E>(s0: S, op: (S, nat) -> Reply<S, E>, cancelled: nat -> bool, attempts: int,
                                calls: nat, s: S, outcome: Outcome<E>) {
    if attempts <= 0 then
      calls == 0 && s == s0 && outcome == Returned(None)
    else
      && 1 <= calls <= attempts
      && (forall k :: 1 <= k < calls ==> !Final(ReplyAt(s0, op, k)) && !cancelled(k))
      && (var r := ReplyAt(s0, op, calls);
          && s == r.state
          && (if Final(r) || calls == attempts then outcome == Returned(r.err)
              else cancelled(calls) && outcome == Cancelled))
  }

  /** The contract leaves no room: two loops that meet it agree. */
  lemma RetriedIsUnique<S, E>(s0: S, op: (S, nat) -> Reply<S, E>, cancelled: nat -> bool, attempts: int,
                              c1: nat, s1: S, o1: Outcome<E>, c2: nat, s2: S, o2: Outcome<E>)
    requires Retried(s0, op, cancelled, attempts, c1, s1, o1)
    requires Retried(s0, op, cancelled, attempts, c2, s2, o2)
    ensures c1 == c2 && s1 == s2 && o1 == o2
  {
    var stopsAt := k requires k >= 1 => Final(ReplyAt(s0, op, k)) || cancelled(k) || k == attempts;
    if attempts > 0 {
      assert stopsAt(c1) && stopsAt(c2);
    }
  }

  // ---------------------------------------------------------------- waits

  function Min(a: nat, b: nat): nat { if a < b then a else b }

  function Max(a: nat, b: nat): nat { if a > b then a else b }

  function Power(b: nat, e: nat): nat { if e == 0 then 1 else b * Power(b, e - 1) }

  /** The k-th wait. The first is the initial delay even where that is above the maximum. */
  function LinearDelay(c: LinearConfig, k: nat): nat
    requires k >= 1
  {
    if k == 1 then c.initial else Min(c.initial + (k - 1) * c.increment, c.max)
  }

  function BackoffDelay(c: BackoffConfig, k: nat): nat
    requires k >= 1
  {
    if k == 1 then c.initial else Min(c.initial * Power(c.factor, k - 1), c.max)
  }

  lemma NextLinearDelay(c: LinearConfig, k: nat)
    requires k >= 1
    ensures LinearDelay(c, k + 1) == Min(LinearDelay(c, k) + c.increment, c.max)
  {
    assert k * c.increment == (k - 1) * c.increment + c.increment;
  }

  lemma NextBackoffDelay(c: BackoffConfig, k: nat)
    requires k >= 1 && c.factor >= 1
    ensures BackoffDelay(c, k + 1) == Min(BackoffDelay(c, k) * c.factor, c.max)
  {
    var grown := c.initial * Power(c.factor, k - 1);
    assert c.initial * Power(c.factor, k) == grown * c.factor;
    ScaleUp(grown, c.factor);
    ScaleUp(c.max, c.factor);
    if k > 1 && grown >= c.max {
      ScaleMonotone(c.max, grown, c.factor);
    }
  }

  lemma ScaleUp(a: nat, f: nat)
    requires f >= 1
    ensures a * f >= a
  {
  }

  lemma ScaleMonotone(a: nat, b: nat, f: nat)
    requires a <= b
    ensures a * f <= b * f
  {
  }

  function Sum(xs: seq<nat>): nat { if xs == [] then 0 else Sum(xs[..|xs| - 1]) + xs[|xs| - 1] }

  lemma {:induction false} SumBound(xs: seq<nat>, bound: nat)
    requires forall i :: 0 <= i < |xs| ==> xs[i] <= bound
    ensures Sum(xs) <= |xs| * bound
  {
    if xs != [] {
      SumBound(xs[..|xs| - 1], bound);
      assert (|xs| - 1) * bound + bound == |xs| * bound;
    }
  }

  /** Total waiting, however the calls go. */
  lemma LinearWaitingBound(c: LinearConfig, calls: nat, waits: seq<nat>)
    requires 1 <= calls <= c.attempts && (|waits| == calls - 1)
    requires forall k :: 1 <= k <= |waits| ==> waits[k - 1] == LinearDelay(c, k)
    ensures Sum(waits) <= (c.attempts - 1) * Max(c.initial, c.max)
  {
    assert forall i :: 0 <= i < |waits| ==> waits[i] == LinearDelay(c, i + 1);
    SumBound(waits, Max(c.initial, c.max));
    ScaleMonotone(|waits|, c.attempts - 1, Max(c.initial, c.max));
  }

  lemma BackoffWaitingBound(c: BackoffConfig, calls: nat, waits: seq<nat>)
    requires 1 <= calls <= c.attempts && (|waits| == calls - 1)
    requires forall k :: 1 <= k <= |waits| ==> waits[k - 1] == BackoffDelay(c, k)
    ensures Sum(waits) <= (c.attempts - 1) * Max(c.initial, c.max)
  {
    assert forall i :: 0 <= i < |waits| ==> waits[i] == BackoffDelay(c, i + 1);
    SumBound(waits, Max(c.initial, c.max));
    ScaleMonotone(|waits|, c.attempts - 1, Max(c.initial, c.max));
  }

  // ---------------------------------------------------------------- the loops

  method WithExponentialBackoff<S, E>(config: BackoffConfig, s0: S, operation: (S, nat) -> Reply<S, E>, cancelled: nat -> bool)
    returns (s: S, outcome: Outcome<E>, calls: nat, waits: seq<nat>)
    requires config.factor >= 1
    ensures Retried(s0, operation, cancelled, config.attempts, calls, s, outcome)
    ensures |waits| == (if calls == 0 then 0 else calls - 1)
    ensures forall k :: 1 <= k <= |waits| ==> waits[k - 1] == BackoffDelay(config, k)
  {
    s, calls, waits := s0, 0, [];
    var err: Option<E> := None;
    var currentDelay := config.initial;
    var attempt := 1;
    while attempt <= config.attempts
      invariant 1 <= attempt && (config.attempts >= 1 ==> attempt <= config.attempts)
      invariant calls == attempt - 1 == |waits|
      invariant attempt <= config.attempts ==> s == Before(s0, operation, attempt)
      invariant config.attempts < 1 ==> attempt == 1 && s == s0 && err == None
      invariant currentDelay == BackoffDelay(config, attempt)
      invariant forall k :: 1 <= k < attempt ==> !Final(ReplyAt(s0, operation, k)) && !cancelled(k)
      invariant forall k :: 1 <= k <= |waits| ==> waits[k - 1] == BackoffDelay(config, k)
      decreases config.attempts - attempt
    {
      var reply := operation(s, attempt);
      s, err, calls := reply.state, reply.err, attempt;
      if !reply.go || attempt == config.attempts || err.None? {
        return s, Returned(err), calls, waits;
      }
      if cancelled(attempt) {
        return s, Cancelled, calls, waits;
      }
      waits := waits + [currentDelay];
      NextBackoffDelay(config, attempt);
      currentDelay := currentDelay * config.factor;
      if currentDelay > config.max {
        currentDelay := config.max;
      }
      attempt := attempt + 1;
    }
    return s, Returned(err), calls, waits;
  }

  method WithLinearRetry<S, E>(config: LinearConfig, s0: S, operation: (S, nat) -> Reply<S, E>, cancelled: nat -> bool)
    returns (s: S, outcome: Outcome<E>, calls: nat, waits: seq<nat>)
    ensures Retried(s0, operation, cancelled, config.attempts, calls, s, outcome)
    ensures |waits| == (if calls == 0 then 0 else calls - 1)
    ensures forall k :: 1 <= k <= |waits| ==> waits[k - 1] == LinearDelay(config, k)
  {
    s, calls, waits := s0, 0, [];
    var err: Option<E> := None;
    var currentDelay := config.initial;
    var attempt := 1;
    while attempt <= config.attempts
      invariant 1 <= attempt && (config.attempts >= 1 ==> attempt <= config.attempts)
      invariant calls == attempt - 1 == |waits|
      invariant attempt <= config.attempts ==> s == Before(s0, operation, attempt)
      invariant config.attempts < 1 ==> attempt == 1 && s == s0 && err == None
      invariant currentDelay == LinearDelay(config, attempt)
      invariant forall k :: 1 <= k < attempt ==> !Final(ReplyAt(s0, operation, k)) && !cancelled(k)
      invariant forall k :: 1 <= k <= |waits| ==> waits[k - 1] == LinearDelay(config, k)
      decreases config.attempts - attempt
    {
      var reply := operation(s, attempt);
      s, err, calls := reply.state, reply.err, attempt;
      if !reply.go || attempt == config.attempts || err.None? {
        return s, Returned(err), calls, waits;
      }
      if cancelled(attempt) {
        return s, Cancelled, calls, waits;
      }
      waits := waits + [currentDelay];
      NextLinearDelay(config, attempt);
      currentDelay := currentDelay + config.increment;
      if currentDelay > config.max {
        currentDelay := config.max;
      }
      attempt := attempt + 1;
    }
    return s, Returned(err), calls, waits;
  }
}
