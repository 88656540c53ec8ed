/** What a debit of the ledger costs, given how the cron sends it: a request that was charged and whose
    reply was lost is sent again, and the service charges again. */
module DebitCall {
  import opened Options
  import opened Retry
  import opened HttpCalls
  import opened Billing
  import opened Ledger

  /** How many of the first k requests the service charged. */
  function Charges(charged: nat -> bool, k: nat): nat {
    if k == 0 then 0 else Charges(charged, k - 1) + (if charged(k) then 1 else 0)
  }

  /** A request that the service confirms, it has charged. */
  ghost predicate Confirms(script: nat -> Turn, charged: nat -> bool) {
    forall k :: Succeeds(script(k).response) ==> charged(k)
  }

  predicate Ok(s: S, outcome: Retry.Outcome<Error>) {
    outcome == Returned(None) && 200 <= s.status < 300 && s.parses
  }

  /** What the ledger learns of a call that asked for an amount. */
  function Report(ok: bool, updated: int, amount: nat, charges: nat): DebitReply
  {
    if ok then Debited(updated, if charges == 0 then 0 else amount * (charges - 1)) else Refused(amount * charges)
  }

  lemma {:induction false} ChargesAtMost(charged: nat -> bool, k: nat)
    ensures Charges(charged, k) <= k
  {
    if k > 0 {
      ChargesAtMost(charged, k - 1);
    }
  }

  /** A call that succeeds was charged, by its last request, and any other charge was for nothing. */
  lemma SuccessIsCharged(script: nat -> Turn, cancelled: nat -> bool, charged: nat -> bool, attempts: int,
                         calls: nat, s: S, outcome: Retry.Outcome<Error>)
    requires attempts >= 1 && Confirms(script, charged)
    requires Retried(START, CallOp(script), cancelled, attempts, calls, s, outcome)
    ensures Ok(s, outcome) ==> Charges(charged, calls) >= 1
    ensures Charges(charged, calls) <= attempts
  {
    CallMeetsItsBounds(script, cancelled, attempts, calls, s, outcome);
    ChargesAtMost(charged, calls);
  }

  lemma TimesAtMost(amount: nat, n: nat, m: nat)
    requires n <= m
    ensures amount * n <= amount * m
  {
  }

  /** Main result: an attempt whose debit is sent this way costs no more than MaxAttempts times what it
      asked for; and the service takes exactly what it confirms if and only if no request but a
      successful last one was charged. */
  lemma DebitCostsAtMost(script: nat -> Turn, cancelled: nat -> bool, charged: nat -> bool, attempts: int,
                         calls: nat, s: S, outcome: Retry.Outcome<Error>, p: Profile, t: Attempt, updated: int)
    requires attempts >= 1 && Confirms(script, charged)
    requires Retried(START, CallOp(script), cancelled, attempts, calls, s, outcome)
    requires Ledger.Outcome(p, t).Bill? && Ledger.Outcome(p, t).asked > 0
    requires t.a.debit == Report(Ok(s, outcome), updated, Ledger.Outcome(p, t).asked, Charges(charged, calls))
    ensures Took(p, t) == Ledger.Outcome(p, t).asked * Charges(charged, calls)
    ensures Took(p, t) <= Ledger.Outcome(p, t).asked * attempts
    ensures Exact(t) <==> Charges(charged, calls) == (if Ok(s, outcome) then 1 else 0)
  {
    var amount, n := Ledger.Outcome(p, t).asked, Charges(charged, calls);
    SuccessIsCharged(script, cancelled, charged, attempts, calls, s, outcome);
    TimesAtMost(amount, n, attempts);
    ReportAddsUp(Ok(s, outcome), updated, amount, n);
  }

  lemma NothingTimes(amount: nat, n: nat)
    requires amount > 0
    ensures amount * n == 0 <==> n == 0
  {
  }

  /** What a report says was taken is the amount, as often as it was charged. */
  lemma ReportAddsUp(ok: bool, updated: int, amount: nat, charges: nat)
    requires amount > 0 && (ok ==> charges >= 1)
    ensures match Report(ok, updated, amount, charges)
            case Debited(_, extra) => amount + extra == amount * charges && (extra == 0 <==> charges == 1)
            case Refused(took) => took == amount * charges && (took == 0 <==> charges == 0)
  {
    if ok {
      NothingTimes(amount, charges - 1);
    } else {
      NothingTimes(amount, charges);
    }
  }
}
