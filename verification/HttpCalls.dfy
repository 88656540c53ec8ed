/** The cron's balance and debit calls: a closure with a token, a refresh flag and the last status as
    captured variables, retried with backoff. */
module HttpCalls {
  import opened Options
  import opened Retry

  /** What comes back for one request: a broken connection, a response whose body cannot be read, or
      a status with a body that parses or does not. */
  datatype Response = Broken | Unreadable(status: int) | Http(status: int, parses: bool)

  /** The outside of one attempt: the response, and whether a token refresh would work. */
  datatype Turn = Turn(response: Response, refreshWorks: bool)

  /** Captured variables, with counts of what was sent. */
  datatype S = S(triedRefresh: bool, status: int, parses: bool, sent: nat, refreshes: nat)

  datatype Error = NoConnection | NoBody | RefreshFailed | RetryWithNewToken | StillUnauthorized | ClientError | ServerError

  const START := S(false, 0, false, 0, 0)

  function Attempt(turn: Turn, s: S): Reply<S, Error> {
    var s := s.(sent := s.sent + 1);
    match turn.response
    case Broken => Reply(s.(status := 0), true, Some(NoConnection))
    case Unreadable(status) => Reply(s.(status := status), true, Some(NoBody))
    case Http(status, parses) =>
      var s := s.(status := status, parses := parses);
      if status == 401 then
        if s.triedRefresh then Reply(s, false, Some(StillUnauthorized))
        else if turn.refreshWorks then
          Reply(s.(triedRefresh := true, refreshes := s.refreshes + 1), true, Some(RetryWithNewToken))
        else Reply(s.(refreshes := s.refreshes + 1), false, Some(RefreshFailed))
      else if 400 <= status < 500 then Reply(s, false, Some(ClientError))
      else if status >= 500 then Reply(s, true, Some(ServerError))
      else Reply(s, false, None)
  }

  function CallOp(script: nat -> Turn): (S, nat) -> Reply<S, Error> {
    (s: S, k: nat) => Attempt(script(k), s)
  }

  predicate Succeeds(r: Response) {
    r.Http? && 200 <= r.status < 300 && r.parses
  }

  /** The call as a whole: retries, then the checks of status and body. */
  method Call(config: BackoffConfig, script: nat -> Turn, cancelled: nat -> bool)
    returns (ok: bool, s: S, outcome: Outcome<Error>, calls: nat)
    requires config.factor >= 1
    ensures Retried(START, CallOp(script), cancelled, config.attempts, calls, s, outcome)
    ensures ok <==> outcome == Returned(None) && 200 <= s.status < 300 && s.parses
  {
    var waits;
    s, outcome, calls, waits := WithExponentialBackoff(config, START, CallOp(script), cancelled);
    if outcome != Returned(None) {
      return false, s, outcome, calls;
    }
    if s.status < 200 || s.status >= 300 {
      return false, s, outcome, calls;
    }
    ok := s.parses;
  }

  /** Each attempt sends one request, and only the first 401 asks for a new token. */
  lemma {:induction false} SentSoFar(script: nat -> Turn, k: nat)
    requires k >= 1
    requires forall i :: 1 <= i < k ==> !Final(ReplyAt(START, CallOp(script), i))
    ensures var s := Before(START, CallOp(script), k);
            && s.sent == k - 1
            && s.refreshes == (if s.triedRefresh then 1 else 0)
  {
    if k > 1 {
      SentSoFar(script, k - 1);
      var before := Before(START, CallOp(script), k - 1);
      assert !Final(ReplyAt(START, CallOp(script), k - 1));
      assert ReplyAt(START, CallOp(script), k - 1) == Attempt(script(k - 1), before);
    }
  }

  /** Main result: at most MaxAttempts requests and one refresh for any script of responses, and the
      call succeeds exactly when the last response is a 2xx whose body parses. */
  lemma CallMeetsItsBounds(script: nat -> Turn, cancelled: nat -> bool, attempts: int,
                           calls: nat, s: S, outcome: Outcome<Error>)
    requires attempts >= 1
    requires Retried(START, CallOp(script), cancelled, attempts, calls, s, outcome)
    ensures s.sent == calls <= attempts
    ensures s.refreshes <= 1
    ensures outcome == Returned(None) && 200 <= s.status < 300 && s.parses <==> Succeeds(script(calls).response)
  {
    SentSoFar(script, calls);
    assert ReplyAt(START, CallOp(script), calls) == Attempt(script(calls), Before(START, CallOp(script), calls));
  }

  /** No request follows a success, so a debit that was confirmed is never sent again. */
  lemma NothingAfterSuccess(script: nat -> Turn, cancelled: nat -> bool, attempts: int,
                            calls: nat, s: S, outcome: Outcome<Error>, k: nat)
    requires attempts >= 1
    requires Retried(START, CallOp(script), cancelled, attempts, calls, s, outcome)
    requires 1 <= k <= calls && Succeeds(script(k).response)
    ensures k == calls && outcome == Returned(None)
  {
    assert ReplyAt(START, CallOp(script), k) == Attempt(script(k), Before(START, CallOp(script), k));
    assert Final(ReplyAt(START, CallOp(script), k));
  }

  // ---------------------------------------------------------------- what is tried again

  predicate Unauthorized(r: Response) { r.Http? && r.status == 401 }

  /** The responses after which the call is worth another attempt. */
  predicate Retryable(turn: Turn, refreshed: bool) {
    || turn.response.Broken?
    || turn.response.Unreadable?
    || (turn.response.Http? && turn.response.status >= 500)
    || (Unauthorized(turn.response) && !refreshed && turn.refreshWorks)
  }

  /** An earlier attempt was turned away for its token. */
  ghost predicate Refreshed(script: nat -> Turn, k: nat) {
    exists j :: 1 <= j < k && Unauthorized(script(j).response)
  }

  lemma {:induction false} RefreshedSoFar(script: nat -> Turn, k: nat)
    requires k >= 1
    requires forall i :: 1 <= i < k ==> !Final(ReplyAt(START, CallOp(script), i))
    ensures Before(START, CallOp(script), k).triedRefresh <==> Refreshed(script, k)
  {
    if k > 1 {
      RefreshedSoFar(script, k - 1);
      var before := Before(START, CallOp(script), k - 1);
      assert !Final(ReplyAt(START, CallOp(script), k - 1));
      assert ReplyAt(START, CallOp(script), k - 1) == Attempt(script(k - 1), before);
      assert Refreshed(script, k) <==> Refreshed(script, k - 1) || Unauthorized(script(k - 1).response);
    }
  }

  lemma FinalExactly(script: nat -> Turn, k: nat)
    requires k >= 1
    requires forall i :: 1 <= i < k ==> !Final(ReplyAt(START, CallOp(script), i))
    ensures Final(ReplyAt(START, CallOp(script), k)) <==> !Retryable(script(k), Refreshed(script, k))
  {
    RefreshedSoFar(script, k);
    assert ReplyAt(START, CallOp(script), k) == Attempt(script(k), Before(START, CallOp(script), k));
  }

  /** A call goes on after exactly the responses worth another attempt, until its attempts or its time
      run out: broken connections, unread bodies, server errors, and the first 401 if a new token is to
      be had. */
  lemma TriedAgainExactly(script: nat -> Turn, cancelled: nat -> bool, attempts: int,
                          calls: nat, s: S, outcome: Outcome<Error>)
    requires attempts >= 1
    requires Retried(START, CallOp(script), cancelled, attempts, calls, s, outcome)
    ensures forall k :: 1 <= k < calls ==> Retryable(script(k), Refreshed(script, k)) && !cancelled(k)
    ensures calls == attempts || cancelled(calls) || !Retryable(script(calls), Refreshed(script, calls))
  {
    forall k | 1 <= k < calls
      ensures Retryable(script(k), Refreshed(script, k)) && !cancelled(k)
    {
      FinalExactly(script, k);
    }
    FinalExactly(script, calls);
  }

  /** Whatever goes wrong before in a way worth another attempt, the first success within the attempts
      is the call's. */
  lemma FirstSuccessCounts(script: nat -> Turn, cancelled: nat -> bool, attempts: int,
                           calls: nat, s: S, outcome: Outcome<Error>, m: nat)
    requires Retried(START, CallOp(script), cancelled, attempts, calls, s, outcome)
    requires 1 <= m <= attempts && Succeeds(script(m).response)
    requires forall k :: 1 <= k < m ==> Retryable(script(k), Refreshed(script, k)) && !cancelled(k)
    ensures calls == m && outcome == Returned(None) && 200 <= s.status < 300 && s.parses
  {
    TriedAgainExactly(script, cancelled, attempts, calls, s, outcome);
    if calls > m {
      NothingAfterSuccess(script, cancelled, attempts, calls, s, outcome, m);
    }
    CallMeetsItsBounds(script, cancelled, attempts, calls, s, outcome);
  }
}
