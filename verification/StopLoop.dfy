/** The cron stops a notebook by read-modify-write against a versioned object store, retrying on
    conflicts, while other writers change the same object. */
module StopLoop {
  import opened Notebooks
  import opened Options
  import opened Retry

  datatype Object = Object(version: nat, annotations: map<string, string>)

  /** What another writer does between two of our calls. */
  datatype Edit = SetAnnotations(annotations: map<string, string>) | Remove | Recreate(annotations: map<string, string>)

  /** The faults of one attempt: edits that come before our update; whether the update, if it would be
      accepted, fails all the same, perhaps after taking effect; edits before the re-read; and whether
      the re-read fails. */
  datatype Turn = Turn(before: seq<Edit>, update: UpdateFault, between: seq<Edit>, getFails: bool)

  datatype UpdateFault = Works | Fails(tookEffect: bool)

  /** The captured notebook object, and the server. */
  datatype S = S(local: Object, server: Option<Object>, clock: nat)

  datatype Error = BadUpdate | Conflict | BadReread

  /** `v != ""`: an empty value does not count as stopped here. */
  predicate AlreadyStopped(o: Object) {
    STOP_ANNOTATION in o.annotations && o.annotations[STOP_ANNOTATION] != ""
  }

  predicate StoppedOrGone(server: Option<Object>) {
    server.Some? ==> AlreadyStopped(server.value)
  }

  function Stamp(o: Object, stopTime: string): Object {
    o.(annotations := o.annotations[STOP_ANNOTATION := stopTime])
  }

  /** Every write takes a version never used before. */
  function Apply(server: Option<Object>, clock: nat, edits: seq<Edit>): (Option<Object>, nat)
    decreases |edits|
  {
    if edits == [] then (server, clock)
    else
      var next := match edits[0]
        case SetAnnotations(m) => if server.Some? then Some(Object(clock + 1, m)) else None
        case Remove => None
        case Recreate(m) => Some(Object(clock + 1, m));
      Apply(next, clock + 1, edits[1..])
  }

  /** The server accepts an update only on the version it is based on. */
  predicate Accepts(server: Option<Object>, local: Object) {
    server.Some? && server.value.version == local.version
  }

  /** One attempt of the closure. */
  function Attempt(stopTime: string, turn: Turn, s: S): Reply<S, Error> {
    if AlreadyStopped(s.local) then
      Reply(s, false, None)
    else
      var local := Stamp(s.local, stopTime);
      var (server, clock) := Apply(s.server, s.clock, turn.before);
      if Accepts(server, local) then
        var written := Some(Object(clock + 1, local.annotations));
        if turn.update.Works? then
          Reply(S(local, written, clock + 1), false, None)
        else
          Reply(S(local, if turn.update.tookEffect then written else server, clock + 1), true, Some(BadUpdate))
      else if server.None? || turn.update.Fails? then
        Reply(S(local, server, clock), true, Some(BadUpdate))
      else
        var (server', clock') := Apply(server, clock, turn.between);
        if turn.getFails then
          Reply(S(local, server', clock'), true, Some(BadReread))
        else if server'.None? then
          Reply(S(local, server', clock'), false, None)
        else
          Reply(S(server'.value, server', clock'), true, Some(Conflict))
  }

  function StopOp(stopTime: string, script: nat -> Turn): (S, nat) -> Reply<S, Error> {
    (s: S, k: nat) => Attempt(stopTime, script(k), s)
  }

  /** The attempt ended in an error other than a conflict whose re-read succeeded. Its stamped copy is
      what the next attempt looks at. */
  predicate Broken(r: Reply<S, Error>) {
    r.err == Some(BadUpdate) || r.err == Some(BadReread)
  }

  /** At the start the copy is as the list gave it. */
  predicate Listed(s: S) {
    && s.local.version <= s.clock
    && (s.server.Some? ==> s.server.value.version <= s.clock)
    && (Accepts(s.server, s.local) ==> s.server.value.annotations == s.local.annotations)
    && (AlreadyStopped(s.local) ==> s.server == Some(s.local))
  }

  method StopNotebook(config: BackoffConfig, s0: S, stopTime: string, script: nat -> Turn, cancelled: nat -> bool)
    returns (s: S, outcome: Outcome<Error>, calls: nat)
    requires config.factor >= 1
    ensures Retried(s0, StopOp(stopTime, script), cancelled, config.attempts, calls, s, outcome)
  {
    var waits;
    s, outcome, calls, waits := WithExponentialBackoff(config, s0, StopOp(stopTime, script), cancelled);
  }

  // ---------------------------------------------------------------- other writers' versions

  lemma {:induction false} ApplyVersions(server: Option<Object>, clock: nat, edits: seq<Edit>)
    requires server.Some? ==> server.value.version <= clock
    ensures var (server', clock') := Apply(server, clock, edits);
            && clock <= clock'
            && (server'.Some? ==> server'.value.version <= clock' && (server'.value.version > clock || server' == server))
    decreases |edits|
  {
    if edits != [] {
      var next := match edits[0]
        case SetAnnotations(m) => if server.Some? then Some(Object(clock + 1, m)) else None
        case Remove => None
        case Recreate(m) => Some(Object(clock + 1, m));
      ApplyVersions(next, clock + 1, edits[1..]);
    }
  }

  /** A conflict is followed by a fresh copy, so the loop starts over as if from a list. */
  lemma AttemptRelists(stopTime: string, turn: Turn, s: S)
    requires Listed(s)
    ensures Attempt(stopTime, turn, s).err == Some(Conflict) ==> Listed(Attempt(stopTime, turn, s).state)
  {
    var (server, clock) := Apply(s.server, s.clock, turn.before);
    ApplyVersions(s.server, s.clock, turn.before);
    ApplyVersions(server, clock, turn.between);
  }

  /** Without an error the object is stopped or gone, at that moment. */
  lemma CleanReplyIsTrue(stopTime: string, turn: Turn, s: S)
    requires Listed(s) && stopTime != ""
    ensures Attempt(stopTime, turn, s).err.None? ==> StoppedOrGone(Attempt(stopTime, turn, s).state.server)
  {
  }

  /** After a broken attempt the next one reports success without asking the server at all. */
  lemma BrokenThenSilent(stopTime: string, turn: Turn, s: S, next: Turn)
    requires stopTime != "" && Broken(Attempt(stopTime, turn, s))
    ensures var after := Attempt(stopTime, turn, s).state;
            Attempt(stopTime, next, after) == Reply(after, false, None)
  {
  }

  lemma {:induction false} ListedWhileClean(s0: S, stopTime: string, script: nat -> Turn, k: nat)
    requires k >= 1 && Listed(s0)
    requires forall i :: 1 <= i < k ==>
               !Final(ReplyAt(s0, StopOp(stopTime, script), i)) && !Broken(ReplyAt(s0, StopOp(stopTime, script), i))
    ensures Listed(Before(s0, StopOp(stopTime, script), k))
  {
    if k > 1 {
      ListedWhileClean(s0, stopTime, script, k - 1);
      var before := Before(s0, StopOp(stopTime, script), k - 1);
      AttemptRelists(stopTime, script(k - 1), before);
      assert ReplyAt(s0, StopOp(stopTime, script), k - 1) == Attempt(stopTime, script(k - 1), before);
    }
  }

  /** The object is there and carries no stop. */
  predicate Runs(server: Option<Object>) {
    server.Some? && !AlreadyStopped(server.value)
  }

  /** The faults of one attempt, and what other writers do beside it, that end it in an error with a
      stamped copy in hand and the object still running: the update was due and failed without effect,
      or it met a running object of another version and failed otherwise than by a conflict, or it met
      a conflict, the re-read failed, and what is there by then runs. */
  predicate LeavesRunning(turn: Turn, s: S) {
    var (server, clock) := Apply(s.server, s.clock, turn.before);
    && !AlreadyStopped(s.local)
    && (if Accepts(server, s.local) then turn.update == Fails(false)
        else if turn.update.Fails? then Runs(server)
        else server.Some? && turn.getFails && Runs(Apply(server, clock, turn.between).0))
  }

  /** A copy as listed that the server would still accept has the server's annotations. */
  lemma AcceptedCopyIsCurrent(turn: Turn, s: S)
    requires Listed(s)
    ensures var server := Apply(s.server, s.clock, turn.before).0;
            Accepts(server, s.local) ==> server.value.annotations == s.local.annotations
  {
    ApplyVersions(s.server, s.clock, turn.before);
  }

  /** These faults, and no others, break an attempt and leave the object running. */
  lemma LeavesRunningExactly(stopTime: string, turn: Turn, s: S)
    requires Listed(s) && stopTime != ""
    ensures LeavesRunning(turn, s) <==>
              Broken(Attempt(stopTime, turn, s)) && !StoppedOrGone(Attempt(stopTime, turn, s).state.server)
  {
    AcceptedCopyIsCurrent(turn, s);
  }

  /** Main result: for every fault script, success is reported with the object still running exactly
      when there was an attempt before the last and its faults left the object running. */
  lemma SuccessIsFalseExactlyWhenBroken(s0: S, stopTime: string, script: nat -> Turn, cancelled: nat -> bool,
                                        attempts: int, calls: nat, s: S, outcome: Outcome<Error>)
    requires Listed(s0) && stopTime != "" && attempts >= 1
    requires Retried(s0, StopOp(stopTime, script), cancelled, attempts, calls, s, outcome)
    ensures outcome == Returned(None) && !StoppedOrGone(s.server)
       <==> calls >= 2 && LeavesRunning(script(calls - 1), Before(s0, StopOp(stopTime, script), calls - 1))
  {
    var op := StopOp(stopTime, script);
    forall k | 1 <= k < calls - 1
      ensures !Broken(ReplyAt(s0, op, k))
    {
      OnlyTheLastButOneBreaks(s0, stopTime, script, k, calls);
    }
    if calls >= 2 {
      ListedWhileClean(s0, stopTime, script, calls - 1);
      LeavesRunningExactly(stopTime, script(calls - 1), Before(s0, op, calls - 1));
    }
    if calls >= 2 && Broken(ReplyAt(s0, op, calls - 1)) {
      BrokenThenSilent(stopTime, script(calls - 1), Before(s0, op, calls - 1), script(calls));
    } else {
      ListedWhileClean(s0, stopTime, script, calls);
      CleanReplyIsTrue(stopTime, script(calls), Before(s0, op, calls));
    }
  }

  /** The attempt after a broken one is the last. */
  lemma OnlyTheLastButOneBreaks(s0: S, stopTime: string, script: nat -> Turn, k: nat, calls: nat)
    requires 1 <= k < calls - 1 && stopTime != ""
    requires forall i :: 1 <= i < calls ==> !Final(ReplyAt(s0, StopOp(stopTime, script), i))
    ensures !Broken(ReplyAt(s0, StopOp(stopTime, script), k))
  {
    var op := StopOp(stopTime, script);
    assert Before(s0, op, k + 1) == ReplyAt(s0, op, k).state;
    assert !Final(ReplyAt(s0, op, k + 1));
    if Broken(ReplyAt(s0, op, k)) {
      BrokenThenSilent(stopTime, script(k), Before(s0, op, k), script(k + 1));
    }
  }

  /** If update failures are only conflicts with a successful re-read, success means what it says. */
  lemma SuccessIsTrueWithoutBrokenAttempts(s0: S, stopTime: string, script: nat -> Turn, cancelled: nat -> bool,
                                           attempts: int, calls: nat, s: S, outcome: Outcome<Error>)
    requires Listed(s0) && stopTime != "" && attempts >= 1
    requires Retried(s0, StopOp(stopTime, script), cancelled, attempts, calls, s, outcome)
    requires forall k :: 1 <= k < calls ==> !Broken(ReplyAt(s0, StopOp(stopTime, script), k))
    ensures outcome == Returned(None) ==> StoppedOrGone(s.server)
  {
    SuccessIsFalseExactlyWhenBroken(s0, stopTime, script, cancelled, attempts, calls, s, outcome);
    if calls >= 2 {
      ListedWhileClean(s0, stopTime, script, calls - 1);
      var before := Before(s0, StopOp(stopTime, script), calls - 1);
      LeavesRunningExactly(stopTime, script(calls - 1), before);
      assert ReplyAt(s0, StopOp(stopTime, script), calls - 1) == Attempt(stopTime, script(calls - 1), before);
    }
  }

  /** The server after an attempt, next to what other writers had made of it just before our update. */
  function SeenByUpdate(turn: Turn, s: S): Option<Object> {
    Apply(s.server, s.clock, turn.before).0
  }

  /** No annotation of another writer is lost: whenever an update takes effect, the object keeps all
      it had and gains the stop annotation. */
  lemma UpdateOnlyAddsStop(s0: S, stopTime: string, script: nat -> Turn, k: nat)
    requires k >= 1 && Listed(s0)
    requires forall i :: 1 <= i < k ==>
               !Final(ReplyAt(s0, StopOp(stopTime, script), i)) && !Broken(ReplyAt(s0, StopOp(stopTime, script), i))
    ensures var before := Before(s0, StopOp(stopTime, script), k);
            var seen := SeenByUpdate(script(k), before);
            var r := ReplyAt(s0, StopOp(stopTime, script), k);
            !AlreadyStopped(before.local) && Accepts(seen, before.local)
            && (script(k).update.Works? || script(k).update.tookEffect) ==>
              r.state.server.Some? && r.state.server.value.annotations == seen.value.annotations[STOP_ANNOTATION := stopTime]
  {
    ListedWhileClean(s0, stopTime, script, k);
    var before := Before(s0, StopOp(stopTime, script), k);
    ApplyVersions(before.server, before.clock, script(k).before);
  }

  /** A concrete false success: the update fails once and never took effect. */
  lemma FalseSuccess()
    ensures var running := Object(1, map[]);
            var s0 := S(running, Some(running), 1);
            var script := (k: nat) => Turn([], Fails(false), [], false);
            var s := S(Stamp(running, "now"), Some(running), 2);
            && Listed(s0)
            && Retried(s0, StopOp("now", script), (k: nat) => false, 5, 2, s, Returned(None))
            && !StoppedOrGone(s.server)
  {
    var running := Object(1, map[]);
    var s0 := S(running, Some(running), 1);
    var script := (k: nat) => Turn([], Fails(false), [], false);
    var s := S(Stamp(running, "now"), Some(running), 2);
    var op := StopOp("now", script);
    assert Attempt("now", script(1), s0) == Reply(s, true, Some(BadUpdate));
    assert Before(s0, op, 1) == s0 && op(s0, 1) == Attempt("now", script(1), s0);
    assert Before(s0, op, 2) == s && op(s, 2) == Attempt("now", script(2), s);
  }

  // ---------------------------------------------------------------- when it ends, and how

  /** An attempt reports no error exactly if the copy is stopped already, its update goes through, or
      the object turns out to be gone after a conflict; every other attempt asks for another. */
  lemma NoErrorExactly(stopTime: string, turn: Turn, s: S)
    ensures Attempt(stopTime, turn, s).err.None? <==> (AlreadyStopped(s.local) || GoesThrough(turn, s))
    ensures Attempt(stopTime, turn, s).go <==> Attempt(stopTime, turn, s).err.Some?
  {
    var local := Stamp(s.local, stopTime);
    var (server, clock) := Apply(s.server, s.clock, turn.before);
    assert Accepts(server, local) <==> Accepts(server, s.local);
  }

  predicate GoesThrough(turn: Turn, s: S) {
    var (server, clock) := Apply(s.server, s.clock, turn.before);
    && turn.update.Works?
    && server.Some?
    && (Accepts(server, s.local) || (!turn.getFails && Apply(server, clock, turn.between).0.None?))
  }

  /** An error ends the loop only when its attempts or its time run out. */
  lemma ErrorsAreTriedAgain(s0: S, stopTime: string, script: nat -> Turn, cancelled: nat -> bool,
                            attempts: int, calls: nat, s: S, outcome: Outcome<Error>)
    requires attempts >= 1
    requires Retried(s0, StopOp(stopTime, script), cancelled, attempts, calls, s, outcome)
    ensures outcome != Returned(None) ==> calls == attempts || cancelled(calls)
  {
    var before := Before(s0, StopOp(stopTime, script), calls);
    assert ReplyAt(s0, StopOp(stopTime, script), calls) == Attempt(stopTime, script(calls), before);
    NoErrorExactly(stopTime, script(calls), before);
  }

  /** A stop that nobody disturbs takes one call, and the object has what it had and the stop. An empty
      annotation is no stop. */
  lemma UndisturbedStop(s0: S, stopTime: string, script: nat -> Turn, cancelled: nat -> bool,
                        attempts: int, calls: nat, s: S, outcome: Outcome<Error>)
    requires attempts >= 1
    requires Retried(s0, StopOp(stopTime, script), cancelled, attempts, calls, s, outcome)
    requires s0.server == Some(s0.local) && script(1).before == [] && script(1).update == Works
    requires "kubeflow-resource-stopped" in s0.local.annotations ==> s0.local.annotations["kubeflow-resource-stopped"] == ""
    ensures calls == 1 && outcome == Returned(None) && s.server.Some?
    ensures s.server.value.annotations == s0.local.annotations["kubeflow-resource-stopped" := stopTime]
  {
    assert ReplyAt(s0, StopOp(stopTime, script), 1) == Attempt(stopTime, script(1), s0);
    assert Final(ReplyAt(s0, StopOp(stopTime, script), 1));
  }

  /** A notebook listed as stopped is left alone. */
  lemma StoppedIsLeftAlone(s0: S, stopTime: string, script: nat -> Turn, cancelled: nat -> bool,
                           attempts: int, calls: nat, s: S, outcome: Outcome<Error>)
    requires attempts >= 1
    requires Retried(s0, StopOp(stopTime, script), cancelled, attempts, calls, s, outcome)
    requires "kubeflow-resource-stopped" in s0.local.annotations && s0.local.annotations["kubeflow-resource-stopped"] != ""
    ensures calls == 1 && s == s0 && outcome == Returned(None)
  {
    assert ReplyAt(s0, StopOp(stopTime, script), 1) == Attempt(stopTime, script(1), s0);
    assert Final(ReplyAt(s0, StopOp(stopTime, script), 1));
  }
}
