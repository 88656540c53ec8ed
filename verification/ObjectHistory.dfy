/** Optimistic concurrency in the cluster: an update goes through only on the object that was read, so
    what somebody else wrote in between is never overwritten. This holds in any surroundings. */
module ObjectHistory {
  import opened Notebooks
  import opened Protocol
  import opened RowInvariant

  /** Every object older than a moment was there at that moment, and is what it was. */
  ghost predicate OnlyNewer(s: State, s': State) {
    && s.clock <= s'.clock
    && (VersionsOk(s) ==> VersionsOk(s'))
    && (forall key :: key in s'.objects && s'.objects[key].version < s.clock ==>
          key in s.objects && s'.objects[key] == s.objects[key])
  }

  ghost predicate VersionsOk(s: State) {
    forall key :: key in s.objects ==> s.objects[key].version < s.clock
  }

  lemma CreateWrites(limits: Limits, s: State, a: Action, s': State)
    requires CreateStep(limits, s, a, s')
    ensures OnlyNewer(s, s')
  {
  }

  lemma StartWrites(limits: Limits, s: State, a: Action, s': State)
    requires StartStep(limits, s, a, s')
    ensures OnlyNewer(s, s')
  {
  }

  lemma FreeWrites(s: State, a: Action, s': State)
    requires FreeStep(s, a, s')
    ensures OnlyNewer(s, s')
  {
  }

  lemma WorkerWrites(s: State, a: Action, s': State)
    requires WorkerStep(s, a, s')
    ensures OnlyNewer(s, s')
  {
  }

  /** Every write gets a version never used before. */
  lemma StepWrites(limits: Limits, s: State, a: Action, s': State)
    requires Step(limits, s, a, s')
    ensures OnlyNewer(s, s')
  {
    if CreateStep(limits, s, a, s') {
      CreateWrites(limits, s, a, s');
    } else if StartStep(limits, s, a, s') {
      StartWrites(limits, s, a, s');
    } else if FreeStep(s, a, s') {
      FreeWrites(s, a, s');
    } else if WorkerStep(s, a, s') {
      WorkerWrites(s, a, s');
    }
  }

  lemma InitVersions(s: State)
    requires Init(s)
    ensures VersionsOk(s)
  {
  }

  lemma {:induction false} VersionsAreOld(states: seq<State>, i: nat)
    requires forall k :: 0 <= k < |states| - 1 ==> OnlyNewer(states[k], states[k + 1])
    requires i < |states| && VersionsOk(states[0])
    ensures VersionsOk(states[i])
  {
    if i > 0 {
      VersionsAreOld(states, i - 1);
      assert OnlyNewer(states[i - 1], states[i - 1 + 1]);
    }
  }

  lemma RunWrites(run: Run, limits: Limits)
    requires IsRawRun(run, limits)
    ensures forall k :: 0 <= k < |run.states| - 1 ==> OnlyNewer(run.states[k], run.states[k + 1])
  {
    forall k | 0 <= k < |run.states| - 1
      ensures OnlyNewer(run.states[k], run.states[k + 1])
    {
      RawStep(run, limits, k);
      StepWrites(limits, run.states[k], run.actions[k], run.states[k + 1]);
    }
  }

  lemma {:induction false} OldObjectsStay(states: seq<State>, i: nat, m: nat)
    requires forall k :: 0 <= k < |states| - 1 ==> OnlyNewer(states[k], states[k + 1])
    requires i <= m < |states|
    ensures OnlyNewer(states[i], states[m])
    decreases m - i
  {
    if i < m {
      OldObjectsStay(states, i, m - 1);
      assert OnlyNewer(states[m - 1], states[m - 1 + 1]);
      NewerTrans(states[i], states[m - 1], states[m]);
    }
  }

  lemma NewerTrans(s1: State, s2: State, s3: State)
    requires OnlyNewer(s1, s2) && OnlyNewer(s2, s3)
    ensures OnlyNewer(s1, s3)
  {
  }

  /** The Get of a start or a stop at i saw the object of a key. */
  predicate FetchedAt(run: Run, i: nat, r: nat, key: Key, version: nat)
    requires |run.states| == |run.actions| + 1
  {
    && i < |run.actions|
    && (run.actions[i] == AStartFetch(r) || run.actions[i] == AStopFetch(r))
    && r in run.states[i + 1].requests
    && match run.states[i + 1].requests[r]
       case StartFetched(k, _, v) => k == key && v == version
       case StopFetched(k, v) => k == key && v == version
       case _ => false
  }

  lemma FetchSees(run: Run, limits: Limits, i: nat, r: nat, key: Key, version: nat)
    requires IsRawRun(run, limits) && FetchedAt(run, i, r, key, version)
    ensures key in run.states[i].objects && run.states[i].objects[key].version == version
    ensures run.actions[i].AStartFetch? ==> run.states[i].objects[key].stopped
  {
    RawStep(run, limits, i);
    var s, s' := run.states[i], run.states[i + 1];
    if run.actions[i].AStartFetch? {
      assert StartFetch(s, s', r);
    } else {
      assert StopFetch(s, s', r);
    }
  }

  lemma UpdateNeedsVersion(run: Run, limits: Limits, m: nat, r: nat)
    requires IsRawRun(run, limits) && m < |run.actions|
    requires run.actions[m] == AStartUpdate(r) || run.actions[m] == AStopUpdate(r)
    ensures r in run.states[m].requests
    ensures var s, q := run.states[m], run.states[m].requests[r];
            && (q.StartFetched? || q.StopFetched?)
            && q.key in s.objects && s.objects[q.key].version == q.version
            && run.states[m + 1].objects == s.objects[q.key := Obj(q.StopFetched?, s.clock)]
  {
    RawStep(run, limits, m);
    var s, s' := run.states[m], run.states[m + 1];
    if run.actions[m].AStartUpdate? {
      assert StartUpdate(s, s', r);
    } else {
      assert StopUpdate(s, s', r);
    }
  }

  /** Main result: when the update of a start or stop goes through, the object is still the one its Get
      saw. A stop, a start, a delete or a new object that came in between makes the update fail; so a
      start never takes away a stop it has not seen. */
  lemma NoLostUpdate(run: Run, limits: Limits, i: nat, m: nat, r: nat, key: Key, version: nat)
    requires IsRawRun(run, limits) && i < m < |run.actions|
    requires FetchedAt(run, i, r, key, version)
    requires run.actions[m] == AStartUpdate(r) || run.actions[m] == AStopUpdate(r)
    requires r in run.states[m].requests && run.states[i + 1].requests[r] == run.states[m].requests[r]
    ensures key in run.states[i].objects && key in run.states[m].objects
    ensures run.states[m].objects[key] == run.states[i].objects[key]
    ensures run.states[m + 1].objects == run.states[m].objects[key := Obj(run.actions[m].AStopUpdate?, run.states[m].clock)]
  {
    FetchSees(run, limits, i, r, key, version);
    UpdateNeedsVersion(run, limits, m, r);
    UpdateKind(run, limits, m, r);
    InitVersions(run.states[0]);
    RunWrites(run, limits);
    VersionsAreOld(run.states, i);
    OldObjectsStay(run.states, i, m);
  }

  lemma UpdateKind(run: Run, limits: Limits, m: nat, r: nat)
    requires IsRawRun(run, limits) && m < |run.actions|
    requires run.actions[m] == AStartUpdate(r) || run.actions[m] == AStopUpdate(r)
    ensures r in run.states[m].requests
    ensures run.states[m].requests[r].StopFetched? <==> run.actions[m].AStopUpdate?
  {
    RawStep(run, limits, m);
    if run.actions[m].AStartUpdate? {
      assert StartUpdate(run.states[m], run.states[m + 1], r);
    } else {
      assert StopUpdate(run.states[m], run.states[m + 1], r);
    }
  }
}
