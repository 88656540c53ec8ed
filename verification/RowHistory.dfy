/** What the event list of a row can tell, over whole runs of the code in any surroundings: it only
    grows, its last event is final, and each row is claimed at most once. */
module RowHistory {
  import opened Notebooks
  import opened Protocol
  import opened ProtocolInvariant
  import opened Quota
  import opened RowInvariant

  /** The row under a key in a later state is the row of an earlier state, further on. */
  predicate SameRowLater(before: map<Key, Row>, after: map<Key, Row>, key: Key) {
    && key in before && key in after
    && after[key].id == before[key].id
    && after[key].kind == before[key].kind
    && before[key].events <= after[key].events
    && (Settled(before, key) ==> after[key].events == before[key].events)
  }

  lemma DeleteKeepsOthers(s: State, s': State, r: nat, key: Key)
    requires DeleteRow(s, s', r) && key in s'.rows
    ensures key in s.rows && s'.rows[key] == s.rows[key]
  {
  }

  lemma CommitKeepsOld(s: State, s': State, r: nat, key: Key)
    requires CommitCreate(s, s', r) && key in s'.rows && s'.rows[key].id < s.nextId
    ensures key in s.rows && s'.rows[key] == s.rows[key]
  {
  }

  /** What the step relation says for each of the four actions that write rows. */
  lemma RowActions(limits: Limits, s: State, a: Action, s': State)
    requires Step(limits, s, a, s')
    ensures a.ACommitClaim? ==> CommitClaim(s, s', a.w, a.acked)
    ensures a.AWriteStatus? ==> WriteStatus(s, s', a.w, a.took, a.acked)
    ensures a.ADeleteRow? ==> DeleteRow(s, s', a.r)
    ensures a.ACommitCreate? ==> CommitCreate(s, s', a.r)
  {
  }

  lemma ClaimAppends(s: State, s': State, w: nat, acked: bool, key: Key)
    requires RowInv(s)
    requires CommitClaim(s, s', w, acked) && key in s'.rows
    ensures SameRowLater(s.rows, s'.rows, key)
  {
    ClaimedRow(s, s', w, acked);
  }

  lemma StatusAppends(s: State, s': State, w: nat, took: bool, acked: bool, key: Key)
    requires RowInv(s)
    requires WriteStatus(s, s', w, took, acked) && key in s'.rows
    ensures SameRowLater(s.rows, s'.rows, key)
  {
    StatusMoves(s, s', w, took, acked);
    StatusRow(s, s', w, took, acked);
  }

  lemma StepAppends(limits: Limits, s: State, a: Action, s': State, key: Key)
    requires RowInv(s)
    requires Step(limits, s, a, s')
    requires key in s'.rows && s'.rows[key].id < s.nextId
    ensures SameRowLater(s.rows, s'.rows, key)
  {
    RowActions(limits, s, a, s');
    if a.ACommitClaim? {
      ClaimAppends(s, s', a.w, a.acked, key);
    } else if a.AWriteStatus? {
      StatusAppends(s, s', a.w, a.took, a.acked, key);
    } else if a.ADeleteRow? {
      DeleteKeepsOthers(s, s', a.r, key);
    } else if a.ACommitCreate? {
      CommitKeepsOld(s, s', a.r, key);
    } else {
      StepFrame(limits, s, a, s');
    }
  }

  /** From one state to the next ids are handed out upwards and old rows only move on. */
  ghost predicate Linked(s: State, s': State) {
    && s.nextId <= s'.nextId
    && (forall key :: key in s'.rows && s'.rows[key].id < s.nextId ==> SameRowLater(s.rows, s'.rows, key))
  }

  lemma StepLinks(limits: Limits, s: State, a: Action, s': State)
    requires RowInv(s)
    requires Step(limits, s, a, s')
    ensures Linked(s, s')
  {
    StepFrame(limits, s, a, s');
    forall key | key in s'.rows && s'.rows[key].id < s.nextId
      ensures SameRowLater(s.rows, s'.rows, key)
    {
      StepAppends(limits, s, a, s', key);
    }
  }

  lemma RunLinks(run: Run, limits: Limits)
    requires IsRawRun(run, limits)
    ensures forall k :: 0 <= k < |run.states| - 1 ==> Linked(run.states[k], run.states[k + 1])
  {
    forall k | 0 <= k < |run.states| - 1
      ensures Linked(run.states[k], run.states[k + 1])
    {
      ReachableRows(run, limits, k);
      StepLinks(limits, run.states[k], run.actions[k], run.states[k + 1]);
    }
  }

  lemma {:induction false} LinkedRowsGrow(states: seq<State>, i: nat, j: nat, key: Key)
    requires forall k :: 0 <= k < |states| - 1 ==> Linked(states[k], states[k + 1])
    requires i <= j < |states|
    ensures states[i].nextId <= states[j].nextId
    ensures key in states[j].rows && states[j].rows[key].id < states[i].nextId ==>
              SameRowLater(states[i].rows, states[j].rows, key)
    decreases j - i
  {
    if i < j {
      LinkedRowsGrow(states, i, j - 1, key);
      assert Linked(states[j - 1], states[j - 1 + 1]);
    }
  }

  /** A row present at j whose id was already given out at i was present at i, and has only moved on:
      events are appended, never changed, and none after `notebook-applied` or a failure. */
  lemma EventsOnlyGrow(run: Run, limits: Limits, i: nat, j: nat, key: Key)
    requires IsRawRun(run, limits)
    requires i <= j < |run.states|
    requires key in run.states[j].rows && run.states[j].rows[key].id < run.states[i].nextId
    ensures SameRowLater(run.states[i].rows, run.states[j].rows, key)
  {
    RunLinks(run, limits);
    LinkedRowsGrow(run.states, i, j, key);
  }

  /** Every reachable event list is in the language and tells the truth: a success it names was
      acknowledged, a failure it names was not, and where it ends in `notebook-applied` both creates
      were acknowledged and the cleanup never ran for the row. */
  lemma EventsInLanguage(run: Run, limits: Limits, i: nat, key: Key)
    requires IsRawRun(run, limits)
    requires i < |run.states| && key in run.states[i].rows
    ensures var s := run.states[i];
            var row := s.rows[key];
            && InLanguage(row.events)
            && (row.picked <==> Picked in row.events)
            && (PvcApplied in row.events ==> row.id in s.history.pvcOk)
            && (PvcApplyFailed in row.events ==> row.id !in s.history.pvcOk)
            && (NotebookApplied in row.events ==> row.id in s.history.notebookOk)
            && (NotebookApplyFailed in row.events ==> row.id !in s.history.notebookOk)
            && (NotebookApplied in row.events ==> row.id in s.history.pvcOk && row.id !in s.history.cleaned)
  {
    ReachableRows(run, limits, i);
    var s := run.states[i];
    assert RowOk(s.rows[key], s.nextId);
    assert RowHistoryOk(s.history, s.rows[key]) && RowAcks(s.history, s.rows[key]);
  }

  /** Two workers never hold the same row. They may share a name, but only where names are reused too
      early. */
  lemma WorkersApart(run: Run, limits: Limits, i: nat, w1: nat, w2: nat)
    requires IsRawRun(run, limits)
    requires i < |run.states| && w1 in run.states[i].jobs && w2 in run.states[i].jobs && w1 != w2
    ensures run.states[i].jobs[w1].id != run.states[i].jobs[w2].id
    ensures IsRun(run, limits, false) ==> run.states[i].jobs[w1].key != run.states[i].jobs[w2].key
  {
    ReachableRows(run, limits, i);
    if IsRun(run, limits, false) {
      ReachableInv(run, limits, run.states[i].jobs[w1].key.user, false, i);
    }
  }

  /** The row an action claims, with the state it is claimed in. */
  ghost predicate ClaimsAt(run: Run, i: nat, id: nat)
    requires |run.states| == |run.actions| + 1
  {
    && i < |run.actions|
    && run.actions[i].ACommitClaim?
    && run.actions[i].w in run.states[i].jobs
    && run.states[i].jobs[run.actions[i].w].id == id
  }

  lemma ClaimTurnsPicked(run: Run, limits: Limits, i: nat, id: nat)
    requires IsRawRun(run, limits)
    requires ClaimsAt(run, i, id)
    ensures var key := run.states[i].jobs[run.actions[i].w].key;
            && key in run.states[i].rows && run.states[i].rows[key].id == id
            && run.states[i].rows[key].events == [Scheduled]
            && key in run.states[i + 1].rows && run.states[i + 1].rows[key].id == id
            && run.states[i + 1].rows[key].events == [Scheduled, Picked]
            && id < run.states[i + 1].nextId
  {
    ReachableRows(run, limits, i);
    var s, a := run.states[i], run.actions[i];
    assert Step(limits, s, a, run.states[i + 1]);
    RowActions(limits, s, a, run.states[i + 1]);
    ClaimedRow(s, run.states[i + 1], a.w, a.acked);
  }

  /** Whatever the replies, retries and surroundings, no row is claimed twice in a run. */
  lemma ClaimedAtMostOnce(run: Run, limits: Limits, i: nat, j: nat, id: nat)
    requires IsRawRun(run, limits)
    requires ClaimsAt(run, i, id) && ClaimsAt(run, j, id)
    ensures i == j
  {
    if i < j {
      ClaimTurnsPicked(run, limits, j, id);
      StaysPicked(run, limits, i, j, id, run.states[j].jobs[run.actions[j].w].key);
    } else if j < i {
      ClaimTurnsPicked(run, limits, i, id);
      StaysPicked(run, limits, j, i, id, run.states[i].jobs[run.actions[i].w].key);
    }
  }

  lemma StaysPicked(run: Run, limits: Limits, i: nat, j: nat, id: nat, key: Key)
    requires IsRawRun(run, limits)
    requires ClaimsAt(run, i, id) && i < j < |run.states|
    requires key in run.states[j].rows && run.states[j].rows[key].id == id
    ensures |run.states[j].rows[key].events| >= 2 && run.states[j].rows[key].picked
  {
    ClaimTurnsPicked(run, limits, i, id);
    EventsOnlyGrow(run, limits, i + 1, j, key);
    ClaimedKeyIsUnique(run, limits, i, id, key);
    ReachableRows(run, limits, j);
    assert RowOk(run.states[j].rows[key], run.states[j].nextId);
  }

  lemma ClaimedKeyIsUnique(run: Run, limits: Limits, i: nat, id: nat, key: Key)
    requires IsRawRun(run, limits)
    requires ClaimsAt(run, i, id)
    requires key in run.states[i + 1].rows && run.states[i + 1].rows[key].id == id
    ensures run.states[i + 1].rows[key].events == [Scheduled, Picked]
  {
    ClaimTurnsPicked(run, limits, i, id);
    ReachableRows(run, limits, i + 1);
  }

  lemma CreatesKeepJobs(limits: Limits, s: State, a: Action, s': State)
    requires CreateStep(limits, s, a, s')
    ensures s'.jobs == s.jobs
  {
  }

  lemma StartsKeepJobs(limits: Limits, s: State, a: Action, s': State)
    requires StartStep(limits, s, a, s')
    ensures s'.jobs == s.jobs
  {
  }

  lemma FreeStepsKeepJobs(s: State, a: Action, s': State)
    requires FreeStep(s, a, s')
    ensures s'.jobs == s.jobs
  {
  }

  lemma OthersKeepJobs(limits: Limits, s: State, a: Action, s': State)
    requires Step(limits, s, a, s') && !WorkerStep(s, a, s')
    ensures s'.jobs == s.jobs
  {
    if CreateStep(limits, s, a, s') {
      CreatesKeepJobs(limits, s, a, s');
    } else if StartStep(limits, s, a, s') {
      StartsKeepJobs(limits, s, a, s');
    } else if FreeStep(s, a, s') {
      FreeStepsKeepJobs(s, a, s');
    }
  }

  /** A worker gets past the claim only by an acknowledged commit of its own, and keeps its row. */
  lemma PastTheClaim(limits: Limits, s: State, a: Action, s': State, w: nat)
    requires Step(limits, s, a, s')
    requires w in s'.jobs && !s'.jobs[w].pc.Selecting?
    ensures w in s.jobs && s.jobs[w].id == s'.jobs[w].id
    ensures s.jobs[w].pc.Selecting? ==> a == ACommitClaim(w, true)
  {
    if !WorkerStep(s, a, s') {
      OthersKeepJobs(limits, s, a, s');
    }
  }

  /** A worker at work on a row has claimed it, whatever the surroundings: at some earlier point of the
      run the claim of this worker committed and was acknowledged. */
  lemma {:induction false} WorkersHaveClaimed(run: Run, limits: Limits, i: nat, w: nat) returns (k: nat)
    requires IsRawRun(run, limits)
    requires i < |run.states| && w in run.states[i].jobs && !run.states[i].jobs[w].pc.Selecting?
    ensures k < i && ClaimsAt(run, k, run.states[i].jobs[w].id)
    ensures run.actions[k] == ACommitClaim(w, true)
  {
    if i == 0 {
      assert false;
    } else {
      var before := run.states[i - 1];
      assert Step(limits, before, run.actions[i - 1], run.states[i - 1 + 1]);
      PastTheClaim(limits, before, run.actions[i - 1], run.states[i], w);
      if before.jobs[w].pc.Selecting? {
        k := i - 1;
      } else {
        k := WorkersHaveClaimed(run, limits, i - 1, w);
      }
    }
  }
}
