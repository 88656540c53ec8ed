/** What every step of the protocol keeps about locks, rows, workers and gates. */
module ProtocolInvariant {
  import opened Notebooks
  import opened Protocol

  /** The event lists a row can ever have. */
  predicate InLanguage(events: seq<Event>) {
    || events == [Scheduled]
    || events == [Scheduled, Picked]
    || events == [Scheduled, Picked, PvcApplyFailed]
    || events == [Scheduled, Picked, PvcApplied]
    || events == [Scheduled, Picked, PvcApplied, NotebookApplyFailed]
    || events == [Scheduled, Picked, PvcApplied, NotebookApplied]
  }

  predicate RowOk(row: Row, nextId: nat) {
    && row.id < nextId
    && InLanguage(row.events)
    && (row.picked <==> |row.events| >= 2)
  }

  ghost predicate RowsOk(rows: map<Key, Row>, nextId: nat) {
    && (forall key :: key in rows ==> RowOk(rows[key], nextId))
    && (forall k1, k2 :: k1 in rows && k2 in rows && rows[k1].id == rows[k2].id ==> k1 == k2)
  }

  ghost predicate LocksOk(locks: map<string, nat>, requests: map<nat, Request>) {
    forall r :: r in requests && requests[r].Locked() ==>
      requests[r].key.user in locks && locks[requests[r].key.user] == r
  }

  predicate BeforePvcStatus(pc: Pc) { pc.CreatingPvc? || pc.PvcMade? || pc.PvcRefused? }

  predicate BeforeNotebookStatus(pc: Pc) { pc.CreatingNotebook? || pc.NotebookMade? || pc.NotebookRefused? }

  predicate Cleaning(pc: Pc) { pc.CleaningNotebook? || pc.CleaningPvc? }

  /** What the row of a job looks like while the worker is at a given place. */
  predicate JobOk(rows: map<Key, Row>, nextId: nat, j: Job) {
    && j.id < nextId
    && (j.key in rows ==> rows[j.key].id == j.id)
    && (j.pc.Selecting? ==> j.key in rows && rows[j.key].events == [Scheduled])
    && (BeforePvcStatus(j.pc) ==> j.key in rows && rows[j.key].events == [Scheduled, Picked])
    && (BeforeNotebookStatus(j.pc) ==> j.key in rows && rows[j.key].events == [Scheduled, Picked, PvcApplied])
    && (Cleaning(j.pc) && j.key in rows ==> rows[j.key].picked && !Applied(rows[j.key]))
  }

  /** No two workers hold the same row, by name or by id. */
  ghost predicate Apart(jobs: map<nat, Job>) {
    && (forall w1, w2 :: w1 in jobs && w2 in jobs && jobs[w1].key == jobs[w2].key ==> w1 == w2)
    && (forall w1, w2 :: w1 in jobs && w2 in jobs && jobs[w1].id == jobs[w2].id ==> w1 == w2)
  }

  /** The row with a job's id is found under the job's key, or nowhere. */
  ghost predicate IdsMatch(rows: map<Key, Row>, jobs: map<nat, Job>) {
    forall w, key :: w in jobs && key in rows && rows[key].id == jobs[w].id ==> key == jobs[w].key
  }

  ghost predicate JobsOk(rows: map<Key, Row>, jobs: map<nat, Job>, nextId: nat) {
    && (forall w :: w in jobs ==> JobOk(rows, nextId, jobs[w]))
    && Apart(jobs)
    && IdsMatch(rows, jobs)
  }

  predicate Starting(q: Request) { q.StartRead? || q.StartAllowed? || q.StartFetched? || q.StartDone? }

  predicate GateOk(rows: map<Key, Row>, q: Request, strict: bool) {
    && (q.Deleting() || Starting(q) || (strict && q.Stopping()) ==> Settled(rows, q.key))
    && ((q.StartRead? || q.StartAllowed? || q.StartFetched?) && q.key in rows ==> rows[q.key].kind == q.kind)
  }

  ghost predicate GatesOk(rows: map<Key, Row>, requests: map<nat, Request>, strict: bool) {
    forall r :: r in requests ==> GateOk(rows, requests[r], strict)
  }

  /** Strict surroundings: an object under a row still on its way is not stopped. */
  ghost predicate ObjectsOk(rows: map<Key, Row>, objects: map<Key, Obj>, strict: bool) {
    strict ==> forall key :: key in objects && !Settled(rows, key) ==> !objects[key].stopped
  }

  predicate JobHistoryOk(h: History, j: Job) {
    && (j.pc.PvcMade? || BeforeNotebookStatus(j.pc) ==> j.id in h.pvcOk)
    && (j.pc.NotebookMade? ==> j.id in h.notebookOk)
    && (!Cleaning(j.pc) ==> j.id !in h.cleaned)
  }

  predicate RowHistoryOk(h: History, row: Row) {
    && (Applied(row) ==> row.id in h.pvcOk && row.id in h.notebookOk)
    && (Applied(row) || !row.picked ==> row.id !in h.cleaned)
  }

  ghost predicate HistoryOk(h: History, rows: map<Key, Row>, jobs: map<nat, Job>, nextId: nat) {
    && (forall w :: w in jobs ==> JobHistoryOk(h, jobs[w]))
    && (forall key :: key in rows ==> RowHistoryOk(h, rows[key]))
    && (forall id :: id in h.cleaned ==> id < nextId)
  }

  ghost predicate Inv(s: State, strict: bool) {
    && RowsOk(s.rows, s.nextId)
    && LocksOk(s.locks, s.requests)
    && JobsOk(s.rows, s.jobs, s.nextId)
    && GatesOk(s.rows, s.requests, strict)
    && ObjectsOk(s.rows, s.objects, strict)
    && HistoryOk(s.history, s.rows, s.jobs, s.nextId)
  }

  // ---------------------------------------------------------------- frames

  /** Rows change in four places, and none of them touches an object; ids only go up. */
  predicate Frame(s: State, a: Action, s': State) {
    && s.nextId <= s'.nextId
    && (s'.rows == s.rows || (s'.objects == s.objects && (a.ACommitCreate? || a.ADeleteRow? || a.ACommitClaim? || a.AWriteStatus?)))
  }

  lemma CreateFrame(limits: Limits, s: State, a: Action, s': State)
    requires CreateStep(limits, s, a, s')
    ensures Frame(s, a, s')
  {
  }

  lemma StartFrame(limits: Limits, s: State, a: Action, s': State)
    requires StartStep(limits, s, a, s')
    ensures Frame(s, a, s')
  {
  }

  lemma FreeFrame(s: State, a: Action, s': State)
    requires FreeStep(s, a, s')
    ensures Frame(s, a, s')
  {
  }

  lemma WorkerFrame(s: State, a: Action, s': State)
    requires WorkerStep(s, a, s')
    ensures Frame(s, a, s')
  {
  }

  lemma StepFrame(limits: Limits, s: State, a: Action, s': State)
    requires Step(limits, s, a, s')
    ensures Frame(s, a, s')
  {
    if CreateStep(limits, s, a, s') {
      CreateFrame(limits, s, a, s');
    } else if StartStep(limits, s, a, s') {
      StartFrame(limits, s, a, s');
    } else if FreeStep(s, a, s') {
      FreeFrame(s, a, s');
    } else if WorkerStep(s, a, s') {
      WorkerFrame(s, a, s');
    }
  }

  // ---------------------------------------------------------------- requests

  lemma TakeLockKeeps(s: State, s': State, r: nat, q: Request, strict: bool)
    requires Inv(s, strict)
    requires TakeLock(s, s', r, q)
    requires q.CreateLocked? || q.StartLocked?
    ensures Inv(s', strict)
  {
  }

  lemma EndKeeps(s: State, s': State, r: nat, strict: bool)
    requires Inv(s, strict)
    requires End(s, s', r)
    ensures Inv(s', strict)
  {
  }

  /** A step that only moves one request on. */
  lemma GotoKeeps(s: State, s': State, r: nat, q: Request, strict: bool)
    requires Inv(s, strict)
    requires Goto(s, s', r, q)
    requires GateOk(s.rows, q, strict)
    requires q.Locked() ==> q.key.user in s.locks && s.locks[q.key.user] == r
    ensures Inv(s', strict)
  {
  }

  /** The middle of the create handler only moves the request. */
  lemma CreateGoto(limits: Limits, s: State, a: Action, s': State)
    requires CreateStep(limits, s, a, s') && !a.ABeginCreate? && !a.ACommitCreate?
    ensures a.r in s.requests && a.r in s'.requests && Goto(s, s', a.r, s'.requests[a.r])
    ensures s.requests[a.r].Locked() && s'.requests[a.r].key == s.requests[a.r].key
    ensures s'.requests[a.r].CreateRead? || s'.requests[a.r].CreateTotalled? || s'.requests[a.r].CreateAllowed?
  {
  }

  lemma CreateStepKeeps(limits: Limits, s: State, a: Action, s': State, strict: bool)
    requires Inv(s, strict)
    requires CreateStep(limits, s, a, s') && !a.ABeginCreate? && !a.ACommitCreate?
    ensures Inv(s', strict)
  {
    CreateGoto(limits, s, a, s');
    GotoKeeps(s, s', a.r, s'.requests[a.r], strict);
  }

  lemma StartGoto(limits: Limits, s: State, a: Action, s': State, strict: bool)
    requires GatesOk(s.rows, s.requests, strict)
    requires StartStep(limits, s, a, s') && !a.ABeginStart? && !a.AStartUpdate?
    ensures a.r in s.requests && a.r in s'.requests && Goto(s, s', a.r, s'.requests[a.r])
    ensures s.requests[a.r].Locked() && s'.requests[a.r].key == s.requests[a.r].key
    ensures GateOk(s.rows, s'.requests[a.r], strict)
  {
    assert GateOk(s.rows, s.requests[a.r], strict);
  }

  lemma StartStepKeeps(limits: Limits, s: State, a: Action, s': State, strict: bool)
    requires Inv(s, strict)
    requires StartStep(limits, s, a, s') && !a.ABeginStart? && !a.AStartUpdate?
    ensures Inv(s', strict)
  {
    StartGoto(limits, s, a, s', strict);
    GotoKeeps(s, s', a.r, s'.requests[a.r], strict);
  }

  lemma GateGoto(s: State, a: Action, s': State, strict: bool)
    requires GatesOk(s.rows, s.requests, strict)
    requires FreeStep(s, a, s') && (a.AStopGate? || a.AStopFetch? || a.ADeleteGate?)
    ensures a.r in s'.requests && Goto(s, s', a.r, s'.requests[a.r])
    ensures !s'.requests[a.r].Locked() && GateOk(s.rows, s'.requests[a.r], strict)
  {
    assert a.AStopFetch? ==> GateOk(s.rows, s.requests[a.r], strict);
  }

  lemma GateStepKeeps(s: State, a: Action, s': State, strict: bool)
    requires Inv(s, strict)
    requires FreeStep(s, a, s') && (a.AStopGate? || a.AStopFetch? || a.ADeleteGate?)
    ensures Inv(s', strict)
  {
    GateGoto(s, a, s', strict);
    GotoKeeps(s, s', a.r, s'.requests[a.r], strict);
  }

  lemma CommitCreateGates(s: State, s': State, r: nat, strict: bool)
    requires Inv(s, strict)
    requires CommitCreate(s, s', r)
    requires FreshName(s, s.requests[r].key, strict)
    ensures GatesOk(s'.rows, s'.requests, strict)
    ensures LocksOk(s'.locks, s'.requests)
  {
    forall o | o in s'.requests
      ensures GateOk(s'.rows, s'.requests[o], strict)
    {
      assert GateOk(s.rows, s.requests[o], strict);
    }
  }

  lemma CommitCreateRows(s: State, s': State, r: nat, strict: bool)
    requires Inv(s, strict)
    requires CommitCreate(s, s', r)
    requires FreshName(s, s.requests[r].key, strict)
    ensures RowsOk(s'.rows, s'.nextId)
    ensures JobsOk(s'.rows, s'.jobs, s'.nextId)
    ensures ObjectsOk(s'.rows, s'.objects, strict)
  {
    forall w | w in s'.jobs
      ensures JobOk(s'.rows, s'.nextId, s'.jobs[w])
    {
      assert JobOk(s.rows, s.nextId, s.jobs[w]);
    }
  }

  lemma CommitCreateHistory(s: State, s': State, r: nat, strict: bool)
    requires Inv(s, strict)
    requires CommitCreate(s, s', r)
    ensures HistoryOk(s'.history, s'.rows, s'.jobs, s'.nextId)
  {
  }

  lemma CommitCreateKeeps(s: State, s': State, r: nat, strict: bool)
    requires Inv(s, strict)
    requires CommitCreate(s, s', r)
    requires FreshName(s, s.requests[r].key, strict)
    ensures Inv(s', strict)
  {
    CommitCreateGates(s, s', r, strict);
    CommitCreateRows(s, s', r, strict);
    CommitCreateHistory(s, s', r, strict);
  }

  lemma DeleteRowGates(s: State, s': State, r: nat, strict: bool)
    requires Inv(s, strict)
    requires DeleteRow(s, s', r)
    ensures GatesOk(s'.rows, s'.requests, strict)
    ensures LocksOk(s'.locks, s'.requests)
  {
    forall o | o in s'.requests
      ensures GateOk(s'.rows, s'.requests[o], strict)
    {
      assert GateOk(s.rows, s.requests[o], strict);
    }
  }

  lemma DeleteRowJobs(s: State, s': State, r: nat, strict: bool)
    requires Inv(s, strict)
    requires DeleteRow(s, s', r)
    ensures JobsOk(s'.rows, s'.jobs, s'.nextId)
    ensures HistoryOk(s'.history, s'.rows, s'.jobs, s'.nextId)
  {
    assert GateOk(s.rows, s.requests[r], strict);
    forall w | w in s'.jobs
      ensures JobOk(s'.rows, s'.nextId, s'.jobs[w])
    {
      assert JobOk(s.rows, s.nextId, s.jobs[w]);
    }
  }

  lemma DeleteRowKeeps(s: State, s': State, r: nat, strict: bool)
    requires Inv(s, strict)
    requires DeleteRow(s, s', r)
    ensures Inv(s', strict)
  {
    DeleteRowGates(s, s', r, strict);
    DeleteRowJobs(s, s', r, strict);
  }

  /** Steps that leave rows, locks and jobs alone and at most move a delete on or end a request. */
  lemma DeleteObjectKeeps(s: State, s': State, r: nat, acked: bool, strict: bool)
    requires Inv(s, strict)
    requires DeleteObject(s, s', r, acked) || DeletePvc(s, s', r, acked)
    ensures Inv(s', strict)
  {
    assert GateOk(s.rows, s.requests[r], strict);
  }

  lemma StartUpdateKeeps(s: State, s': State, r: nat, strict: bool)
    requires Inv(s, strict)
    requires StartUpdate(s, s', r)
    ensures Inv(s', strict)
  {
    assert GateOk(s.rows, s.requests[r], strict);
  }

  lemma StopUpdateKeeps(s: State, s': State, r: nat, strict: bool)
    requires Inv(s, strict)
    requires StopUpdate(s, s', r)
    ensures Inv(s', strict)
  {
    assert GateOk(s.rows, s.requests[r], strict);
  }

  lemma OutsideKeeps(s: State, a: Action, s': State, strict: bool)
    requires Inv(s, strict)
    requires OutsideStep(s, a, s') && Env(s, a, strict)
    ensures Inv(s', strict)
  {
  }

  // ---------------------------------------------------------------- workers

  lemma SelectKeeps(s: State, s': State, w: nat, key: Key, strict: bool)
    requires Inv(s, strict)
    requires Select(s, s', w, key)
    ensures Inv(s', strict)
  {
    assert RowOk(s.rows[key], s.nextId);
    assert RowHistoryOk(s.history, s.rows[key]);
    forall v | v in s.jobs
      ensures s.jobs[v].key != key && s.jobs[v].id != s.rows[key].id
    {
      assert JobOk(s.rows, s.nextId, s.jobs[v]);
    }
  }

  lemma CommitClaimRow(s: State, s': State, w: nat, acked: bool, strict: bool)
    requires Inv(s, strict)
    requires CommitClaim(s, s', w, acked)
    ensures var key := s.jobs[w].key;
            && key in s.rows && s.rows[key].id == s.jobs[w].id && s.rows[key].events == [Scheduled] && !s.rows[key].picked
            && s'.rows == s.rows[key := s'.rows[key]]
            && s'.rows[key] == s.rows[key].(picked := true, events := [Scheduled, Picked])
  {
    assert JobOk(s.rows, s.nextId, s.jobs[w]);
    assert RowOk(s.rows[s.jobs[w].key], s.nextId);
    assert [Scheduled] + [Picked] == [Scheduled, Picked];
  }

  lemma CommitClaimJobs(s: State, s': State, w: nat, acked: bool, strict: bool)
    requires Inv(s, strict)
    requires CommitClaim(s, s', w, acked)
    ensures JobsOk(s'.rows, s'.jobs, s'.nextId)
    ensures GatesOk(s'.rows, s'.requests, strict)
  {
    CommitClaimRow(s, s', w, acked, strict);
    JobsSurviveRowChange(s, s', w, s.jobs[w].key);
    GatesSurviveAppend(s, s', s.jobs[w].key, strict);
  }

  lemma CommitClaimHistory(s: State, s': State, w: nat, acked: bool, strict: bool)
    requires Inv(s, strict)
    requires CommitClaim(s, s', w, acked)
    ensures HistoryOk(s'.history, s'.rows, s'.jobs, s'.nextId)
  {
    CommitClaimRow(s, s', w, acked, strict);
    assert RowHistoryOk(s.history, s.rows[s.jobs[w].key]);
    assert JobHistoryOk(s.history, s.jobs[w]);
  }

  lemma CommitClaimKeeps(s: State, s': State, w: nat, acked: bool, strict: bool)
    requires Inv(s, strict)
    requires CommitClaim(s, s', w, acked)
    ensures Inv(s', strict)
  {
    CommitClaimRow(s, s', w, acked, strict);
    CommitClaimJobs(s, s', w, acked, strict);
    CommitClaimHistory(s, s', w, acked, strict);
  }

  /** Moving the only worker of a row, together with that row, leaves every other worker in order. */
  lemma JobsSurviveRowChange(s: State, s': State, w: nat, key: Key)
    requires JobsOk(s.rows, s.jobs, s.nextId)
    requires w in s.jobs && s.jobs[w].key == key
    requires s'.nextId == s.nextId
    requires s'.rows.Keys == s.rows.Keys
    requires forall k :: k in s.rows && k != key ==> s'.rows[k] == s.rows[k]
    requires key in s.rows ==> s'.rows[key].id == s.rows[key].id
    requires s'.jobs == s.jobs - {w} || (w in s'.jobs && s'.jobs == s.jobs[w := s'.jobs[w]]
               && s'.jobs[w].id == s.jobs[w].id && s'.jobs[w].key == key && JobOk(s'.rows, s'.nextId, s'.jobs[w]))
    ensures JobsOk(s'.rows, s'.jobs, s'.nextId)
  {
    forall v | v in s'.jobs
      ensures JobOk(s'.rows, s'.nextId, s'.jobs[v])
    {
      if v != w {
        assert JobOk(s.rows, s.nextId, s.jobs[v]);
      }
    }
  }

  /** Gates only concern rows that have reached their last event, so a row still on its way may move. */
  lemma GatesSurviveAppend(s: State, s': State, key: Key, strict: bool)
    requires GatesOk(s.rows, s.requests, strict)
    requires key in s.rows && !Settled(s.rows, key)
    requires key in s'.rows && s'.rows == s.rows[key := s'.rows[key]] && s'.rows[key].kind == s.rows[key].kind
    requires s'.requests == s.requests
    ensures GatesOk(s'.rows, s'.requests, strict)
  {
    forall o | o in s'.requests
      ensures GateOk(s'.rows, s'.requests[o], strict)
    {
      assert GateOk(s.rows, s.requests[o], strict);
    }
  }

  lemma WriteStatusRow(s: State, s': State, w: nat, took: bool, acked: bool, strict: bool)
    requires Inv(s, strict)
    requires WriteStatus(s, s', w, took, acked)
    ensures var key := s.jobs[w].key;
            && key in s.rows && key in s'.rows && !Settled(s.rows, key)
            && s'.rows == s.rows[key := s'.rows[key]]
            && s'.rows[key] == (if took then s.rows[key].(events := s.rows[key].events + [StatusFor(s.jobs[w].pc)]) else s.rows[key])
            && RowOk(s'.rows[key], s'.nextId)
  {
    var j := s.jobs[w];
    assert JobOk(s.rows, s.nextId, j);
    assert RowOk(s.rows[j.key], s.nextId);
  }

  lemma WriteStatusJobs(s: State, s': State, w: nat, took: bool, acked: bool, strict: bool)
    requires Inv(s, strict)
    requires WriteStatus(s, s', w, took, acked)
    ensures JobsOk(s'.rows, s'.jobs, s'.nextId)
  {
    var j := s.jobs[w];
    assert JobOk(s.rows, s.nextId, j);
    assert RowOk(s.rows[j.key], s.nextId);
    WriteStatusRow(s, s', w, took, acked, strict);
    assert w in s'.jobs ==> JobOk(s'.rows, s'.nextId, s'.jobs[w]);
    JobsSurviveRowChange(s, s', w, j.key);
  }

  lemma WriteStatusKeeps(s: State, s': State, w: nat, took: bool, acked: bool, strict: bool)
    requires Inv(s, strict)
    requires WriteStatus(s, s', w, took, acked)
    ensures Inv(s', strict)
  {
    WriteStatusJobs(s, s', w, took, acked, strict);
    WriteStatusHistory(s, s', w, took, acked, strict);
    WriteStatusRow(s, s', w, took, acked, strict);
    GatesSurviveAppend(s, s', s.jobs[w].key, strict);
  }

  lemma WriteStatusJobHistory(s: State, s': State, w: nat, took: bool, acked: bool, strict: bool)
    requires Inv(s, strict)
    requires WriteStatus(s, s', w, took, acked)
    ensures forall v :: v in s'.jobs ==> JobHistoryOk(s'.history, s'.jobs[v])
    ensures forall id :: id in s'.history.cleaned ==> id < s'.nextId
  {
    var j := s.jobs[w];
    assert JobOk(s.rows, s.nextId, j);
    forall v | v in s'.jobs
      ensures JobHistoryOk(s'.history, s'.jobs[v])
    {
      assert JobHistoryOk(s.history, s.jobs[v]);
    }
  }

  lemma WriteStatusHistory(s: State, s': State, w: nat, took: bool, acked: bool, strict: bool)
    requires Inv(s, strict)
    requires WriteStatus(s, s', w, took, acked)
    ensures HistoryOk(s'.history, s'.rows, s'.jobs, s'.nextId)
  {
    var j := s.jobs[w];
    WriteStatusJobHistory(s, s', w, took, acked, strict);
    WriteStatusRow(s, s', w, took, acked, strict);
    assert JobHistoryOk(s.history, j);
    forall key | key in s'.rows
      ensures RowHistoryOk(s'.history, s'.rows[key])
    {
      assert RowHistoryOk(s.history, s.rows[key]);
      assert s.rows[key].id == j.id ==> key == j.key;
    }
  }

  /** Worker steps that leave the rows alone: the job moves on or goes. */
  lemma JobMoveKeeps(s: State, s': State, w: nat, strict: bool)
    requires Inv(s, strict)
    requires w in s.jobs
    requires s'.rows == s.rows && s'.locks == s.locks && s'.requests == s.requests && s'.nextId == s.nextId
    requires s'.history == s.history
    requires s'.objects == s.objects || s'.objects == s.objects - {s.jobs[w].key}
    requires s'.jobs == s.jobs - {w}
          || (w in s'.jobs && s'.jobs == s.jobs[w := s'.jobs[w]]
              && s'.jobs[w].id == s.jobs[w].id && s'.jobs[w].key == s.jobs[w].key
              && JobOk(s.rows, s.nextId, s'.jobs[w]) && JobHistoryOk(s.history, s'.jobs[w]))
    ensures Inv(s', strict)
  {
    JobsSurviveRowChange(s, s', w, s.jobs[w].key);
    forall v | v in s'.jobs
      ensures JobHistoryOk(s'.history, s'.jobs[v])
    {
      assert JobHistoryOk(s.history, s.jobs[v]);
    }
  }

  lemma GiveUpKeeps(s: State, s': State, w: nat, strict: bool)
    requires Inv(s, strict)
    requires GiveUp(s, s', w)
    ensures Inv(s', strict)
  {
    assert JobOk(s.rows, s.nextId, s.jobs[w]);
    assert JobHistoryOk(s.history, s.jobs[w]);
    JobMoveKeeps(s, s', w, strict);
  }

  lemma CleaningKeeps(s: State, s': State, w: nat, acked: bool, strict: bool)
    requires Inv(s, strict)
    requires CleanNotebook(s, s', w, acked) || SkipClean(s, s', w) || CleanPvc(s, s', w, acked) || Drop(s, s', w)
    ensures Inv(s', strict)
  {
    assert JobOk(s.rows, s.nextId, s.jobs[w]);
    assert JobHistoryOk(s.history, s.jobs[w]);
    assert s.jobs[w := s.jobs[w]] == s.jobs;
    JobMoveKeeps(s, s', w, strict);
  }

  lemma CreatePvcKeeps(s: State, s': State, w: nat, acked: bool, strict: bool)
    requires Inv(s, strict)
    requires CreatePvc(s, s', w, acked)
    ensures Inv(s', strict)
  {
    assert JobOk(s.rows, s.nextId, s.jobs[w]);
    assert JobHistoryOk(s.history, s.jobs[w]);
    JobsSurviveRowChange(s, s', w, s.jobs[w].key);
  }

  lemma CreateNotebookKeeps(s: State, s': State, w: nat, acked: bool, strict: bool)
    requires Inv(s, strict)
    requires CreateNotebook(s, s', w, acked)
    ensures Inv(s', strict)
  {
    assert JobOk(s.rows, s.nextId, s.jobs[w]);
    assert JobHistoryOk(s.history, s.jobs[w]);
    JobsSurviveRowChange(s, s', w, s.jobs[w].key);
  }

  // ---------------------------------------------------------------- all steps

  lemma CreateKeepsInv(limits: Limits, s: State, a: Action, s': State, strict: bool)
    requires Inv(s, strict)
    requires CreateStep(limits, s, a, s') && Env(s, a, strict)
    ensures Inv(s', strict)
  {
    if a.ABeginCreate? {
      TakeLockKeeps(s, s', a.r, CreateLocked(a.key, a.kind), strict);
    } else if a.ACommitCreate? {
      CommitCreateKeeps(s, s', a.r, strict);
    } else {
      CreateStepKeeps(limits, s, a, s', strict);
    }
  }

  lemma StartKeepsInv(limits: Limits, s: State, a: Action, s': State, strict: bool)
    requires Inv(s, strict)
    requires StartStep(limits, s, a, s')
    ensures Inv(s', strict)
  {
    if a.ABeginStart? {
      TakeLockKeeps(s, s', a.r, StartLocked(a.key), strict);
    } else if a.AStartUpdate? {
      StartUpdateKeeps(s, s', a.r, strict);
    } else {
      StartStepKeeps(limits, s, a, s', strict);
    }
  }

  lemma FreeKeepsInv(s: State, a: Action, s': State, strict: bool)
    requires Inv(s, strict)
    requires FreeStep(s, a, s')
    ensures Inv(s', strict)
  {
    if a.AStopUpdate? {
      StopUpdateKeeps(s, s', a.r, strict);
    } else if a.ADeleteRow? {
      DeleteRowKeeps(s, s', a.r, strict);
    } else if a.ADeleteObject? || a.ADeletePvc? {
      DeleteObjectKeeps(s, s', a.r, a.acked, strict);
    } else if a.AEnd? {
      EndKeeps(s, s', a.r, strict);
    } else {
      GateStepKeeps(s, a, s', strict);
    }
  }

  lemma WorkerKeepsInv(s: State, a: Action, s': State, strict: bool)
    requires Inv(s, strict)
    requires WorkerStep(s, a, s')
    ensures Inv(s', strict)
  {
    match a
    case ASelect(w, key) => SelectKeeps(s, s', w, key, strict);
    case ACommitClaim(w, acked) => CommitClaimKeeps(s, s', w, acked, strict);
    case ACreatePvc(w, acked) => CreatePvcKeeps(s, s', w, acked, strict);
    case ACreateNotebook(w, acked) => CreateNotebookKeeps(s, s', w, acked, strict);
    case AWriteStatus(w, took, acked) => WriteStatusKeeps(s, s', w, took, acked, strict);
    case AGiveUp(w) => GiveUpKeeps(s, s', w, strict);
    case ACleanNotebook(w, acked) => CleaningKeeps(s, s', w, acked, strict);
    case ASkipClean(w) => CleaningKeeps(s, s', w, true, strict);
    case ACleanPvc(w, acked) => CleaningKeeps(s, s', w, acked, strict);
    case ADrop(w) => CleaningKeeps(s, s', w, true, strict);
  }

  lemma StepKeepsInv(limits: Limits, s: State, a: Action, s': State, strict: bool)
    requires Inv(s, strict)
    requires Step(limits, s, a, s') && Env(s, a, strict)
    ensures Inv(s', strict)
  {
    if CreateStep(limits, s, a, s') {
      CreateKeepsInv(limits, s, a, s', strict);
    } else if StartStep(limits, s, a, s') {
      StartKeepsInv(limits, s, a, s', strict);
    } else if FreeStep(s, a, s') {
      FreeKeepsInv(s, a, s', strict);
    } else if WorkerStep(s, a, s') {
      WorkerKeepsInv(s, a, s', strict);
    } else {
      OutsideKeeps(s, a, s', strict);
    }
  }
}
