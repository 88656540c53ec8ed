/** What every step keeps about rows, the workers on them and their histories, whatever the
    surroundings do: names may be reused while older workers still clean up behind them, so a worker
    is tied to a row by its id and never by its name alone. */
module RowInvariant {
  import opened Notebooks
  import opened Protocol
  import opened ProtocolInvariant

  /** What the row of a job looks like, if it is still there. */
  predicate OwnRowFits(row: Row, pc: Pc) {
    && (pc.Selecting? ==> row.events == [Scheduled])
    && (BeforePvcStatus(pc) ==> row.events == [Scheduled, Picked])
    && (BeforeNotebookStatus(pc) ==> row.events == [Scheduled, Picked, PvcApplied])
    && (Cleaning(pc) ==> row.picked && !Applied(row))
  }

  predicate JobFits(rows: map<Key, Row>, j: Job) {
    && (j.pc.Selecting? ==> j.key in rows && rows[j.key].id == j.id)
    && (j.key in rows && rows[j.key].id == j.id ==> OwnRowFits(rows[j.key], j.pc))
  }

  ghost predicate DistinctIds(jobs: map<nat, Job>) {
    forall w1, w2 :: w1 in jobs && w2 in jobs && jobs[w1].id == jobs[w2].id ==> w1 == w2
  }

  ghost predicate JobsFit(rows: map<Key, Row>, jobs: map<nat, Job>, nextId: nat) {
    && (forall w :: w in jobs ==> jobs[w].id < nextId && JobFits(rows, jobs[w]))
    && DistinctIds(jobs)
    && IdsMatch(rows, jobs)
  }

  ghost predicate RowInv(s: State) {
    && RowsOk(s.rows, s.nextId)
    && JobsFit(s.rows, s.jobs, s.nextId)
    && HistoryOk(s.history, s.rows, s.jobs, s.nextId)
    && AcksOk(s.history, s.rows, s.jobs, s.nextId)
  }

  /** A worker whose create was not acknowledged has no acknowledgement on record. */
  predicate JobAcks(h: History, j: Job) {
    && (j.pc.Selecting? || j.pc.CreatingPvc? || j.pc.PvcRefused? ==> j.id !in h.pvcOk)
    && (j.pc.Selecting? || BeforePvcStatus(j.pc) || j.pc.CreatingNotebook? || j.pc.NotebookRefused? ==> j.id !in h.notebookOk)
  }

  /** Events tell the truth: a success was acknowledged and a failure was not. */
  predicate RowAcks(h: History, row: Row) {
    && (PvcApplied in row.events ==> row.id in h.pvcOk)
    && (PvcApplyFailed in row.events ==> row.id !in h.pvcOk)
    && (NotebookApplied in row.events ==> row.id in h.notebookOk)
    && (NotebookApplyFailed in row.events ==> row.id !in h.notebookOk)
    && (!row.picked ==> row.id !in h.pvcOk && row.id !in h.notebookOk)
  }

  ghost predicate AcksOk(h: History, rows: map<Key, Row>, jobs: map<nat, Job>, nextId: nat) {
    && (forall w :: w in jobs ==> JobAcks(h, jobs[w]))
    && (forall key :: key in rows ==> RowAcks(h, rows[key]))
    && (forall id :: id in h.pvcOk || id in h.notebookOk ==> id < nextId)
  }

  // ---------------------------------------------------------------- one job moves

  /** At most the job's own row changes, and it keeps its id. */
  ghost predicate OwnRowMoves(rows: map<Key, Row>, rows': map<Key, Row>, j: Job) {
    && rows'.Keys == rows.Keys
    && (forall key :: key in rows ==> rows'[key].id == rows[key].id)
    && (forall key :: key in rows && !(key == j.key && rows[key].id == j.id) ==> rows'[key] == rows[key])
  }

  /** The job moves on under the same name and id, or is gone. */
  predicate JobMoves(jobs: map<nat, Job>, jobs': map<nat, Job>, w: nat) {
    && w in jobs
    && (jobs' == jobs - {w}
        || (w in jobs' && jobs' == jobs[w := jobs'[w]] && jobs'[w].id == jobs[w].id && jobs'[w].key == jobs[w].key))
  }

  lemma OthersFit(rows: map<Key, Row>, rows': map<Key, Row>, jobs: map<nat, Job>, nextId: nat, w: nat, v: nat)
    requires JobsFit(rows, jobs, nextId) && w in jobs && v in jobs && v != w
    requires OwnRowMoves(rows, rows', jobs[w])
    ensures JobFits(rows', jobs[v])
  {
    assert JobFits(rows, jobs[v]);
  }

  lemma MoveKeepsJobs(rows: map<Key, Row>, rows': map<Key, Row>, jobs: map<nat, Job>, jobs': map<nat, Job>, nextId: nat, w: nat)
    requires JobsFit(rows, jobs, nextId)
    requires JobMoves(jobs, jobs', w) && OwnRowMoves(rows, rows', jobs[w])
    requires w in jobs' ==> JobFits(rows', jobs'[w])
    ensures JobsFit(rows', jobs', nextId)
  {
    forall v | v in jobs'
      ensures jobs'[v].id < nextId && JobFits(rows', jobs'[v])
    {
      if v != w {
        OthersFit(rows, rows', jobs, nextId, w, v);
      }
    }
  }

  lemma MoveKeepsRows(rows: map<Key, Row>, rows': map<Key, Row>, nextId: nat, j: Job)
    requires RowsOk(rows, nextId) && OwnRowMoves(rows, rows', j)
    requires j.key in rows && rows[j.key].id == j.id ==> RowOk(rows'[j.key], nextId)
    ensures RowsOk(rows', nextId)
  {
    forall key | key in rows'
      ensures RowOk(rows'[key], nextId)
    {
      assert RowOk(rows[key], nextId);
    }
  }

  // ---------------------------------------------------------------- rows come and go

  lemma CommitCreateFits(s: State, s': State, r: nat)
    requires RowInv(s) && CommitCreate(s, s', r)
    ensures JobsFit(s'.rows, s'.jobs, s'.nextId)
  {
    forall w | w in s'.jobs
      ensures JobFits(s'.rows, s'.jobs[w])
    {
      assert JobFits(s.rows, s.jobs[w]);
    }
  }

  lemma CommitCreateKeepsAcks(s: State, s': State, r: nat)
    requires RowInv(s) && CommitCreate(s, s', r)
    ensures AcksOk(s'.history, s'.rows, s'.jobs, s'.nextId)
  {
    forall key | key in s'.rows
      ensures RowAcks(s'.history, s'.rows[key])
    {
      assert key != s.requests[r].key ==> RowAcks(s.history, s.rows[key]);
    }
  }

  lemma CommitCreateKeepsRows(s: State, s': State, r: nat)
    requires RowInv(s) && CommitCreate(s, s', r)
    ensures RowInv(s')
  {
    CommitCreateFits(s, s', r);
    assert HistoryOk(s'.history, s'.rows, s'.jobs, s'.nextId);
    CommitCreateKeepsAcks(s, s', r);
  }

  lemma DeleteRowKeepsRows(s: State, s': State, r: nat)
    requires RowInv(s) && DeleteRow(s, s', r)
    ensures RowInv(s')
  {
    forall w | w in s'.jobs
      ensures JobFits(s'.rows, s'.jobs[w])
    {
      assert JobFits(s.rows, s.jobs[w]);
    }
  }

  // ---------------------------------------------------------------- worker steps

  /** Nobody works on a row that is not picked, but for a claim in progress. */
  lemma UnpickedIsAlone(s: State, w: nat, key: Key, v: nat)
    requires RowInv(s) && w !in s.jobs && key in s.rows && !s.rows[key].picked
    requires forall v :: v in s.jobs && s.jobs[v].key == key ==> !s.jobs[v].pc.Selecting?
    requires v in s.jobs
    ensures s.jobs[v].id != s.rows[key].id
  {
    assert JobFits(s.rows, s.jobs[v]);
    assert RowOk(s.rows[key], s.nextId);
  }

  lemma SelectFits(s: State, s': State, w: nat, key: Key)
    requires RowInv(s) && Select(s, s', w, key)
    ensures JobsFit(s'.rows, s'.jobs, s'.nextId)
  {
    assert RowOk(s.rows[key], s.nextId);
    forall v | v in s.jobs
      ensures s.jobs[v].id != s.rows[key].id
    {
      UnpickedIsAlone(s, w, key, v);
    }
    forall v | v in s'.jobs && v != w
      ensures JobFits(s'.rows, s'.jobs[v])
    {
      assert JobFits(s.rows, s.jobs[v]);
    }
  }

  lemma SelectKeepsRows(s: State, s': State, w: nat, key: Key)
    requires RowInv(s) && Select(s, s', w, key)
    ensures RowInv(s')
  {
    SelectFits(s, s', w, key);
    assert RowHistoryOk(s.history, s.rows[key]) && RowAcks(s.history, s.rows[key]);
    assert HistoryOk(s'.history, s'.rows, s'.jobs, s'.nextId);
    assert AcksOk(s'.history, s'.rows, s'.jobs, s'.nextId);
  }

  lemma ClaimedRow(s: State, s': State, w: nat, acked: bool)
    requires RowInv(s) && CommitClaim(s, s', w, acked)
    ensures var key := s.jobs[w].key;
            && s.rows[key].id == s.jobs[w].id && s.rows[key].events == [Scheduled]
            && s'.rows == s.rows[key := s.rows[key].(picked := true, events := [Scheduled, Picked])]
  {
    assert JobFits(s.rows, s.jobs[w]);
    assert [Scheduled] + [Picked] == [Scheduled, Picked];
  }

  lemma CommitClaimKeepsRows(s: State, s': State, w: nat, acked: bool)
    requires RowInv(s) && CommitClaim(s, s', w, acked)
    ensures RowInv(s')
  {
    ClaimedRow(s, s', w, acked);
    assert RowOk(s.rows[s.jobs[w].key], s.nextId);
    MoveKeepsRows(s.rows, s'.rows, s.nextId, s.jobs[w]);
    MoveKeepsJobs(s.rows, s'.rows, s.jobs, s'.jobs, s.nextId, w);
    CommitClaimKeepsHistory(s, s', w, acked);
    CommitClaimKeepsAcks(s, s', w, acked);
  }

  lemma CommitClaimKeepsAcks(s: State, s': State, w: nat, acked: bool)
    requires RowInv(s) && CommitClaim(s, s', w, acked)
    ensures AcksOk(s'.history, s'.rows, s'.jobs, s'.nextId)
  {
    ClaimedRow(s, s', w, acked);
    assert JobAcks(s.history, s.jobs[w]);
    assert RowAcks(s.history, s.rows[s.jobs[w].key]);
  }

  lemma CommitClaimKeepsHistory(s: State, s': State, w: nat, acked: bool)
    requires RowInv(s) && CommitClaim(s, s', w, acked)
    ensures HistoryOk(s'.history, s'.rows, s'.jobs, s'.nextId)
  {
    ClaimedRow(s, s', w, acked);
    assert JobHistoryOk(s.history, s.jobs[w]);
    assert RowHistoryOk(s.history, s.rows[s.jobs[w].key]);
  }

  /** A status moves the job's own row, still on its way, or no row at all. */
  lemma StatusMoves(s: State, s': State, w: nat, took: bool, acked: bool)
    requires WriteStatus(s, s', w, took, acked)
    ensures OwnRowMoves(s.rows, s'.rows, s.jobs[w])
  {
  }

  /** A row at one of the four places a status is written from, and what it becomes. */
  lemma StatusLegal(row: Row, pc: Pc, nextId: nat)
    requires RowOk(row, nextId) && OwnRowFits(row, pc)
    requires pc.PvcMade? || pc.PvcRefused? || pc.NotebookMade? || pc.NotebookRefused?
    ensures RowOk(row.(events := row.events + [StatusFor(pc)]), nextId)
    ensures row.picked && !Applied(row) && Live(row)
  {
  }

  lemma StatusRow(s: State, s': State, w: nat, took: bool, acked: bool)
    requires RowInv(s) && WriteStatus(s, s', w, took, acked)
    ensures var j := s.jobs[w];
            j.key in s.rows && s.rows[j.key].id == j.id ==>
              && !Settled(s.rows, j.key)
              && s.rows[j.key].picked
              && s'.rows[j.key] == (if took then s.rows[j.key].(events := s.rows[j.key].events + [StatusFor(j.pc)])
                                    else s.rows[j.key])
              && RowOk(s'.rows[j.key], s.nextId)
  {
    var j := s.jobs[w];
    assert JobFits(s.rows, j);
    if j.key in s.rows && s.rows[j.key].id == j.id {
      StatusLegal(s.rows[j.key], j.pc, s.nextId);
    }
  }

  /** A job that goes on after its status fits the row it wrote to. */
  lemma StatusFits(s: State, s': State, w: nat, took: bool, acked: bool)
    requires RowInv(s) && WriteStatus(s, s', w, took, acked)
    requires w in s'.jobs
    ensures JobFits(s'.rows, s'.jobs[w])
  {
    var j := s.jobs[w];
    StatusRow(s, s', w, took, acked);
    StatusMoves(s, s', w, took, acked);
    assert JobFits(s.rows, j);
    if j.key in s.rows && s.rows[j.key].id == j.id {
      StatusLeavesRow(s.rows[j.key], s'.rows[j.key], j.pc, s'.jobs[w].pc, took, acked);
    }
  }

  lemma StatusLeavesRow(row: Row, row': Row, pc: Pc, pc': Pc, took: bool, acked: bool)
    requires OwnRowFits(row, pc) && row.picked
    requires pc.PvcMade? || pc.PvcRefused? || pc.NotebookRefused?
    requires row' == if took then row.(events := row.events + [StatusFor(pc)]) else row
    requires pc' == if pc.PvcMade? && acked then CreatingNotebook else CleaningNotebook
    requires acked ==> took
    ensures OwnRowFits(row', pc')
  {
  }

  lemma StatusKeepsJobHistories(s: State, s': State, w: nat, took: bool, acked: bool)
    requires RowInv(s) && WriteStatus(s, s', w, took, acked)
    ensures forall v :: v in s'.jobs ==> JobHistoryOk(s'.history, s'.jobs[v])
    ensures forall id :: id in s'.history.cleaned ==> id < s'.nextId
  {
    forall v | v in s'.jobs
      ensures JobHistoryOk(s'.history, s'.jobs[v])
    {
      assert JobHistoryOk(s.history, s.jobs[v]);
    }
  }

  lemma StatusKeepsRowHistories(s: State, s': State, w: nat, took: bool, acked: bool, key: Key)
    requires RowInv(s) && WriteStatus(s, s', w, took, acked)
    requires key in s'.rows
    ensures RowHistoryOk(s'.history, s'.rows[key])
  {
    var j := s.jobs[w];
    StatusRow(s, s', w, took, acked);
    StatusMoves(s, s', w, took, acked);
    assert JobHistoryOk(s.history, j) && JobFits(s.rows, j);
    assert RowHistoryOk(s.history, s.rows[key]);
    assert s.rows[key].id == j.id ==> key == j.key;
  }

  lemma WriteStatusKeepsRows(s: State, s': State, w: nat, took: bool, acked: bool)
    requires RowInv(s) && WriteStatus(s, s', w, took, acked)
    ensures RowInv(s')
  {
    StatusRow(s, s', w, took, acked);
    StatusMoves(s, s', w, took, acked);
    MoveKeepsRows(s.rows, s'.rows, s.nextId, s.jobs[w]);
    if w in s'.jobs {
      StatusFits(s, s', w, took, acked);
    }
    MoveKeepsJobs(s.rows, s'.rows, s.jobs, s'.jobs, s.nextId, w);
    StatusKeepsJobHistories(s, s', w, took, acked);
    forall key | key in s'.rows
      ensures RowHistoryOk(s'.history, s'.rows[key])
    {
      StatusKeepsRowHistories(s, s', w, took, acked, key);
    }
    StatusKeepsAcks(s, s', w, took, acked);
  }

  /** The event a job may write is true of what was acknowledged. */
  lemma StatusIsTrue(h: History, row: Row, row': Row, j: Job, took: bool)
    requires row.id == j.id && OwnRowFits(row, j.pc) && row.picked
    requires JobHistoryOk(h, j) && JobAcks(h, j) && RowAcks(h, row)
    requires j.pc.PvcMade? || j.pc.PvcRefused? || j.pc.NotebookMade? || j.pc.NotebookRefused?
    requires row' == if took then row.(events := row.events + [StatusFor(j.pc)]) else row
    ensures RowAcks(h, row')
  {
  }

  lemma StatusKeepsAcks(s: State, s': State, w: nat, took: bool, acked: bool)
    requires RowInv(s) && WriteStatus(s, s', w, took, acked)
    ensures AcksOk(s'.history, s'.rows, s'.jobs, s'.nextId)
  {
    var j := s.jobs[w];
    assert JobAcks(s.history, j) && JobHistoryOk(s.history, j) && JobFits(s.rows, j);
    StatusKeepsJobAcks(s, s', w, took, acked);
    StatusMoves(s, s', w, took, acked);
    StatusRow(s, s', w, took, acked);
    forall key | key in s'.rows
      ensures RowAcks(s'.history, s'.rows[key])
    {
      assert RowAcks(s.history, s.rows[key]);
      if key == j.key && s.rows[key].id == j.id {
        StatusIsTrue(s.history, s.rows[key], s'.rows[key], j, took);
      }
    }
  }

  lemma StatusKeepsJobAcks(s: State, s': State, w: nat, took: bool, acked: bool)
    requires RowInv(s) && WriteStatus(s, s', w, took, acked)
    ensures s'.history.pvcOk == s.history.pvcOk && s'.history.notebookOk == s.history.notebookOk
    ensures forall v :: v in s'.jobs ==> JobAcks(s'.history, s'.jobs[v])
  {
    forall v | v in s'.jobs
      ensures JobAcks(s'.history, s'.jobs[v])
    {
      assert JobAcks(s.history, s.jobs[v]);
    }
  }

  /** The worker steps that leave the rows alone. */
  predicate JobOnly(a: Action) {
    a.ACreatePvc? || a.ACreateNotebook? || a.AGiveUp? || a.ACleanNotebook? || a.ASkipClean? || a.ACleanPvc? || a.ADrop?
  }

  lemma JobOnlyFrame(s: State, a: Action, s': State)
    requires WorkerStep(s, a, s') && JobOnly(a)
    ensures s'.rows == s.rows && s'.nextId == s.nextId && a.w in s.jobs
    ensures JobMoves(s.jobs, s'.jobs, a.w)
    ensures a.w in s'.jobs ==> SamePlaceOrOn(s.jobs[a.w].pc, s'.jobs[a.w].pc)
  {
    assert a.w in s.jobs ==> s.jobs[a.w := s.jobs[a.w]] == s.jobs;
  }

  /** The job stays at the same status, or goes on with its cleanup. */
  predicate SamePlaceOrOn(pc: Pc, pc': Pc) {
    || (BeforePvcStatus(pc) && BeforePvcStatus(pc'))
    || (BeforeNotebookStatus(pc) && BeforeNotebookStatus(pc'))
    || (Cleaning(pc) && Cleaning(pc'))
  }

  lemma JobOnlyMoves(s: State, a: Action, s': State)
    requires JobsFit(s.rows, s.jobs, s.nextId) && WorkerStep(s, a, s') && JobOnly(a)
    ensures s'.rows == s.rows && s'.nextId == s.nextId && JobMoves(s.jobs, s'.jobs, a.w)
    ensures a.w in s'.jobs ==> JobFits(s.rows, s'.jobs[a.w])
  {
    JobOnlyFrame(s, a, s');
    if a.w in s'.jobs {
      SamePlaceFits(s.rows, s.jobs[a.w], s'.jobs[a.w]);
    }
  }

  lemma SamePlaceFits(rows: map<Key, Row>, j: Job, j': Job)
    requires JobFits(rows, j) && j'.key == j.key && j'.id == j.id && SamePlaceOrOn(j.pc, j'.pc)
    ensures JobFits(rows, j')
  {
  }

  lemma JobOnlyKeepsHistory(s: State, a: Action, s': State)
    requires RowInv(s) && WorkerStep(s, a, s') && JobOnly(a)
    ensures HistoryOk(s'.history, s'.rows, s'.jobs, s'.nextId)
  {
    JobOnlyMoves(s, a, s');
    assert JobHistoryOk(s.history, s.jobs[a.w]);
    forall v | v in s'.jobs
      ensures JobHistoryOk(s'.history, s'.jobs[v])
    {
      assert JobHistoryOk(s.history, s.jobs[v]);
    }
  }

  lemma JobOnlyKeepsRows(s: State, a: Action, s': State)
    requires RowInv(s) && WorkerStep(s, a, s') && JobOnly(a)
    ensures RowInv(s')
  {
    JobOnlyMoves(s, a, s');
    MoveKeepsJobs(s.rows, s'.rows, s.jobs, s'.jobs, s.nextId, a.w);
    JobOnlyKeepsHistory(s, a, s');
    JobOnlyKeepsAcks(s, a, s');
  }

  /** What the steps of one job may record: an acknowledgement of its own create, or nothing. */
  lemma JobOnlyRecords(s: State, a: Action, s': State)
    requires WorkerStep(s, a, s') && JobOnly(a)
    ensures Records(s.history, s'.history, s.jobs[a.w])
    ensures a.w in s'.jobs && JobAcks(s.history, s.jobs[a.w]) ==> JobAcks(s'.history, s'.jobs[a.w])
  {
  }

  lemma JobOnlyKeepsAcks(s: State, a: Action, s': State)
    requires RowInv(s) && WorkerStep(s, a, s') && JobOnly(a)
    ensures AcksOk(s'.history, s'.rows, s'.jobs, s'.nextId)
  {
    JobOnlyMoves(s, a, s');
    JobOnlyRecords(s, a, s');
    forall v | v in s'.jobs
      ensures JobAcks(s'.history, s'.jobs[v])
    {
      assert JobAcks(s.history, s.jobs[v]);
    }
    forall key | key in s'.rows
      ensures RowAcks(s'.history, s'.rows[key])
    {
      RecordsSpareRow(s, a, s', key);
    }
  }

  /** What a job at a given place may add to the record. */
  predicate Records(h: History, h': History, j: Job) {
    && (h'.pvcOk == h.pvcOk || (j.pc.CreatingPvc? && h'.pvcOk == h.pvcOk + {j.id}))
    && (h'.notebookOk == h.notebookOk || (j.pc.CreatingNotebook? && h'.notebookOk == h.notebookOk + {j.id}))
  }

  /** The job is about to hear of a create. */
  predicate Awaiting(pc: Pc) { pc.CreatingPvc? || pc.CreatingNotebook? }

  lemma RecordSparesRow(h: History, h': History, row: Row, j: Job)
    requires Records(h, h', j) && RowAcks(h, row)
    requires row.id == j.id && Awaiting(j.pc) ==> OwnRowFits(row, j.pc) && row.picked
    ensures RowAcks(h', row)
  {
  }

  lemma OwnPickedRow(s: State, w: nat, key: Key)
    requires RowInv(s) && w in s.jobs && Awaiting(s.jobs[w].pc)
    requires key in s.rows && s.rows[key].id == s.jobs[w].id
    ensures OwnRowFits(s.rows[key], s.jobs[w].pc) && s.rows[key].picked
  {
    assert key == s.jobs[w].key && JobFits(s.rows, s.jobs[w]) && RowOk(s.rows[key], s.nextId);
  }

  lemma RecordsSpareRow(s: State, a: Action, s': State, key: Key)
    requires RowInv(s) && WorkerStep(s, a, s') && JobOnly(a)
    requires key in s.rows
    ensures RowAcks(s'.history, s.rows[key])
  {
    var j := s.jobs[a.w];
    JobOnlyRecords(s, a, s');
    assert RowAcks(s.history, s.rows[key]);
    if s.rows[key].id == j.id && Awaiting(j.pc) {
      OwnPickedRow(s, a.w, key);
    }
    RecordSparesRow(s.history, s'.history, s.rows[key], j);
  }

  lemma WorkerKeepsRows(s: State, a: Action, s': State)
    requires RowInv(s) && WorkerStep(s, a, s')
    ensures RowInv(s')
  {
    if JobOnly(a) {
      JobOnlyKeepsRows(s, a, s');
    } else {
      ClaimOrStatusKeepsRows(s, a, s');
    }
  }

  lemma ClaimOrStatusKeepsRows(s: State, a: Action, s': State)
    requires RowInv(s) && WorkerStep(s, a, s') && !JobOnly(a)
    ensures RowInv(s')
  {
    match a
    case ASelect(w, key) => SelectKeepsRows(s, s', w, key);
    case ACommitClaim(w, acked) => CommitClaimKeepsRows(s, s', w, acked);
    case AWriteStatus(w, took, acked) => WriteStatusKeepsRows(s, s', w, took, acked);
    case _ =>
  }

  // ---------------------------------------------------------------- every step

  /** Nothing that the invariant speaks of changes. */
  predicate Untouched(s: State, s': State) {
    s'.rows == s.rows && s'.jobs == s.jobs && s'.nextId == s.nextId && s'.history == s.history
  }

  lemma CreateUntouched(limits: Limits, s: State, a: Action, s': State)
    requires CreateStep(limits, s, a, s') && !a.ACommitCreate?
    ensures Untouched(s, s')
  {
  }

  lemma StartUntouched(limits: Limits, s: State, a: Action, s': State)
    requires StartStep(limits, s, a, s')
    ensures Untouched(s, s')
  {
  }

  lemma FreeUntouched(s: State, a: Action, s': State)
    requires FreeStep(s, a, s') && !a.ADeleteRow?
    ensures Untouched(s, s')
  {
  }

  /** Every step of every actor, in any surroundings. */
  lemma StepKeepsRows(limits: Limits, s: State, a: Action, s': State)
    requires RowInv(s) && Step(limits, s, a, s')
    ensures RowInv(s')
  {
    if CreateStep(limits, s, a, s') {
      if a.ACommitCreate? {
        CommitCreateKeepsRows(s, s', a.r);
      } else {
        CreateUntouched(limits, s, a, s');
      }
    } else if StartStep(limits, s, a, s') {
      StartUntouched(limits, s, a, s');
    } else if FreeStep(s, a, s') {
      if a.ADeleteRow? {
        DeleteRowKeepsRows(s, s', a.r);
      } else {
        FreeUntouched(s, a, s');
      }
    } else if WorkerStep(s, a, s') {
      WorkerKeepsRows(s, a, s');
    } else {
      assert Untouched(s, s');
    }
  }

  lemma InitRows(s: State)
    requires Init(s)
    ensures RowInv(s)
  {
  }

  lemma RawStep(run: Run, limits: Limits, k: nat)
    requires IsRawRun(run, limits) && k < |run.actions|
    ensures Step(limits, run.states[k], run.actions[k], run.states[k + 1])
  {
  }

  /** The invariant passes from each state to the next. */
  ghost predicate Passes(s: State, s': State) { RowInv(s) ==> RowInv(s') }

  lemma StepPasses(run: Run, limits: Limits, k: nat)
    requires IsRawRun(run, limits) && k < |run.actions|
    ensures Passes(run.states[k], run.states[k + 1])
  {
    RawStep(run, limits, k);
    var s, a, s' := run.states[k], run.actions[k], run.states[k + 1];
    if RowInv(s) {
      StepKeepsRows(limits, s, a, s');
    }
  }

  lemma {:induction false} PassedOn(states: seq<State>, i: nat)
    requires i < |states| && RowInv(states[0])
    requires forall k :: 0 <= k < |states| - 1 ==> Passes(states[k], states[k + 1])
    ensures RowInv(states[i])
  {
    if i > 0 {
      PassedOn(states, i - 1);
      assert Passes(states[i - 1], states[i - 1 + 1]);
    }
  }

  lemma ReachableRows(run: Run, limits: Limits, i: nat)
    requires IsRawRun(run, limits) && i < |run.states|
    ensures RowInv(run.states[i])
  {
    InitRows(run.states[0]);
    forall k | 0 <= k < |run.states| - 1
      ensures Passes(run.states[k], run.states[k + 1])
    {
      StepPasses(run, limits, k);
    }
    PassedOn(run.states, i);
  }
}
