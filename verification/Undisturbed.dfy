/** What each operation does when nobody gets in its way: the partners of the limits, which alone would
    be kept by operations that do nothing. Every lemma continues an arbitrary run, with any number of
    other requests and workers standing still in it. */
module Undisturbed {
  import opened Notebooks
  import opened Protocol
  import opened QuotaEdges

  /** The row's last event, spelled out. */
  predicate EndsIn(row: Row, e: Event) {
    row.events != [] && row.events[|row.events| - 1] == e
  }

  // ---------------------------------------------------------------- start

  /** What a start needs to go through. */
  predicate MayStart(s: State, limits: Limits, key: Key) {
    && key.user !in s.locks && 0 !in s.requests
    && key in s.rows && EndsIn(s.rows[key], NotebookApplied)
    && key in s.objects
    && (var kind := s.rows[key].kind;
        |RunningKeys(ReadRows(s, key.user), ListObjects(s, key.user), kind)| < limits.Running(kind))
  }

  lemma StartReads(s: State, limits: Limits, key: Key)
    requires MayStart(s, limits, key)
    ensures var view := ReadRows(s, key.user);
            var kind := s.rows[key].kind;
            && StartStep(limits, s, ABeginStart(0, key), Holding(s, StartLocked(key)))
            && StartStep(limits, Holding(s, StartLocked(key)), AStartReadRows(0), Holding(s, StartRead(key, kind, view)))
  {
    var view, kind := ReadRows(s, key.user), s.rows[key].kind;
    var locked, read := Holding(s, StartLocked(key)), Holding(s, StartRead(key, kind, view));
    assert ReadRows(locked, key.user) == view;
    assert locked.requests[0 := StartRead(key, kind, view)] == read.requests;
  }

  lemma StartCounts(s: State, limits: Limits, key: Key)
    requires MayStart(s, limits, key)
    ensures var view := ReadRows(s, key.user);
            var kind := s.rows[key].kind;
            StartStep(limits, Holding(s, StartRead(key, kind, view)), AStartListRunning(0), Holding(s, StartAllowed(key, kind)))
  {
    var view, kind := ReadRows(s, key.user), s.rows[key].kind;
    var read := Holding(s, StartRead(key, kind, view));
    assert ListObjects(read, key.user) == ListObjects(s, key.user);
    assert read.requests[0 := StartAllowed(key, kind)] == s.requests[0 := StartAllowed(key, kind)];
  }

  /** One step of a start. */
  lemma StartMoves(p: Run, limits: Limits, checked: bool, a: Action, s': State) returns (q: Run)
    requires IsPath(p, limits, checked)
    requires StartStep(limits, Last(p), a, s')
    ensures IsPath(q, limits, checked) && Last(q) == s'
  {
    q := Extend(p, limits, checked, a, s');
  }

  /** One step of a request that holds no lock, or the end of any request. */
  lemma FreeMoves(p: Run, limits: Limits, checked: bool, a: Action, s': State) returns (q: Run)
    requires IsPath(p, limits, checked)
    requires FreeStep(Last(p), a, s')
    ensures IsPath(q, limits, checked) && Last(q) == s'
  {
    q := Extend(p, limits, checked, a, s');
  }

  lemma StartIsAllowed(p: Run, limits: Limits, checked: bool, key: Key) returns (q: Run)
    requires IsPath(p, limits, checked) && MayStart(Last(p), limits, key)
    ensures IsPath(q, limits, checked)
    ensures Last(q) == Holding(Last(p), StartAllowed(key, Last(p).rows[key].kind))
  {
    var s := Last(p);
    var kind := s.rows[key].kind;
    StartReads(s, limits, key);
    StartCounts(s, limits, key);
    q := StartMoves(p, limits, checked, ABeginStart(0, key), Holding(s, StartLocked(key)));
    q := StartMoves(q, limits, checked, AStartReadRows(0), Holding(s, StartRead(key, kind, ReadRows(s, key.user))));
    q := StartMoves(q, limits, checked, AStartListRunning(0), Holding(s, StartAllowed(key, kind)));
  }

  function Started(s: State, key: Key): State {
    s.(objects := s.objects[key := Obj(false, s.clock)], clock := s.clock + 1)
  }

  lemma StartWrites(s: State, limits: Limits, key: Key, kind: Kind)
    requires key in s.objects && s.objects[key].stopped
    ensures var fetched := Holding(s, StartFetched(key, kind, s.objects[key].version));
            && StartStep(limits, Holding(s, StartAllowed(key, kind)), AStartFetch(0), fetched)
            && StartStep(limits, fetched, AStartUpdate(0), Holding(Started(s, key), StartDone(key)))
  {
    var allowed := Holding(s, StartAllowed(key, kind));
    var fetched := Holding(s, StartFetched(key, kind, s.objects[key].version));
    var done := Holding(Started(s, key), StartDone(key));
    assert allowed.requests[0 := fetched.requests[0]] == fetched.requests;
    assert fetched.requests[0 := StartDone(key)] == done.requests;
  }

  lemma StartEnds(s: State, key: Key)
    requires key.user !in s.locks && 0 !in s.requests
    ensures FreeStep(Holding(s, StartDone(key)), AEnd(0), s)
  {
    var done := Holding(s, StartDone(key));
    assert done.locks - {key.user} == s.locks && done.requests - {0} == s.requests;
  }

  /** A start that nobody disturbs and the limit allows takes the annotation away and leaves everything
      else as it was. */
  lemma UndisturbedStart(p: Run, limits: Limits, checked: bool, key: Key) returns (q: Run)
    requires IsPath(p, limits, checked) && MayStart(Last(p), limits, key)
    requires Last(p).objects[key].stopped
    ensures IsPath(q, limits, checked)
    ensures var s := Last(p);
            Last(q) == s.(objects := s.objects[key := Obj(false, s.clock)], clock := s.clock + 1)
  {
    var s := Last(p);
    var kind := s.rows[key].kind;
    q := StartIsAllowed(p, limits, checked, key);
    StartWrites(s, limits, key, kind);
    StartEnds(Started(s, key), key);
    q := StartMoves(q, limits, checked, AStartFetch(0), Holding(s, StartFetched(key, kind, s.objects[key].version)));
    q := StartMoves(q, limits, checked, AStartUpdate(0), Holding(Started(s, key), StartDone(key)));
    q := FreeMoves(q, limits, checked, AEnd(0), Started(s, key));
  }

  lemma NothingToStart(s: State, limits: Limits, key: Key, kind: Kind)
    requires key in s.objects && !s.objects[key].stopped
    ensures StartStep(limits, Holding(s, StartAllowed(key, kind)), AStartFetch(0), Holding(s, StartDone(key)))
  {
    var allowed, done := Holding(s, StartAllowed(key, kind)), Holding(s, StartDone(key));
    assert allowed.requests[0 := StartDone(key)] == done.requests;
  }

  /** A start of a notebook that runs already changes nothing. */
  lemma UndisturbedStartOfRunning(p: Run, limits: Limits, checked: bool, key: Key) returns (q: Run)
    requires IsPath(p, limits, checked) && MayStart(Last(p), limits, key)
    requires !Last(p).objects[key].stopped
    ensures IsPath(q, limits, checked) && Last(q) == Last(p)
  {
    var s := Last(p);
    q := StartIsAllowed(p, limits, checked, key);
    NothingToStart(s, limits, key, s.rows[key].kind);
    StartEnds(s, key);
    q := StartMoves(q, limits, checked, AStartFetch(0), Holding(s, StartDone(key)));
    q := FreeMoves(q, limits, checked, AEnd(0), s);
  }

  // ---------------------------------------------------------------- stop

  function Serving(s: State, q: Request): State { s.(requests := s.requests[0 := q]) }

  lemma StopSteps(s: State, key: Key)
    requires 0 !in s.requests && key in s.rows && EndsIn(s.rows[key], NotebookApplied) && key in s.objects
    ensures var fetched := StopFetched(key, s.objects[key].version);
            && FreeStep(s, AStopGate(0, key), Serving(s, StopAllowed(key)))
            && FreeStep(Serving(s, StopAllowed(key)), AStopFetch(0), Serving(s, fetched))
            && FreeStep(Serving(s, fetched), AStopUpdate(0),
                        s.(objects := s.objects[key := Obj(true, s.clock)], clock := s.clock + 1))
  {
    var fetched := StopFetched(key, s.objects[key].version);
    assert s.requests[0 := StopAllowed(key)][0 := fetched] == s.requests[0 := fetched];
    assert s.requests[0 := fetched] - {0} == s.requests;
  }

  /** A stop that nobody disturbs leaves the object stopped, and everything else as it was. */
  lemma UndisturbedStop(p: Run, limits: Limits, checked: bool, key: Key) returns (q: Run)
    requires IsPath(p, limits, checked)
    requires var s := Last(p);
             0 !in s.requests && key in s.rows && EndsIn(s.rows[key], NotebookApplied) && key in s.objects
    ensures IsPath(q, limits, checked)
    ensures var s := Last(p);
            Last(q) == s.(objects := s.objects[key := Obj(true, s.clock)], clock := s.clock + 1)
  {
    var s := Last(p);
    StopSteps(s, key);
    q := FreeMoves(p, limits, checked, AStopGate(0, key), Serving(s, StopAllowed(key)));
    q := FreeMoves(q, limits, checked, AStopFetch(0), Serving(s, StopFetched(key, s.objects[key].version)));
    q := FreeMoves(q, limits, checked, AStopUpdate(0),
                   s.(objects := s.objects[key := Obj(true, s.clock)], clock := s.clock + 1));
  }

  // ---------------------------------------------------------------- delete

  predicate MayDelete(s: State, key: Key) {
    && 0 !in s.requests && key in s.rows
    && (forall w :: w in s.jobs && s.jobs[w].key == key ==> !s.jobs[w].pc.Selecting?)
  }

  lemma DeleteRowSteps(s: State, key: Key)
    requires MayDelete(s, key) && EndsIn(s.rows[key], NotebookApplied)
    ensures var rowGone := s.(rows := s.rows - {key});
            && FreeStep(s, ADeleteGate(0, key), Serving(s, DeleteAllowed(key, false)))
            && FreeStep(Serving(s, DeleteAllowed(key, false)), ADeleteRow(0), Serving(rowGone, DeletingNotebook(key)))
  {
    var rs := s.requests;
    assert rs[0 := DeleteAllowed(key, false)][0 := DeletingNotebook(key)] == rs[0 := DeletingNotebook(key)];
  }

  lemma DeleteClusterSteps(s: State, key: Key)
    requires 0 !in s.requests
    ensures var objectGone := s.(objects := s.objects - {key});
            && FreeStep(Serving(s, DeletingNotebook(key)), ADeleteObject(0, true), Serving(objectGone, DeletingPvc(key)))
            && FreeStep(Serving(objectGone, DeletingPvc(key)), ADeletePvc(0, true), objectGone.(pvcs := s.pvcs - {key}))
  {
    var rs := s.requests;
    assert rs[0 := DeletingNotebook(key)][0 := DeletingPvc(key)] == rs[0 := DeletingPvc(key)];
    assert rs[0 := DeletingPvc(key)] - {0} == rs;
  }

  /** A delete of an applied notebook that nobody disturbs leaves no row, no object and no volume. */
  lemma UndisturbedDelete(p: Run, limits: Limits, checked: bool, key: Key) returns (q: Run)
    requires IsPath(p, limits, checked)
    requires MayDelete(Last(p), key) && EndsIn(Last(p).rows[key], NotebookApplied)
    ensures IsPath(q, limits, checked)
    ensures var s := Last(p);
            Last(q) == s.(rows := s.rows - {key}, objects := s.objects - {key}, pvcs := s.pvcs - {key})
  {
    var s := Last(p);
    var rowGone := s.(rows := s.rows - {key});
    var objectGone := rowGone.(objects := s.objects - {key});
    DeleteRowSteps(s, key);
    DeleteClusterSteps(rowGone, key);
    q := FreeMoves(p, limits, checked, ADeleteGate(0, key), Serving(s, DeleteAllowed(key, false)));
    q := FreeMoves(q, limits, checked, ADeleteRow(0), Serving(rowGone, DeletingNotebook(key)));
    q := FreeMoves(q, limits, checked, ADeleteObject(0, true), Serving(objectGone, DeletingPvc(key)));
    q := FreeMoves(q, limits, checked, ADeletePvc(0, true), objectGone.(pvcs := s.pvcs - {key}));
  }

  /** The failures a worker can write. */
  predicate EndsInFailure(row: Row) {
    EndsIn(row, PvcApplyFailed) || EndsIn(row, NotebookApplyFailed)
  }

  lemma DeleteFailedSteps(s: State, key: Key)
    requires MayDelete(s, key) && EndsInFailure(s.rows[key])
    ensures FreeStep(s, ADeleteGate(0, key), Serving(s, DeleteAllowed(key, true)))
    ensures FreeStep(Serving(s, DeleteAllowed(key, true)), ADeleteRow(0), s.(rows := s.rows - {key}))
  {
    assert s.requests[0 := DeleteAllowed(key, true)] - {0} == s.requests;
  }

  /** A delete of a failed notebook removes the row and leaves the cluster to the worker's cleanup. */
  lemma UndisturbedDeleteOfFailed(p: Run, limits: Limits, checked: bool, key: Key) returns (q: Run)
    requires IsPath(p, limits, checked)
    requires MayDelete(Last(p), key) && EndsInFailure(Last(p).rows[key])
    ensures IsPath(q, limits, checked)
    ensures Last(q) == Last(p).(rows := Last(p).rows - {key})
  {
    var s := Last(p);
    DeleteFailedSteps(s, key);
    q := FreeMoves(p, limits, checked, ADeleteGate(0, key), Serving(s, DeleteAllowed(key, true)));
    q := FreeMoves(q, limits, checked, ADeleteRow(0), s.(rows := s.rows - {key}));
  }

  // ---------------------------------------------------------------- gates

  /** Start and stop are for applied notebooks only, delete for applied and failed ones only, and what
      the delete remembers is which of the two it was. */
  lemma GatesAdmitOnly(limits: Limits, s: State, a: Action, s': State)
    requires Step(limits, s, a, s')
    ensures a.AStartReadRows? ==>
              (a.r in s.requests && s.requests[a.r].key in s.rows && EndsIn(s.rows[s.requests[a.r].key], NotebookApplied))
    ensures a.AStopGate? ==> (a.key in s.rows && EndsIn(s.rows[a.key], NotebookApplied))
    ensures a.ADeleteGate? ==>
              (a.key in s.rows && a.r in s'.requests && s'.requests[a.r].DeleteAllowed?
               && (s'.requests[a.r].failed <==> !EndsIn(s.rows[a.key], NotebookApplied))
               && (s'.requests[a.r].failed ==> DeletableFailure(s.rows[a.key])))
  {
    if a.AStartReadRows? {
      assert StartReadRows(s, s', a.r);
    } else if a.AStopGate? {
      assert StopGate(s, s', a.r, a.key);
    } else if a.ADeleteGate? {
      assert DeleteGate(s, s', a.r, a.key);
    }
  }

  /** Any event that stands for a failure, written by today's worker or not. */
  predicate DeletableFailure(row: Row) {
    || EndsIn(row, PvcUploadFailed)
    || EndsIn(row, PvcUploadApplyFailed)
    || EndsIn(row, NotebookApplyFailed)
    || EndsIn(row, PvcCreationFailed)
    || EndsIn(row, PvcApplyFailed)
  }

  // ---------------------------------------------------------------- worker

  /** Worker w is at some point of its work on a row. */
  function Working(s: State, w: nat, key: Key, row: Row, pc: Pc): State {
    s.(rows := s.rows[key := row], jobs := s.jobs[w := Job(pc, row.id, key)])
  }

  function WithEvents(row: Row, events: seq<Event>): Row { row.(picked := true, events := events) }

  /** A scheduled row that nobody is claiming, and a worker that looks for one. */
  predicate MayClaim(s: State, w: nat, key: Key) {
    && w !in s.jobs
    && key in s.rows && !s.rows[key].picked && s.rows[key].events == [Scheduled]
    && (forall v :: v in s.jobs && s.jobs[v].key == key ==> !s.jobs[v].pc.Selecting?)
  }

  lemma ClaimSteps(s: State, w: nat, key: Key)
    requires MayClaim(s, w, key)
    ensures var row := s.rows[key];
            && WorkerStep(s, ASelect(w, key), Working(s, w, key, row, Selecting))
            && WorkerStep(Working(s, w, key, row, Selecting), ACommitClaim(w, true),
                          Working(s, w, key, WithEvents(row, [Scheduled, Picked]), CreatingPvc))
  {
    var row := s.rows[key];
    assert s.rows[key := row] == s.rows;
    assert [Scheduled] + [Picked] == [Scheduled, Picked];
    assert s.jobs[w := Job(Selecting, row.id, key)][w := Job(CreatingPvc, row.id, key)] == s.jobs[w := Job(CreatingPvc, row.id, key)];
  }

  lemma Claimed(p: Run, limits: Limits, checked: bool, w: nat, key: Key) returns (q: Run)
    requires IsPath(p, limits, checked) && MayClaim(Last(p), w, key)
    ensures IsPath(q, limits, checked)
    ensures Last(q) == Working(Last(p), w, key, WithEvents(Last(p).rows[key], [Scheduled, Picked]), CreatingPvc)
  {
    var s := Last(p);
    ClaimSteps(s, w, key);
    q := WorkerMoves(p, limits, checked, ASelect(w, key), Working(s, w, key, s.rows[key], Selecting));
    q := WorkerMoves(q, limits, checked, ACommitClaim(w, true),
                     Working(s, w, key, WithEvents(s.rows[key], [Scheduled, Picked]), CreatingPvc));
  }

  /** One step of a worker's own. */
  lemma WorkerMoves(p: Run, limits: Limits, checked: bool, a: Action, s': State) returns (q: Run)
    requires IsPath(p, limits, checked)
    requires WorkerStep(Last(p), a, s')
    ensures IsPath(q, limits, checked) && Last(q) == s'
  {
    q := Extend(p, limits, checked, a, s');
  }

  /** The world with the volume of a key, and the acknowledgement of it. */
  function VolumeMade(s: State, key: Key, id: nat): State {
    s.(pvcs := s.pvcs + {key}, history := s.history.(pvcOk := s.history.pvcOk + {id}))
  }

  lemma VolumeStep(s: State, w: nat, key: Key, row: Row)
    requires w !in s.jobs && key !in s.pvcs
    ensures WorkerStep(Working(s, w, key, row, CreatingPvc), ACreatePvc(w, true),
                       Working(VolumeMade(s, key, row.id), w, key, row, PvcMade))
  {
    assert s.jobs[w := Job(CreatingPvc, row.id, key)][w := Job(PvcMade, row.id, key)] == s.jobs[w := Job(PvcMade, row.id, key)];
  }

  lemma VolumeStatusStep(s: State, w: nat, key: Key, row: Row)
    requires w !in s.jobs && key in s.rows
    ensures WorkerStep(Working(s, w, key, WithEvents(row, [Scheduled, Picked]), PvcMade), AWriteStatus(w, true, true),
                       Working(s, w, key, WithEvents(row, [Scheduled, Picked, PvcApplied]), CreatingNotebook))
  {
    var r1, r2 := WithEvents(row, [Scheduled, Picked]), WithEvents(row, [Scheduled, Picked, PvcApplied]);
    assert [Scheduled, Picked] + [PvcApplied] == [Scheduled, Picked, PvcApplied];
    assert s.rows[key := r1][key := r2] == s.rows[key := r2];
    assert s.jobs[w := Job(PvcMade, row.id, key)][w := Job(CreatingNotebook, row.id, key)]
        == s.jobs[w := Job(CreatingNotebook, row.id, key)];
  }

  lemma VolumeIsMade(p: Run, limits: Limits, checked: bool, w: nat, key: Key) returns (q: Run)
    requires IsPath(p, limits, checked) && MayClaim(Last(p), w, key) && key !in Last(p).pvcs
    ensures IsPath(q, limits, checked)
    ensures var s := Last(p);
            Last(q) == Working(VolumeMade(s, key, s.rows[key].id), w, key,
                               WithEvents(s.rows[key], [Scheduled, Picked, PvcApplied]), CreatingNotebook)
  {
    var s := Last(p);
    var row := s.rows[key];
    var made := VolumeMade(s, key, row.id);
    q := Claimed(p, limits, checked, w, key);
    VolumeStep(s, w, key, WithEvents(row, [Scheduled, Picked]));
    VolumeStatusStep(made, w, key, row);
    q := WorkerMoves(q, limits, checked, ACreatePvc(w, true), Working(made, w, key, WithEvents(row, [Scheduled, Picked]), PvcMade));
    q := WorkerMoves(q, limits, checked, AWriteStatus(w, true, true),
                     Working(made, w, key, WithEvents(row, [Scheduled, Picked, PvcApplied]), CreatingNotebook));
  }

  const ALL_APPLIED := [Scheduled, Picked, PvcApplied, NotebookApplied]

  function ObjectIsMade(s: State, key: Key, id: nat): State {
    s.(objects := s.objects[key := Obj(false, s.clock)], clock := s.clock + 1,
       history := s.history.(notebookOk := s.history.notebookOk + {id}))
  }

  lemma ObjectStep(s: State, w: nat, key: Key, row: Row)
    requires w !in s.jobs && key !in s.objects
    ensures WorkerStep(Working(s, w, key, row, CreatingNotebook), ACreateNotebook(w, true),
                       Working(ObjectIsMade(s, key, row.id), w, key, row, NotebookMade))
  {
    assert s.jobs[w := Job(CreatingNotebook, row.id, key)][w := Job(NotebookMade, row.id, key)]
        == s.jobs[w := Job(NotebookMade, row.id, key)];
  }

  lemma AppliedStatusStep(s: State, w: nat, key: Key, row: Row)
    requires w !in s.jobs && key in s.rows
    ensures WorkerStep(Working(s, w, key, WithEvents(row, [Scheduled, Picked, PvcApplied]), NotebookMade), AWriteStatus(w, true, true),
                       s.(rows := s.rows[key := WithEvents(row, ALL_APPLIED)]))
  {
    var r2, r3 := WithEvents(row, [Scheduled, Picked, PvcApplied]), WithEvents(row, ALL_APPLIED);
    assert [Scheduled, Picked, PvcApplied] + [NotebookApplied] == ALL_APPLIED;
    assert s.rows[key := r2][key := r3] == s.rows[key := r3];
    assert s.jobs[w := Job(NotebookMade, row.id, key)] - {w} == s.jobs;
  }

  /** A worker that nobody disturbs turns a scheduled row into an applied one with a volume and a
      running object. */
  lemma UndisturbedSpawn(p: Run, limits: Limits, checked: bool, w: nat, key: Key) returns (q: Run)
    requires IsPath(p, limits, checked) && MayClaim(Last(p), w, key)
    requires key !in Last(p).pvcs && key !in Last(p).objects
    ensures IsPath(q, limits, checked)
    ensures var s := Last(p);
            var id := s.rows[key].id;
            Last(q) == s.(rows := s.rows[key := s.rows[key].(picked := true, events := [Scheduled, Picked, PvcApplied, NotebookApplied])],
                          objects := s.objects[key := Obj(false, s.clock)],
                          pvcs := s.pvcs + {key},
                          clock := s.clock + 1,
                          history := s.history.(pvcOk := s.history.pvcOk + {id}, notebookOk := s.history.notebookOk + {id}))
  {
    var s := Last(p);
    var row := s.rows[key];
    var volume := VolumeMade(s, key, row.id);
    var made := ObjectIsMade(volume, key, row.id);
    q := VolumeIsMade(p, limits, checked, w, key);
    ObjectStep(volume, w, key, WithEvents(row, [Scheduled, Picked, PvcApplied]));
    AppliedStatusStep(made, w, key, row);
    q := WorkerMoves(q, limits, checked, ACreateNotebook(w, true),
                     Working(made, w, key, WithEvents(row, [Scheduled, Picked, PvcApplied]), NotebookMade));
    q := WorkerMoves(q, limits, checked, AWriteStatus(w, true, true), made.(rows := s.rows[key := WithEvents(row, ALL_APPLIED)]));
  }

  /** The world once a cleanup for a row has begun. */
  function CleanupBegun(s: State, id: nat): State {
    s.(history := s.history.(cleaned := s.history.cleaned + {id}))
  }

  lemma RefusalStep(s: State, w: nat, key: Key, row: Row, doing: Pc, refused: Pc)
    requires w !in s.jobs
    requires (doing == CreatingPvc && refused == PvcRefused) || (doing == CreatingNotebook && refused == NotebookRefused)
    ensures WorkerStep(Working(s, w, key, row, doing), AGiveUp(w), Working(s, w, key, row, refused))
  {
    assert s.jobs[w := Job(doing, row.id, key)][w := Job(refused, row.id, key)] == s.jobs[w := Job(refused, row.id, key)];
  }

  lemma FailureStatusStep(s: State, w: nat, key: Key, row: Row, row': Row, refused: Pc, e: Event)
    requires w !in s.jobs && key in s.rows && row'.id == row.id
    requires (refused == PvcRefused && e == PvcApplyFailed) || (refused == NotebookRefused && e == NotebookApplyFailed)
    requires row' == row.(events := row.events + [e])
    ensures WorkerStep(Working(s, w, key, row, refused), AWriteStatus(w, true, true),
                       Working(CleanupBegun(s, row.id), w, key, row', CleaningNotebook))
  {
    assert s.rows[key := row][key := row'] == s.rows[key := row'];
    assert s.jobs[w := Job(refused, row.id, key)][w := Job(CleaningNotebook, row.id, key)]
        == s.jobs[w := Job(CleaningNotebook, row.id, key)];
  }

  function Cleaned(s: State, key: Key): State {
    s.(objects := s.objects - {key}, pvcs := s.pvcs - {key})
  }

  lemma CleanSteps(s: State, w: nat, key: Key, row: Row)
    requires w !in s.jobs
    ensures var objectGone := s.(objects := s.objects - {key});
            && WorkerStep(Working(s, w, key, row, CleaningNotebook), ACleanNotebook(w, true), Working(objectGone, w, key, row, CleaningPvc))
            && WorkerStep(Working(objectGone, w, key, row, CleaningPvc), ACleanPvc(w, true), Cleaned(s, key).(rows := s.rows[key := row]))
  {
    assert s.jobs[w := Job(CleaningNotebook, row.id, key)][w := Job(CleaningPvc, row.id, key)] == s.jobs[w := Job(CleaningPvc, row.id, key)];
    assert s.jobs[w := Job(CleaningPvc, row.id, key)] - {w} == s.jobs;
  }

  /** A create that is refused: its failure is written, then the object and the volume are removed. */
  lemma RefusedRun(p: Run, limits: Limits, checked: bool, s: State, w: nat, key: Key, row: Row, doing: Pc, e: Event) returns (q: Run)
    requires IsPath(p, limits, checked) && Last(p) == Working(s, w, key, row, doing)
    requires w !in s.jobs && key in s.rows
    requires (doing == CreatingPvc && e == PvcApplyFailed) || (doing == CreatingNotebook && e == NotebookApplyFailed)
    ensures IsPath(q, limits, checked)
    ensures Last(q) == Cleaned(CleanupBegun(s, row.id), key).(rows := s.rows[key := row.(events := row.events + [e])])
  {
    var row' := row.(events := row.events + [e]);
    var refused := if doing == CreatingPvc then PvcRefused else NotebookRefused;
    var begun := CleanupBegun(s, row.id);
    RefusalStep(s, w, key, row, doing, refused);
    FailureStatusStep(s, w, key, row, row', refused, e);
    CleanSteps(begun, w, key, row');
    q := WorkerMoves(p, limits, checked, AGiveUp(w), Working(s, w, key, row, refused));
    q := WorkerMoves(q, limits, checked, AWriteStatus(w, true, true), Working(begun, w, key, row', CleaningNotebook));
    q := WorkerMoves(q, limits, checked, ACleanNotebook(w, true),
                     Working(begun.(objects := s.objects - {key}), w, key, row', CleaningPvc));
    q := WorkerMoves(q, limits, checked, ACleanPvc(w, true), Cleaned(begun, key).(rows := s.rows[key := row']));
  }

  /** A worker whose volume is refused writes `pvc-apply-failed`, and removes the object and the volume
      of that name, whoever made them. */
  lemma RefusedVolume(p: Run, limits: Limits, checked: bool, w: nat, key: Key) returns (q: Run)
    requires IsPath(p, limits, checked) && MayClaim(Last(p), w, key)
    ensures IsPath(q, limits, checked)
    ensures var s := Last(p);
            Last(q) == s.(rows := s.rows[key := s.rows[key].(picked := true, events := [Scheduled, Picked, PvcApplyFailed])],
                          objects := s.objects - {key}, pvcs := s.pvcs - {key},
                          history := s.history.(cleaned := s.history.cleaned + {s.rows[key].id}))
  {
    var s := Last(p);
    var row := WithEvents(s.rows[key], [Scheduled, Picked]);
    q := Claimed(p, limits, checked, w, key);
    q := RefusedRun(q, limits, checked, s, w, key, row, CreatingPvc, PvcApplyFailed);
    assert [Scheduled, Picked] + [PvcApplyFailed] == [Scheduled, Picked, PvcApplyFailed];
  }

  /** A worker whose object is refused writes `notebook-apply-failed`, and removes the object and its
      volume. */
  lemma RefusedNotebook(p: Run, limits: Limits, checked: bool, w: nat, key: Key) returns (q: Run)
    requires IsPath(p, limits, checked) && MayClaim(Last(p), w, key) && key !in Last(p).pvcs
    ensures IsPath(q, limits, checked)
    ensures var s := Last(p);
            var id := s.rows[key].id;
            Last(q) == s.(rows := s.rows[key := s.rows[key].(picked := true, events := [Scheduled, Picked, PvcApplied, NotebookApplyFailed])],
                          objects := s.objects - {key},
                          history := s.history.(pvcOk := s.history.pvcOk + {id}, cleaned := s.history.cleaned + {id}))
  {
    var s := Last(p);
    var row := WithEvents(s.rows[key], [Scheduled, Picked, PvcApplied]);
    var volume := VolumeMade(s, key, row.id);
    q := VolumeIsMade(p, limits, checked, w, key);
    q := RefusedRun(q, limits, checked, volume, w, key, row, CreatingNotebook, NotebookApplyFailed);
    assert [Scheduled, Picked, PvcApplied] + [NotebookApplyFailed] == [Scheduled, Picked, PvcApplied, NotebookApplyFailed];
    assert s.pvcs + {key} - {key} == s.pvcs;
  }
}
