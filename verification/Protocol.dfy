/** The notebook lifecycle as a step system. Any number of API requests, workers and outside
    controllers interleave; each step below is one database statement or transaction, or one
    Kubernetes call, as the handlers and the worker issue them.

    A request keeps in its own record what the handler keeps in local variables. A call whose reply
    is lost is a step that takes effect without moving the caller on. */
module Protocol {
  import opened Notebooks

  datatype Key = Key(user: string, name: string)

  /** A row of the notebooks table; the table is keyed by its unique (namespace, name). */
  datatype Row = Row(id: nat, kind: Kind, picked: bool, events: seq<Event>)

  /** A Notebook object in the cluster. Every write gives it a version never used before. */
  datatype Obj = Obj(stopped: bool, version: nat)

  datatype Limits = Limits(runningCpu: int, runningGpu: int, totalCpu: int, totalGpu: int) {
    function Running(kind: Kind): int { if kind == Cpu then runningCpu else runningGpu }
    function Total(kind: Kind): int { if kind == Cpu then totalCpu else totalGpu }
  }

  /** What a handler remembers of a row it read. */
  datatype RowView = RowView(kind: Kind, latest: Event)

  datatype Request =
    | CreateLocked(key: Key, kind: Kind)
    | CreateRead(key: Key, kind: Kind, db: map<Key, RowView>)
    | CreateTotalled(key: Key, kind: Kind, db: map<Key, RowView>, totals: Totals)
    | CreateAllowed(key: Key, kind: Kind)
    | StartLocked(key: Key)
    | StartRead(key: Key, kind: Kind, db: map<Key, RowView>)
    | StartAllowed(key: Key, kind: Kind)
    | StartFetched(key: Key, kind: Kind, version: nat)
    | StartDone(key: Key)
    | StopAllowed(key: Key)
    | StopFetched(key: Key, version: nat)
    | DeleteAllowed(key: Key, failed: bool)
    | DeletingNotebook(key: Key)
    | DeletingPvc(key: Key)
  {
    /** Does the request hold its user's profile row lock? */
    predicate Locked() {
      || CreateLocked? || CreateRead? || CreateTotalled? || CreateAllowed?
      || StartLocked? || StartRead? || StartAllowed? || StartFetched? || StartDone?
    }

    predicate Deleting() {
      DeleteAllowed? || DeletingNotebook? || DeletingPvc?
    }

    predicate Stopping() {
      StopAllowed? || StopFetched?
    }
  }

  datatype Totals = Totals(cpu: nat, gpu: nat) {
    function Of(kind: Kind): nat { if kind == Cpu then cpu else gpu }
  }

  /** Where a worker stands: the claim transaction, the create sequence, the deferred cleanup. */
  datatype Pc =
    | Selecting
    | CreatingPvc | PvcMade | PvcRefused
    | CreatingNotebook | NotebookMade | NotebookRefused
    | CleaningNotebook | CleaningPvc

  datatype Job = Job(pc: Pc, id: nat, key: Key)

  /** What the run so far has seen acknowledged; the code never reads it. */
  datatype History = History(pvcOk: set<nat>, notebookOk: set<nat>, cleaned: set<nat>)

  datatype State = State(
    rows: map<Key, Row>,
    objects: map<Key, Obj>,
    pvcs: set<Key>,
    locks: map<string, nat>,
    requests: map<nat, Request>,
    jobs: map<nat, Job>,
    nextId: nat,
    clock: nat,
    history: History)

  function Latest(row: Row): Event {
    if row.events == [] then Scheduled else row.events[|row.events| - 1]
  }

  predicate Live(row: Row) { !Failed(Latest(row)) }

  predicate Applied(row: Row) { Latest(row) == NotebookApplied }

  /** The event column of one user's rows, as a single SELECT returns it. */
  function ReadRows(s: State, user: string): map<Key, RowView> {
    map key | key in s.rows && key.user == user :: RowView(s.rows[key].kind, Latest(s.rows[key]))
  }

  /** A Kubernetes list of one namespace: which objects exist, and whether each is stopped. */
  function ListObjects(s: State, user: string): map<Key, bool> {
    map key | key in s.objects && key.user == user :: s.objects[key].stopped
  }

  predicate CountedRunning(db: map<Key, RowView>, listing: map<Key, bool>, kind: Kind, key: Key) {
    && key in db
    && db[key].kind == kind
    && CountsAsRunning(db[key].latest, key in listing, key in listing && listing[key])
  }

  predicate CountedCreated(db: map<Key, RowView>, listing: map<Key, bool>, kind: Kind, key: Key) {
    && key in db
    && db[key].kind == kind
    && CountsAsCreated(db[key].latest, key in listing)
  }

  /** The rows behind the count of CountEffectiveRunning; Counting.LoopsCountKeys connects the two. */
  function RunningKeys(db: map<Key, RowView>, listing: map<Key, bool>, kind: Kind): set<Key> {
    set key | key in db && CountedRunning(db, listing, kind, key)
  }

  function CreatedKeys(db: map<Key, RowView>, listing: map<Key, bool>, kind: Kind): set<Key> {
    set key | key in db && CountedCreated(db, listing, kind, key)
  }

  predicate Init(s: State) {
    s == State(map[], map[], {}, map[], map[], map[], 0, 0, History({}, {}, {}))
  }

  // ---------------------------------------------------------------- create

  /** FOR UPDATE NOWAIT: a request that finds the lock taken answers 429 and leaves no trace. */
  predicate TakeLock(s: State, s': State, r: nat, request: Request) {
    && r !in s.requests
    && request.key.user !in s.locks
    && s' == s.(locks := s.locks[request.key.user := r], requests := s.requests[r := request])
  }

  predicate Goto(s: State, s': State, r: nat, request: Request) {
    s' == s.(requests := s.requests[r := request])
  }

  predicate CreateReadRows(s: State, s': State, r: nat) {
    && r in s.requests && s.requests[r].CreateLocked?
    && var q := s.requests[r];
       Goto(s, s', r, CreateRead(q.key, q.kind, ReadRows(s, q.key.user)))
  }

  predicate CreateListTotals(s: State, s': State, r: nat) {
    && r in s.requests && s.requests[r].CreateRead?
    && var q := s.requests[r];
       var listing := ListObjects(s, q.key.user);
       var totals := Totals(|CreatedKeys(q.db, listing, Cpu)|, |CreatedKeys(q.db, listing, Gpu)|);
       Goto(s, s', r, CreateTotalled(q.key, q.kind, q.db, totals))
  }

  /** The limit checks of the create handler, in its order; true when one of them refuses. */
  predicate CreateRefused(limits: Limits, kind: Kind, running: Totals, totals: Totals) {
    || (running.cpu >= limits.runningCpu && kind == Cpu)
    || (running.gpu >= limits.runningGpu && kind == Gpu)
    || totals.cpu + totals.gpu >= limits.totalCpu + limits.totalGpu
    || (kind == Cpu && totals.cpu >= limits.totalCpu)
    || (kind == Gpu && totals.gpu >= limits.totalGpu)
  }

  /** The second list and the checks. A refused request ends, which is the End step; so may a GPU
      request that the billing code turns away. */
  predicate CreateListRunning(s: State, s': State, r: nat, limits: Limits) {
    && r in s.requests && s.requests[r].CreateTotalled?
    && var q := s.requests[r];
       var listing := ListObjects(s, q.key.user);
       var running := Totals(|RunningKeys(q.db, listing, Cpu)|, |RunningKeys(q.db, listing, Gpu)|);
       && !CreateRefused(limits, q.kind, running, q.totals)
       && Goto(s, s', r, CreateAllowed(q.key, q.kind))
  }

  /** Insert and commit: the row appears and the lock goes, together. */
  predicate CommitCreate(s: State, s': State, r: nat) {
    && r in s.requests && s.requests[r].CreateAllowed?
    && s.requests[r].key !in s.rows
    && var q := s.requests[r];
       s' == s.(rows := s.rows[q.key := Row(s.nextId, q.kind, false, [Scheduled])],
                nextId := s.nextId + 1,
                locks := s.locks - {q.key.user},
                requests := s.requests - {r})
  }

  // ---------------------------------------------------------------- start

  predicate StartReadRows(s: State, s': State, r: nat) {
    && r in s.requests && s.requests[r].StartLocked?
    && var q := s.requests[r];
       && q.key in s.rows
       && Applied(s.rows[q.key])
       && Goto(s, s', r, StartRead(q.key, s.rows[q.key].kind, ReadRows(s, q.key.user)))
  }

  predicate StartListRunning(s: State, s': State, r: nat, limits: Limits) {
    && r in s.requests && s.requests[r].StartRead?
    && var q := s.requests[r];
       && |RunningKeys(q.db, ListObjects(s, q.key.user), q.kind)| < limits.Running(q.kind)
       && Goto(s, s', r, StartAllowed(q.key, q.kind))
  }

  /** The Get before the annotation is removed; without the annotation there is nothing to do. */
  predicate StartFetch(s: State, s': State, r: nat) {
    && r in s.requests && s.requests[r].StartAllowed?
    && var q := s.requests[r];
       && q.key in s.objects
       && Goto(s, s', r, if s.objects[q.key].stopped then StartFetched(q.key, q.kind, s.objects[q.key].version)
                         else StartDone(q.key))
  }

  /** The Update succeeds only on the version that was read. */
  predicate StartUpdate(s: State, s': State, r: nat) {
    && r in s.requests && s.requests[r].StartFetched?
    && var q := s.requests[r];
       && q.key in s.objects && s.objects[q.key].version == q.version
       && s' == s.(objects := s.objects[q.key := Obj(false, s.clock)],
                   clock := s.clock + 1,
                   requests := s.requests[r := StartDone(q.key)])
  }

  // ---------------------------------------------------------------- stop

  predicate StopGate(s: State, s': State, r: nat, key: Key) {
    && r !in s.requests
    && key in s.rows && Applied(s.rows[key])
    && Goto(s, s', r, StopAllowed(key))
  }

  predicate StopFetch(s: State, s': State, r: nat) {
    && r in s.requests && s.requests[r].StopAllowed?
    && var q := s.requests[r];
       && q.key in s.objects
       && Goto(s, s', r, StopFetched(q.key, s.objects[q.key].version))
  }

  predicate StopUpdate(s: State, s': State, r: nat) {
    && r in s.requests && s.requests[r].StopFetched?
    && var q := s.requests[r];
       && q.key in s.objects && s.objects[q.key].version == q.version
       && s' == s.(objects := s.objects[q.key := Obj(true, s.clock)],
                   clock := s.clock + 1,
                   requests := s.requests - {r})
  }

  // ---------------------------------------------------------------- delete

  predicate DeleteGate(s: State, s': State, r: nat, key: Key) {
    && r !in s.requests
    && key in s.rows && (Applied(s.rows[key]) || !Live(s.rows[key]))
    && Goto(s, s', r, DeleteAllowed(key, !Live(s.rows[key])))
  }

  /** DELETE by name; it waits for a claim transaction that holds the row. A failed notebook has
      nothing in the cluster for this handler to remove. */
  predicate DeleteRow(s: State, s': State, r: nat) {
    && r in s.requests && s.requests[r].DeleteAllowed?
    && var q := s.requests[r];
       && (forall w :: w in s.jobs && s.jobs[w].key == q.key ==> !s.jobs[w].pc.Selecting?)
       && s' == s.(rows := s.rows - {q.key},
                   requests := if q.failed then s.requests - {r} else s.requests[r := DeletingNotebook(q.key)])
  }

  /** One attempt to delete the object; without an acknowledgement the request tries again. */
  predicate DeleteObject(s: State, s': State, r: nat, acked: bool) {
    && r in s.requests && s.requests[r].DeletingNotebook?
    && var q := s.requests[r];
       s' == s.(objects := s.objects - {q.key},
                requests := if acked then s.requests[r := DeletingPvc(q.key)] else s.requests)
  }

  predicate DeletePvc(s: State, s': State, r: nat, acked: bool) {
    && r in s.requests && s.requests[r].DeletingPvc?
    && var q := s.requests[r];
       s' == s.(pvcs := s.pvcs - {q.key},
                requests := if acked then s.requests - {r} else s.requests)
  }

  /** Any request may return at any point: refused, failed, cancelled, or finished. Its transaction,
      if it has one, is rolled back or has nothing left to commit, and the lock goes. */
  predicate End(s: State, s': State, r: nat) {
    && r in s.requests
    && var q := s.requests[r];
       s' == s.(locks := if q.Locked() then s.locks - {q.key.user} else s.locks,
                requests := s.requests - {r})
  }

  // ---------------------------------------------------------------- worker

  /** SELECT ... WHERE picked_at IS NULL FOR UPDATE SKIP LOCKED LIMIT 1. */
  predicate Select(s: State, s': State, w: nat, key: Key) {
    && w !in s.jobs
    && key in s.rows && !s.rows[key].picked
    && (forall v :: v in s.jobs && s.jobs[v].key == key ==> !s.jobs[v].pc.Selecting?)
    && s' == s.(jobs := s.jobs[w := Job(Selecting, s.rows[key].id, key)])
  }

  /** The claim commits. If the reply is lost the retry loop starts over, without this row. */
  predicate CommitClaim(s: State, s': State, w: nat, acked: bool) {
    && w in s.jobs && s.jobs[w].pc.Selecting?
    && s.jobs[w].key in s.rows
    && var j := s.jobs[w];
       var row := s.rows[j.key];
       s' == s.(rows := s.rows[j.key := row.(picked := true, events := row.events + [Picked])],
                jobs := if acked then s.jobs[w := j.(pc := CreatingPvc)] else s.jobs - {w})
  }

  /** One attempt to create the volume; an existing one makes the API server refuse. */
  predicate CreatePvc(s: State, s': State, w: nat, acked: bool) {
    && w in s.jobs && s.jobs[w].pc.CreatingPvc?
    && s.jobs[w].key !in s.pvcs
    && var j := s.jobs[w];
       s' == s.(pvcs := s.pvcs + {j.key},
                history := if acked then s.history.(pvcOk := s.history.pvcOk + {j.id}) else s.history,
                jobs := if acked then s.jobs[w := j.(pc := PvcMade)] else s.jobs)
  }

  predicate CreateNotebook(s: State, s': State, w: nat, acked: bool) {
    && w in s.jobs && s.jobs[w].pc.CreatingNotebook?
    && s.jobs[w].key !in s.objects
    && var j := s.jobs[w];
       s' == s.(objects := s.objects[j.key := Obj(false, s.clock)],
                clock := s.clock + 1,
                history := if acked then s.history.(notebookOk := s.history.notebookOk + {j.id}) else s.history,
                jobs := if acked then s.jobs[w := j.(pc := NotebookMade)] else s.jobs)
  }

  /** A create call gives up: the object is there already, attempts or time ran out. */
  predicate GiveUp(s: State, s': State, w: nat) {
    && w in s.jobs
    && var j := s.jobs[w];
       && (j.pc.CreatingPvc? || j.pc.CreatingNotebook?)
       && s' == s.(jobs := s.jobs[w := j.(pc := if j.pc.CreatingPvc? then PvcRefused else NotebookRefused)])
  }

  function StatusFor(pc: Pc): Event {
    match pc
    case PvcMade => PvcApplied
    case PvcRefused => PvcApplyFailed
    case NotebookMade => NotebookApplied
    case _ => NotebookApplyFailed
  }

  /** UPDATE ... WHERE id: a row that is gone is silently left alone. */
  function AppendStatus(rows: map<Key, Row>, j: Job, status: Event): map<Key, Row> {
    if j.key in rows && rows[j.key].id == j.id
    then rows[j.key := rows[j.key].(events := rows[j.key].events + [status])]
    else rows
  }

  /** Writing the status. Only the acknowledged `pvc-applied` leads on; `notebook-applied` ends the
      job whatever the reply; everything else leaves through the deferred cleanup. */
  predicate WriteStatus(s: State, s': State, w: nat, took: bool, acked: bool) {
    && w in s.jobs
    && (acked ==> took)
    && var j := s.jobs[w];
       && (j.pc.PvcMade? || j.pc.PvcRefused? || j.pc.NotebookMade? || j.pc.NotebookRefused?)
       && var cleanup := j.pc.PvcRefused? || j.pc.NotebookRefused? || (j.pc.PvcMade? && !acked);
          s' == s.(rows := if took then AppendStatus(s.rows, j, StatusFor(j.pc)) else s.rows,
                   history := if cleanup then s.history.(cleaned := s.history.cleaned + {j.id}) else s.history,
                   jobs := if cleanup then s.jobs[w := j.(pc := CleaningNotebook)]
                           else if j.pc.PvcMade? then s.jobs[w := j.(pc := CreatingNotebook)]
                           else s.jobs - {w})
  }

  predicate CleanNotebook(s: State, s': State, w: nat, acked: bool) {
    && w in s.jobs && s.jobs[w].pc.CleaningNotebook?
    && var j := s.jobs[w];
       s' == s.(objects := s.objects - {j.key},
                jobs := if acked then s.jobs[w := j.(pc := CleaningPvc)] else s.jobs)
  }

  /** Deleting the object failed for good; the cleanup goes on to the volume. */
  predicate SkipClean(s: State, s': State, w: nat) {
    && w in s.jobs && s.jobs[w].pc.CleaningNotebook?
    && s' == s.(jobs := s.jobs[w := s.jobs[w].(pc := CleaningPvc)])
  }

  predicate CleanPvc(s: State, s': State, w: nat, acked: bool) {
    && w in s.jobs && s.jobs[w].pc.CleaningPvc?
    && s' == s.(pvcs := s.pvcs - {s.jobs[w].key},
                jobs := if acked then s.jobs - {w} else s.jobs)
  }

  /** The claim transaction is rolled back, the cleanup ends, or the worker process dies. */
  predicate Drop(s: State, s': State, w: nat) {
    && w in s.jobs
    && s' == s.(jobs := s.jobs - {w})
  }

  // ---------------------------------------------------------------- outside

  /** The idle culler, or the credit cron, adds the stop annotation. */
  predicate OutsideStop(s: State, s': State, key: Key) {
    && key in s.objects
    && s' == s.(objects := s.objects[key := Obj(true, s.clock)], clock := s.clock + 1)
  }

  /** Somebody removes an object by hand, which the API later reports as orphaned. */
  predicate OutsideDelete(s: State, s': State, key: Key) {
    s' == s.(objects := s.objects - {key})
  }

  datatype Action =
    | ABeginCreate(r: nat, key: Key, kind: Kind)
    | ACreateReadRows(r: nat)
    | ACreateListTotals(r: nat)
    | ACreateListRunning(r: nat)
    | ACommitCreate(r: nat)
    | ABeginStart(r: nat, key: Key)
    | AStartReadRows(r: nat)
    | AStartListRunning(r: nat)
    | AStartFetch(r: nat)
    | AStartUpdate(r: nat)
    | AStopGate(r: nat, key: Key)
    | AStopFetch(r: nat)
    | AStopUpdate(r: nat)
    | ADeleteGate(r: nat, key: Key)
    | ADeleteRow(r: nat)
    | ADeleteObject(r: nat, acked: bool)
    | ADeletePvc(r: nat, acked: bool)
    | AEnd(r: nat)
    | ASelect(w: nat, key: Key)
    | ACommitClaim(w: nat, acked: bool)
    | ACreatePvc(w: nat, acked: bool)
    | ACreateNotebook(w: nat, acked: bool)
    | AGiveUp(w: nat)
    | AWriteStatus(w: nat, took: bool, acked: bool)
    | ACleanNotebook(w: nat, acked: bool)
    | ASkipClean(w: nat)
    | ACleanPvc(w: nat, acked: bool)
    | ADrop(w: nat)
    | AOutsideStop(key: Key)
    | AOutsideDelete(key: Key)

  predicate CreateStep(limits: Limits, s: State, a: Action, s': State) {
    match a
    case ABeginCreate(r, key, kind) => TakeLock(s, s', r, CreateLocked(key, kind))
    case ACreateReadRows(r) => CreateReadRows(s, s', r)
    case ACreateListTotals(r) => CreateListTotals(s, s', r)
    case ACreateListRunning(r) => CreateListRunning(s, s', r, limits)
    case ACommitCreate(r) => CommitCreate(s, s', r)
    case _ => false
  }

  predicate StartStep(limits: Limits, s: State, a: Action, s': State) {
    match a
    case ABeginStart(r, key) => TakeLock(s, s', r, StartLocked(key))
    case AStartReadRows(r) => StartReadRows(s, s', r)
    case AStartListRunning(r) => StartListRunning(s, s', r, limits)
    case AStartFetch(r) => StartFetch(s, s', r)
    case AStartUpdate(r) => StartUpdate(s, s', r)
    case _ => false
  }

  /** The requests that never take the lock, and the end of any request. */
  predicate FreeStep(s: State, a: Action, s': State) {
    match a
    case AStopGate(r, key) => StopGate(s, s', r, key)
    case AStopFetch(r) => StopFetch(s, s', r)
    case AStopUpdate(r) => StopUpdate(s, s', r)
    case ADeleteGate(r, key) => DeleteGate(s, s', r, key)
    case ADeleteRow(r) => DeleteRow(s, s', r)
    case ADeleteObject(r, acked) => DeleteObject(s, s', r, acked)
    case ADeletePvc(r, acked) => DeletePvc(s, s', r, acked)
    case AEnd(r) => End(s, s', r)
    case _ => false
  }

  predicate WorkerStep(s: State, a: Action, s': State) {
    match a
    case ASelect(w, key) => Select(s, s', w, key)
    case ACommitClaim(w, acked) => CommitClaim(s, s', w, acked)
    case ACreatePvc(w, acked) => CreatePvc(s, s', w, acked)
    case ACreateNotebook(w, acked) => CreateNotebook(s, s', w, acked)
    case AGiveUp(w) => GiveUp(s, s', w)
    case AWriteStatus(w, took, acked) => WriteStatus(s, s', w, took, acked)
    case ACleanNotebook(w, acked) => CleanNotebook(s, s', w, acked)
    case ASkipClean(w) => SkipClean(s, s', w)
    case ACleanPvc(w, acked) => CleanPvc(s, s', w, acked)
    case ADrop(w) => Drop(s, s', w)
    case _ => false
  }

  predicate OutsideStep(s: State, a: Action, s': State) {
    match a
    case AOutsideStop(key) => OutsideStop(s, s', key)
    case AOutsideDelete(key) => OutsideDelete(s, s', key)
    case _ => false
  }

  predicate Step(limits: Limits, s: State, a: Action, s': State) {
    || CreateStep(limits, s, a, s')
    || StartStep(limits, s, a, s')
    || FreeStep(s, a, s')
    || WorkerStep(s, a, s')
    || OutsideStep(s, a, s')
  }

  // ---------------------------------------------------------------- environment

  /** The row, if there is one, has reached its last event. */
  predicate Settled(rows: map<Key, Row>, key: Key) {
    key in rows ==> Applied(rows[key]) || !Live(rows[key])
  }

  /** No older worker and no older delete still works on the name. The strict form also rules out
      an older object and an older stop. */
  predicate FreshName(s: State, key: Key, strict: bool) {
    && (forall w :: w in s.jobs ==> s.jobs[w].key != key)
    && (forall r :: r in s.requests && s.requests[r].Deleting() ==> s.requests[r].key != key)
    && (strict ==>
          && key !in s.objects
          && (forall r :: r in s.requests && s.requests[r].Stopping() ==> s.requests[r].key != key))
  }

  /** What the surroundings owe the protocol. Nobody outside removes the stop annotation: there is
      no such step. The strict form asks outside controllers to leave a notebook alone until its
      row says it was applied or failed. */
  predicate Env(s: State, a: Action, strict: bool) {
    match a
    case ACommitCreate(r) => r in s.requests ==> FreshName(s, s.requests[r].key, strict)
    case AOutsideStop(key) => strict ==> Settled(s.rows, key)
    case AOutsideDelete(key) => Settled(s.rows, key)
    case _ => true
  }

  datatype Run = Run(states: seq<State>, actions: seq<Action>)

  /** A run of the code in surroundings that keep their side. */
  ghost predicate IsRun(run: Run, limits: Limits, strict: bool) {
    && IsRawRun(run, limits)
    && (forall i :: 0 <= i < |run.actions| ==> Env(run.states[i], run.actions[i], strict))
  }

  /** A run of the code in any surroundings. */
  ghost predicate IsRawRun(run: Run, limits: Limits) {
    && |run.states| == |run.actions| + 1
    && Init(run.states[0])
    && (forall i :: 0 <= i < |run.actions| ==> Step(limits, run.states[i], run.actions[i], run.states[i + 1]))
  }

  // ---------------------------------------------------------------- measures

  predicate LaunchingPc(pc: Pc) { pc.CreatingPvc? || pc.PvcMade? || pc.CreatingNotebook? }

  /** A worker may still bring the row's object into being. */
  predicate Launching(s: State, key: Key) {
    && key in s.rows
    && (!s.rows[key].picked || exists w :: w in s.jobs && s.jobs[w].key == key && LaunchingPc(s.jobs[w].pc))
  }

  /** The row holds a running slot: its object runs, or a worker may yet start one. */
  predicate HoldsSlot(s: State, key: Key) {
    && key in s.rows
    && Live(s.rows[key])
    && (if key in s.objects then !s.objects[key].stopped else Launching(s, key))
  }

  /** The row is running by the API's own count, taken at one instant. */
  predicate CountsNow(s: State, key: Key) {
    && key in s.rows
    && CountsAsRunning(Latest(s.rows[key]), key in s.objects, key in s.objects && s.objects[key].stopped)
  }

  /** The two readings of "running": the slots really taken, or (strict) the API's own count. */
  predicate Busy(s: State, key: Key, strict: bool) {
    if strict then CountsNow(s, key) else HoldsSlot(s, key)
  }

  predicate Created(s: State, key: Key) {
    && key in s.rows
    && CountsAsCreated(Latest(s.rows[key]), key in s.objects)
  }

  predicate Mine(s: State, key: Key, user: string, kind: Kind) {
    key in s.rows && key.user == user && s.rows[key].kind == kind
  }

  function BusyKeys(s: State, user: string, kind: Kind, strict: bool): set<Key> {
    set key | key in s.rows && Mine(s, key, user, kind) && Busy(s, key, strict)
  }

  function CreatedNow(s: State, user: string, kind: Kind): set<Key> {
    set key | key in s.rows && Mine(s, key, user, kind) && Created(s, key)
  }
}
