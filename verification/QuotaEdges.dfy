/** Where the quota argument ends: what an unlocked step has to do to raise the API's own count, and
    two reachable runs in which a limit is exceeded because the surroundings do not keep their side. */
module QuotaEdges {
  import opened Notebooks
  import opened Protocol
  import opened ProtocolInvariant
  import opened Sets
  import opened UnlockedSteps
  import opened Quota

  lemma UncoveredRaises(limits: Limits, s: State, a: Action, s': State, key: Key)
    requires Step(limits, s, a, s')
    requires Uncovers(s, s', key)
    ensures CountsNow(s', key) && !CountsNow(s, key)
  {
    StepFrame(limits, s, a, s');
  }

  lemma CoveredDoesNotRise(limits: Limits, s: State, a: Action, s': State, user: string, key: Key)
    requires Inv(s, false)
    requires Step(limits, s, a, s') && Env(s, a, false)
    requires !Raises(s, a, user)
    requires !exists other: Key :: other.user == user && Uncovers(s, s', other)
    requires key.user == user && CountsNow(s', key)
    ensures CountsNow(s, key)
  {
    StepShrinksUnlessUncovered(limits, s, a, s', user, true);
    assert Busy(s', key, true) ==> Busy(s, key, true);
  }

  /** A step that takes no quota decision raises a user's count exactly when it removes a stopped
      object under a row that has not reached its last event. */
  lemma CountRisesExactlyWhenUncovered(limits: Limits, s: State, a: Action, s': State, user: string)
    requires Inv(s, false)
    requires Step(limits, s, a, s') && Env(s, a, false)
    requires !Raises(s, a, user)
    ensures (exists key: Key :: key.user == user && CountsNow(s', key) && !CountsNow(s, key))
       <==> (exists key: Key :: key.user == user && Uncovers(s, s', key))
  {
    if key: Key :| key.user == user && Uncovers(s, s', key) {
      UncoveredRaises(limits, s, a, s', key);
    } else {
      forall key: Key | key.user == user && CountsNow(s', key)
        ensures CountsNow(s, key)
      {
        CoveredDoesNotRise(limits, s, a, s', user, key);
      }
    }
  }

  // ---------------------------------------------------------------- building runs

  ghost predicate Permitted(s: State, a: Action, checked: bool) { checked ==> Env(s, a, false) }

  /** A run that keeps the environment rules if `checked`, and any run of the code otherwise. */
  ghost predicate IsPath(p: Run, limits: Limits, checked: bool) {
    && IsRawRun(p, limits)
    && (forall i :: 0 <= i < |p.actions| ==> Permitted(p.states[i], p.actions[i], checked))
  }

  ghost function Last(p: Run): State
    requires p.states != []
  {
    p.states[|p.states| - 1]
  }

  /** The second run goes on from where the first ends. */
  predicate Continues(p: Run, q: Run) { p.states <= q.states && p.actions <= q.actions }

  lemma Extend(p: Run, limits: Limits, checked: bool, a: Action, s': State) returns (q: Run)
    requires IsPath(p, limits, checked)
    requires Step(limits, Last(p), a, s') && Permitted(Last(p), a, checked)
    ensures IsPath(q, limits, checked) && Last(q) == s'
    ensures Continues(p, q) && q.actions == p.actions + [a]
  {
    q := Run(p.states + [s'], p.actions + [a]);
    forall i | 0 <= i < |q.actions|
      ensures Step(limits, q.states[i], q.actions[i], q.states[i + 1])
      ensures Permitted(q.states[i], q.actions[i], checked)
    {
      if i < |p.actions| {
        assert q.states[i] == p.states[i] && q.states[i + 1] == p.states[i + 1] && q.actions[i] == p.actions[i];
        assert Step(limits, p.states[i], p.actions[i], p.states[i + 1]);
      } else {
        assert q.states[i] == Last(p) && q.actions[i] == a && q.states[i + 1] == s';
      }
    }
  }

  function RunningNow(s: State, user: string): Totals {
    var db, listing := ReadRows(s, user), ListObjects(s, user);
    Totals(|RunningKeys(db, listing, Cpu)|, |RunningKeys(db, listing, Gpu)|)
  }

  function TotalsNow(s: State, user: string): Totals {
    var db, listing := ReadRows(s, user), ListObjects(s, user);
    Totals(|CreatedKeys(db, listing, Cpu)|, |CreatedKeys(db, listing, Gpu)|)
  }

  function WithRow(s: State, key: Key, kind: Kind): State {
    s.(rows := s.rows[key := Row(s.nextId, kind, false, [Scheduled])], nextId := s.nextId + 1)
  }

  /** The state with request 0 at work on behalf of a user. */
  function Holding(s: State, q: Request): State {
    s.(locks := s.locks[q.key.user := 0], requests := s.requests[0 := q])
  }

  lemma UndisturbedRead(s: State, limits: Limits, key: Key, kind: Kind)
    requires key.user !in s.locks && 0 !in s.requests
    ensures var locked := Holding(s, CreateLocked(key, kind));
            var read := Holding(s, CreateRead(key, kind, ReadRows(s, key.user)));
            && Step(limits, s, ABeginCreate(0, key, kind), locked)
            && Step(limits, locked, ACreateReadRows(0), read)
  {
    var locked := Holding(s, CreateLocked(key, kind));
    assert ReadRows(locked, key.user) == ReadRows(s, key.user);
    assert locked.requests[0 := CreateRead(key, kind, ReadRows(s, key.user))]
        == s.requests[0 := CreateRead(key, kind, ReadRows(s, key.user))];
  }

  lemma UndisturbedCounts(s: State, limits: Limits, key: Key, kind: Kind)
    requires !CreateRefused(limits, kind, RunningNow(s, key.user), TotalsNow(s, key.user))
    ensures var db := ReadRows(s, key.user);
            var read := Holding(s, CreateRead(key, kind, db));
            var totalled := Holding(s, CreateTotalled(key, kind, db, TotalsNow(s, key.user)));
            var allowed := Holding(s, CreateAllowed(key, kind));
            && CreateListTotals(read, totalled, 0)
            && CreateListRunning(totalled, allowed, 0, limits)
  {
    var db := ReadRows(s, key.user);
    var read := Holding(s, CreateRead(key, kind, db));
    var totalled := Holding(s, CreateTotalled(key, kind, db, TotalsNow(s, key.user)));
    assert ListObjects(read, key.user) == ListObjects(s, key.user) == ListObjects(totalled, key.user);
    assert read.requests[0 := totalled.requests[0]] == totalled.requests;
    assert totalled.requests[0 := CreateAllowed(key, kind)] == s.requests[0 := CreateAllowed(key, kind)];
  }

  lemma UndisturbedCommit(s: State, limits: Limits, key: Key, kind: Kind)
    requires key.user !in s.locks && 0 !in s.requests && key !in s.rows
    ensures CommitCreate(Holding(s, CreateAllowed(key, kind)), WithRow(s, key, kind), 0)
  {
    var allowed := Holding(s, CreateAllowed(key, kind));
    assert allowed.locks - {key.user} == s.locks && allowed.requests - {0} == s.requests;
  }

  lemma FreshForHolder(s: State, key: Key, kind: Kind)
    requires FreshName(s, key, false) && 0 !in s.requests
    ensures FreshName(Holding(s, CreateAllowed(key, kind)), key, false)
  {
  }

  /** The state in which nobody disturbs a create of this notebook. */
  ghost predicate Undisturbed(s: State, limits: Limits, checked: bool, key: Key, kind: Kind) {
    && key.user !in s.locks && 0 !in s.requests && key !in s.rows
    && !CreateRefused(limits, kind, RunningNow(s, key.user), TotalsNow(s, key.user))
    && (checked ==> FreshName(s, key, false))
  }

  lemma ReadingRuns(p: Run, limits: Limits, checked: bool, key: Key, kind: Kind) returns (q: Run)
    requires IsPath(p, limits, checked) && Undisturbed(Last(p), limits, checked, key, kind)
    ensures IsPath(q, limits, checked)
    ensures Last(q) == Holding(Last(p), CreateRead(key, kind, ReadRows(Last(p), key.user)))
    ensures Continues(p, q)
  {
    var s := Last(p);
    UndisturbedRead(s, limits, key, kind);
    q := Extend(p, limits, checked, ABeginCreate(0, key, kind), Holding(s, CreateLocked(key, kind)));
    q := Extend(q, limits, checked, ACreateReadRows(0), Holding(s, CreateRead(key, kind, ReadRows(s, key.user))));
  }

  /** A create that nobody disturbs goes through whenever the limits allow it. */
  lemma UndisturbedCreate(p: Run, limits: Limits, checked: bool, key: Key, kind: Kind) returns (q: Run)
    requires IsPath(p, limits, checked) && Undisturbed(Last(p), limits, checked, key, kind)
    ensures IsPath(q, limits, checked)
    ensures Last(q) == WithRow(Last(p), key, kind)
    ensures Continues(p, q)
  {
    var s := Last(p);
    q := ReadingRuns(p, limits, checked, key, kind);
    UndisturbedCounts(s, limits, key, kind);
    UndisturbedCommit(s, limits, key, kind);
    q := Extend(q, limits, checked, ACreateListTotals(0),
                Holding(s, CreateTotalled(key, kind, ReadRows(s, key.user), TotalsNow(s, key.user))));
    q := Extend(q, limits, checked, ACreateListRunning(0), Holding(s, CreateAllowed(key, kind)));
    if checked {
      FreshForHolder(s, key, kind);
    }
    q := Extend(q, limits, checked, ACommitCreate(0), WithRow(s, key, kind));
  }

  // ---------------------------------------------------------------- two runs over the limit

  const A := Key("user", "a")
  const B := Key("user", "b")
  const ONE_EACH := Limits(1, 1, 5, 5)

  const ARRIVING := [Scheduled, Picked, PvcApplied]

  /** Worker 0 has claimed row 0 under A, made its volume, and is about to create its object. */
  function Launched(): State {
    State(map[A := Row(0, Cpu, true, ARRIVING)], map[], {A}, map[], map[],
          map[0 := Job(CreatingNotebook, 0, A)], 1, 0, History({0}, {}, {}))
  }

  function Claimed(pc: Pc, pvcs: set<Key>, pvcOk: set<nat>): State {
    State(map[A := Row(0, Cpu, true, [Scheduled, Picked])], map[], pvcs, map[], map[],
          map[0 := Job(pc, 0, A)], 1, 0, History(pvcOk, {}, {}))
  }

  function FirstRow(jobs: map<nat, Job>): State {
    State(map[A := Row(0, Cpu, false, [Scheduled])], map[], {}, map[], map[], jobs, 1, 0, History({}, {}, {}))
  }

  lemma FirstCreate(checked: bool) returns (p: Run)
    ensures IsPath(p, ONE_EACH, checked) && Last(p) == FirstRow(map[])
  {
    var s := State(map[], map[], {}, map[], map[], map[], 0, 0, History({}, {}, {}));
    p := Run([s], []);
    assert RunningKeys(ReadRows(s, "user"), ListObjects(s, "user"), Cpu) == {};
    assert CreatedKeys(ReadRows(s, "user"), ListObjects(s, "user"), Cpu) == {};
    assert CreatedKeys(ReadRows(s, "user"), ListObjects(s, "user"), Gpu) == {};
    p := UndisturbedCreate(p, ONE_EACH, checked, A, Cpu);
  }

  lemma FirstClaim(checked: bool) returns (p: Run)
    ensures IsPath(p, ONE_EACH, checked) && Last(p) == Claimed(CreatingPvc, {}, {})
  {
    p := FirstCreate(checked);
    var selecting := FirstRow(map[0 := Job(Selecting, 0, A)]);
    p := Extend(p, ONE_EACH, checked, ASelect(0, A), selecting);
    var claimed := Claimed(CreatingPvc, {}, {});
    assert [Scheduled] + [Picked] == [Scheduled, Picked];
    assert selecting.rows[A := claimed.rows[A]] == claimed.rows;
    p := Extend(p, ONE_EACH, checked, ACommitClaim(0, true), claimed);
  }

  lemma FirstLaunch(checked: bool) returns (p: Run)
    ensures IsPath(p, ONE_EACH, checked) && Last(p) == Launched()
  {
    p := FirstClaim(checked);
    p := Extend(p, ONE_EACH, checked, ACreatePvc(0, true), Claimed(PvcMade, {A}, {0}));
    assert [Scheduled, Picked] + [PvcApplied] == ARRIVING;
    p := Extend(p, ONE_EACH, checked, AWriteStatus(0, true, true), Launched());
  }

  /** A second row beside the first, whose object is there and stopped. */
  function Beside(rowA: Row, objects: map<Key, Obj>, requests: map<nat, Request>, jobs: map<nat, Job>, h: History): State {
    State(map[A := rowA, B := Row(rowA.id + 1, Cpu, false, [Scheduled])], objects, {A}, map[], requests, jobs,
          rowA.id + 2, 2, h)
  }

  lemma HiddenRowAllowsAnother(s: State, rowA: Row)
    requires s.rows == map[A := rowA] && s.objects == map[A := Obj(true, 1)] && rowA.kind == Cpu
    ensures !CreateRefused(ONE_EACH, Cpu, RunningNow(s, "user"), TotalsNow(s, "user"))
  {
    var db, listing := ReadRows(s, "user"), ListObjects(s, "user");
    assert RunningKeys(db, listing, Cpu) == {};
    SubsetCard(CreatedKeys(db, listing, Cpu), {A});
    assert CreatedKeys(db, listing, Gpu) == {};
  }

  /** With A stopped before its row is applied, the API lets a second notebook in. */
  lemma CreateBeside(p: Run, rowA: Row, requests: map<nat, Request>, jobs: map<nat, Job>, h: History, checked: bool)
    returns (q: Run)
    requires IsPath(p, ONE_EACH, checked)
    requires Last(p) == State(map[A := rowA], map[A := Obj(true, 1)], {A}, map[], requests, jobs, rowA.id + 1, 2, h)
    requires rowA.kind == Cpu && 0 !in requests
    requires checked ==> FreshName(Last(p), B, false)
    ensures IsPath(q, ONE_EACH, checked)
    ensures Last(q) == Beside(rowA, map[A := Obj(true, 1)], requests, jobs, h)
    ensures Continues(p, q)
  {
    HiddenRowAllowsAnother(Last(p), rowA);
    q := UndisturbedCreate(p, ONE_EACH, checked, B, Cpu);
  }

  /** Row 0 under A on its way, its object created without the worker hearing of it, then stopped. */
  lemma StoppedEarly() returns (p: Run)
    ensures IsPath(p, ONE_EACH, true)
    ensures Last(p) == State(map[A := Row(0, Cpu, true, ARRIVING)], map[A := Obj(true, 1)], {A}, map[], map[],
                             map[0 := Job(CreatingNotebook, 0, A)], 1, 2, History({0}, {}, {}))
  {
    p := FirstLaunch(true);
    var s := Launched();
    p := Extend(p, ONE_EACH, true, ACreateNotebook(0, false), s.(objects := map[A := Obj(false, 0)], clock := 1));
    p := Extend(p, ONE_EACH, true, AOutsideStop(A), s.(objects := map[A := Obj(true, 1)], clock := 2));
  }

  /** A create whose reply was lost, a stop from outside before the row is applied, a failed status
      write: the cleanup then removes a stopped object, and the API counts two of one. The slots
      really taken stay within the limit. */
  lemma EffectiveCountCanExceed() returns (run: Run)
    ensures IsRun(run, ONE_EACH, false)
    ensures |EffectiveKeys(Last(run), "user", Cpu)| == 2 > ONE_EACH.runningCpu
  {
    run := StoppedEarly();
    var rowA, job := Row(0, Cpu, true, ARRIVING), Job(CreatingNotebook, 0, A);
    run := CreateBeside(run, rowA, map[], map[0 := job], History({0}, {}, {}), true);
    run := FailAndClean(run);
    assert EffectiveKeys(Last(run), "user", Cpu) == {A, B};
  }

  /** The state after the second create, with worker 0 somewhere on its way out. */
  function Leaving(objects: map<Key, Obj>, pc: Pc, cleaned: set<nat>): State {
    Beside(Row(0, Cpu, true, ARRIVING), objects, map[], map[0 := Job(pc, 0, A)], History({0}, {}, cleaned))
  }

  lemma FailStep()
    ensures WorkerStep(Leaving(map[A := Obj(true, 1)], NotebookRefused, {}), AWriteStatus(0, false, false),
                       Leaving(map[A := Obj(true, 1)], CleaningNotebook, {0}))
  {
  }

  lemma GiveUpStep()
    ensures WorkerStep(Leaving(map[A := Obj(true, 1)], CreatingNotebook, {}), AGiveUp(0),
                       Leaving(map[A := Obj(true, 1)], NotebookRefused, {}))
  {
  }

  lemma CleanStep()
    ensures WorkerStep(Leaving(map[A := Obj(true, 1)], CleaningNotebook, {0}), ACleanNotebook(0, true),
                       Leaving(map[], CleaningPvc, {0}))
  {
    assert map[A := Obj(true, 1)] - {A} == map[];
  }

  lemma FailAndClean(p: Run) returns (q: Run)
    requires IsPath(p, ONE_EACH, true)
    requires Last(p) == Leaving(map[A := Obj(true, 1)], CreatingNotebook, {})
    ensures IsPath(q, ONE_EACH, true)
    ensures Last(q) == Leaving(map[], CleaningPvc, {0})
  {
    var stopped := map[A := Obj(true, 1)];
    GiveUpStep();
    FailStep();
    CleanStep();
    q := Extend(p, ONE_EACH, true, AGiveUp(0), Leaving(stopped, NotebookRefused, {}));
    q := Extend(q, ONE_EACH, true, AWriteStatus(0, false, false), Leaving(stopped, CleaningNotebook, {0}));
    q := Extend(q, ONE_EACH, true, ACleanNotebook(0, true), Leaving(map[], CleaningPvc, {0}));
  }

  const ARRIVED := ARRIVING + [NotebookApplied]

  /** Row 0 under A was applied and its object runs. */
  function AppliedRow(objects: map<Key, Obj>, clock: nat): State {
    State(map[A := Row(0, Cpu, true, ARRIVED)], objects, {A}, map[], map[], map[], 1, clock, History({0}, {0}, {}))
  }

  /** Row 0 under A with its object made and acknowledged, the last status still to be written. */
  function ObjectMade(objects: map<Key, Obj>): State {
    State(map[A := Row(0, Cpu, true, ARRIVING)], objects, {A}, map[], map[],
          map[0 := Job(NotebookMade, 0, A)], 1, 1, History({0}, {0}, {}))
  }

  lemma MakeStep()
    ensures WorkerStep(Launched(), ACreateNotebook(0, true), ObjectMade(map[A := Obj(false, 0)]))
  {
  }

  lemma AppliedStep(objects: map<Key, Obj>)
    ensures WorkerStep(ObjectMade(objects), AWriteStatus(0, true, true), AppliedRow(objects, 1))
  {
    assert map[0 := Job(NotebookMade, 0, A)] - {0} == map[];
  }

  lemma FirstApplied(checked: bool) returns (p: Run)
    ensures IsPath(p, ONE_EACH, checked) && Last(p) == AppliedRow(map[A := Obj(false, 0)], 1)
  {
    p := FirstLaunch(checked);
    var objects := map[A := Obj(false, 0)];
    MakeStep();
    p := Extend(p, ONE_EACH, checked, ACreateNotebook(0, true), ObjectMade(objects));
    AppliedStep(objects);
    p := Extend(p, ONE_EACH, checked, AWriteStatus(0, true, true), AppliedRow(objects, 1));
  }

  /** Row 0 under A was applied and then deleted, and the delete has yet to reach the cluster. */
  lemma AppliedAndDeleted() returns (p: Run)
    ensures IsPath(p, ONE_EACH, false)
    ensures Last(p) == State(map[], map[A := Obj(false, 0)], {A}, map[], map[1 := DeletingNotebook(A)], map[], 1, 1,
                             History({0}, {0}, {}))
  {
    p := FirstApplied(false);
    p := GateAndDelete(p, map[A := Row(0, Cpu, true, ARRIVED)], map[A := Obj(false, 0)], History({0}, {0}, {}));
  }

  lemma GateAndDelete(p: Run, rows: map<Key, Row>, objects: map<Key, Obj>, h: History) returns (q: Run)
    requires IsPath(p, ONE_EACH, false)
    requires Last(p) == State(rows, objects, {A}, map[], map[], map[], 1, 1, h)
    requires rows.Keys == {A} && Applied(rows[A])
    ensures IsPath(q, ONE_EACH, false)
    ensures Last(q) == State(map[], objects, {A}, map[], map[1 := DeletingNotebook(A)], map[], 1, 1, h)
  {
    q := Extend(p, ONE_EACH, false, ADeleteGate(1, A),
                State(rows, objects, {A}, map[], map[1 := DeleteAllowed(A, false)], map[], 1, 1, h));
    assert rows - {A} == map[];
    q := Extend(q, ONE_EACH, false, ADeleteRow(1),
                State(map[], objects, {A}, map[], map[1 := DeletingNotebook(A)], map[], 1, 1, h));
  }

  lemma ReuseName(p: Run, objects: map<Key, Obj>, deleting: map<nat, Request>, h: History) returns (q: Run)
    requires IsPath(p, ONE_EACH, false)
    requires Last(p) == State(map[], objects, {A}, map[], deleting, map[], 1, 1, h)
    requires 0 !in deleting
    ensures IsPath(q, ONE_EACH, false)
    ensures Last(q) == State(map[A := Row(1, Cpu, false, [Scheduled])], objects, {A}, map[], deleting, map[], 2, 1, h)
  {
    var s := Last(p);
    var db, listing := ReadRows(s, "user"), ListObjects(s, "user");
    assert RunningKeys(db, listing, Cpu) == {} && CreatedKeys(db, listing, Cpu) == {} && CreatedKeys(db, listing, Gpu) == {};
    q := UndisturbedCreate(p, ONE_EACH, false, A, Cpu);
  }

  /** The old object is stopped, which hides the new row of the same name from the count. */
  lemma ReusedAndHidden() returns (p: Run)
    ensures IsPath(p, ONE_EACH, false)
    ensures Last(p) == State(map[A := Row(1, Cpu, false, [Scheduled])], map[A := Obj(true, 1)], {A}, map[],
                             map[1 := DeletingNotebook(A)], map[], 2, 2, History({0}, {0}, {}))
  {
    p := AppliedAndDeleted();
    p := ReuseName(p, map[A := Obj(false, 0)], map[1 := DeletingNotebook(A)], History({0}, {0}, {}));
    var s' := Last(p).(objects := map[A := Obj(true, 1)], clock := 2);
    assert OutsideStep(Last(p), AOutsideStop(A), s');
    p := Extend(p, ONE_EACH, false, AOutsideStop(A), s');
  }

  /** A name reused while an older delete on it is still at work: the delete takes the old object from
      under the new row, which then launches a second notebook beside the one let in meanwhile. */
  lemma ReusedNameCanExceed() returns (run: Run)
    ensures IsRawRun(run, ONE_EACH)
    ensures |SlotKeys(Last(run), "user", Cpu)| == 2 > ONE_EACH.runningCpu
  {
    run := ReusedAndHidden();
    var h := History({0}, {0}, {});
    var rowA := Row(1, Cpu, false, [Scheduled]);
    run := CreateBeside(run, rowA, map[1 := DeletingNotebook(A)], map[], h, false);
    assert map[A := Obj(true, 1)] - {A} == map[];
    var done := Beside(rowA, map[], map[1 := DeletingPvc(A)], map[], h);
    assert FreeStep(Last(run), ADeleteObject(1, true), done);
    run := Extend(run, ONE_EACH, false, ADeleteObject(1, true), done);
    assert SlotKeys(Last(run), "user", Cpu) == {A, B};
  }

  // ---------------------------------------------------------------- an update that lands late

  /** The client of a start went away after its object was fetched: the handler has ended and its lock
      is gone, but the update may already be on its way. */
  ghost predicate Abandoned(run: Run, q: Request)
    requires |run.states| == |run.actions| + 1
  {
    exists i, r :: AbandonedAt(run, q, i, r)
  }

  ghost predicate AbandonedAt(run: Run, q: Request, i: nat, r: nat)
    requires |run.states| == |run.actions| + 1
  {
    && i < |run.actions| && run.actions[i] == AEnd(r)
    && q.StartFetched? && r in run.states[i].requests && run.states[i].requests[r] == q
  }

  lemma StaysAbandoned(p: Run, p': Run, q: Request)
    requires |p.states| == |p.actions| + 1 && |p'.states| == |p'.actions| + 1
    requires Abandoned(p, q) && Continues(p, p')
    ensures Abandoned(p', q)
  {
    var i, r :| AbandonedAt(p, q, i, r);
    assert AbandonedAt(p', q, i, r);
  }

  /** The update of an abandoned start reaches the cluster after all. */
  predicate LateStartUpdate(s: State, s': State, q: Request) {
    && q.StartFetched?
    && q.key in s.objects && s.objects[q.key].version == q.version
    && s' == s.(objects := s.objects[q.key := Obj(false, s.clock)], clock := s.clock + 1)
  }

  const STOPPED := map[A := Obj(true, 1)]

  /** A start of A in the state where A is applied and stopped. */
  function Starting1(q: Request): State {
    AppliedRow(STOPPED, 2).(locks := map["user" := 1], requests := map[1 := q])
  }

  lemma StartReads(view: map<Key, RowView>)
    requires view == map[A := RowView(Cpu, NotebookApplied)]
    ensures StartReadRows(Starting1(StartLocked(A)), Starting1(StartRead(A, Cpu, view)), 1)
    ensures StartListRunning(Starting1(StartRead(A, Cpu, view)), Starting1(StartAllowed(A, Cpu)), 1, ONE_EACH)
  {
    var s := Starting1(StartRead(A, Cpu, view));
    assert ReadRows(Starting1(StartLocked(A)), "user") == view;
    assert RunningKeys(view, ListObjects(s, "user"), Cpu) == {};
  }

  lemma StartFetches(p: Run) returns (q: Run)
    requires IsPath(p, ONE_EACH, true) && Last(p) == AppliedRow(STOPPED, 2)
    ensures IsPath(q, ONE_EACH, true) && Last(q) == Starting1(StartFetched(A, Cpu, 1))
  {
    var view := map[A := RowView(Cpu, NotebookApplied)];
    StartReads(view);
    q := Extend(p, ONE_EACH, true, ABeginStart(1, A), Starting1(StartLocked(A)));
    q := Extend(q, ONE_EACH, true, AStartReadRows(1), Starting1(StartRead(A, Cpu, view)));
    q := Extend(q, ONE_EACH, true, AStartListRunning(1), Starting1(StartAllowed(A, Cpu)));
    q := Extend(q, ONE_EACH, true, AStartFetch(1), Starting1(StartFetched(A, Cpu, 1)));
  }

  lemma AbandonedStart() returns (p: Run)
    ensures IsPath(p, ONE_EACH, true) && Last(p) == AppliedRow(STOPPED, 2)
    ensures Abandoned(p, StartFetched(A, Cpu, 1))
  {
    p := FirstApplied(true);
    p := Extend(p, ONE_EACH, true, AOutsideStop(A), AppliedRow(STOPPED, 2));
    p := StartFetches(p);
    var before := p;
    var fetched := Starting1(StartFetched(A, Cpu, 1));
    assert fetched.locks - {"user"} == map[] && fetched.requests - {1} == map[];
    p := Extend(p, ONE_EACH, true, AEnd(1), AppliedRow(STOPPED, 2));
    assert AbandonedAt(p, StartFetched(A, Cpu, 1), |before.actions|, 1);
  }

  /** The state after the second create, and after the late update. */
  function BothRows(objects: map<Key, Obj>, clock: nat): State {
    Beside(Row(0, Cpu, true, ARRIVED), objects, map[], map[], History({0}, {0}, {})).(clock := clock)
  }

  lemma LandsLate()
    ensures LateStartUpdate(BothRows(STOPPED, 2), BothRows(map[A := Obj(false, 2)], 3), StartFetched(A, Cpu, 1))
  {
    assert STOPPED[A := Obj(false, 2)] == map[A := Obj(false, 2)];
  }

  lemma BothSlotsTaken()
    ensures |SlotKeys(BothRows(map[A := Obj(false, 2)], 3), "user", Cpu)| == 2
  {
    assert SlotKeys(BothRows(map[A := Obj(false, 2)], 3), "user", Cpu) == {A, B};
  }

  /** Calls that land after their caller has gone are outside the environment rules for a reason: while
      an abandoned start is under way the API lets another notebook in, and then both slots are taken. */
  lemma LateStartCanExceed() returns (run: Run, s': State)
    ensures IsRun(run, ONE_EACH, false)
    ensures Abandoned(run, StartFetched(A, Cpu, 1)) && LateStartUpdate(Last(run), s', StartFetched(A, Cpu, 1))
    ensures |SlotKeys(s', "user", Cpu)| == 2 > ONE_EACH.runningCpu
  {
    var p := AbandonedStart();
    run := CreateBeside(p, Row(0, Cpu, true, ARRIVED), map[], map[], History({0}, {0}, {}), true);
    StaysAbandoned(p, run, StartFetched(A, Cpu, 1));
    s' := BothRows(map[A := Obj(false, 2)], 3);
    LandsLate();
    BothSlotsTaken();
  }
}
