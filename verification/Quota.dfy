/** The quota holds in every reachable state, although create and start decide on a snapshot put
    together from several reads while workers, stops and deletes go on beside them. */
module Quota {
  import opened Notebooks
  import opened Protocol
  import opened ProtocolInvariant
  import opened Sets
  import opened UnlockedSteps

  /** A limit below zero lets nothing in, just as zero does. */
  function Cap(limit: int): nat { if limit < 0 then 0 else limit }

  // ---------------------------------------------------------------- snapshots

  /** The rows a handler read still cover what is there now: rows can have gone or moved on since. */
  ghost predicate Covers(s: State, user: string, db: map<Key, RowView>) {
    forall key :: key in s.rows && key.user == user ==>
      && key in db
      && db[key].kind == s.rows[key].kind
      && (Failed(db[key].latest) || db[key].latest == NotebookApplied ==> Latest(s.rows[key]) == db[key].latest)
  }

  lemma FreshReadCovers(s: State, user: string)
    ensures Covers(s, user, ReadRows(s, user))
  {
  }

  lemma CoversLasts(s: State, s': State, user: string, db: map<Key, RowView>, strict: bool)
    requires Covers(s, user, db)
    requires Shrinks(s, s', user, strict)
    ensures Covers(s', user, db)
  {
  }

  /** A row that holds a slot is live and not applied without an object, so the API counts it. */
  lemma SlotCountsNow(s: State, key: Key, strict: bool)
    requires Inv(s, false)
    requires Busy(s, key, strict)
    ensures CountsNow(s, key)
  {
    if !strict && key !in s.objects {
      assert RowOk(s.rows[key], s.nextId);
      if s.rows[key].picked {
        var w :| w in s.jobs && s.jobs[w].key == key && LaunchingPc(s.jobs[w].pc);
        assert JobOk(s.rows, s.nextId, s.jobs[w]);
      }
    }
  }

  /** Rows read at one moment and objects listed at another: the count is never too low. */
  lemma TornCountCovers(s: State, user: string, db: map<Key, RowView>, kind: Kind, strict: bool)
    requires Inv(s, false)
    requires Covers(s, user, db)
    ensures |BusyKeys(s, user, kind, strict)| <= |RunningKeys(db, ListObjects(s, user), kind)|
    ensures |CreatedNow(s, user, kind)| <= |CreatedKeys(db, ListObjects(s, user), kind)|
  {
    forall key | key in BusyKeys(s, user, kind, strict)
      ensures key in RunningKeys(db, ListObjects(s, user), kind)
    {
      SlotCountsNow(s, key, strict);
    }
    SubsetCard(BusyKeys(s, user, kind, strict), RunningKeys(db, ListObjects(s, user), kind));
    SubsetCard(CreatedNow(s, user, kind), CreatedKeys(db, ListObjects(s, user), kind));
  }

  /** Nor does the total ever come out above what was there when the rows were read. */
  lemma TornTotalBounded(s: State, s': State, user: string, db: map<Key, RowView>, kind: Kind, strict: bool)
    requires Covers(s, user, db)
    requires Shrinks(s, s', user, strict)
    ensures |CreatedKeys(db, ListObjects(s', user), kind)| <= |CreatedKeys(db, ListObjects(s, user), kind)|
  {
    var before := ListObjects(s, user);
    var after := ListObjects(s', user);
    forall key | key in CreatedKeys(db, after, kind)
      ensures key in CreatedKeys(db, before, kind)
    {
      if key in after && key !in before {
        assert key in s.rows && !Applied(s.rows[key]);
      }
    }
    SubsetCard(CreatedKeys(db, after, kind), CreatedKeys(db, before, kind));
  }

  lemma FreshTotal(s: State, user: string, kind: Kind)
    ensures CreatedKeys(ReadRows(s, user), ListObjects(s, user), kind) == CreatedNow(s, user, kind)
  {
  }

  // ---------------------------------------------------------------- unlocked steps, once more

  /** The step takes a stopped object from under a row of the user that is still on its way. */
  ghost predicate UncoversSome(s: State, s': State, user: string) {
    exists key: Key :: key.user == user && Uncovers(s, s', key)
  }

  /** What a step may add to the API's own count without a quota decision. */
  ghost function Gain(s: State, s': State, user: string, strict: bool): nat {
    if strict && UncoversSome(s, s', user) then 1 else 0
  }

  lemma CreateOrStartUncoversNothing(limits: Limits, s: State, a: Action, s': State, key: Key)
    requires CreateStep(limits, s, a, s') || StartStep(limits, s, a, s')
    ensures !Uncovers(s, s', key)
  {
    if CreateStep(limits, s, a, s') {
      assert s'.objects == s.objects;
    }
  }

  lemma FreeUncovers(s: State, a: Action, s': State, key: Key)
    requires FreeStep(s, a, s') && Uncovers(s, s', key)
    ensures s'.rows == s.rows && s'.objects == s.objects - {key}
  {
    assert a.ADeleteObject?;
  }

  lemma WorkerUncovers(s: State, a: Action, s': State, key: Key)
    requires WorkerStep(s, a, s') && Uncovers(s, s', key)
    ensures s'.rows == s.rows && s'.objects == s.objects - {key}
  {
    assert a.ACleanNotebook?;
  }

  /** A step that uncovers a row removes that one object and nothing else. */
  lemma UncoveringStep(limits: Limits, s: State, a: Action, s': State, key: Key)
    requires Step(limits, s, a, s') && Uncovers(s, s', key)
    ensures s'.rows == s.rows && s'.objects == s.objects - {key}
  {
    if CreateStep(limits, s, a, s') || StartStep(limits, s, a, s') {
      CreateOrStartUncoversNothing(limits, s, a, s', key);
    } else if FreeStep(s, a, s') {
      FreeUncovers(s, a, s', key);
    } else if WorkerStep(s, a, s') {
      WorkerUncovers(s, a, s', key);
    }
  }

  lemma RemovalGainsOne(s: State, s': State, removed: Key, user: string, kind: Kind)
    requires s'.rows == s.rows && s'.objects == s.objects - {removed}
    ensures |BusyKeys(s', user, kind, true)| <= |BusyKeys(s, user, kind, true)| + 1
  {
    SubsetCard(BusyKeys(s', user, kind, true), BusyKeys(s, user, kind, true) + {removed});
  }

  /** A step without a quota decision shrinks what the user has; only the API's own count can miss a
      stopped object that hid a row, and then it grows by one. */
  lemma StepGains(limits: Limits, s: State, a: Action, s': State, user: string, kind: Kind, strict: bool)
    requires Inv(s, false)
    requires Step(limits, s, a, s') && Env(s, a, false)
    requires !Raises(s, a, user)
    ensures Shrinks(s, s', user, false)
    ensures |BusyKeys(s', user, kind, strict)| <= |BusyKeys(s, user, kind, strict)| + Gain(s, s', user, strict)
  {
    StepShrinksUnlessUncovered(limits, s, a, s', user, false);
    if strict && UncoversSome(s, s', user) {
      var key: Key :| key.user == user && Uncovers(s, s', key);
      UncoveringStep(limits, s, a, s', key);
      RemovalGainsOne(s, s', key, user, kind);
    } else {
      StepShrinksUnlessUncovered(limits, s, a, s', user, strict);
      ShrinkCounts(s, s', user, kind, strict);
    }
  }

  // ---------------------------------------------------------------- the invariant

  /** What a request that holds the lock may rely on, given what it has read so far. `slack` is what
      uncovered rows have added to the count. */
  ghost predicate RequestOk(s: State, limits: Limits, q: Request, strict: bool, slack: nat) {
    match q
    case CreateRead(key, _, db) =>
      && Covers(s, key.user, db)
      && (forall kind :: |CreatedKeys(db, ListObjects(s, key.user), kind)| <= Cap(limits.Total(kind)))
    case CreateTotalled(key, _, db, totals) =>
      && Covers(s, key.user, db)
      && (forall kind :: |CreatedNow(s, key.user, kind)| <= totals.Of(kind) <= Cap(limits.Total(kind)))
    case CreateAllowed(key, kind) =>
      && |BusyKeys(s, key.user, kind, strict)| < limits.Running(kind) + slack
      && |CreatedNow(s, key.user, kind)| < limits.Total(kind)
      && limits.Running(kind) > 0
    case StartRead(key, _, db) => Covers(s, key.user, db)
    case StartAllowed(key, kind) => StartMay(s, limits, key, kind, strict, slack)
    case StartFetched(key, kind, _) => StartMay(s, limits, key, kind, strict, slack)
    case _ => true
  }

  ghost predicate StartMay(s: State, limits: Limits, key: Key, kind: Kind, strict: bool, slack: nat) {
    |BusyKeys(s, key.user, kind, strict)| < limits.Running(kind) + slack && limits.Running(kind) > 0
  }

  ghost predicate WithinLimits(s: State, limits: Limits, user: string, strict: bool, slack: nat) {
    forall kind ::
      && |BusyKeys(s, user, kind, strict)| <= Cap(limits.Running(kind)) + slack
      && |CreatedNow(s, user, kind)| <= Cap(limits.Total(kind))
  }

  /** One user's share of the invariant. */
  ghost predicate QuotaInv(s: State, limits: Limits, user: string, strict: bool, slack: nat) {
    && Inv(s, false)
    && WithinLimits(s, limits, user, strict, slack)
    && (forall r :: r in s.requests && s.requests[r].key.user == user ==>
          RequestOk(s, limits, s.requests[r], strict, slack))
  }

  lemma CreateReadLasts(s: State, s': State, limits: Limits, q: Request, strict: bool, slack: nat, slack': nat)
    requires q.CreateRead? && RequestOk(s, limits, q, strict, slack)
    requires Shrinks(s, s', q.key.user, false)
    ensures RequestOk(s', limits, q, strict, slack')
  {
    CoversLasts(s, s', q.key.user, q.db, false);
    forall kind
      ensures |CreatedKeys(q.db, ListObjects(s', q.key.user), kind)| <= Cap(limits.Total(kind))
    {
      TornTotalBounded(s, s', q.key.user, q.db, kind, false);
    }
  }

  lemma CreateTotalledLasts(s: State, s': State, limits: Limits, q: Request, strict: bool, slack: nat, slack': nat)
    requires q.CreateTotalled? && RequestOk(s, limits, q, strict, slack)
    requires Shrinks(s, s', q.key.user, false)
    ensures RequestOk(s', limits, q, strict, slack')
  {
    CoversLasts(s, s', q.key.user, q.db, false);
    forall kind
      ensures |CreatedNow(s', q.key.user, kind)| <= q.totals.Of(kind) <= Cap(limits.Total(kind))
    {
      ShrinkCounts(s, s', q.key.user, kind, false);
    }
  }

  /** What a request relies on survives any step that shrinks its user's share. */
  lemma RequestLasts(s: State, s': State, limits: Limits, q: Request, strict: bool, slack: nat, slack': nat)
    requires RequestOk(s, limits, q, strict, slack) && slack <= slack'
    requires Shrinks(s, s', q.key.user, false)
    requires forall kind ::
               |BusyKeys(s', q.key.user, kind, strict)| <= |BusyKeys(s, q.key.user, kind, strict)| + slack' - slack
    ensures RequestOk(s', limits, q, strict, slack')
  {
    if q.CreateRead? {
      CreateReadLasts(s, s', limits, q, strict, slack, slack');
    } else if q.CreateTotalled? {
      CreateTotalledLasts(s, s', limits, q, strict, slack, slack');
    } else if q.StartRead? {
      CoversLasts(s, s', q.key.user, q.db, false);
    } else if q.CreateAllowed? {
      ShrinkCounts(s, s', q.key.user, q.kind, false);
    }
  }

  // ---------------------------------------------------------------- steps of the lock holder

  lemma CreateReadOk(s: State, s': State, limits: Limits, r: nat, strict: bool, slack: nat)
    requires CreateReadRows(s, s', r)
    requires QuotaInv(s, limits, s.requests[r].key.user, strict, slack)
    ensures RequestOk(s', limits, s'.requests[r], strict, slack)
  {
    var user := s.requests[r].key.user;
    FreshReadCovers(s, user);
    forall kind
      ensures |CreatedKeys(ReadRows(s, user), ListObjects(s', user), kind)| <= Cap(limits.Total(kind))
    {
      FreshTotal(s, user, kind);
      assert ListObjects(s', user) == ListObjects(s, user);
    }
  }

  lemma CreateTotalsOk(s: State, s': State, limits: Limits, r: nat, strict: bool, slack: nat)
    requires CreateListTotals(s, s', r)
    requires QuotaInv(s, limits, s.requests[r].key.user, strict, slack)
    ensures RequestOk(s', limits, s'.requests[r], strict, slack)
  {
    var q := s.requests[r];
    assert RequestOk(s, limits, q, strict, slack);
    SameWorldShrinks(s, s', q.key.user, false);
    CoversLasts(s, s', q.key.user, q.db, false);
    forall kind
      ensures |CreatedNow(s', q.key.user, kind)| <= s'.requests[r].totals.Of(kind) <= Cap(limits.Total(kind))
    {
      TornCountCovers(s, q.key.user, q.db, kind, false);
      ShrinkCounts(s, s', q.key.user, kind, false);
    }
  }

  lemma SameWorldCounts(s: State, s': State, user: string, kind: Kind, strict: bool)
    requires s'.rows == s.rows && s'.objects == s.objects && s'.jobs == s.jobs
    ensures |BusyKeys(s', user, kind, strict)| <= |BusyKeys(s, user, kind, strict)|
    ensures |CreatedNow(s', user, kind)| <= |CreatedNow(s, user, kind)|
  {
    SameWorldShrinks(s, s', user, strict);
    ShrinkCounts(s, s', user, kind, strict);
  }

  lemma CreateRunningOk(s: State, s': State, limits: Limits, r: nat, strict: bool, slack: nat)
    requires CreateListRunning(s, s', r, limits)
    requires QuotaInv(s, limits, s.requests[r].key.user, strict, slack)
    ensures RequestOk(s', limits, s'.requests[r], strict, slack)
  {
    var q := s.requests[r];
    assert RequestOk(s, limits, q, strict, slack);
    TornCountCovers(s, q.key.user, q.db, q.kind, strict);
    assert q.totals.Of(q.kind) < limits.Total(q.kind);
    SameWorldCounts(s, s', q.key.user, q.kind, strict);
  }

  lemma StartReadOk(s: State, s': State, limits: Limits, r: nat, strict: bool, slack: nat)
    requires StartReadRows(s, s', r)
    ensures RequestOk(s', limits, s'.requests[r], strict, slack)
  {
    FreshReadCovers(s, s.requests[r].key.user);
  }

  lemma StartRunningOk(s: State, s': State, limits: Limits, r: nat, strict: bool, slack: nat)
    requires StartListRunning(s, s', r, limits)
    requires QuotaInv(s, limits, s.requests[r].key.user, strict, slack)
    ensures RequestOk(s', limits, s'.requests[r], strict, slack)
  {
    var q := s.requests[r];
    assert RequestOk(s, limits, q, strict, slack);
    TornCountCovers(s, q.key.user, q.db, q.kind, strict);
    SameWorldCounts(s, s', q.key.user, q.kind, strict);
  }

  lemma StartFetchOk(s: State, s': State, limits: Limits, r: nat, strict: bool, slack: nat)
    requires StartFetch(s, s', r)
    requires QuotaInv(s, limits, s.requests[r].key.user, strict, slack)
    ensures RequestOk(s', limits, s'.requests[r], strict, slack)
  {
    var q := s.requests[r];
    assert RequestOk(s, limits, q, strict, slack);
    SameWorldCounts(s, s', q.key.user, q.kind, strict);
  }

  /** Away from one key nothing becomes busy and nothing is created. */
  ghost predicate OnlyNewAt(s: State, s': State, new_: Key, strict: bool) {
    forall key :: key in s'.rows && key != new_ ==>
      && key in s.rows && s.rows[key].kind == s'.rows[key].kind
      && (Busy(s', key, strict) ==> Busy(s, key, strict))
      && (Created(s', key) ==> Created(s, key))
  }

  lemma BusyGainsAtMostOne(s: State, s': State, new_: Key, user: string, kind: Kind, strict: bool)
    requires OnlyNewAt(s, s', new_, strict)
    ensures |BusyKeys(s', user, kind, strict)|
         <= |BusyKeys(s, user, kind, strict)| + (if Mine(s', new_, user, kind) then 1 else 0)
  {
    var here := if Mine(s', new_, user, kind) then {new_} else {};
    SubsetCard(BusyKeys(s', user, kind, strict), BusyKeys(s, user, kind, strict) + here);
  }

  lemma CreatedGainsAtMostOne(s: State, s': State, new_: Key, user: string, kind: Kind, strict: bool)
    requires OnlyNewAt(s, s', new_, strict)
    ensures |CreatedNow(s', user, kind)|
         <= |CreatedNow(s, user, kind)| + (if Mine(s', new_, user, kind) then 1 else 0)
  {
    var here := if Mine(s', new_, user, kind) then {new_} else {};
    SubsetCard(CreatedNow(s', user, kind), CreatedNow(s, user, kind) + here);
  }

  lemma CommitCreateOnlyNew(s: State, s': State, r: nat, strict: bool)
    requires CommitCreate(s, s', r)
    ensures OnlyNewAt(s, s', s.requests[r].key, strict)
  {
    forall key | key in s'.rows && key != s.requests[r].key
      ensures Launching(s', key) ==> Launching(s, key)
    {
      JobsShrink(s, s', key);
    }
  }

  /** The committed row is the only one that can be new to either count. */
  lemma CommitCreateCounts(s: State, s': State, limits: Limits, r: nat, kind: Kind, strict: bool, slack: nat)
    requires CommitCreate(s, s', r)
    requires QuotaInv(s, limits, s.requests[r].key.user, strict, slack)
    ensures |BusyKeys(s', s.requests[r].key.user, kind, strict)| <= Cap(limits.Running(kind)) + slack
    ensures |CreatedNow(s', s.requests[r].key.user, kind)| <= Cap(limits.Total(kind))
  {
    var q := s.requests[r];
    assert RequestOk(s, limits, q, strict, slack);
    CommitCreateOnlyNew(s, s', r, strict);
    BusyGainsAtMostOne(s, s', q.key, q.key.user, kind, strict);
    CreatedGainsAtMostOne(s, s', q.key, q.key.user, kind, strict);
  }

  lemma StartUpdateOnlyNew(s: State, s': State, r: nat, strict: bool)
    requires StartUpdate(s, s', r)
    ensures OnlyNewAt(s, s', s.requests[r].key, strict)
    ensures Created(s', s.requests[r].key) ==> Created(s, s.requests[r].key)
  {
  }

  /** The object whose annotation goes is the only one that can be new to the running count. */
  lemma StartUpdateCounts(s: State, s': State, limits: Limits, r: nat, kind: Kind, strict: bool, slack: nat)
    requires StartUpdate(s, s', r)
    requires QuotaInv(s, limits, s.requests[r].key.user, strict, slack)
    ensures |BusyKeys(s', s.requests[r].key.user, kind, strict)| <= Cap(limits.Running(kind)) + slack
    ensures |CreatedNow(s', s.requests[r].key.user, kind)| <= Cap(limits.Total(kind))
  {
    var q := s.requests[r];
    assert RequestOk(s, limits, q, strict, slack);
    assert GateOk(s.rows, q, false);
    StartUpdateOnlyNew(s, s', r, strict);
    BusyGainsAtMostOne(s, s', q.key, q.key.user, kind, strict);
    StartUpdateTotals(s, s', r, kind);
  }

  lemma StartUpdateTotals(s: State, s': State, r: nat, kind: Kind)
    requires StartUpdate(s, s', r)
    ensures |CreatedNow(s', s.requests[r].key.user, kind)| <= |CreatedNow(s, s.requests[r].key.user, kind)|
  {
    StartUpdateOnlyNew(s, s', r, false);
    var user := s.requests[r].key.user;
    SubsetCard(CreatedNow(s', user, kind), CreatedNow(s, user, kind));
  }

  // ---------------------------------------------------------------- every step

  lemma InitHolds(s: State, limits: Limits, user: string, strict: bool)
    requires Init(s)
    ensures QuotaInv(s, limits, user, strict, 0)
  {
    assert forall kind :: BusyKeys(s, user, kind, strict) == {} && CreatedNow(s, user, kind) == {};
  }

  lemma LimitsLast(s: State, a: Action, s': State, limits: Limits, user: string, strict: bool, slack: nat)
    requires QuotaInv(s, limits, user, strict, slack)
    requires Step(limits, s, a, s') && Env(s, a, false)
    ensures WithinLimits(s', limits, user, strict, slack + Gain(s, s', user, strict))
  {
    forall kind
      ensures |BusyKeys(s', user, kind, strict)| <= Cap(limits.Running(kind)) + slack + Gain(s, s', user, strict)
      ensures |CreatedNow(s', user, kind)| <= Cap(limits.Total(kind))
    {
      if !Raises(s, a, user) {
        StepGains(limits, s, a, s', user, kind, strict);
        ShrinkCounts(s, s', user, kind, false);
      } else if a.ACommitCreate? {
        CommitCreateCounts(s, s', limits, a.r, kind, strict, slack);
      } else {
        StartUpdateCounts(s, s', limits, a.r, kind, strict, slack);
      }
    }
  }

  /** Only the holder of a user's lock can add to the user's count. */
  lemma OthersCannotRaise(s: State, a: Action, s': State, limits: Limits, r: nat, user: string)
    requires Inv(s, false)
    requires Step(limits, s, a, s')
    requires r in s.requests && s.requests[r].Locked() && s.requests[r].key.user == user
    requires a != ACommitCreate(r) && a != AStartUpdate(r)
    ensures !Raises(s, a, user)
  {
    if a.ACommitCreate? {
      assert CreateStep(limits, s, a, s');
    } else if a.AStartUpdate? {
      assert StartStep(limits, s, a, s');
    }
  }

  lemma RaiserMoves(limits: Limits, s: State, a: Action, s': State, r: nat)
    requires Step(limits, s, a, s')
    requires r in s.requests && r in s'.requests && s'.requests[r] == s.requests[r]
    ensures a != ACommitCreate(r) && a != AStartUpdate(r)
  {
    if a.ACommitCreate? {
      assert CreateStep(limits, s, a, s');
    } else if a.AStartUpdate? {
      assert StartStep(limits, s, a, s');
    }
  }

  /** The requests a step does not touch. */
  lemma OthersLast(s: State, a: Action, s': State, limits: Limits, r: nat, strict: bool, slack: nat)
    requires r in s.requests && r in s'.requests && s'.requests[r] == s.requests[r]
    requires QuotaInv(s, limits, s.requests[r].key.user, strict, slack)
    requires Step(limits, s, a, s') && Env(s, a, false)
    ensures RequestOk(s', limits, s'.requests[r], strict, slack + Gain(s, s', s.requests[r].key.user, strict))
  {
    var q := s.requests[r];
    var user := q.key.user;
    assert RequestOk(s, limits, q, strict, slack);
    if q.Locked() {
      RaiserMoves(limits, s, a, s', r);
      OthersCannotRaise(s, a, s', limits, r, user);
      forall kind
        ensures |BusyKeys(s', user, kind, strict)| <= |BusyKeys(s, user, kind, strict)| + Gain(s, s', user, strict)
      {
        StepGains(limits, s, a, s', user, kind, strict);
      }
      StepGains(limits, s, a, s', user, Cpu, strict);
      RequestLasts(s, s', limits, q, strict, slack, slack + Gain(s, s', user, strict));
    }
  }

  /** The request a step moves, by handler. A moved request gains nothing: such a step removes no object. */
  lemma CreateMovedOk(s: State, a: Action, s': State, limits: Limits, r: nat, strict: bool, slack: nat)
    requires CreateStep(limits, s, a, s')
    requires r in s'.requests && (r !in s.requests || s'.requests[r] != s.requests[r])
    requires QuotaInv(s, limits, s'.requests[r].key.user, strict, slack)
    ensures RequestOk(s', limits, s'.requests[r], strict, slack)
  {
    if a.ACreateReadRows? {
      CreateReadOk(s, s', limits, a.r, strict, slack);
    } else if a.ACreateListTotals? {
      CreateTotalsOk(s, s', limits, a.r, strict, slack);
    } else if a.ACreateListRunning? {
      CreateRunningOk(s, s', limits, a.r, strict, slack);
    }
  }

  lemma StartMovedOk(s: State, a: Action, s': State, limits: Limits, r: nat, strict: bool, slack: nat)
    requires StartStep(limits, s, a, s')
    requires r in s'.requests && (r !in s.requests || s'.requests[r] != s.requests[r])
    requires QuotaInv(s, limits, s'.requests[r].key.user, strict, slack)
    ensures RequestOk(s', limits, s'.requests[r], strict, slack)
  {
    StartMoves(limits, s, a, s', r);
    if a.AStartReadRows? {
      StartReadOk(s, s', limits, a.r, strict, slack);
    } else if a.AStartListRunning? {
      StartRunningOk(s, s', limits, a.r, strict, slack);
    } else if a.AStartFetch? {
      StartFetchOk(s, s', limits, a.r, strict, slack);
    }
  }

  /** The start step that moved a request, and where it moved it. */
  lemma StartMoves(limits: Limits, s: State, a: Action, s': State, r: nat)
    requires StartStep(limits, s, a, s')
    requires r in s'.requests && (r !in s.requests || s'.requests[r] != s.requests[r])
    ensures a.r == r
    ensures a.ABeginStart? ==> s'.requests[r].StartLocked?
    ensures a.AStartReadRows? ==> StartReadRows(s, s', r) && s'.requests[r].key == s.requests[r].key
    ensures a.AStartListRunning? ==> StartListRunning(s, s', r, limits) && s'.requests[r].key == s.requests[r].key
    ensures a.AStartFetch? ==> StartFetch(s, s', r) && s'.requests[r].key == s.requests[r].key
    ensures a.AStartUpdate? ==> s'.requests[r].StartDone?
  {
  }

  /** Every other step moves only requests that hold no lock, and these rely on nothing. */
  lemma FreeMovedOk(s: State, a: Action, s': State, limits: Limits, r: nat, strict: bool, slack: nat)
    requires FreeStep(s, a, s')
    requires r in s'.requests && (r !in s.requests || s'.requests[r] != s.requests[r])
    ensures RequestOk(s', limits, s'.requests[r], strict, slack)
  {
    FreeMoves(s, a, s', r);
  }

  lemma FreeMoves(s: State, a: Action, s': State, r: nat)
    requires FreeStep(s, a, s')
    requires r in s'.requests && (r !in s.requests || s'.requests[r] != s.requests[r])
    ensures s'.requests[r].Stopping() || s'.requests[r].Deleting()
  {
  }

  lemma NoRequestMoves(s: State, a: Action, s': State)
    requires WorkerStep(s, a, s') || OutsideStep(s, a, s')
    ensures s'.requests == s.requests
  {
  }

  lemma MovedOk(s: State, a: Action, s': State, limits: Limits, r: nat, strict: bool, slack: nat)
    requires Step(limits, s, a, s')
    requires r in s'.requests && (r !in s.requests || s'.requests[r] != s.requests[r])
    requires QuotaInv(s, limits, s'.requests[r].key.user, strict, slack)
    ensures RequestOk(s', limits, s'.requests[r], strict, slack + Gain(s, s', s'.requests[r].key.user, strict))
  {
    if CreateStep(limits, s, a, s') {
      CreateMovedOk(s, a, s', limits, r, strict, slack);
      NoGain(limits, s, a, s', s'.requests[r].key.user, strict);
    } else if StartStep(limits, s, a, s') {
      StartMovedOk(s, a, s', limits, r, strict, slack);
      NoGain(limits, s, a, s', s'.requests[r].key.user, strict);
    } else if FreeStep(s, a, s') {
      FreeMovedOk(s, a, s', limits, r, strict, slack + Gain(s, s', s'.requests[r].key.user, strict));
    } else {
      NoRequestMoves(s, a, s');
    }
  }

  lemma NoGain(limits: Limits, s: State, a: Action, s': State, user: string, strict: bool)
    requires CreateStep(limits, s, a, s') || StartStep(limits, s, a, s')
    ensures Gain(s, s', user, strict) == 0
  {
    forall key
      ensures !Uncovers(s, s', key)
    {
      CreateOrStartUncoversNothing(limits, s, a, s', key);
    }
  }

  lemma StepKeepsQuota(s: State, a: Action, s': State, limits: Limits, user: string, strict: bool, slack: nat)
    requires QuotaInv(s, limits, user, strict, slack)
    requires Step(limits, s, a, s') && Env(s, a, false)
    ensures QuotaInv(s', limits, user, strict, slack + Gain(s, s', user, strict))
  {
    StepKeepsInv(limits, s, a, s', false);
    LimitsLast(s, a, s', limits, user, strict, slack);
    forall r | r in s'.requests && s'.requests[r].key.user == user
      ensures RequestOk(s', limits, s'.requests[r], strict, slack + Gain(s, s', user, strict))
    {
      if r in s.requests && s'.requests[r] == s.requests[r] {
        OthersLast(s, a, s', limits, r, strict, slack);
      } else {
        MovedOk(s, a, s', limits, r, strict, slack);
      }
    }
  }

  // ---------------------------------------------------------------- whole runs

  /** How many steps from state i to state m uncovered a row of the user. */
  ghost function Uncoverings(run: Run, user: string, i: nat, m: nat): nat
    requires i <= m < |run.states|
  {
    if i == m then 0
    else Uncoverings(run, user, i, m - 1) + (if UncoversSome(run.states[m - 1], run.states[m], user) then 1 else 0)
  }

  /** What they have added to the count in question. */
  ghost function Slack(run: Run, user: string, strict: bool, i: nat, m: nat): nat
    requires i <= m < |run.states|
  {
    if strict then Uncoverings(run, user, i, m) else 0
  }

  lemma SlackGrows(run: Run, user: string, strict: bool, i: nat, m: nat)
    requires i < m < |run.states|
    ensures Slack(run, user, strict, i, m)
         == Slack(run, user, strict, i, m - 1) + Gain(run.states[m - 1], run.states[m], user, strict)
  {
  }

  lemma RunStep(run: Run, limits: Limits, i: nat)
    requires IsRun(run, limits, false) && 0 < i < |run.states|
    ensures Step(limits, run.states[i - 1], run.actions[i - 1], run.states[i])
    ensures Env(run.states[i - 1], run.actions[i - 1], false)
  {
    assert Step(limits, run.states[i - 1], run.actions[i - 1], run.states[i - 1 + 1]);
  }

  lemma SlackKeepsQuota(s: State, a: Action, s': State, limits: Limits, user: string, strict: bool, slack: nat, slack': nat)
    requires QuotaInv(s, limits, user, strict, slack)
    requires Step(limits, s, a, s') && Env(s, a, false)
    requires slack' == slack + Gain(s, s', user, strict)
    ensures QuotaInv(s', limits, user, strict, slack')
  {
    StepKeepsQuota(s, a, s', limits, user, strict, slack);
  }

  lemma {:induction false} ReachableInv(run: Run, limits: Limits, user: string, strict: bool, i: nat)
    requires IsRun(run, limits, false)
    requires i < |run.states|
    ensures QuotaInv(run.states[i], limits, user, strict, Slack(run, user, strict, 0, i))
  {
    if i == 0 {
      InitHolds(run.states[0], limits, user, strict);
    } else {
      var slack, slack' := Slack(run, user, strict, 0, i - 1), Slack(run, user, strict, 0, i);
      ReachableInv(run, limits, user, strict, i - 1);
      RunStep(run, limits, i);
      SlackGrows(run, user, strict, 0, i);
      SlackKeepsQuota(run.states[i - 1], run.actions[i - 1], run.states[i], limits, user, strict, slack, slack');
    }
  }

  /** The rows of a user that hold a running slot. */
  function SlotKeys(s: State, user: string, kind: Kind): set<Key> { BusyKeys(s, user, kind, false) }

  /** What the API's running count would be, taken at one instant. */
  function EffectiveKeys(s: State, user: string, kind: Kind): set<Key> { BusyKeys(s, user, kind, true) }

  /** Objects of a user that run, whatever the database knows of them. */
  function RunningObjects(s: State, user: string): set<Key> {
    set key | key in s.objects && key.user == user && !s.objects[key].stopped
  }

  /** Running objects that no live row stands for: their row is gone or failed. A delete has not reached
      the cluster yet, a cleanup has not begun, or one of the two gave up. */
  function Strays(s: State, user: string): set<Key> {
    set key | key in RunningObjects(s, user) && (key !in s.rows || !Live(s.rows[key]))
  }

  /** What runs in the cluster is a slot of a live row, or a stray by definition. */
  lemma RunningIsCovered(s: State, user: string)
    ensures |RunningObjects(s, user)| <= |SlotKeys(s, user, Cpu)| + |SlotKeys(s, user, Gpu)| + |Strays(s, user)|
  {
    var cpu, gpu, strays := SlotKeys(s, user, Cpu), SlotKeys(s, user, Gpu), Strays(s, user);
    forall key | key in RunningObjects(s, user)
      ensures key in cpu + gpu + strays
    {
      if key !in strays {
        assert HoldsSlot(s, key) && Mine(s, key, user, s.rows[key].kind);
      }
    }
    SubsetCard(RunningObjects(s, user), cpu + gpu + strays);
  }

  /** Main result. In every reachable state every user stays within all four limits, and what really
      runs in the cluster exceeds the running limits by no more than the strays. */
  lemma QuotaHolds(run: Run, limits: Limits, i: nat, user: string)
    requires IsRun(run, limits, false)
    requires i < |run.states|
    ensures forall kind :: |SlotKeys(run.states[i], user, kind)| <= Cap(limits.Running(kind))
    ensures forall kind :: |CreatedNow(run.states[i], user, kind)| <= Cap(limits.Total(kind))
    ensures SlotKeys(run.states[i], user, Cpu) != {} ==> |SlotKeys(run.states[i], user, Cpu)| <= limits.runningCpu
    ensures SlotKeys(run.states[i], user, Gpu) != {} ==> |SlotKeys(run.states[i], user, Gpu)| <= limits.runningGpu
    ensures CreatedNow(run.states[i], user, Cpu) != {} ==> |CreatedNow(run.states[i], user, Cpu)| <= limits.totalCpu
    ensures CreatedNow(run.states[i], user, Gpu) != {} ==> |CreatedNow(run.states[i], user, Gpu)| <= limits.totalGpu
    ensures |RunningObjects(run.states[i], user)|
         <= Cap(limits.runningCpu) + Cap(limits.runningGpu) + |Strays(run.states[i], user)|
  {
    ReachableInv(run, limits, user, false, i);
    LimitsSpelledOut(run.states[i], limits, user);
    LimitSpelledOut(SlotKeys(run.states[i], user, Cpu), limits.runningCpu);
    LimitSpelledOut(SlotKeys(run.states[i], user, Gpu), limits.runningGpu);
    LimitSpelledOut(CreatedNow(run.states[i], user, Cpu), limits.totalCpu);
    LimitSpelledOut(CreatedNow(run.states[i], user, Gpu), limits.totalGpu);
    RunningIsCovered(run.states[i], user);
  }

  lemma LimitSpelledOut(keys: set<Key>, limit: int)
    requires |keys| <= Cap(limit)
    ensures keys != {} ==> |keys| <= limit
  {
  }

  lemma LimitsSpelledOut(s: State, limits: Limits, user: string)
    requires WithinLimits(s, limits, user, false, 0)
    ensures forall kind :: |SlotKeys(s, user, kind)| <= Cap(limits.Running(kind))
    ensures forall kind :: |CreatedNow(s, user, kind)| <= Cap(limits.Total(kind))
    ensures |SlotKeys(s, user, Cpu)| <= Cap(limits.runningCpu) && |SlotKeys(s, user, Gpu)| <= Cap(limits.runningGpu)
    ensures |CreatedNow(s, user, Cpu)| <= Cap(limits.totalCpu) && |CreatedNow(s, user, Gpu)| <= Cap(limits.totalGpu)
  {
    assert Cap(limits.Running(Cpu)) == Cap(limits.runningCpu) && Cap(limits.Running(Gpu)) == Cap(limits.runningGpu);
    assert Cap(limits.Total(Cpu)) == Cap(limits.totalCpu) && Cap(limits.Total(Gpu)) == Cap(limits.totalGpu);
  }

  /** Main result for the API's own count, in the same surroundings: it exceeds the limit by no more
      than the number of steps so far that took a stopped object from under a row of the user on its
      way. In a run without such a step it stays within the limit. */
  lemma EffectiveCountHolds(run: Run, limits: Limits, i: nat, user: string, kind: Kind)
    requires IsRun(run, limits, false)
    requires i < |run.states|
    ensures |EffectiveKeys(run.states[i], user, kind)| <= Cap(limits.Running(kind)) + Uncoverings(run, user, 0, i)
  {
    ReachableInv(run, limits, user, true, i);
    assert WithinLimits(run.states[i], limits, user, true, Uncoverings(run, user, 0, i));
  }

  lemma {:induction false} StrictRunsKeepInv(run: Run, limits: Limits, i: nat)
    requires IsRun(run, limits, true) && i < |run.states|
    ensures Inv(run.states[i], true)
  {
    if i > 0 {
      StrictRunsKeepInv(run, limits, i - 1);
      assert Step(limits, run.states[i - 1], run.actions[i - 1], run.states[i - 1 + 1]);
      StepKeepsInv(limits, run.states[i - 1], run.actions[i - 1], run.states[i], true);
    }
  }

  lemma {:induction false} StrictRunsUncoverNothing(run: Run, limits: Limits, user: string, i: nat)
    requires IsRun(run, limits, true) && i < |run.states|
    ensures Uncoverings(run, user, 0, i) == 0
  {
    if i > 0 {
      StrictRunsUncoverNothing(run, limits, user, i - 1);
      StrictRunsKeepInv(run, limits, i - 1);
      assert ObjectsOk(run.states[i - 1].rows, run.states[i - 1].objects, true);
    }
  }

  lemma StrictRunsAreRuns(run: Run, limits: Limits)
    requires IsRun(run, limits, true)
    ensures IsRun(run, limits, false)
  {
    forall i | 0 <= i < |run.actions|
      ensures Env(run.states[i], run.actions[i], false)
    {
      assert Env(run.states[i], run.actions[i], true);
    }
  }

  /** Where outside controllers wait for the row, nothing is ever uncovered and the API's own count
      stays within the limits. */
  lemma PatientControllersKeepTheCount(run: Run, limits: Limits, i: nat, user: string, kind: Kind)
    requires IsRun(run, limits, true)
    requires i < |run.states|
    ensures |EffectiveKeys(run.states[i], user, kind)| <= Cap(limits.Running(kind))
  {
    StrictRunsAreRuns(run, limits);
    StrictRunsUncoverNothing(run, limits, user, i);
    EffectiveCountHolds(run, limits, i, user, kind);
  }

  /** A request holds its user's lock from state i to state m and does not write in between. */
  ghost predicate HoldsLock(run: Run, r: nat, user: string, i: nat, m: nat)
    requires i <= m < |run.states| && |run.states| == |run.actions| + 1
  {
    && (forall k :: i <= k <= m ==>
          && r in run.states[k].requests
          && run.states[k].requests[r].Locked()
          && run.states[k].requests[r].key.user == user)
    && (forall k :: i <= k < m ==> run.actions[k] != ACommitCreate(r) && run.actions[k] != AStartUpdate(r))
  }

  lemma LockedStepShrinks(run: Run, limits: Limits, strict: bool, r: nat, user: string, kind: Kind, k: nat)
    requires IsRun(run, limits, false)
    requires k < |run.actions| && HoldsLock(run, r, user, k, k + 1)
    ensures Shrinks(run.states[k], run.states[k + 1], user, false)
    ensures |BusyKeys(run.states[k + 1], user, kind, strict)|
         <= |BusyKeys(run.states[k], user, kind, strict)| + Gain(run.states[k], run.states[k + 1], user, strict)
  {
    ReachableInv(run, limits, user, false, k);
    RunStep(run, limits, k + 1);
    OthersCannotRaise(run.states[k], run.actions[k], run.states[k + 1], limits, r, user);
    StepGains(limits, run.states[k], run.actions[k], run.states[k + 1], user, kind, strict);
  }

  lemma HoldsLockPart(run: Run, r: nat, user: string, i: nat, m: nat, i': nat, m': nat)
    requires i <= i' <= m' <= m < |run.states| && |run.states| == |run.actions| + 1
    requires HoldsLock(run, r, user, i, m)
    ensures HoldsLock(run, r, user, i', m')
  {
  }

  lemma {:induction false} LockedRunShrinks(run: Run, limits: Limits, strict: bool, r: nat, user: string, kind: Kind, i: nat, m: nat)
    requires IsRun(run, limits, false)
    requires i <= m < |run.states| && HoldsLock(run, r, user, i, m)
    ensures Shrinks(run.states[i], run.states[m], user, false)
    ensures |BusyKeys(run.states[m], user, kind, strict)|
         <= |BusyKeys(run.states[i], user, kind, strict)| + Slack(run, user, strict, i, m)
    decreases m - i
  {
    if i == m {
      SameWorldShrinks(run.states[i], run.states[m], user, false);
    } else {
      HoldsLockPart(run, r, user, i, m, i, m - 1);
      HoldsLockPart(run, r, user, i, m, m - 1, m);
      LockedRunShrinks(run, limits, strict, r, user, kind, i, m - 1);
      LockedStepShrinks(run, limits, strict, r, user, kind, m - 1);
      ShrinksTrans(run.states[i], run.states[m - 1], run.states[m], user, false);
      SlackGrows(run, user, strict, i, m);
    }
  }

  /** Torn snapshots are safe: rows read at i, objects listed at j, and any later m under the same
      lock, whatever workers, stops, deletes and outsiders did in between. The API's own count can be
      missed by no more than the rows uncovered since the list. The totals cannot come out above what
      was there at i either. */
  lemma TornSnapshotIsSafe(run: Run, limits: Limits, r: nat, user: string, i: nat, j: nat, m: nat, kind: Kind)
    requires IsRun(run, limits, false)
    requires i <= j <= m < |run.states| && HoldsLock(run, r, user, i, m)
    ensures var db := ReadRows(run.states[i], user);
            var listing := ListObjects(run.states[j], user);
            && |SlotKeys(run.states[m], user, kind)| <= |RunningKeys(db, listing, kind)|
            && |EffectiveKeys(run.states[m], user, kind)| <= |RunningKeys(db, listing, kind)| + Uncoverings(run, user, j, m)
            && |CreatedNow(run.states[m], user, kind)| <= |CreatedKeys(db, listing, kind)|
            && |CreatedKeys(db, listing, kind)| <= |CreatedNow(run.states[i], user, kind)|
  {
    TornRunning(run, limits, false, r, user, i, j, m, kind);
    TornRunning(run, limits, true, r, user, i, j, m, kind);
    TornTotals(run, limits, r, user, i, j, m, kind);
  }

  lemma ViewAtList(run: Run, limits: Limits, r: nat, user: string, i: nat, j: nat)
    requires IsRun(run, limits, false)
    requires i <= j < |run.states| && HoldsLock(run, r, user, i, j)
    ensures Inv(run.states[j], false) && Covers(run.states[j], user, ReadRows(run.states[i], user))
    ensures Shrinks(run.states[i], run.states[j], user, false)
  {
    LockedRunShrinks(run, limits, false, r, user, Cpu, i, j);
    ReachableInv(run, limits, user, false, j);
    FreshReadCovers(run.states[i], user);
    CoversLasts(run.states[i], run.states[j], user, ReadRows(run.states[i], user), false);
  }

  lemma TornRunning(run: Run, limits: Limits, strict: bool, r: nat, user: string, i: nat, j: nat, m: nat, kind: Kind)
    requires IsRun(run, limits, false)
    requires i <= j <= m < |run.states| && HoldsLock(run, r, user, i, m)
    ensures |BusyKeys(run.states[m], user, kind, strict)|
         <= |RunningKeys(ReadRows(run.states[i], user), ListObjects(run.states[j], user), kind)| + Slack(run, user, strict, j, m)
  {
    HoldsLockPart(run, r, user, i, m, i, j);
    HoldsLockPart(run, r, user, i, m, j, m);
    ViewAtList(run, limits, r, user, i, j);
    TornCountCovers(run.states[j], user, ReadRows(run.states[i], user), kind, strict);
    LockedRunShrinks(run, limits, strict, r, user, kind, j, m);
  }

  lemma TornTotals(run: Run, limits: Limits, r: nat, user: string, i: nat, j: nat, m: nat, kind: Kind)
    requires IsRun(run, limits, false)
    requires i <= j <= m < |run.states| && HoldsLock(run, r, user, i, m)
    ensures var created := CreatedKeys(ReadRows(run.states[i], user), ListObjects(run.states[j], user), kind);
            |CreatedNow(run.states[m], user, kind)| <= |created| <= |CreatedNow(run.states[i], user, kind)|
  {
    HoldsLockPart(run, r, user, i, m, i, j);
    HoldsLockPart(run, r, user, i, m, j, m);
    ViewAtList(run, limits, r, user, i, j);
    var s1, s2, s3 := run.states[i], run.states[j], run.states[m];
    TornCountCovers(s2, user, ReadRows(s1, user), kind, false);
    LockedRunShrinks(run, limits, false, r, user, kind, j, m);
    ShrinkCounts(s2, s3, user, kind, false);
    FreshReadCovers(s1, user);
    TornTotalBounded(s1, s2, user, ReadRows(s1, user), kind, false);
    FreshTotal(s1, user, kind);
  }

  /** The combined check of the create handler never refuses what the check by kind would let pass. */
  lemma CombinedCheckAddsNothing(run: Run, limits: Limits, i: nat, r: nat, running: Totals)
    requires IsRun(run, limits, false)
    requires limits.totalCpu >= 0 && limits.totalGpu >= 0
    requires i < |run.states| && r in run.states[i].requests && run.states[i].requests[r].CreateTotalled?
    ensures var q := run.states[i].requests[r];
            CreateRefused(limits, q.kind, running, q.totals) <==>
              running.Of(q.kind) >= limits.Running(q.kind) || q.totals.Of(q.kind) >= limits.Total(q.kind)
  {
    var q := run.states[i].requests[r];
    ReachableInv(run, limits, q.key.user, false, i);
    assert RequestOk(run.states[i], limits, q, false, 0);
    assert q.totals.Of(Cpu) <= Cap(limits.Total(Cpu)) && q.totals.Of(Gpu) <= Cap(limits.Total(Gpu));
  }
}
