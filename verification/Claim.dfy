/** A worker's claim of a row: a retried transaction that selects a row nobody has picked, marks it and
    commits. A commit whose reply is lost makes the loop start over with another row. */
module Claim {
  import opened Options
  import opened Retry

  /** Row ids are handed out upwards and never again; a row maps to whether it is picked. */
  datatype Table = Table(rows: map<nat, bool>, nextId: nat) {
    ghost predicate Valid() { forall id :: id in rows ==> id < nextId }
  }

  /** What other transactions commit before an attempt: rows deleted, rows picked, and rows inserted
      under ids from the next free one up to, but not including, `nextId`. */
  datatype Others = Others(deleted: set<nat>, picked: set<nat>, inserted: set<nat>, nextId: nat)

  datatype Fault = NoFault | BeginFails | QueryFails | ScanFails | UpdateFails | CommitFails(landed: bool)

  /** The outside of one attempt. `free` are the rows that SKIP LOCKED leaves, in the order of the scan. */
  datatype Turn = Turn(others: Others, free: seq<nat>, fault: Fault)

  /** The captured slice and the database; `claims` and `lost` record which of our commits landed, and
      which of those were not acknowledged. */
  datatype S = S(notebooks: seq<nat>, table: Table, claims: seq<nat>, lost: seq<nat>)

  datatype Error = NoTransaction | NoRows | NoScan | NoUpdate | NoCommit

  function Absorb(t: Table, o: Others): Table {
    var kept := map id | id in t.rows && id !in o.deleted :: t.rows[id] || id in o.picked;
    var added := map id | id in o.inserted && t.nextId <= id < o.nextId :: false;
    Table(kept + added, if o.nextId > t.nextId then o.nextId else t.nextId)
  }

  /** SELECT ... WHERE picked_at IS NULL FOR UPDATE SKIP LOCKED LIMIT 1. */
  function SelectOne(t: Table, free: seq<nat>): seq<nat> {
    if free == [] then []
    else if free[0] in t.rows && !t.rows[free[0]] then [free[0]]
    else SelectOne(t, free[1..])
  }

  function Mark(t: Table, id: nat): Table {
    t.(rows := t.rows[id := true])
  }

  /** One attempt of the closure. */
  function Attempt(turn: Turn, s: S): Reply<S, Error> {
    Transact(turn, s.(table := Absorb(s.table, turn.others)))
  }

  /** The transaction. The slice is reset only once it has begun. */
  function Transact(turn: Turn, s: S): Reply<S, Error> {
    if turn.fault.BeginFails? then Reply(s, true, Some(NoTransaction))
    else
      var s := s.(notebooks := []);
      if turn.fault.QueryFails? then Reply(s, true, Some(NoRows))
      else
        var found := SelectOne(s.table, turn.free);
        if found == [] then
          if turn.fault.CommitFails? then Reply(s, true, Some(NoCommit)) else Reply(s, false, None)
        else if turn.fault.ScanFails? then Reply(s, true, Some(NoScan))
        else MarkAndCommit(turn.fault, s.(notebooks := found), found[0])
  }

  function MarkAndCommit(fault: Fault, s: S, id: nat): Reply<S, Error> {
    if fault.UpdateFails? then Reply(s, true, Some(NoUpdate))
    else
      var landed := s.(table := Mark(s.table, id), claims := s.claims + [id]);
      if fault.CommitFails? then
        Reply(if fault.landed then landed.(lost := s.lost + [id]) else s, true, Some(NoCommit))
      else Reply(landed, false, None)
  }

  function ClaimOp(script: nat -> Turn): (S, nat) -> Reply<S, Error> {
    (s: S, k: nat) => Attempt(script(k), s)
  }

  function Start(table: Table): S { S([], table, [], []) }

  method FetchAndMarkNotebook(config: BackoffConfig, table: Table, script: nat -> Turn, cancelled: nat -> bool)
    returns (notebooks: seq<nat>, ok: bool, s: S, outcome: Outcome<Error>, calls: nat)
    requires config.factor >= 1
    ensures Retried(Start(table), ClaimOp(script), cancelled, config.attempts, calls, s, outcome)
    ensures ok <==> outcome == Returned(None)
    ensures notebooks == if ok then s.notebooks else []
  {
    var waits;
    s, outcome, calls, waits := WithExponentialBackoff(config, Start(table), ClaimOp(script), cancelled);
    if outcome != Returned(None) {
      return [], false, s, outcome, calls;
    }
    return s.notebooks, true, s, outcome, calls;
  }

  // ---------------------------------------------------------------- what is claimed

  /** A row the query may return: it is there, and nobody has picked it. */
  predicate Free(t: Table, id: nat) { id in t.rows && !t.rows[id] }

  /** The query finds a row whenever one of those it may look at is free, and it is the first such. */
  lemma {:induction false} SelectedIsFree(t: Table, free: seq<nat>)
    ensures |SelectOne(t, free)| <= 1
    ensures SelectOne(t, free) == [] <==> forall id :: id in free ==> !(id in t.rows && !t.rows[id])
    ensures SelectOne(t, free) != [] ==>
              exists k :: 0 <= k < |free| && FirstFree(t, free, k) && SelectOne(t, free) == [free[k]]
  {
    if free != [] && !Free(t, free[0]) {
      SelectedIsFree(t, free[1..]);
      assert forall id :: id in free <==> id == free[0] || id in free[1..];
      if SelectOne(t, free) != [] {
        var k :| 0 <= k < |free[1..]| && FirstFree(t, free[1..], k) && SelectOne(t, free[1..]) == [free[1..][k]];
        FirstFreeBehind(t, free, k);
      }
    } else if free != [] {
      assert FirstFree(t, free, 0) && free[0] in free;
    }
  }

  predicate FirstFree(t: Table, free: seq<nat>, k: nat)
    requires k < |free|
  {
    Free(t, free[k]) && forall i :: 0 <= i < k ==> !Free(t, free[i])
  }

  lemma FirstFreeBehind(t: Table, free: seq<nat>, k: nat)
    requires k + 1 < |free| && !Free(t, free[0]) && FirstFree(t, free[1..], k)
    ensures FirstFree(t, free, k + 1) && free[k + 1] == free[1..][k]
  {
    forall i | 0 <= i < k + 1
      ensures !Free(t, free[i])
    {
      assert i > 0 ==> free[i] == free[1..][i - 1];
    }
  }

  /** Between attempts: every claim so far is a lost one, all are different, and none of the rows can
      be selected again. */
  ghost predicate Kept(s: S) {
    && s.table.Valid()
    && s.claims == s.lost
    && Spent(s)
  }

  ghost predicate Spent(s: S) {
    && (forall i :: 0 <= i < |s.claims| ==>
          && s.claims[i] < s.table.nextId
          && (s.claims[i] in s.table.rows ==> s.table.rows[s.claims[i]]))
    && (forall i, j :: 0 <= i < j < |s.claims| ==> s.claims[i] != s.claims[j])
  }

  lemma AbsorbKeeps(s: S, o: Others)
    requires s.table.Valid() && Spent(s)
    ensures var s' := s.(table := Absorb(s.table, o)); s'.table.Valid() && Spent(s')
  {
  }

  lemma ClaimKeeps(s: S, id: nat)
    requires s.table.Valid() && Spent(s) && id in s.table.rows && !s.table.rows[id]
    ensures var s' := s.(table := Mark(s.table, id), claims := s.claims + [id]); s'.table.Valid() && Spent(s')
  {
  }

  /** What one attempt does to the claims: an attempt that goes on adds at most a lost one, and the
      last one adds just the row it returns. */
  ghost predicate Accounted(s: S, r: Reply<S, Error>) {
    && Spent(r.state) && r.state.table.Valid()
    && (!Final(r) ==> Kept(r.state))
    && (Final(r) ==> r.err.None? && |r.state.notebooks| <= 1 && r.state.lost == s.lost
                     && r.state.claims == r.state.lost + r.state.notebooks)
  }

  lemma MarkAndCommitKeeps(fault: Fault, s: S, id: nat)
    requires Kept(s) && id in s.table.rows && !s.table.rows[id] && s.notebooks == [id]
    ensures Accounted(s, MarkAndCommit(fault, s, id))
  {
    ClaimKeeps(s, id);
  }

  lemma TransactKeeps(turn: Turn, s: S)
    requires Kept(s)
    ensures Accounted(s, Transact(turn, s))
  {
    SelectedIsFree(s.table, turn.free);
    var found := SelectOne(s.table, turn.free);
    if found != [] {
      assert found == [found[0]];
      MarkAndCommitKeeps(turn.fault, s.(notebooks := found), found[0]);
    }
  }

  lemma AttemptKeeps(turn: Turn, s: S)
    requires Kept(s)
    ensures Accounted(s, Attempt(turn, s))
  {
    AbsorbKeeps(s, turn.others);
    TransactKeeps(turn, s.(table := Absorb(s.table, turn.others)));
  }

  lemma {:induction false} KeptSoFar(table: Table, script: nat -> Turn, k: nat)
    requires k >= 1 && table.Valid()
    requires forall i :: 1 <= i < k ==> !Final(ReplyAt(Start(table), ClaimOp(script), i))
    ensures Kept(Before(Start(table), ClaimOp(script), k))
  {
    if k > 1 {
      KeptSoFar(table, script, k - 1);
      var before := Before(Start(table), ClaimOp(script), k - 1);
      assert !Final(ReplyAt(Start(table), ClaimOp(script), k - 1));
      assert ReplyAt(Start(table), ClaimOp(script), k - 1) == Attempt(script(k - 1), before);
      AttemptKeeps(script(k - 1), before);
    }
  }

  /** Main result, for every script of faults and of other transactions: the rows this call claimed are
      those whose acknowledgement was lost, followed by the one it returns, all different; so a row it
      returns was claimed by its last commit, and an error returns none. */
  lemma ClaimsAreLostOrReturned(table: Table, script: nat -> Turn, cancelled: nat -> bool, attempts: int,
                                calls: nat, s: S, outcome: Outcome<Error>)
    requires table.Valid() && attempts >= 1
    requires Retried(Start(table), ClaimOp(script), cancelled, attempts, calls, s, outcome)
    ensures s.claims == s.lost + (if outcome == Returned(None) then s.notebooks else [])
    ensures outcome == Returned(None) ==> |s.notebooks| <= 1
    ensures forall i, j :: 0 <= i < j < |s.claims| ==> s.claims[i] != s.claims[j]
    ensures forall i :: 0 <= i < |s.claims| && s.claims[i] in s.table.rows ==> s.table.rows[s.claims[i]]
    ensures |s.claims| <= calls
  {
    var op := ClaimOp(script);
    KeptSoFar(table, script, calls);
    var before := Before(Start(table), op, calls);
    assert ReplyAt(Start(table), op, calls) == Attempt(script(calls), before);
    AttemptKeeps(script(calls), before);
    assert s.lost + [] == s.lost;
    OneClaimAnAttempt(table, script, calls);
  }

  lemma {:induction false} OneClaimAnAttempt(table: Table, script: nat -> Turn, k: nat)
    requires k >= 1
    ensures |Before(Start(table), ClaimOp(script), k).claims| <= k - 1
    ensures |ReplyAt(Start(table), ClaimOp(script), k).state.claims| <= k
  {
    if k > 1 {
      OneClaimAnAttempt(table, script, k - 1);
    }
    var before := Before(Start(table), ClaimOp(script), k);
    assert ReplyAt(Start(table), ClaimOp(script), k) == Attempt(script(k), before);
  }

  // ---------------------------------------------------------------- what a call finds

  /** A transaction that meets this fault, among rows of which some are free or none, still commits. */
  predicate Harmless(fault: Fault, someFree: bool) {
    fault.NoFault? || (!someFree && (fault.ScanFails? || fault.UpdateFails?))
  }

  ghost predicate SomeFree(t: Table, free: seq<nat>) { exists id :: id in free && Free(t, id) }

  /** What one attempt reports: an error to be tried again unless the fault is harmless; and without an
      error the first free row, now picked, or none if there is none. */
  lemma AttemptFinds(turn: Turn, s: S)
    ensures var t := Absorb(s.table, turn.others);
            var r := Attempt(turn, s);
            && (r.err.None? <==> Harmless(turn.fault, SomeFree(t, turn.free)))
            && (r.go <==> r.err.Some?)
            && (r.err.None? && r.state.notebooks == [] ==> !SomeFree(t, turn.free) && r.state.table == t)
            && (r.err.None? && r.state.notebooks != [] ==>
                  exists k :: 0 <= k < |turn.free| && FirstFree(t, turn.free, k) && r.state.notebooks == [turn.free[k]]
                              && r.state.table == t.(rows := t.rows[turn.free[k] := true]))
  {
    var t := Absorb(s.table, turn.others);
    SelectedIsFree(t, turn.free);
    if SelectOne(t, turn.free) != [] {
      var k :| 0 <= k < |turn.free| && FirstFree(t, turn.free, k) && SelectOne(t, turn.free) == [turn.free[k]];
      assert turn.free[k] in turn.free && Free(t, turn.free[k]);
    } else {
      assert !SomeFree(t, turn.free);
    }
  }

  /** Errors end a call only when its attempts or its time run out. */
  lemma ErrorsAreTriedAgain(table: Table, script: nat -> Turn, cancelled: nat -> bool, attempts: int,
                            calls: nat, s: S, outcome: Outcome<Error>)
    requires attempts >= 1
    requires Retried(Start(table), ClaimOp(script), cancelled, attempts, calls, s, outcome)
    ensures outcome != Returned(None) ==> calls == attempts || cancelled(calls)
    ensures outcome == Returned(None) <==>
              Harmless(script(calls).fault,
                       SomeFree(Absorb(Before(Start(table), ClaimOp(script), calls).table, script(calls).others), script(calls).free))
  {
    var before := Before(Start(table), ClaimOp(script), calls);
    assert ReplyAt(Start(table), ClaimOp(script), calls) == Attempt(script(calls), before);
    AttemptFinds(script(calls), before);
  }

  /** A call that ends well with no row has seen none: every row it could look at is picked or gone. One
      that ends well with a row has the first that was free, and leaves it picked. */
  lemma EmptyMeansNothingFree(table: Table, script: nat -> Turn, cancelled: nat -> bool, attempts: int,
                              calls: nat, s: S, outcome: Outcome<Error>)
    requires attempts >= 1
    requires Retried(Start(table), ClaimOp(script), cancelled, attempts, calls, s, outcome)
    requires outcome == Returned(None)
    ensures s.notebooks == [] ==> forall id :: id in script(calls).free && id in s.table.rows ==> s.table.rows[id]
    ensures s.notebooks != [] ==>
              exists k :: 0 <= k < |script(calls).free| && s.notebooks == [script(calls).free[k]]
                          && script(calls).free[k] in s.table.rows && s.table.rows[script(calls).free[k]]
                          && forall i :: 0 <= i < k && script(calls).free[i] in s.table.rows ==> s.table.rows[script(calls).free[i]]
  {
    var free := script(calls).free;
    var before := Before(Start(table), ClaimOp(script), calls);
    var t := Absorb(before.table, script(calls).others);
    assert ReplyAt(Start(table), ClaimOp(script), calls) == Attempt(script(calls), before);
    AttemptFinds(script(calls), before);
    if s.notebooks == [] {
      assert forall id :: id in free ==> !Free(t, id);
    } else {
      var k :| 0 <= k < |free| && FirstFree(t, free, k) && s.notebooks == [free[k]]
               && s.table == t.(rows := t.rows[free[k] := true]);
      PickedBefore(t, s.table, free, k);
    }
  }

  lemma PickedBefore(t: Table, t': Table, free: seq<nat>, k: nat)
    requires k < |free| && FirstFree(t, free, k) && t' == t.(rows := t.rows[free[k] := true])
    ensures free[k] in t'.rows && t'.rows[free[k]]
    ensures forall i :: 0 <= i < k && free[i] in t'.rows ==> t'.rows[free[i]]
  {
    forall i | 0 <= i < k && free[i] in t'.rows
      ensures t'.rows[free[i]]
    {
      assert !Free(t, free[i]);
    }
  }

  lemma AttemptLost(turn: Turn, s: S, id: nat)
    requires turn.others == Others({}, {}, {}, 0) && turn.fault == CommitFails(true)
    requires SelectOne(s.table, turn.free) == [id]
    ensures Attempt(turn, s)
         == Reply(S([id], Mark(s.table, id), s.claims + [id], s.lost + [id]), true, Some(NoCommit))
  {
    assert Absorb(s.table, turn.others) == s.table;
  }

  lemma AttemptWorks(turn: Turn, s: S, id: nat)
    requires turn.others == Others({}, {}, {}, 0) && turn.fault == NoFault
    requires SelectOne(s.table, turn.free) == [id]
    ensures Attempt(turn, s) == Reply(S([id], Mark(s.table, id), s.claims + [id], s.lost), false, None)
  {
    assert Absorb(s.table, turn.others) == s.table;
  }

  /** The price of a lost acknowledgement: the row stays picked with no worker that knows of it, while
      the call goes on to another row and succeeds. */
  lemma LostRowIsStranded(table: Table, script: nat -> Turn, cancelled: nat -> bool, attempts: int, a: nat, b: nat)
    requires attempts >= 2 && !cancelled(1)
    requires script(1).others == script(2).others == Others({}, {}, {}, 0)
    requires script(1).fault == CommitFails(true) && SelectOne(table, script(1).free) == [a]
    requires script(2).fault == NoFault && SelectOne(Mark(table, a), script(2).free) == [b]
    ensures Retried(Start(table), ClaimOp(script), cancelled, attempts, 2,
                    S([b], Mark(Mark(table, a), b), [a, b], [a]), Returned(None))
  {
    var s0, s1 := Start(table), S([a], Mark(table, a), [a], [a]);
    var op := ClaimOp(script);
    AttemptLost(script(1), s0, a);
    AttemptWorks(script(2), s1, b);
    assert [] + [a] == [a] && [a] + [b] == [a, b];
    assert Before(s0, op, 1) == s0 && op(s0, 1) == Attempt(script(1), s0);
    assert Before(s0, op, 2) == s1 && op(s1, 2) == Attempt(script(2), s1);
    assert ReplyAt(s0, op, 1) == op(s0, 1) && ReplyAt(s0, op, 2) == op(s1, 2);
  }
}
