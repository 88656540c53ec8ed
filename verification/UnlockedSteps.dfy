/** Every step except the commit of a create and the update of a start leaves a user's counts where
    they are or lowers them, although none of these steps takes the user's lock. */
module UnlockedSteps {
  import opened Notebooks
  import opened Protocol
  import opened ProtocolInvariant
  import opened Sets

  // ---------------------------------------------------------------- what unlocked steps may do

  /** From one state to the other a user's rows only vanish or move towards their last event, no slot
      is gained, and an object appears only under a row that is not applied yet. */
  ghost predicate Shrinks(s: State, s': State, user: string, strict: bool) {
    && (forall key :: key in s'.rows && key.user == user ==>
          && key in s.rows && s.rows[key].kind == s'.rows[key].kind
          && (Settled(s.rows, key) ==> Latest(s'.rows[key]) == Latest(s.rows[key])))
    && (forall key: Key :: key.user == user && Busy(s', key, strict) ==> Busy(s, key, strict))
    && (forall key: Key :: key.user == user && Created(s', key) ==> Created(s, key))
    && (forall key: Key :: key.user == user && key in s'.objects && key !in s.objects ==>
          key in s.rows && !Applied(s.rows[key]))
  }

  lemma ShrinksTrans(s1: State, s2: State, s3: State, user: string, strict: bool)
    requires Shrinks(s1, s2, user, strict) && Shrinks(s2, s3, user, strict)
    ensures Shrinks(s1, s3, user, strict)
  {
    forall key: Key | key.user == user && key in s3.objects && key !in s1.objects
      ensures key in s1.rows && !Applied(s1.rows[key])
    {
      if key in s2.objects {
      } else {
        assert key in s2.rows && !Applied(s2.rows[key]);
      }
    }
  }

  /** Shrinking states have shrinking counts. */
  lemma ShrinkCounts(s: State, s': State, user: string, kind: Kind, strict: bool)
    requires Shrinks(s, s', user, strict)
    ensures |BusyKeys(s', user, kind, strict)| <= |BusyKeys(s, user, kind, strict)|
    ensures |CreatedNow(s', user, kind)| <= |CreatedNow(s, user, kind)|
  {
    SubsetCard(BusyKeys(s', user, kind, strict), BusyKeys(s, user, kind, strict));
    SubsetCard(CreatedNow(s', user, kind), CreatedNow(s, user, kind));
  }

  lemma SameWorldShrinks(s: State, s': State, user: string, strict: bool)
    requires s'.rows == s.rows && s'.objects == s.objects && s'.jobs == s.jobs
    ensures Shrinks(s, s', user, strict)
  {
  }

  /** Jobs may only lose the power to launch. */
  lemma JobsShrink(s: State, s': State, key: Key)
    requires key in s'.rows ==> key in s.rows && (s.rows[key].picked ==> s'.rows[key].picked)
    requires forall w :: w in s'.jobs && s'.jobs[w].key == key && LaunchingPc(s'.jobs[w].pc) ==>
               w in s.jobs && s.jobs[w].key == key
               && (LaunchingPc(s.jobs[w].pc) || (key in s.rows && !s.rows[key].picked))
    ensures Launching(s', key) ==> Launching(s, key)
  {
  }

  lemma CommitCreateElsewhere(s: State, s': State, r: nat, user: string, strict: bool)
    requires CommitCreate(s, s', r) && user != s.requests[r].key.user
    ensures Shrinks(s, s', user, strict)
  {
    forall key: Key | key.user == user
      ensures Launching(s', key) ==> Launching(s, key)
    {
      JobsShrink(s, s', key);
    }
  }

  lemma StartUpdateElsewhere(s: State, s': State, r: nat, user: string, strict: bool)
    requires StartUpdate(s, s', r) && user != s.requests[r].key.user
    ensures Shrinks(s, s', user, strict)
  {
  }

  lemma StopShrinks(s: State, s': State, key: Key, user: string, strict: bool)
    requires key in s.objects
    requires s'.rows == s.rows && s'.jobs == s.jobs
    requires s'.objects == s.objects[key := Obj(true, s.clock)]
    ensures Shrinks(s, s', user, strict)
  {
  }

  lemma DeleteRowShrinks(s: State, s': State, r: nat, user: string, strict: bool)
    requires DeleteRow(s, s', r)
    ensures Shrinks(s, s', user, strict)
  {
    forall key: Key | key.user == user
      ensures Launching(s', key) ==> Launching(s, key)
    {
      JobsShrink(s, s', key);
    }
  }

  /** The step removes a stopped object although its row is still on its way. */
  predicate Uncovers(s: State, s': State, key: Key) {
    && key in s.objects && s.objects[key].stopped
    && key !in s'.objects
    && !Settled(s.rows, key)
  }

  ghost predicate NothingUncovered(s: State, s': State, user: string, strict: bool) {
    strict ==> forall key: Key :: key.user == user ==> !Uncovers(s, s', key)
  }

  /** Removing an object frees no way to launch another one; the API's own count can only miss it. */
  lemma RemoveObjectShrinks(s: State, s': State, key: Key, user: string, strict: bool)
    requires s'.rows == s.rows && s'.objects == s.objects - {key}
    requires !Launching(s, key)
    requires NothingUncovered(s, s', user, strict)
    requires forall w :: w in s'.jobs && LaunchingPc(s'.jobs[w].pc) ==> w in s.jobs && s.jobs[w] == s'.jobs[w]
    ensures Shrinks(s, s', user, strict)
  {
    forall k: Key | k.user == user
      ensures Launching(s', k) ==> Launching(s, k)
    {
      JobsShrink(s, s', k);
    }
    forall k: Key | k.user == user && Busy(s', k, strict)
      ensures Busy(s, k, strict)
    {
      assert !strict || !Uncovers(s, s', k);
    }
  }

  lemma SettledDoesNotLaunch(s: State, key: Key)
    requires Inv(s, false)
    requires Settled(s.rows, key)
    ensures !Launching(s, key)
  {
  }

  lemma CleanedDoesNotLaunch(s: State, w: nat)
    requires Inv(s, false)
    requires w in s.jobs && Cleaning(s.jobs[w].pc)
    ensures !Launching(s, s.jobs[w].key)
  {
    assert JobOk(s.rows, s.nextId, s.jobs[w]);
  }

  lemma FreeShrinks(s: State, a: Action, s': State, user: string, strict: bool)
    requires Inv(s, false)
    requires FreeStep(s, a, s')
    requires NothingUncovered(s, s', user, strict)
    ensures Shrinks(s, s', user, strict)
  {
    if a.AStopUpdate? {
      StopShrinks(s, s', s.requests[a.r].key, user, strict);
    } else if a.ADeleteRow? {
      DeleteRowShrinks(s, s', a.r, user, strict);
    } else if a.ADeleteObject? {
      var key := s.requests[a.r].key;
      assert GateOk(s.rows, s.requests[a.r], false);
      SettledDoesNotLaunch(s, key);
      RemoveObjectShrinks(s, s', key, user, strict);
    } else {
      SameWorldShrinks(s, s', user, strict);
    }
  }

  lemma OutsideShrinks(s: State, a: Action, s': State, user: string, strict: bool)
    requires Inv(s, false)
    requires OutsideStep(s, a, s') && Env(s, a, false)
    requires NothingUncovered(s, s', user, strict)
    ensures Shrinks(s, s', user, strict)
  {
    if a.AOutsideStop? {
      StopShrinks(s, s', a.key, user, strict);
    } else {
      SettledDoesNotLaunch(s, a.key);
      RemoveObjectShrinks(s, s', a.key, user, strict);
    }
  }

  // ---------------------------------------------------------------- worker steps

  lemma SelectShrinks(s: State, s': State, w: nat, key: Key, user: string, strict: bool)
    requires Select(s, s', w, key)
    ensures Shrinks(s, s', user, strict)
  {
    forall k: Key | k.user == user
      ensures Launching(s', k) ==> Launching(s, k)
    {
      JobsShrink(s, s', k);
    }
  }

  lemma CommitClaimShrinks(s: State, s': State, w: nat, acked: bool, user: string, strict: bool)
    requires Inv(s, false)
    requires CommitClaim(s, s', w, acked)
    ensures Shrinks(s, s', user, strict)
  {
    CommitClaimRow(s, s', w, acked, false);
    forall k
      ensures Launching(s', k) ==> Launching(s, k)
    {
      JobsShrink(s, s', k);
    }
    RowMoveShrinks(s, s', s.jobs[w].key, user, strict);
  }

  /** The worker only changes its own place, never towards a new launch. */
  lemma MoveShrinks(s: State, s': State, user: string, strict: bool)
    requires s'.rows == s.rows && s'.objects == s.objects
    requires forall w :: w in s'.jobs && LaunchingPc(s'.jobs[w].pc) ==>
               w in s.jobs && s.jobs[w].key == s'.jobs[w].key && LaunchingPc(s.jobs[w].pc)
    ensures Shrinks(s, s', user, strict)
  {
    forall k: Key | k.user == user
      ensures Launching(s', k) ==> Launching(s, k)
    {
      JobsShrink(s, s', k);
    }
  }

  lemma CreateNotebookShrinks(s: State, s': State, w: nat, acked: bool, user: string, strict: bool)
    requires Inv(s, false)
    requires CreateNotebook(s, s', w, acked)
    ensures Shrinks(s, s', user, strict)
  {
    assert JobOk(s.rows, s.nextId, s.jobs[w]);
    assert Launching(s, s.jobs[w].key);
    forall k: Key | k.user == user
      ensures Launching(s', k) ==> Launching(s, k)
    {
      JobsShrink(s, s', k);
    }
  }

  /** A row still on its way may move on: whatever its next event, it was counted before. */
  lemma RowMoveShrinks(s: State, s': State, key: Key, user: string, strict: bool)
    requires key in s.rows && key in s'.rows && !Settled(s.rows, key)
    requires s'.rows == s.rows[key := s'.rows[key]] && s'.rows[key].kind == s.rows[key].kind
    requires s'.objects == s.objects
    requires forall k :: Launching(s', k) ==> Launching(s, k)
    ensures Shrinks(s, s', user, strict)
  {
    forall k: Key | k.user == user
      ensures Busy(s', k, strict) ==> Busy(s, k, strict)
      ensures Created(s', k) ==> Created(s, k)
    {
      if k != key && k in s'.rows {
        assert s'.rows[k] == s.rows[k];
      }
    }
  }

  lemma WriteStatusLaunches(s: State, s': State, w: nat, took: bool, acked: bool, k: Key)
    requires Inv(s, false)
    requires WriteStatus(s, s', w, took, acked)
    ensures Launching(s', k) ==> Launching(s, k)
  {
    WriteStatusRow(s, s', w, took, acked, false);
    JobsShrink(s, s', k);
  }

  lemma WriteStatusShrinks(s: State, s': State, w: nat, took: bool, acked: bool, user: string, strict: bool)
    requires Inv(s, false)
    requires WriteStatus(s, s', w, took, acked)
    ensures Shrinks(s, s', user, strict)
  {
    WriteStatusRow(s, s', w, took, acked, false);
    forall k
      ensures Launching(s', k) ==> Launching(s, k)
    {
      WriteStatusLaunches(s, s', w, took, acked, k);
    }
    RowMoveShrinks(s, s', s.jobs[w].key, user, strict);
  }

  lemma CleanNotebookShrinks(s: State, s': State, w: nat, acked: bool, user: string, strict: bool)
    requires Inv(s, false)
    requires CleanNotebook(s, s', w, acked)
    requires NothingUncovered(s, s', user, strict)
    ensures Shrinks(s, s', user, strict)
  {
    CleanedDoesNotLaunch(s, w);
    RemoveObjectShrinks(s, s', s.jobs[w].key, user, strict);
  }

  /** The worker steps that change neither rows nor objects never make a job launch that did not. */
  lemma QuietStepMoves(s: State, a: Action, s': State)
    requires WorkerStep(s, a, s')
    requires a.ACreatePvc? || a.AGiveUp? || a.ASkipClean? || a.ACleanPvc? || a.ADrop?
    ensures s'.rows == s.rows && s'.objects == s.objects
    ensures forall w :: w in s'.jobs && LaunchingPc(s'.jobs[w].pc) ==>
              w in s.jobs && s.jobs[w].key == s'.jobs[w].key && LaunchingPc(s.jobs[w].pc)
  {
  }

  lemma WorkerShrinks(s: State, a: Action, s': State, user: string, strict: bool)
    requires Inv(s, false)
    requires WorkerStep(s, a, s')
    requires NothingUncovered(s, s', user, strict)
    ensures Shrinks(s, s', user, strict)
  {
    if a.ASelect? {
      SelectShrinks(s, s', a.w, a.key, user, strict);
    } else if a.ACommitClaim? {
      CommitClaimShrinks(s, s', a.w, a.acked, user, strict);
    } else if a.ACreateNotebook? {
      CreateNotebookShrinks(s, s', a.w, a.acked, user, strict);
    } else if a.AWriteStatus? {
      WriteStatusShrinks(s, s', a.w, a.took, a.acked, user, strict);
    } else if a.ACleanNotebook? {
      CleanNotebookShrinks(s, s', a.w, a.acked, user, strict);
    } else {
      QuietStepMoves(s, a, s');
      MoveShrinks(s, s', user, strict);
    }
  }

  /** Only the commit of a create and the update of a start can add to a user's count. */
  predicate Raises(s: State, a: Action, user: string) {
    (a.ACommitCreate? || a.AStartUpdate?) && a.r in s.requests && s.requests[a.r].key.user == user
  }

  lemma CreateShrinks(limits: Limits, s: State, a: Action, s': State, user: string, strict: bool)
    requires CreateStep(limits, s, a, s') && !Raises(s, a, user)
    ensures Shrinks(s, s', user, strict)
  {
    if a.ACommitCreate? {
      CommitCreateElsewhere(s, s', a.r, user, strict);
    } else {
      SameWorldShrinks(s, s', user, strict);
    }
  }

  lemma StartShrinks(limits: Limits, s: State, a: Action, s': State, user: string, strict: bool)
    requires StartStep(limits, s, a, s') && !Raises(s, a, user)
    ensures Shrinks(s, s', user, strict)
  {
    if a.AStartUpdate? {
      StartUpdateElsewhere(s, s', a.r, user, strict);
    } else {
      SameWorldShrinks(s, s', user, strict);
    }
  }

  lemma StepShrinksUnlessUncovered(limits: Limits, s: State, a: Action, s': State, user: string, strict: bool)
    requires Inv(s, false)
    requires Step(limits, s, a, s') && Env(s, a, false)
    requires !Raises(s, a, user)
    requires NothingUncovered(s, s', user, strict)
    ensures Shrinks(s, s', user, strict)
  {
    if CreateStep(limits, s, a, s') {
      CreateShrinks(limits, s, a, s', user, strict);
    } else if StartStep(limits, s, a, s') {
      StartShrinks(limits, s, a, s', user, strict);
    } else if FreeStep(s, a, s') {
      FreeShrinks(s, a, s', user, strict);
    } else if WorkerStep(s, a, s') {
      WorkerShrinks(s, a, s', user, strict);
    } else {
      OutsideShrinks(s, a, s', user, strict);
    }
  }

  lemma StrictInvWeakens(s: State, strict: bool)
    requires Inv(s, strict)
    ensures Inv(s, false)
  {
    forall r | r in s.requests
      ensures GateOk(s.rows, s.requests[r], false)
    {
      assert GateOk(s.rows, s.requests[r], strict);
    }
  }

  lemma StepShrinks(limits: Limits, s: State, a: Action, s': State, user: string, strict: bool)
    requires Inv(s, strict)
    requires Step(limits, s, a, s') && Env(s, a, strict)
    requires !Raises(s, a, user)
    ensures Shrinks(s, s', user, strict)
  {
    StrictInvWeakens(s, strict);
    StepShrinksUnlessUncovered(limits, s, a, s', user, strict);
  }
}
