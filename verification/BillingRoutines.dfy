/** The two billing routines as the code runs them, on a profile row that is updated in place. */
module BillingRoutines {
  import opened Billing
  import opened Ledger

  class ProfileRow {
    var paid: nat
    var access: bool
    var synced: int
    var pending: nat
    var lastBalance: int

    constructor (createdAt: int)
      ensures Value() == Profile(0, true, Stored(createdAt), 0, 0)
    {
      paid, access, synced, pending, lastBalance := 0, true, Stored(createdAt), 0, 0;
    }

    function Value(): Profile
      reads this
    {
      Profile(paid, access, synced, pending, lastBalance)
    }

    /** UPDATE profiles SET ... WHERE user_id: the five columns a routine writes. */
    method Update(row: Profile)
      modifies this
      ensures Value() == row
    {
      access := row.access;
      pending := row.pending;
      synced := row.synced;
      lastBalance := row.lastBalance;
      paid := row.paid;
    }

    /** The cron's processing of one profile, under the row lock. */
    method ExecuteProfileProcessing(a: Answers, commitOk: bool) returns (failed: bool, took: nat, stopsGpu: bool)
      modifies this
      ensures var t, p := Cron(a, commitOk), old(Value());
              && failed == !Commits(p, t)
              && took == Took(p, t)
              && Value() == (if Commits(p, t) then Outcome(p, t).row else p)
              && stopsGpu == (Outcome(p, t).Bill? && Outcome(p, t).stopsGpu)
      ensures !failed && a.now - old(synced) < 180_000_000_000 ==> paid + pending == old(paid + pending)
      ensures !failed && a.now - old(synced) >= 180_000_000_000 ==>
                && a.cost.Cost?
                && paid + pending == old(paid + pending) + (if a.cost.raw <= 100_000 then 0 else a.cost.raw)
    {
      took, stopsGpu := 0, false;
      var locked := Value();
      var cost: nat := 0;
      if !(a.now - locked.synced < MIN_INTERVAL) {
        if a.cost.NoCost? {
          return true, 0, false;
        }
        cost := Normalize(a.cost.raw);
      }
      var canCreate, pendingDeduction, lastSync, totalPaid := locked.access, locked.pending, locked.lastBalance, locked.paid;
      var totalDeduction := pendingDeduction + cost;
      if totalDeduction > 0 {
        if a.balance.NoBalance? {
          pendingDeduction := totalDeduction;
          canCreate := false;
        } else {
          var balance := Normalize(a.balance.raw);
          if balance == 0 {
            pendingDeduction := totalDeduction;
            canCreate := false;
            stopsGpu := true;
          } else if balance < totalDeduction {
            canCreate := false;
            stopsGpu := true;
            if a.debit.Refused? {
              took := a.debit.took;
              pendingDeduction := totalDeduction;
            } else {
              took := balance + a.debit.extra;
              lastSync := a.debit.updated;
              pendingDeduction := totalDeduction - balance;
              totalPaid := totalPaid + balance;
            }
          } else {
            if a.debit.Refused? {
              took := a.debit.took;
              pendingDeduction := totalDeduction;
              canCreate := false;
            } else {
              took := totalDeduction + a.debit.extra;
              totalPaid := totalPaid + totalDeduction;
              pendingDeduction := 0;
              lastSync := a.debit.updated;
              canCreate := true;
            }
          }
        }
      }
      if !commitOk {
        return true, took, stopsGpu;
      }
      Update(Profile(totalPaid, canCreate, Stored(a.syncAt), pendingDeduction, lastSync));
      failed := false;
    }

    /** The API's attempt, inside the transaction of a create or start request. The row it would write
        stays in the transaction until the request commits. */
    method TryRestoreGpuAccess(a: Answers) returns (failed: bool, hasAccess: bool, tx: Profile, took: nat)
      ensures access ==> !failed && hasAccess && tx == Value() && took == 0
      ensures !access ==>
                && failed == ApiBill(Value(), a).NoBill?
                && (!failed ==> tx == ApiBill(Value(), a).row && hasAccess == tx.access)
                && (failed ==> !hasAccess)
                && took == Took(Value(), Api(a, true))
      ensures !access && !failed && a.now - synced < 180_000_000_000 ==> tx.paid + tx.pending == paid + pending
      ensures !access && !failed && a.now - synced >= 180_000_000_000 ==>
                a.cost.Cost? && tx.paid + tx.pending == paid + pending + a.cost.raw
    {
      tx, took := Value(), 0;
      if access {
        return false, true, tx, 0;
      }
      var cost: nat := 0;
      if !(a.now - synced < MIN_INTERVAL) {
        if a.cost.NoCost? {
          return true, false, tx, 0;
        }
        cost := a.cost.raw;
      }
      var totalDeduction := pending + cost;
      var canCreate, pendingDeduction, lastSync, totalPaid := false, pending, lastBalance, paid;
      if totalDeduction > 0 {
        if !a.token || a.balance.NoBalance? {
          return true, false, tx, 0;
        }
        var balance := a.balance.raw;
        if balance == 0 {
          pendingDeduction := totalDeduction;
        } else if balance < totalDeduction {
          if a.debit.Refused? {
            took := a.debit.took;
            pendingDeduction := totalDeduction;
          } else {
            took := balance + a.debit.extra;
            lastSync := a.debit.updated;
            pendingDeduction := totalDeduction - balance;
            totalPaid := totalPaid + balance;
          }
        } else {
          if a.debit.Refused? {
            took := a.debit.took;
            pendingDeduction := totalDeduction;
          } else {
            took := totalDeduction + a.debit.extra;
            totalPaid := totalPaid + totalDeduction;
            pendingDeduction := 0;
            lastSync := a.debit.updated;
            canCreate := true;
          }
        }
      }
      tx := Profile(totalPaid, canCreate, Stored(a.syncAt), pendingDeduction, lastSync);
      return false, canCreate, tx, took;
    }

    /** A GPU request from the lock to its end. `later` says whether everything after the billing,
        insert or annotation and commit, succeeds. */
    method GpuRequest(a: Answers, later: bool) returns (served: bool, took: nat)
      modifies this
      ensures var t, p := Api(a, later), old(Value());
              && took == Took(p, t)
              && Value() == (if Commits(p, t) then Outcome(p, t).row else p)
              && served == (later && (p.access || Commits(p, t)))
    {
      took := 0;
      var tx := Value();
      if !access {
        var failed, hasAccess;
        failed, hasAccess, tx, took := TryRestoreGpuAccess(a);
        if failed {
          return false, took;
        }
        if !hasAccess {
          return false, took;
        }
      }
      if !later {
        return false, took;
      }
      Update(tx);
      served := true;
    }
  }
}
