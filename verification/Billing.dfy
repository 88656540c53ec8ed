/** Credit accounting. Two separately written routines, the cron job and the API's attempt to restore
    GPU access, update one profile row against an external balance service. Amounts are integers in
    units of 10^-15, as the columns are DECIMAL(26,15); times are nanoseconds. */
module Billing {

  datatype Profile = Profile(paid: nat, access: bool, synced: int, pending: nat, lastBalance: int)

  datatype CostReply = Cost(raw: nat) | NoCost

  datatype BalanceReply = Balance(raw: nat) | NoBalance

  /** What a debit call reports, and what it took: a call that retried may have taken more than it
      was asked for, and a call that failed may have taken something all the same. */
  datatype DebitReply = Debited(updated: int, extra: nat) | Refused(took: nat)

  /** All that one attempt learns from outside. */
  datatype Answers = Answers(
    now: int,
    syncAt: int,
    cost: CostReply,
    token: bool,
    balance: BalanceReply,
    debit: DebitReply)

  const NANOS: int := 1_000_000_000
  const MIN_INTERVAL: int := 3 * 60 * NANOS
  /** 10^-10 in units of 10^-15. */
  const EPSILON: nat := 100_000

  /** The timestamp columns keep microseconds. */
  function Stored(t: int): int { t - t % 1000 }

  /** The metering service is asked in whole seconds. */
  function Seconds(t: int): int { t / NANOS }

  function Normalize(value: nat): nat {
    if value <= EPSILON then 0 else value
  }

  predicate TooSoon(p: Profile, a: Answers) { a.now - p.synced < MIN_INTERVAL }

  /** One routine's outcome: the row it writes, what it metered, what it asked the service for. */
  datatype Bill = NoBill | Bill(row: Profile, cost: nat, asked: nat, stopsGpu: bool)

  // ---------------------------------------------------------------- the two routines

  function CronCost(p: Profile, a: Answers): (c: CostReply)
  {
    if TooSoon(p, a) then Cost(0)
    else if a.cost.NoCost? then NoCost
    else Cost(Normalize(a.cost.raw))
  }

  function ApiCost(p: Profile, a: Answers): (c: CostReply)
  {
    if TooSoon(p, a) then Cost(0) else a.cost
  }

  /** cmd/cron/profile-credit-sync: a failed balance read still moves the cost to pending. */
  function CronBill(p: Profile, a: Answers): Bill {
    var c := CronCost(p, a);
    if c.NoCost? then NoBill
    else
      var total := p.pending + c.raw;
      var row := p.(synced := Stored(a.syncAt));
      if total == 0 then
        Bill(row, c.raw, 0, false)
      else if a.balance.NoBalance? then
        Bill(row.(pending := total, access := false), c.raw, 0, false)
      else
        var balance := Normalize(a.balance.raw);
        if balance == 0 then
          Bill(row.(pending := total, access := false), c.raw, 0, true)
        else if balance < total then
          if a.debit.Refused? then
            Bill(row.(pending := total, access := false), c.raw, balance, true)
          else
            Bill(row.(pending := total - balance, access := false, paid := p.paid + balance, lastBalance := a.debit.updated),
                 c.raw, balance, true)
        else if a.debit.Refused? then
          Bill(row.(pending := total, access := false), c.raw, total, false)
        else
          Bill(row.(pending := 0, access := true, paid := p.paid + total, lastBalance := a.debit.updated),
               c.raw, total, false)
  }

  /** cmd/api: the same cases written again, without normalization, with a token of its own, and with
      errors where the cron carries on. */
  function ApiBill(p: Profile, a: Answers): Bill {
    var c := ApiCost(p, a);
    if c.NoCost? then NoBill
    else
      var total := p.pending + c.raw;
      var row := p.(synced := Stored(a.syncAt), access := false);
      if total == 0 then
        Bill(row, c.raw, 0, false)
      else if !a.token || a.balance.NoBalance? then
        NoBill
      else
        var balance := a.balance.raw;
        if balance == 0 then
          Bill(row.(pending := total), c.raw, 0, false)
        else if balance < total then
          if a.debit.Refused? then
            Bill(row.(pending := total), c.raw, balance, false)
          else
            Bill(row.(pending := total - balance, paid := p.paid + balance, lastBalance := a.debit.updated),
                 c.raw, balance, false)
        else if a.debit.Refused? then
          Bill(row.(pending := total), c.raw, total, false)
        else
          Bill(row.(pending := 0, access := true, paid := p.paid + total, lastBalance := a.debit.updated),
               c.raw, total, false)
  }

  // ---------------------------------------------------------------- one specification for both

  function Min(a: nat, b: nat): nat { if a < b then a else b }

  /** What settling a debt against a balance means. */
  predicate Settles(p: Profile, row: Profile, cost: nat, balance: nat) {
    var total := p.pending + cost;
    var amount := Min(balance, total);
    && row.pending == total - amount
    && row.paid == p.paid + amount
    && (total > 0 ==> (row.access <==> row.pending == 0))
  }

  lemma CronSettles(p: Profile, a: Answers)
    requires CronBill(p, a).Bill?
    requires a.balance.Balance? && a.debit.Debited?
    ensures Settles(p, CronBill(p, a).row, CronBill(p, a).cost, if a.balance.raw <= 100_000 then 0 else a.balance.raw)
  {
  }

  lemma ApiSettles(p: Profile, a: Answers)
    requires ApiBill(p, a).Bill?
    requires a.balance.Balance? && a.debit.Debited?
    ensures Settles(p, ApiBill(p, a).row, ApiBill(p, a).cost, a.balance.raw)
  {
  }

  /** Above the 10^-10 that the cron rounds away, or nothing at all. */
  predicate Sizeable(value: nat) { value == 0 || value > 100_000 }

  /** Starting from no access, with the same answers, the two routines write the same row exactly when
      no amount that matters lies in the range that only the cron rounds to zero. */
  lemma RoutinesAgreeExactly(p: Profile, a: Answers)
    requires !p.access
    requires CronBill(p, a).Bill? && ApiBill(p, a).Bill? && a.balance.Balance?
    ensures CronBill(p, a).row == ApiBill(p, a).row
       <==> && (a.now - p.synced < 180_000_000_000 || Sizeable(a.cost.raw))
            && (p.pending + ApiBill(p, a).cost == 0 || a.debit.Refused? || Sizeable(a.balance.raw))
  {
    var cron, api := CronBill(p, a), ApiBill(p, a);
    assert cron.row.pending + cron.row.paid == p.pending + p.paid + cron.cost;
    assert api.row.pending + api.row.paid == p.pending + p.paid + api.cost;
  }
}
