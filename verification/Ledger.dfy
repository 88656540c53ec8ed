/** The books over whole runs: what was metered, what the row says is paid or pending, and what the
    balance service really took. */
module Ledger {
  import opened Billing

  /** One attempt on the locked row. The cron commits whatever it computed, unless the update or the
      commit fails. The API comes here only without access, and commits only if the attempt restored
      access and the rest of the request (`later`) succeeds; otherwise it rolls back. */
  datatype Attempt = Cron(a: Answers, committed: bool) | Api(a: Answers, later: bool)

  function Outcome(p: Profile, t: Attempt): Bill {
    match t
    case Cron(a, _) => CronBill(p, a)
    case Api(a, _) => if p.access then NoBill else ApiBill(p, a)
  }

  predicate Commits(p: Profile, t: Attempt) {
    var bill := Outcome(p, t);
    && bill.Bill?
    && (match t
        case Cron(_, committed) => committed
        case Api(_, later) => bill.row.access && later)
  }

  /** What the balance service takes during the attempt, committed or not. */
  function Took(p: Profile, t: Attempt): nat {
    var bill := Outcome(p, t);
    if bill.NoBill? || bill.asked == 0 then 0
    else match t.a.debit
      case Debited(_, extra) => bill.asked + extra
      case Refused(took) => took
  }

  /** One committed attempt: usage from `start` to `end` was charged `cost`, or passed over. */
  datatype Window = Window(start: int, end: int, now: int, syncAt: int, cost: nat, metered: CostReply, byCron: bool)

  datatype Books = Books(row: Profile, first: int, clock: int, debited: nat, windows: seq<Window>)

  function WindowOf(p: Profile, t: Attempt, bill: Bill): Window
    requires bill.Bill?
  {
    Window(p.synced, bill.row.synced, t.a.now, t.a.syncAt, bill.cost, t.a.cost, t.Cron?)
  }

  /** Clocks do not run backwards, from one attempt to the next or inside one. */
  predicate Timely(b: Books, t: Attempt) {
    b.clock <= t.a.now <= t.a.syncAt
  }

  function Next(b: Books, t: Attempt): Books {
    var after := b.(clock := t.a.syncAt, debited := b.debited + Took(b.row, t));
    if Commits(b.row, t) then
      var bill := Outcome(b.row, t);
      after.(row := bill.row, windows := b.windows + [WindowOf(b.row, t, bill)])
    else after
  }

  /** What the service takes beyond what it confirmed: all of it if it confirmed nothing. */
  function Surplus(p: Profile, t: Attempt): nat {
    var bill := Outcome(p, t);
    if bill.NoBill? || bill.asked == 0 then 0
    else match t.a.debit
      case Debited(_, extra) => extra
      case Refused(took) => took
  }

  /** What an attempt costs the user without any credit: a committed one the surplus, one that was
      rolled back everything it took. */
  function Loss(p: Profile, t: Attempt): nat {
    if Commits(p, t) then Surplus(p, t) else Took(p, t)
  }

  /** A committed attempt credits what it asked for if the service agreed, and nothing otherwise; so it
      credits all the service took but the surplus. */
  lemma CommittedCredit(p: Profile, t: Attempt)
    requires Commits(p, t)
    ensures var bill := Outcome(p, t);
            && bill.row.paid == p.paid + (if t.a.debit.Debited? then bill.asked else 0)
            && Took(p, t) == bill.row.paid - p.paid + Surplus(p, t)
  {
  }

  function Run(b: Books, ts: seq<Attempt>): Books
    decreases |ts|
  {
    if ts == [] then b else Run(Next(b, ts[0]), ts[1..])
  }

  predicate TimelyRun(b: Books, ts: seq<Attempt>)
    decreases |ts|
  {
    ts == [] || (Timely(b, ts[0]) && TimelyRun(Next(b, ts[0]), ts[1..]))
  }

  /** A profile as the schema creates it. */
  predicate Opened(b: Books) {
    && b.row == Profile(0, true, b.first, 0, 0)
    && Stored(b.first) == b.first <= b.clock
    && b.debited == 0 && b.windows == []
  }

  // ---------------------------------------------------------------- invariants

  function Metered(ws: seq<Window>): nat {
    if ws == [] then 0 else Metered(ws[..|ws| - 1]) + ws[|ws| - 1].cost
  }

  /** The windows lie end to end from the first to the current synchronization. */
  predicate Tiles(ws: seq<Window>, first: int, synced: int) {
    if ws == [] then first == synced
    else
      var last := ws[|ws| - 1];
      && last.end == synced
      && Tiles(ws[..|ws| - 1], first, last.start)
  }

  /** The cost is what was metered, but for the 10^-10 the cron rounds away. */
  predicate ChargedAsMetered(cost: nat, metered: CostReply, byCron: bool) {
    metered.Cost? && cost == (if byCron && metered.raw <= 100_000 then 0 else metered.raw)
  }

  /** A window is as long as its clock readings say; it is passed over if it was shorter than three
      minutes, and charged as metered otherwise. */
  predicate WindowOk(w: Window) {
    && w.start <= w.now <= w.syncAt
    && w.end == Stored(w.syncAt)
    && Stored(w.start) == w.start
    && (w.now - w.start < 180_000_000_000 ==> w.cost == 0)
    && (w.now - w.start >= 180_000_000_000 ==> ChargedAsMetered(w.cost, w.metered, w.byCron))
  }

  predicate BooksOk(b: Books) {
    && b.row.paid + b.row.pending == Metered(b.windows)
    && (b.row.access <==> b.row.pending == 0)
    && Tiles(b.windows, b.first, b.row.synced)
    && (forall i :: 0 <= i < |b.windows| ==> WindowOk(b.windows[i]))
    && Stored(b.row.synced) == b.row.synced <= b.clock
  }

  /** Whatever it asked, a bill moves its cost into pending or paid; and the cost is what was metered if
      the last synchronization is three minutes or more ago, and nothing otherwise. */
  lemma BillConserves(p: Profile, t: Attempt)
    requires Outcome(p, t).Bill?
    ensures var bill := Outcome(p, t);
            && bill.row.paid + bill.row.pending == p.paid + p.pending + bill.cost
            && bill.row.synced == t.a.syncAt - t.a.syncAt % 1000
            && (t.a.now - p.synced < 180_000_000_000 ==> bill.cost == 0)
            && (t.a.now - p.synced >= 180_000_000_000 ==> ChargedAsMetered(bill.cost, t.a.cost, t.Cron?))
  {
  }

  /** There is a bill exactly when everything it needs was answered: the cost, unless the last
      synchronization is too recent; and for the API, which comes here without access only, a token
      and the balance, unless nothing is owed. */
  lemma BillsExactlyWhenAnswered(p: Profile, t: Attempt)
    ensures var recent := t.a.now - p.synced < 180_000_000_000;
            Outcome(p, t).Bill? <==>
              && (recent || t.a.cost.Cost?)
              && (t.Api? ==>
                    && !p.access
                    && ((t.a.token && t.a.balance.Balance?)
                        || (p.pending == 0 && (recent || t.a.cost.raw == 0))))
  {
  }

  /** What the attempt found on the account, as it understood it. */
  function Found(t: Attempt): nat
    requires t.a.balance.Balance?
  {
    if t.Cron? && t.a.balance.raw <= 100_000 then 0 else t.a.balance.raw
  }

  /** Both routines ask the service for what is owed or what is there, whichever is less, and never for
      more, however the debit ends; and the cron stops GPU notebooks exactly when that is not enough. */
  lemma AsksWhatIsOwedAndThere(p: Profile, t: Attempt)
    requires Outcome(p, t).Bill?
    ensures var bill := Outcome(p, t);
            var total := p.pending + bill.cost;
            && bill.asked == (if t.a.balance.Balance? then Min(Found(t), total) else 0)
            && (bill.stopsGpu <==> t.Cron? && t.a.balance.Balance? && Found(t) < total)
            && (bill.row.access && total > 0 ==> t.a.debit.Debited? && bill.asked == total)
  {
  }

  /** Paid credit grows and the recorded balance changes exactly when a debit was asked for and
      confirmed, by what was asked and to what the service said. */
  lemma ConfirmedDebitIsRecorded(p: Profile, t: Attempt)
    requires Outcome(p, t).Bill?
    ensures var bill := Outcome(p, t);
            && (bill.asked > 0 && t.a.debit.Debited? ==>
                  bill.row.lastBalance == t.a.debit.updated && bill.row.paid == p.paid + bill.asked)
            && (bill.asked == 0 || t.a.debit.Refused? ==>
                  bill.row.lastBalance == p.lastBalance && bill.row.paid == p.paid)
            && (p.pending + bill.cost > 0 ==>
                  (bill.row.access <==> t.a.debit.Debited? && bill.asked == p.pending + bill.cost))
            && (p.pending + bill.cost == 0 ==> (bill.row.access <==> t.Cron? && p.access))
  {
  }

  /** Access is what a settled debt looks like, from any row in which it was so before. */
  lemma BillKeepsAccess(p: Profile, t: Attempt)
    requires p.access <==> p.pending == 0
    requires Outcome(p, t).Bill?
    ensures Outcome(p, t).row.access <==> Outcome(p, t).row.pending == 0
  {
  }

  lemma StoredIsStored(t: int)
    ensures Stored(Stored(t)) == Stored(t) <= t
  {
  }

  lemma NextKeepsBooks(b: Books, t: Attempt)
    requires BooksOk(b) && Timely(b, t)
    ensures BooksOk(Next(b, t))
  {
    if Commits(b.row, t) {
      var bill := Outcome(b.row, t);
      var w := WindowOf(b.row, t, bill);
      BillConserves(b.row, t);
      BillKeepsAccess(b.row, t);
      StoredIsStored(t.a.syncAt);
      assert (b.windows + [w])[..|b.windows|] == b.windows;
    }
  }

  lemma {:induction false} RunKeepsBooks(b: Books, ts: seq<Attempt>)
    requires BooksOk(b) && TimelyRun(b, ts)
    ensures BooksOk(Run(b, ts))
    decreases |ts|
  {
    if ts != [] {
      NextKeepsBooks(b, ts[0]);
      RunKeepsBooks(Next(b, ts[0]), ts[1..]);
    }
  }

  /** What was taken by the attempts of a run that did not commit. */
  function RolledBack(b: Books, ts: seq<Attempt>): nat
    decreases |ts|
  {
    if ts == [] then 0
    else (if Commits(b.row, ts[0]) then 0 else Took(b.row, ts[0])) + RolledBack(Next(b, ts[0]), ts[1..])
  }

  /** What the service took beyond its word in those that did. */
  function Overcharged(b: Books, ts: seq<Attempt>): nat
    decreases |ts|
  {
    if ts == [] then 0
    else (if Commits(b.row, ts[0]) then Surplus(b.row, ts[0]) else 0) + Overcharged(Next(b, ts[0]), ts[1..])
  }

  /** Over any run the debits are the credit it paid, the debits of the attempts rolled back, and the
      surplus of the others. */
  lemma {:induction false} DebitsAreAccountedFor(b: Books, ts: seq<Attempt>)
    ensures Run(b, ts).debited - b.debited == Run(b, ts).row.paid - b.row.paid + RolledBack(b, ts) + Overcharged(b, ts)
    decreases |ts|
  {
    if ts != [] {
      if Commits(b.row, ts[0]) {
        CommittedCredit(b.row, ts[0]);
      }
      DebitsAreAccountedFor(Next(b, ts[0]), ts[1..]);
    }
  }

  /** Main result: for every mix of writers, replies, failures and rollbacks, what was metered is paid
      or pending; what was debited is paid, or was taken by an attempt that rolled back, or exceeds
      what the service confirmed; and access means that nothing is pending. */
  lemma BooksBalance(b: Books, ts: seq<Attempt>)
    requires Opened(b) && TimelyRun(b, ts)
    ensures var e := Run(b, ts);
            && e.row.paid + e.row.pending == Metered(e.windows)
            && e.debited == e.row.paid + RolledBack(b, ts) + Overcharged(b, ts)
            && (e.row.access <==> e.row.pending == 0)
  {
    RunKeepsBooks(b, ts);
    DebitsAreAccountedFor(b, ts);
  }

  // ---------------------------------------------------------------- windows

  lemma {:induction false} TiledOrder(ws: seq<Window>, first: int, synced: int, i: nat, j: nat)
    requires Tiles(ws, first, synced)
    requires forall k :: 0 <= k < |ws| ==> WindowOk(ws[k])
    requires i < j < |ws|
    ensures ws[i].end <= ws[j].start
    ensures j == i + 1 ==> ws[i].end == ws[j].start
    decreases |ws|
  {
    var last := ws[|ws| - 1];
    if j < |ws| - 1 {
      TiledOrder(ws[..|ws| - 1], first, last.start, i, j);
    } else {
      EndsBefore(ws[..|ws| - 1], first, last.start, i);
    }
  }

  lemma {:induction false} EndsBefore(ws: seq<Window>, first: int, synced: int, i: nat)
    requires Tiles(ws, first, synced)
    requires forall k :: 0 <= k < |ws| ==> WindowOk(ws[k])
    requires i < |ws|
    ensures ws[i].end <= synced
    ensures i == |ws| - 1 ==> ws[i].end == synced
    decreases |ws|
  {
    if i < |ws| - 1 {
      EndsBefore(ws[..|ws| - 1], first, ws[|ws| - 1].start, i);
      StoredMonotone(ws[|ws| - 1].start, ws[|ws| - 1].syncAt);
    }
  }

  lemma StoredMonotone(s: int, t: int)
    requires s <= t
    ensures Stored(s) <= Stored(t)
  {
  }

  lemma SecondsOfStored(t: int)
    ensures Seconds(Stored(t)) == Seconds(t)
  {
    var q, r := t / NANOS, t % NANOS;
    assert t == NANOS * q + r;
    assert NANOS == 1000 * 1_000_000;
    assert t % 1000 == r % 1000;
  }

  /** The intervals of committed attempts, in the whole seconds the metering service is asked in, are
      ordered and disjoint; neighbours share their boundary, so charged intervals and gaps tile the
      whole time; and the gaps are those measured under three minutes. */
  lemma MeteredIntervalsTile(b: Books, ts: seq<Attempt>, i: nat, j: nat)
    requires Opened(b) && TimelyRun(b, ts)
    requires i < j < |Run(b, ts).windows|
    ensures var ws := Run(b, ts).windows;
            && ws[i].start / 1_000_000_000 <= ws[i].syncAt / 1_000_000_000 <= ws[j].start / 1_000_000_000
            && (j == i + 1 ==> ws[i].syncAt / 1_000_000_000 == ws[j].start / 1_000_000_000)
            && (ws[i].now - ws[i].start < 180_000_000_000 ==> ws[i].cost == 0)
            && (ws[i].now - ws[i].start >= 180_000_000_000 ==> ChargedAsMetered(ws[i].cost, ws[i].metered, ws[i].byCron))
  {
    RunKeepsBooks(b, ts);
    var e := Run(b, ts);
    TiledOrder(e.windows, e.first, e.row.synced, i, j);
    assert WindowOk(e.windows[i]);
    SecondsOfStored(e.windows[i].syncAt);
    SecondsMonotone(e.windows[i].end, e.windows[j].start);
    SecondsMonotone(e.windows[i].start, e.windows[i].syncAt);
  }

  /** Every interval measured under three minutes is a gap, and every other was charged as metered. */
  lemma EveryIntervalIsCharged(b: Books, ts: seq<Attempt>, i: nat)
    requires Opened(b) && TimelyRun(b, ts)
    requires i < |Run(b, ts).windows|
    ensures var w := Run(b, ts).windows[i];
            && (w.now - w.start < 180_000_000_000 ==> w.cost == 0)
            && (w.now - w.start >= 180_000_000_000 ==>
                  w.metered.Cost? && w.cost == (if w.byCron && w.metered.raw <= 100_000 then 0 else w.metered.raw))
  {
    RunKeepsBooks(b, ts);
    assert WindowOk(Run(b, ts).windows[i]);
  }

  /** The tiling begins at the first synchronization and ends at the current one. */
  lemma MeteredIntervalsSpan(b: Books, ts: seq<Attempt>)
    requires Opened(b) && TimelyRun(b, ts)
    ensures var e := Run(b, ts);
            if e.windows == [] then e.row.synced == b.first
            else e.windows[0].start == b.first && e.windows[|e.windows| - 1].end == e.row.synced
  {
    RunKeepsBooks(b, ts);
    RunKeepsFirst(b, ts);
    var e := Run(b, ts);
    if e.windows != [] {
      FirstTile(e.windows, b.first, e.row.synced);
    }
  }

  lemma {:induction false} RunKeepsFirst(b: Books, ts: seq<Attempt>)
    ensures Run(b, ts).first == b.first
    decreases |ts|
  {
    if ts != [] {
      RunKeepsFirst(Next(b, ts[0]), ts[1..]);
    }
  }

  lemma {:induction false} FirstTile(ws: seq<Window>, first: int, synced: int)
    requires Tiles(ws, first, synced) && ws != []
    ensures ws[0].start == first
    decreases |ws|
  {
    if |ws| > 1 {
      FirstTile(ws[..|ws| - 1], first, ws[|ws| - 1].start);
    }
  }

  lemma SecondsMonotone(s: int, t: int)
    requires s <= t
    ensures Seconds(s) <= Seconds(t)
  {
  }

  // ---------------------------------------------------------------- losses

  /** A service that takes exactly what it confirms. */
  predicate Exact(t: Attempt) {
    if t.a.debit.Debited? then t.a.debit.extra == 0 else t.a.debit.took == 0
  }

  /** Under such a service an attempt loses money exactly when its debit went through and its update
      did not. */
  lemma LossIsRollback(p: Profile, t: Attempt)
    requires Exact(t)
    ensures Loss(p, t) > 0 <==>
              && Outcome(p, t).Bill? && Outcome(p, t).asked > 0
              && t.a.debit.Debited? && !Commits(p, t)
  {
    if Commits(p, t) {
      CommittedCredit(p, t);
    }
  }

  /** For the API that means: a debit that did not cover the whole debt is always lost, and one that
      did is lost when the rest of the request fails. */
  lemma ApiLosesPartialDebits(p: Profile, a: Answers, later: bool)
    requires Exact(Api(a, later))
    requires !p.access && ApiBill(p, a).Bill? && ApiBill(p, a).asked > 0 && a.debit.Debited?
    ensures Loss(p, Api(a, later)) == 0 <==> (a.balance.raw >= p.pending + ApiBill(p, a).cost && later)
    ensures a.balance.raw < p.pending + ApiBill(p, a).cost ==> Loss(p, Api(a, later)) == a.balance.raw
  {
    LossIsRollback(p, Api(a, later));
  }

  function Losses(b: Books, ts: seq<Attempt>): nat
    decreases |ts|
  {
    if ts == [] then 0 else Loss(b.row, ts[0]) + Losses(Next(b, ts[0]), ts[1..])
  }

  /** Over any run, debits exceed credit by the sum of the attempts' losses, which splits into what was
      rolled back and what was overcharged. */
  lemma {:induction false} LostIsSumOfLosses(b: Books, ts: seq<Attempt>)
    ensures Run(b, ts).debited - b.debited == Run(b, ts).row.paid - b.row.paid + Losses(b, ts)
    ensures Losses(b, ts) == RolledBack(b, ts) + Overcharged(b, ts)
    decreases |ts|
  {
    if ts != [] {
      if Commits(b.row, ts[0]) {
        CommittedCredit(b.row, ts[0]);
      }
      LostIsSumOfLosses(Next(b, ts[0]), ts[1..]);
    }
  }

  ghost predicate AllExact(ts: seq<Attempt>) { forall i :: 0 <= i < |ts| ==> Exact(ts[i]) }

  lemma {:induction false} ExactRunsOverchargeNothing(b: Books, ts: seq<Attempt>)
    requires AllExact(ts)
    ensures Overcharged(b, ts) == 0
    decreases |ts|
  {
    if ts != [] {
      assert Exact(ts[0]);
      forall i | 0 <= i < |ts[1..]|
        ensures Exact(ts[1..][i])
      {
        assert Exact(ts[i + 1]);
      }
      ExactRunsOverchargeNothing(Next(b, ts[0]), ts[1..]);
    }
  }

  /** Under a service that takes exactly what it confirms, debits are paid credit plus the debits of the
      attempts that rolled back; so paid credit never exceeds what was debited, and equals it exactly
      when no attempt that rolled back had been charged. */
  lemma ExactDebitsArePaidOrRolledBack(b: Books, ts: seq<Attempt>)
    requires Opened(b) && AllExact(ts)
    ensures Run(b, ts).debited == Run(b, ts).row.paid + RolledBack(b, ts)
  {
    DebitsAreAccountedFor(b, ts);
    ExactRunsOverchargeNothing(b, ts);
  }

  /** Once access is gone there is a debt, so the API's branch without a deduction is never reached. */
  lemma ApiAlwaysHasADebt(b: Books, ts: seq<Attempt>, a: Answers)
    requires Opened(b) && TimelyRun(b, ts)
    requires !Run(b, ts).row.access && ApiCost(Run(b, ts).row, a).Cost?
    ensures Run(b, ts).row.pending + ApiCost(Run(b, ts).row, a).raw > 0
  {
    RunKeepsBooks(b, ts);
  }
}
