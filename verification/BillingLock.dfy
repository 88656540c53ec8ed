/** Cron runs and API requests interleave on one profile row. Each reads the row when it gets the lock,
    talks to the outside for as long as it likes, and writes what it computed from that reading. The
    row lock makes every interleaving equal to one attempt after the other, so no update is lost. */
module BillingLock {
  import opened Billing
  import opened Ledger

  datatype Lock = Free | HeldBy(w: nat)

  datatype Phase =
    | Reading(p: Profile)
    | Billed(p: Profile, t: Attempt)

  /** `clock` is the latest time any writer has read; clocks do not run backwards. */
  datatype State = State(row: Profile, debited: nat, clock: int, lock: Lock, phases: map<nat, Phase>, done: seq<Attempt>)

  /** SELECT ... FOR UPDATE: the lock and the row come together. */
  predicate Acquire(s: State, s': State, w: nat) {
    && s.lock.Free? && w !in s.phases
    && s' == s.(lock := HeldBy(w), phases := s.phases[w := Reading(s.row)])
  }

  /** The outside answers; whatever the service took is gone now. */
  predicate CallOut(s: State, s': State, w: nat, t: Attempt) {
    && w in s.phases && s.phases[w].Reading?
    && s.clock <= t.a.now <= t.a.syncAt
    && s' == s.(clock := t.a.syncAt, debited := s.debited + Took(s.phases[w].p, t), phases := s.phases[w := Billed(s.phases[w].p, t)])
  }

  /** Commit or roll back, from the reading made at the start. */
  predicate Finish(s: State, s': State, w: nat) {
    && w in s.phases && s.phases[w].Billed?
    && var p, t := s.phases[w].p, s.phases[w].t;
       s' == s.(row := if Commits(p, t) then Outcome(p, t).row else s.row,
                lock := Free, phases := s.phases - {w}, done := s.done + [t])
  }

  /** A request that had no billing to do, or failed before it. */
  predicate Release(s: State, s': State, w: nat) {
    && w in s.phases && s.phases[w].Reading?
    && s' == s.(lock := Free, phases := s.phases - {w})
  }

  datatype Action = AAcquire(w: nat) | ACallOut(w: nat, t: Attempt) | AFinish(w: nat) | ARelease(w: nat)

  predicate Step(s: State, a: Action, s': State) {
    match a
    case AAcquire(w) => Acquire(s, s', w)
    case ACallOut(w, t) => CallOut(s, s', w, t)
    case AFinish(w) => Finish(s, s', w)
    case ARelease(w) => Release(s, s', w)
  }

  /** What the holder's calls have taken although its attempt is not over. */
  function InFlight(s: State): nat {
    if s.lock.HeldBy? && s.lock.w in s.phases && s.phases[s.lock.w].Billed?
    then Took(s.phases[s.lock.w].p, s.phases[s.lock.w].t)
    else 0
  }

  /** The row and the account are those of the attempts finished so far, one after the other. */
  ghost predicate Serial(s: State, b: Books) {
    && s.row == Run(b, s.done).row
    && s.debited == Run(b, s.done).debited + InFlight(s)
    && (forall w :: w in s.phases ==> s.lock == HeldBy(w) && s.phases[w].p == s.row)
    && TimelyRun(b, s.done)
    && Run(b, s.done).clock <= s.clock
    && (forall w :: w in s.phases && s.phases[w].Billed? ==>
          Timely(Run(b, s.done), s.phases[w].t) && s.phases[w].t.a.syncAt <= s.clock)
  }

  lemma {:induction false} RunSnoc(b: Books, ts: seq<Attempt>, t: Attempt)
    ensures Run(b, ts + [t]) == Next(Run(b, ts), t)
    ensures TimelyRun(b, ts) && Timely(Run(b, ts), t) ==> TimelyRun(b, ts + [t])
    decreases |ts|
  {
    if ts == [] {
      assert ([] + [t])[1..] == [];
    } else {
      assert (ts + [t])[1..] == ts[1..] + [t];
      RunSnoc(Next(b, ts[0]), ts[1..], t);
    }
  }

  lemma StepKeepsSerial(s: State, a: Action, s': State, b: Books)
    requires Serial(s, b) && Step(s, a, s')
    ensures Serial(s', b)
  {
    if a.AFinish? {
      var t := s.phases[a.w].t;
      assert s.lock == HeldBy(a.w);
      RunSnoc(b, s.done, t);
    }
  }

  ghost predicate IsRun(states: seq<State>, actions: seq<Action>, b: Books) {
    && |states| == |actions| + 1
    && states[0] == State(b.row, b.debited, b.clock, Free, map[], [])
    && (forall i :: 0 <= i < |actions| ==> Step(states[i], actions[i], states[i + 1]))
  }

  /** Main result: in every reachable state of every interleaving. */
  lemma {:induction false} EveryInterleavingIsSerial(states: seq<State>, actions: seq<Action>, b: Books, i: nat)
    requires IsRun(states, actions, b)
    requires i < |states|
    ensures Serial(states[i], b)
  {
    if i > 0 {
      EveryInterleavingIsSerial(states, actions, b, i - 1);
      StepKeepsSerial(states[i - 1], actions[i - 1], states[i - 1 + 1], b);
    }
  }

  /** Hence conservation holds in the middle of any interleaving: paid credit never exceeds what the
      service took, and the row's debt and credit are what the finished attempts metered. */
  lemma BooksBalanceConcurrently(states: seq<State>, actions: seq<Action>, b: Books, i: nat)
    requires IsRun(states, actions, b) && Opened(b)
    requires i < |states|
    ensures var s := states[i];
            && s.row.paid + s.row.pending == Metered(Run(b, s.done).windows)
            && s.debited == s.row.paid + RolledBack(b, s.done) + Overcharged(b, s.done) + InFlight(s)
            && (s.row.access <==> s.row.pending == 0)
  {
    EveryInterleavingIsSerial(states, actions, b, i);
    BooksBalance(b, states[i].done);
  }
}
