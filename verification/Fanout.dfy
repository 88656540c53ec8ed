/** The status listing: one goroutine per applied row asks Kubernetes for its object, at most three at
    a time, and a collector gathers the replies from a buffered channel in whatever order they come. */
module Fanout {
  import opened Notebooks
  import opened Options
  import opened Sets

  /** What the state function reads of an object; a missing part is None. */
  datatype Spec = Spec(annotations: Option<map<string, string>>, readyReplicas: Option<int>)

  datatype NotebookState = StateFailed | StateOpening | StateOrphaned | StateStopped | StateRunning

  /** The latest event of a row decides whether Kubernetes is asked; a row may have no event yet. */
  function Latest(events: seq<Event>): Option<Event> {
    if events == [] then None else Some(events[|events| - 1])
  }

  predicate Needed(events: seq<Event>) {
    Latest(events) == Some(NotebookApplied)
  }

  function DetermineState(latest: Option<Event>, spec: Option<Spec>): NotebookState {
    match spec
    case None =>
      if latest.Some? && Failed(latest.value) then StateFailed
      else if latest != Some(NotebookApplied) then StateOpening
      else StateOrphaned
    case Some(o) =>
      if o.annotations.Some? && STOP_ANNOTATION in o.annotations.value then StateStopped
      else if o.readyReplicas.Some? && o.readyReplicas.value > 0 then StateRunning
      else StateOpening
  }

  // ---------------------------------------------------------------- what a state means

  predicate HasStop(spec: Spec) {
    spec.annotations.Some? && "kubeflow-resource-stopped" in spec.annotations.value
  }

  predicate Ready(spec: Spec) {
    spec.readyReplicas.Some? && spec.readyReplicas.value > 0
  }

  predicate EndsIn(events: seq<Event>, es: set<Event>) {
    events != [] && events[|events| - 1] in es
  }

  /** What each state says of a row and of the object found for it, if one was. */
  predicate Means(state: NotebookState, events: seq<Event>, spec: Option<Spec>) {
    && (state == StateStopped <==> spec.Some? && HasStop(spec.value))
    && (state == StateRunning <==> spec.Some? && !HasStop(spec.value) && Ready(spec.value))
    && (state == StateFailed <==> spec.None? && EndsIn(events, FAILURES))
    && (state == StateOrphaned <==> spec.None? && EndsIn(events, {NotebookApplied}))
    && (state == StateOpening <==>
          if spec.Some? then !HasStop(spec.value) && !Ready(spec.value)
          else !EndsIn(events, FAILURES) && !EndsIn(events, {NotebookApplied}))
  }

  lemma StatesMeanWhatTheySay(events: seq<Event>, spec: Option<Spec>)
    ensures Means(DetermineState(Latest(events), spec), events, spec)
  {
  }

  // ---------------------------------------------------------------- the sequential parts

  /** The loop that picks the rows to ask about. */
  method NotebooksToCheck(rows: seq<seq<Event>>) returns (toCheck: seq<nat>)
    ensures forall k: nat :: k in toCheck <==> k < |rows| && EndsIn(rows[k], {NotebookApplied})
    ensures forall a, b :: 0 <= a < b < |toCheck| ==> toCheck[a] < toCheck[b]
  {
    toCheck := [];
    for i := 0 to |rows|
      invariant forall k: nat :: k in toCheck <==> k < i && EndsIn(rows[k], {NotebookApplied})
      invariant forall a, b :: 0 <= a < b < |toCheck| ==> toCheck[a] < toCheck[b]
    {
      var latest := Latest(rows[i]);
      var failed := latest.Some? && Failed(latest.value);
      if !failed && latest == Some(NotebookApplied) {
        assert forall a :: 0 <= a < |toCheck| ==> toCheck[a] in toCheck;
        toCheck := toCheck + [i];
      }
    }
  }

  /** The loop that fills in the states once the replies are in; an index without a reply, or with the
      reply that there is no object, counts as having no object. */
  method FillStates(rows: seq<seq<Event>>, results: map<nat, Option<Spec>>) returns (states: seq<NotebookState>)
    ensures states == States(rows, results)
    ensures |states| == |rows|
    ensures forall i :: 0 <= i < |rows| ==> Means(states[i], rows[i], if i in results then results[i] else None)
  {
    states := [];
    for i := 0 to |rows|
      invariant states == States(rows[..i], results)
    {
      var spec := None;
      if i in results {
        spec := results[i];
      }
      states := states + [DetermineState(Latest(rows[i]), spec)];
      assert rows[..i + 1][..i] == rows[..i];
    }
    assert rows[..|rows|] == rows;
    AllStatesMeanWhatTheySay(rows, results);
  }

  lemma AllStatesMeanWhatTheySay(rows: seq<seq<Event>>, results: map<nat, Option<Spec>>)
    ensures forall i :: 0 <= i < |rows| ==> Means(States(rows, results)[i], rows[i], if i in results then results[i] else None)
  {
    forall i | 0 <= i < |rows|
      ensures Means(States(rows, results)[i], rows[i], if i in results then results[i] else None)
    {
      StatesMeanWhatTheySay(rows[i], if i in results then results[i] else None);
    }
  }

  function States(rows: seq<seq<Event>>, results: map<nat, Option<Spec>>): (states: seq<NotebookState>)
    ensures |states| == |rows|
  {
    seq(|rows|, i requires 0 <= i < |rows| =>
      DetermineState(Latest(rows[i]), if i in results then results[i] else None))
  }

  /** The listing and the quota count answer the same question from different reads: a row is shown as
      opening or running exactly when it counts, except that a row not yet applied is shown as opening
      even when its object already carries the stop annotation. */
  lemma ShownMatchesCounted(events: seq<Event>, spec: Option<Spec>)
    requires events != []
    ensures
      var shown := DetermineState(Latest(events), if Needed(events) then spec else None);
      var stopped := spec.Some? && spec.value.annotations.Some? && STOP_ANNOTATION in spec.value.annotations.value;
      var latest := events[|events| - 1];
      ((shown == StateOpening || shown == StateRunning) <==> CountsAsRunning(latest, spec.Some?, stopped))
      <==> (latest == NotebookApplied || Failed(latest) || !stopped)
  {
  }

  // ---------------------------------------------------------------- the fan-out

  /** A reply to one fetch: an object (or an empty reply), a not-found error, or any other error. */
  datatype Reply = Found(spec: Option<Spec>) | NotFound | Broken

  function ObjectOf(r: Reply): Option<Spec> {
    if r.Found? then r.spec else None
  }

  /** Where a goroutine is. From Acquired to Leaving it holds a slot of the semaphore. */
  datatype Phase = Unneeded | Waiting | Acquired | Fetching | Fetched(reply: Reply) | Leaving | Gone

  datatype Result = Result(index: nat, reply: Reply)

  datatype Outcome = ServerError | Listed(states: seq<NotebookState>)

  datatype Collector = Collecting | Returned(outcome: Outcome)

  datatype State = State(
    phases: seq<Phase>,
    slots: nat,
    chan: seq<Result>,
    results: map<nat, Option<Spec>>,
    received: nat,
    collector: Collector,
    timedOut: bool,
    cancelled: bool)

  const SLOTS := 3

  /** The rows of the page and what Kubernetes would answer about each of them. */
  datatype Page = Page(rows: seq<seq<Event>>, world: seq<Reply>) {
    predicate Valid() { |rows| == |world| }
    ghost function NeededSet(): set<nat> { set k | 0 <= k < |rows| && Needed(rows[k]) }
  }

  /** The derived context the goroutines watch: over once the request's own context is, or cancelled. */
  predicate Over(s: State) {
    s.timedOut || s.cancelled
  }

  datatype Action =
    | Acquire(k: nat)
    | GiveUp(k: nat)
    | Check(k: nat)
    | Answer(k: nat, reply: Reply)
    | Send(k: nat)
    | Drop(k: nat)
    | Release(k: nat)
    | Collect
    | Finish
    | Expire
    | TimeOut

  ghost function Init(p: Page): State
    requires p.Valid()
  {
    State(seq(|p.rows|, k requires 0 <= k < |p.rows| => if Needed(p.rows[k]) then Waiting else Unneeded),
          0, [], map[], 0, Collecting, false, false)
  }

  predicate Truthful(reply: Reply, truth: Reply, over: bool) {
    reply == truth || (over && reply == Broken)
  }

  ghost predicate Enabled(p: Page, s: State, a: Action)
    requires p.Valid()
  {
    match a
    case Acquire(k) => k < |s.phases| && s.phases[k] == Waiting && s.slots < SLOTS
    case GiveUp(k) => k < |s.phases| && s.phases[k] == Waiting && Over(s)
    case Check(k) => k < |s.phases| && s.phases[k] == Acquired
    case Answer(k, reply) =>
      k < |s.phases| && k < |p.world| && s.phases[k] == Fetching && Truthful(reply, p.world[k], Over(s))
    case Send(k) => k < |s.phases| && s.phases[k].Fetched? && |s.chan| < |p.rows|
    case Drop(k) => k < |s.phases| && s.phases[k].Fetched? && Over(s)
    case Release(k) => k < |s.phases| && s.phases[k] == Leaving
    case Collect => s.collector == Collecting && s.received < |p.NeededSet()| && s.chan != []
    case Finish => s.collector == Collecting && s.received >= |p.NeededSet()|
    case Expire => s.collector == Collecting && s.received < |p.NeededSet()| && s.timedOut
    case TimeOut => !s.timedOut
  }

  ghost function Apply(p: Page, s: State, a: Action): State
    requires p.Valid() && Enabled(p, s, a)
  {
    match a
    case Acquire(k) => s.(phases := s.phases[k := Acquired], slots := s.slots + 1)
    case GiveUp(k) => s.(phases := s.phases[k := Gone])
    case Check(k) => s.(phases := s.phases[k := if Over(s) then Leaving else Fetching])
    case Answer(k, reply) => s.(phases := s.phases[k := Fetched(reply)])
    case Send(k) => s.(phases := s.phases[k := Leaving], chan := s.chan + [Result(k, s.phases[k].reply)])
    case Drop(k) => s.(phases := s.phases[k := Leaving])
    case Release(k) => s.(phases := s.phases[k := Gone], slots := if s.slots == 0 then 0 else s.slots - 1)
    case Collect =>
      var r := s.chan[0];
      var s' := s.(chan := s.chan[1..], received := s.received + 1);
      if r.reply.Broken? then s'.(collector := Returned(ServerError), cancelled := true)
      else s'.(results := s.results[r.index := ObjectOf(r.reply)])
    case Finish => s.(collector := Returned(Listed(States(p.rows, s.results))), cancelled := true)
    case Expire => s.(collector := Returned(ServerError), cancelled := true)
    case TimeOut => s.(timedOut := true)
  }

  ghost predicate IsRun(p: Page, run: seq<State>, actions: seq<Action>)
    requires p.Valid()
  {
    && |run| == |actions| + 1
    && run[0] == Init(p)
    && forall j :: 0 <= j < |actions| ==> Enabled(p, run[j], actions[j]) && run[j + 1] == Apply(p, run[j], actions[j])
  }

  /** What asking one row after the other, with no time limit, would answer. */
  ghost function Sequential(p: Page): Outcome
    requires p.Valid()
  {
    if exists k :: k in p.NeededSet() && p.world[k] == Broken then ServerError
    else Listed(seq(|p.rows|, k requires 0 <= k < |p.rows| =>
      DetermineState(Latest(p.rows[k]), if Needed(p.rows[k]) then ObjectOf(p.world[k]) else None)))
  }

  // ---------------------------------------------------------------- invariant

  predicate Past(ph: Phase) { ph.Leaving? || ph.Gone? }

  predicate Holds(ph: Phase) { ph.Acquired? || ph.Fetching? || ph.Fetched? || ph.Leaving? }

  ghost function Holders(phases: seq<Phase>): set<nat> {
    set k | 0 <= k < |phases| && Holds(phases[k])
  }

  ghost function InFlight(phases: seq<Phase>): set<nat> {
    set k | 0 <= k < |phases| && phases[k].Fetching?
  }

  predicate InChan(chan: seq<Result>, k: nat) {
    exists a :: 0 <= a < |chan| && chan[a].index == k
  }

  ghost predicate PhasesOk(p: Page, phases: seq<Phase>)
    requires p.Valid()
  {
    && |phases| == |p.rows|
    && forall k :: 0 <= k < |phases| ==> (phases[k] == Unneeded <==> !Needed(p.rows[k]))
  }

  ghost predicate FetchedOk(p: Page, phases: seq<Phase>, over: bool)
    requires p.Valid() && PhasesOk(p, phases)
  {
    forall k :: 0 <= k < |phases| && phases[k].Fetched? ==> Truthful(phases[k].reply, p.world[k], over)
  }

  ghost predicate ChanOk(p: Page, phases: seq<Phase>, chan: seq<Result>, results: map<nat, Option<Spec>>, over: bool)
    requires p.Valid() && PhasesOk(p, phases)
  {
    && (forall a :: 0 <= a < |chan| ==>
          && chan[a].index < |phases|
          && Past(phases[chan[a].index])
          && chan[a].index !in results
          && Truthful(chan[a].reply, p.world[chan[a].index], over))
    && (forall a, b :: 0 <= a < b < |chan| ==> chan[a].index != chan[b].index)
  }

  ghost predicate ResultsOk(p: Page, phases: seq<Phase>, results: map<nat, Option<Spec>>)
    requires p.Valid() && PhasesOk(p, phases)
  {
    forall k :: k in results ==>
      k < |phases| && Past(phases[k]) && !p.world[k].Broken? && results[k] == ObjectOf(p.world[k])
  }

  /** Nothing is lost while the context lives: whoever is past its send has its reply delivered. */
  ghost predicate NothingLost(phases: seq<Phase>, chan: seq<Result>, results: map<nat, Option<Spec>>) {
    forall k :: 0 <= k < |phases| && Past(phases[k]) ==> k in results || InChan(chan, k)
  }

  ghost predicate OutcomeOk(p: Page, s: State)
    requires p.Valid()
  {
    match s.collector
    case Collecting => !s.cancelled && s.received == |s.results| && s.received <= |p.NeededSet()|
    case Returned(Listed(states)) => s.cancelled && Sequential(p) == Listed(states)
    case Returned(ServerError) => s.cancelled && (s.timedOut || Sequential(p) == ServerError)
  }

  ghost predicate Inv(p: Page, s: State)
    requires p.Valid()
  {
    && PhasesOk(p, s.phases)
    && s.slots == |Holders(s.phases)| <= SLOTS
    && FetchedOk(p, s.phases, Over(s))
    && ChanOk(p, s.phases, s.chan, s.results, Over(s))
    && ResultsOk(p, s.phases, s.results)
    && (!Over(s) ==> NothingLost(s.phases, s.chan, s.results))
    && OutcomeOk(p, s)
  }

  // ---------------------------------------------------------------- one goroutine moves on

  lemma HoldersChange(phases: seq<Phase>, k: nat, ph: Phase)
    requires k < |phases|
    ensures |Holders(phases[k := ph])|
         == |Holders(phases)| + (if Holds(ph) then 1 else 0) - (if Holds(phases[k]) then 1 else 0)
  {
    var others := Holders(phases) - {k};
    assert k in Holders(phases) <==> Holds(phases[k]);
    assert Holders(phases) == if Holds(phases[k]) then others + {k} else others;
    assert Holders(phases[k := ph]) == if Holds(ph) then others + {k} else others;
  }

  /** A goroutine that is not past its send changes phase: the channel and the results are as sound as
      before. */
  lemma MoveKeepsChan(p: Page, phases: seq<Phase>, chan: seq<Result>, results: map<nat, Option<Spec>>, over: bool, k: nat, ph: Phase)
    requires p.Valid() && PhasesOk(p, phases) && k < |phases| && phases[k] != Unneeded && ph != Unneeded
    requires Past(phases[k]) ==> Past(ph)
    requires ChanOk(p, phases, chan, results, over) && ResultsOk(p, phases, results)
    ensures PhasesOk(p, phases[k := ph])
    ensures ChanOk(p, phases[k := ph], chan, results, over)
    ensures ResultsOk(p, phases[k := ph], results)
  {
  }

  lemma MoveKeepsFetched(p: Page, phases: seq<Phase>, over: bool, k: nat, ph: Phase)
    requires p.Valid() && PhasesOk(p, phases) && k < |phases| && phases[k] != Unneeded && ph != Unneeded
    requires FetchedOk(p, phases, over)
    requires ph.Fetched? ==> Truthful(ph.reply, p.world[k], over)
    ensures PhasesOk(p, phases[k := ph])
    ensures FetchedOk(p, phases[k := ph], over)
  {
  }

  /** Every step of a goroutine but the send. */
  lemma MoveKeepsInv(p: Page, s: State, k: nat, ph: Phase, slots: nat)
    requires p.Valid() && Inv(p, s)
    requires k < |s.phases| && s.phases[k] != Unneeded && ph != Unneeded
    requires Past(s.phases[k]) ==> Past(ph)
    requires ph.Fetched? ==> Truthful(ph.reply, p.world[k], Over(s))
    requires !Over(s) && Past(ph) ==> Past(s.phases[k])
    requires slots == s.slots + (if Holds(ph) then 1 else 0) - (if Holds(s.phases[k]) then 1 else 0) <= SLOTS
    ensures Inv(p, s.(phases := s.phases[k := ph], slots := slots))
  {
    HoldersChange(s.phases, k, ph);
    MoveKeepsChan(p, s.phases, s.chan, s.results, Over(s), k, ph);
    MoveKeepsFetched(p, s.phases, Over(s), k, ph);
  }

  lemma SendKeepsChan(p: Page, phases: seq<Phase>, chan: seq<Result>, results: map<nat, Option<Spec>>, over: bool, k: nat, reply: Reply)
    requires p.Valid() && PhasesOk(p, phases) && k < |phases| && phases[k] != Unneeded && !Past(phases[k])
    requires Truthful(reply, p.world[k], over)
    requires ChanOk(p, phases, chan, results, over) && ResultsOk(p, phases, results)
    ensures PhasesOk(p, phases[k := Leaving])
    ensures ChanOk(p, phases[k := Leaving], chan + [Result(k, reply)], results, over)
  {
    MoveKeepsChan(p, phases, chan, results, over, k, Leaving);
  }

  lemma SendLosesNothing(phases: seq<Phase>, chan: seq<Result>, results: map<nat, Option<Spec>>, k: nat, reply: Reply)
    requires k < |phases| && NothingLost(phases, chan, results)
    ensures NothingLost(phases[k := Leaving], chan + [Result(k, reply)], results)
  {
    var chan' := chan + [Result(k, reply)];
    forall i | 0 <= i < |phases| && Past(phases[k := Leaving][i])
      ensures i in results || InChan(chan', i)
    {
      if i == k {
        assert chan'[|chan|].index == k;
      } else if i !in results {
        var a :| 0 <= a < |chan| && chan[a].index == i;
        assert chan'[a].index == i;
      }
    }
  }

  lemma SendKeepsInv(p: Page, s: State, k: nat)
    requires p.Valid() && Inv(p, s) && Enabled(p, s, Send(k))
    ensures Inv(p, Apply(p, s, Send(k)))
  {
    var reply := s.phases[k].reply;
    HoldersChange(s.phases, k, Leaving);
    MoveKeepsChan(p, s.phases, s.chan, s.results, Over(s), k, Leaving);
    MoveKeepsFetched(p, s.phases, Over(s), k, Leaving);
    SendKeepsChan(p, s.phases, s.chan, s.results, Over(s), k, reply);
    if !Over(s) {
      SendLosesNothing(s.phases, s.chan, s.results, k, reply);
    }
  }

  // ---------------------------------------------------------------- the collector

  /** Taking the oldest reply from the channel and recording it. */
  lemma TakeKeepsChan(p: Page, phases: seq<Phase>, chan: seq<Result>, results: map<nat, Option<Spec>>, over: bool)
    requires p.Valid() && PhasesOk(p, phases) && chan != []
    requires ChanOk(p, phases, chan, results, over)
    ensures ChanOk(p, phases, chan[1..], results, over)
    ensures ChanOk(p, phases, chan[1..], results[chan[0].index := ObjectOf(chan[0].reply)], over)
  {
  }

  lemma TakeLosesNothing(phases: seq<Phase>, chan: seq<Result>, results: map<nat, Option<Spec>>, o: Option<Spec>)
    requires chan != [] && NothingLost(phases, chan, results)
    ensures NothingLost(phases, chan[1..], results[chan[0].index := o])
  {
    forall k | 0 <= k < |phases| && Past(phases[k])
      ensures k in results[chan[0].index := o] || InChan(chan[1..], k)
    {
      if k !in results && k != chan[0].index {
        var a :| 0 <= a < |chan| && chan[a].index == k;
        assert chan[1..][a - 1].index == k;
      }
    }
  }

  lemma ResultsAreNeeded(p: Page, phases: seq<Phase>, results: map<nat, Option<Spec>>)
    requires p.Valid() && PhasesOk(p, phases) && ResultsOk(p, phases, results)
    ensures |results| <= |p.NeededSet()|
    ensures |results| == |p.NeededSet()| ==> results.Keys == p.NeededSet()
  {
    assert |results| == |results.Keys|;
    SubsetCard(results.Keys, p.NeededSet());
    if |results| == |p.NeededSet()| {
      SubsetFull(results.Keys, p.NeededSet());
    }
  }

  lemma BrokenReplyMeansFailure(p: Page, s: State)
    requires p.Valid() && Inv(p, s) && s.collector == Collecting
    requires s.chan != [] && s.chan[0].reply.Broken?
    ensures s.timedOut || Sequential(p) == ServerError
  {
    var k := s.chan[0].index;
    assert Past(s.phases[k]);
    if !s.timedOut {
      assert k in p.NeededSet() && p.world[k] == Broken;
    }
  }

  lemma CollectKeepsInv(p: Page, s: State)
    requires p.Valid() && Inv(p, s) && Enabled(p, s, Collect)
    ensures Inv(p, Apply(p, s, Collect))
  {
    var r, s' := s.chan[0], Apply(p, s, Collect);
    TakeKeepsChan(p, s.phases, s.chan, s.results, Over(s));
    if r.reply.Broken? {
      BrokenReplyMeansFailure(p, s);
      OverIsHarmless(p, s.phases, s.chan[1..], s.results, Over(s));
    } else {
      assert r.index !in s.results && r.reply == p.world[r.index];
      assert |s'.results| == |s.results| + 1;
      ResultsAreNeeded(p, s.phases, s'.results);
      if !Over(s) {
        TakeLosesNothing(s.phases, s.chan, s.results, ObjectOf(r.reply));
      }
    }
  }

  lemma OverIsHarmless(p: Page, phases: seq<Phase>, chan: seq<Result>, results: map<nat, Option<Spec>>, over: bool)
    requires p.Valid() && PhasesOk(p, phases)
    requires FetchedOk(p, phases, over) && ChanOk(p, phases, chan, results, over)
    ensures FetchedOk(p, phases, true) && ChanOk(p, phases, chan, results, true)
  {
  }

  lemma CompleteResultsAreSequential(p: Page, results: map<nat, Option<Spec>>)
    requires p.Valid() && results.Keys == p.NeededSet()
    requires forall k :: k in results ==> !p.world[k].Broken? && results[k] == ObjectOf(p.world[k])
    ensures Sequential(p) == Listed(States(p.rows, results))
  {
    assert forall k :: k in p.NeededSet() ==> k in results;
    forall k | 0 <= k < |p.rows|
      ensures k in results <==> Needed(p.rows[k])
    {
      assert k in p.NeededSet() <==> Needed(p.rows[k]);
    }
  }

  lemma FinishKeepsInv(p: Page, s: State)
    requires p.Valid() && Inv(p, s) && Enabled(p, s, Finish)
    ensures Inv(p, Apply(p, s, Finish))
  {
    ResultsAreNeeded(p, s.phases, s.results);
    CompleteResultsAreSequential(p, s.results);
    OverIsHarmless(p, s.phases, s.chan, s.results, Over(s));
  }

  lemma StepKeepsInv(p: Page, s: State, a: Action)
    requires p.Valid() && Inv(p, s) && Enabled(p, s, a)
    ensures Inv(p, Apply(p, s, a))
  {
    match a
    case Acquire(k) => MoveKeepsInv(p, s, k, Acquired, s.slots + 1);
    case GiveUp(k) => MoveKeepsInv(p, s, k, Gone, s.slots);
    case Check(k) => MoveKeepsInv(p, s, k, if Over(s) then Leaving else Fetching, s.slots);
    case Answer(k, reply) => MoveKeepsInv(p, s, k, Fetched(reply), s.slots);
    case Send(k) => SendKeepsInv(p, s, k);
    case Drop(k) => MoveKeepsInv(p, s, k, Leaving, s.slots);
    case Release(k) => ReleaseKeepsInv(p, s, k);
    case Collect => CollectKeepsInv(p, s);
    case Finish => FinishKeepsInv(p, s);
    case Expire => OverIsHarmless(p, s.phases, s.chan, s.results, Over(s));
    case TimeOut => OverIsHarmless(p, s.phases, s.chan, s.results, Over(s));
  }

  lemma ReleaseKeepsInv(p: Page, s: State, k: nat)
    requires p.Valid() && Inv(p, s) && Enabled(p, s, Release(k))
    ensures Inv(p, Apply(p, s, Release(k)))
  {
    assert k in Holders(s.phases);
    MoveKeepsInv(p, s, k, Gone, s.slots - 1);
  }

  lemma InitInv(p: Page)
    requires p.Valid()
    ensures Inv(p, Init(p))
  {
    assert Holders(Init(p).phases) == {};
  }

  lemma {:induction false} RunInv(p: Page, run: seq<State>, actions: seq<Action>, j: nat)
    requires p.Valid() && IsRun(p, run, actions) && j < |run|
    ensures Inv(p, run[j])
  {
    if j == 0 {
      InitInv(p);
    } else {
      RunInv(p, run, actions, j - 1);
      StepKeepsInv(p, run[j - 1], actions[j - 1]);
    }
  }

  // ---------------------------------------------------------------- what every run satisfies

  /** At most three requests are with Kubernetes at any moment. */
  lemma AtMostThreeInFlight(p: Page, run: seq<State>, actions: seq<Action>, j: nat)
    requires p.Valid() && IsRun(p, run, actions) && j < |run|
    ensures |InFlight(run[j].phases)| <= 3
  {
    RunInv(p, run, actions, j);
    SubsetCard(InFlight(run[j].phases), Holders(run[j].phases));
  }

  function Indices(chan: seq<Result>): set<nat> {
    set a | 0 <= a < |chan| :: chan[a].index
  }

  lemma {:induction false} DistinctIndices(chan: seq<Result>)
    requires forall a, b :: 0 <= a < b < |chan| ==> chan[a].index != chan[b].index
    ensures |Indices(chan)| == |chan|
  {
    if chan != [] {
      var init, last := chan[..|chan| - 1], chan[|chan| - 1];
      DistinctIndices(init);
      assert forall a :: 0 <= a < |init| ==> init[a] == chan[a];
      assert Indices(chan) == Indices(init) + {last.index};
    }
  }

  function Below(n: nat): (all: set<nat>)
    ensures forall k: nat :: k in all <==> k < n
    ensures |all| == n
  {
    if n == 0 then {} else Below(n - 1) + {n - 1}
  }

  lemma RoomForOneMore(p: Page, s: State, k: nat)
    requires p.Valid() && Inv(p, s) && k < |s.phases| && s.phases[k].Fetched?
    ensures |s.chan| < |p.rows|
  {
    DistinctIndices(s.chan);
    SubsetCard(Indices(s.chan), Below(|p.rows|) - {k});
  }

  /** A goroutine with its reply in hand never waits for room in the channel. */
  lemma SendersNeverBlock(p: Page, run: seq<State>, actions: seq<Action>, j: nat, k: nat)
    requires p.Valid() && IsRun(p, run, actions) && j < |run|
    requires k < |run[j].phases| && run[j].phases[k].Fetched?
    ensures Enabled(p, run[j], Send(k))
  {
    RunInv(p, run, actions, j);
    RoomForOneMore(p, run[j], k);
  }

  ghost predicate AllGone(s: State) {
    && s.collector.Returned?
    && forall k :: 0 <= k < |s.phases| ==> s.phases[k] == Unneeded || s.phases[k] == Gone
  }

  lemma HolderCanMove(p: Page, s: State, k: nat) returns (a: Action)
    requires p.Valid() && Inv(p, s) && k < |s.phases| && Holds(s.phases[k])
    ensures Enabled(p, s, a) && a != TimeOut
  {
    match s.phases[k]
    case Acquired => a := Check(k);
    case Fetching => a := Answer(k, p.world[k]);
    case Fetched(_) => RoomForOneMore(p, s, k); a := Send(k);
    case Leaving => a := Release(k);
  }

  lemma CollectorCanMove(p: Page, s: State) returns (a: Action)
    requires p.Valid() && Inv(p, s) && s.collector == Collecting
    requires forall k :: 0 <= k < |s.phases| ==> s.phases[k] == Unneeded || s.phases[k] == Gone
    ensures Enabled(p, s, a) && a != TimeOut
  {
    if s.received >= |p.NeededSet()| {
      return Finish;
    }
    if s.timedOut {
      return Expire;
    }
    a := Collect;
    if s.chan == [] {
      forall k | k in p.NeededSet()
        ensures k in s.results
      {
        assert Past(s.phases[k]);
      }
      SubsetCard(p.NeededSet(), s.results.Keys);
      assert false;
    }
  }

  /** No run gets stuck: until the handler has answered and every goroutine has ended, one of them can
      take a step, and it does not take a timeout to get there. */
  lemma NeverStuck(p: Page, run: seq<State>, actions: seq<Action>) returns (a: Action)
    requires p.Valid() && IsRun(p, run, actions)
    requires !AllGone(run[|run| - 1])
    ensures Enabled(p, run[|run| - 1], a) && a != TimeOut
  {
    var s := run[|run| - 1];
    RunInv(p, run, actions, |run| - 1);
    if k :| 0 <= k < |s.phases| && Holds(s.phases[k]) {
      a := HolderCanMove(p, s, k);
    } else if k :| 0 <= k < |s.phases| && s.phases[k] == Waiting {
      assert Holders(s.phases) == {};
      a := Acquire(k);
    } else {
      a := CollectorCanMove(p, s);
    }
  }

  // ---------------------------------------------------------------- every run ends

  function Rank(ph: Phase): nat {
    match ph
    case Waiting => 5
    case Acquired => 4
    case Fetching => 3
    case Fetched(_) => 2
    case Leaving => 1
    case _ => 0
  }

  function Ranks(phases: seq<Phase>): nat {
    if phases == [] then 0 else Rank(phases[0]) + Ranks(phases[1..])
  }

  ghost function Left(p: Page, s: State): int {
    Ranks(s.phases)
     + (if s.collector == Collecting then |p.NeededSet()| - s.received + 1 else 0)
     + (if s.timedOut then 0 else 1)
  }

  lemma {:induction false} RanksChange(phases: seq<Phase>, k: nat, ph: Phase)
    requires k < |phases|
    ensures Ranks(phases[k := ph]) == Ranks(phases) - Rank(phases[k]) + Rank(ph)
  {
    if k == 0 {
      assert phases[0 := ph][1..] == phases[1..];
    } else {
      RanksChange(phases[1..], k - 1, ph);
      assert phases[k := ph][1..] == phases[1..][k - 1 := ph];
    }
  }

  /** What is left of the goroutines' work goes down with each of their steps. */
  lemma PhaseUsesUp(p: Page, s: State, s': State, k: nat, ph: Phase)
    requires k < |s.phases| && Rank(ph) < Rank(s.phases[k])
    requires s'.phases == s.phases[k := ph]
    requires s'.collector == s.collector && s'.received == s.received && s'.timedOut == s.timedOut
    ensures Left(p, s') < Left(p, s)
  {
    RanksChange(s.phases, k, ph);
  }

  lemma GoroutineUsesUp(p: Page, s: State, a: Action)
    requires p.Valid() && Enabled(p, s, a) && !a.Collect? && !a.Finish? && !a.Expire? && !a.TimeOut?
    ensures Left(p, Apply(p, s, a)) < Left(p, s)
  {
    var s' := Apply(p, s, a);
    PhaseUsesUp(p, s, s', a.k, s'.phases[a.k]);
  }

  lemma StepUsesUp(p: Page, s: State, a: Action)
    requires p.Valid() && Inv(p, s) && Enabled(p, s, a)
    ensures Left(p, Apply(p, s, a)) < Left(p, s)
  {
    if !a.Collect? && !a.Finish? && !a.Expire? && !a.TimeOut? {
      GoroutineUsesUp(p, s, a);
    }
  }

  lemma {:induction false} RanksAtMost(phases: seq<Phase>)
    ensures Ranks(phases) <= 5 * |phases|
  {
    if phases != [] {
      RanksAtMost(phases[1..]);
    }
  }

  lemma {:induction false} RunUsesUp(p: Page, run: seq<State>, actions: seq<Action>, j: nat)
    requires p.Valid() && IsRun(p, run, actions) && j < |run|
    ensures 0 <= Left(p, run[j]) <= Left(p, run[0]) - j
  {
    RunInv(p, run, actions, j);
    if j > 0 {
      RunUsesUp(p, run, actions, j - 1);
      RunInv(p, run, actions, j - 1);
      StepUsesUp(p, run[j - 1], actions[j - 1]);
    }
  }

  /** Every run ends: a page of n rows is answered, and all its goroutines have ended, within 6n + 2
      steps, whatever order they are taken in. */
  lemma EveryRunEnds(p: Page, run: seq<State>, actions: seq<Action>)
    requires p.Valid() && IsRun(p, run, actions)
    ensures |actions| <= 6 * |p.rows| + 2
  {
    RunUsesUp(p, run, actions, |actions|);
    RanksAtMost(run[0].phases);
    SubsetCard(p.NeededSet(), Below(|p.rows|));
  }

  /** What the reply about row k says of its object. */
  function Truth(p: Page, k: nat): Option<Spec>
    requires p.Valid() && k < |p.rows|
  {
    if EndsIn(p.rows[k], {NotebookApplied}) && p.world[k].Found? then p.world[k].spec else None
  }

  /** Some row that had to be asked about met an error other than not-found. */
  ghost predicate SomeFetchFails(p: Page)
    requires p.Valid()
  {
    exists k :: 0 <= k < |p.rows| && EndsIn(p.rows[k], {NotebookApplied}) && p.world[k] == Broken
  }

  /** The answer a page deserves: an error exactly if some fetch fails, and else the states, each as the
      row and its object mean it. */
  ghost predicate Right(p: Page, o: Outcome)
    requires p.Valid()
  {
    && (o == ServerError <==> SomeFetchFails(p))
    && (o.Listed? ==>
          && |o.states| == |p.rows|
          && forall k :: 0 <= k < |p.rows| ==> Means(o.states[k], p.rows[k], Truth(p, k)))
  }

  lemma SequentialIsRight(p: Page)
    requires p.Valid()
    ensures Right(p, Sequential(p))
  {
    forall k | 0 <= k < |p.rows|
      ensures Needed(p.rows[k]) <==> EndsIn(p.rows[k], {NotebookApplied})
      ensures Means(DetermineState(Latest(p.rows[k]), if Needed(p.rows[k]) then ObjectOf(p.world[k]) else None), p.rows[k], Truth(p, k))
    {
      StatesMeanWhatTheySay(p.rows[k], Truth(p, k));
    }
    assert forall k :: k in p.NeededSet() <==> 0 <= k < |p.rows| && Needed(p.rows[k]);
  }

  /** Main result: without a request timeout the answer is the sequential one, whatever order the
      replies arrive in: an error exactly when some fetch fails with something other than not-found,
      and otherwise the list with every state filled in. */
  lemma OrderDoesNotMatter(p: Page, run: seq<State>, actions: seq<Action>)
    requires p.Valid() && IsRun(p, run, actions)
    requires run[|run| - 1].collector.Returned?
    ensures var last := run[|run| - 1];
            last.collector.outcome == Sequential(p) || (last.timedOut && last.collector.outcome == ServerError)
    ensures var last := run[|run| - 1];
            Right(p, last.collector.outcome) || (last.timedOut && last.collector.outcome == ServerError)
  {
    RunInv(p, run, actions, |run| - 1);
    SequentialIsRight(p);
  }

  /** The semaphore lets three in: while fewer hold a slot, whoever waits can take one. */
  lemma ThreeMayFly(p: Page, run: seq<State>, actions: seq<Action>, j: nat, k: nat)
    requires p.Valid() && IsRun(p, run, actions) && j < |run|
    requires |Holders(run[j].phases)| < 3 && k < |run[j].phases| && run[j].phases[k] == Waiting
    ensures Enabled(p, run[j], Acquire(k))
  {
    RunInv(p, run, actions, j);
  }
}
