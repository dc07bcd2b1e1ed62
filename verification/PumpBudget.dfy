/**
  What a step budget does: every run ends, however it fails and whatever is picked, as long as
  handlers' streams end; and without failures the budget alone decides how.
 */
module PumpBudget {
  import opened Messages
  import opened Buses
  import opened Pump
  import opened PumpCounters
  import opened PumpProgress
  import opened PumpConfluence
  import opened PumpMeasure
  import opened PumpTermination
  import S = Scheduler

  // ------------------------------------------------------------------- no endless run

  /** The weights of what does not start further drains: an event's own steps, and those to send its commands. */
  function OwnWeights(p: Program): Weights {
    Weights((e: Event) => 7 + 2 * |Answered(p, e)|, (c: Command) => 2)
  }

  lemma {:induction false} OwnWeightsCover(p: Program, e: Event)
    ensures Weighty(OwnWeights(p)) && CoversEvent(p, OwnWeights(p), e)
  {
    TwoEach(OwnWeights(p).command, Answered(p, e));
  }

  lemma {:induction false} TwoEach(f: Command -> int, commands: seq<Command>)
    requires forall c :: f(c) == 2
    ensures Sum(f, commands) == 2 * |commands|
  {
    if commands != [] {
      TwoEach(f, commands[..|commands| - 1]);
    }
  }

  /** Each step of the run starts one more drain, or uses up some of what the drains started leave. */
  lemma {:induction false} BudgetedStep(p: Program, s: State, a: Action)
    requires Enabled(p, s, a) && S.Sound(s.scheduler) && IsOwn(a) && s.made != []
    ensures var r := Apply(p, s, a);
            && (r.steps == s.steps + 1 ||
                (r.steps == s.steps && StepsLeft(p, OwnWeights(p), r) < StepsLeft(p, OwnWeights(p), s)))
            && r.made != []
            && (p.maxSteps.Some? && s.steps <= p.maxSteps.value ==> r.steps <= p.maxSteps.value)
  {
    hide S.Sound, StepsLeft, OwnWeights, Weighty, CoversEvent, CoversCommand, Faults;
    OwnWeightsCover(p, if s.consumer.Holding? then s.consumer.event.payload else Event("", ""));
    StepUses(p, OwnWeights(p), s, a);
  }

  /** `r` is what action `a` of the run makes of `s`, whatever other runs have done to the scheduler meanwhile. */
  ghost predicate GoesTo(p: Program, s: State, a: Action, r: State) {
    exists q :: Stepping(p, s.(scheduler := q), a, r)
  }

  ghost predicate Stepping(p: Program, s: State, a: Action, r: State) {
    S.Sound(s.scheduler) && Enabled(p, s, a) && IsOwn(a) && r == Apply(p, s, a)
  }

  lemma {:induction false} BudgetedGoing(p: Program, s: State, a: Action, r: State)
    requires GoesTo(p, s, a, r) && s.made != [] && p.maxSteps.Some? && s.steps <= p.maxSteps.value
    ensures r.made != [] && s.steps <= r.steps <= p.maxSteps.value
    ensures r.steps == s.steps ==> StepsLeft(p, OwnWeights(p), r) < StepsLeft(p, OwnWeights(p), s)
  {
    hide Apply, Enabled, StepsLeft, S.Sound;
    var q :| Stepping(p, s.(scheduler := q), a, r);
    BudgetedStep(p, s.(scheduler := q), a);
    SchedulerIsNoStep(p, OwnWeights(p), s, q);
  }

  lemma {:induction false} SchedulerIsNoStep(p: Program, w: Weights, s: State, q: S.Queue)
    ensures StepsLeft(p, w, s.(scheduler := q)) == StepsLeft(p, w, s)
  {
  }

  lemma {:induction false} EndlessRunUsesUp(p: Program, states: nat -> State, actions: nat -> Action, n: nat)
    requires p.maxSteps.Some? && states(n).made != [] && states(n).steps <= p.maxSteps.value
    requires forall i: nat | i >= n :: GoesTo(p, states(i), actions(i), states(i + 1))
    ensures false
    decreases p.maxSteps.value - states(n).steps, StepsLeft(p, OwnWeights(p), states(n))
  {
    hide StepsLeft, OwnWeights, GoesTo;
    OwnWeightsCover(p, Event("", ""));
    StepsLeftNotNegative(p, OwnWeights(p), states(n));
    BudgetedGoing(p, states(n), actions(n), states(n + 1));
    StepsLeftNotNegative(p, OwnWeights(p), states(n + 1));
    EndlessRunUsesUp(p, states, actions, n + 1);
  }

  /** With a step budget there is no endless run, whatever fails, whatever is picked, and whatever other runs do. */
  lemma {:induction false} NoEndlessRun(p: Program, root: Command, origin: string, correlation: string,
                                        states: nat -> State, actions: nat -> Action)
    requires p.maxSteps.Some? && Open(states(0)) == Begin(p, root, origin, correlation)
    ensures exists n: nat :: !GoesTo(p, states(n), actions(n), states(n + 1))
  {
    if forall n: nat :: GoesTo(p, states(n), actions(n), states(n + 1)) {
      EndlessRunUsesUp(p, states, actions, 0);
    }
  }

  // ------------------------------------------------------------------ the budget alone

  predicate HarmlessEvent(p: Program, good: Command -> bool, e: Event) {
    && Publish(p.subscriptions, e).Commands?
    && forall c | c in Publish(p.subscriptions, e).commands :: good(c)
  }

  /** The `good` commands have bindings and handlers that do not raise, and beget only good commands. */
  ghost predicate Harmless(p: Program, good: Command -> bool) {
    forall c | good(c) :: !ScriptOf(p, c).ending.Raises? && HarmlessEvents(p, good, ScriptOf(p, c).events)
  }

  predicate HarmlessEvents(p: Program, good: Command -> bool, events: seq<Event>) {
    forall i | 0 <= i < |events| :: HarmlessEvent(p, good, events[i])
  }

  predicate HarmlessDrain(p: Program, good: Command -> bool, d: Drain) {
    && good(d.command.payload)
    && d.phase != Finishing(true) && !Failed(d)
    && (d.phase.Putting? ==> HarmlessEvent(p, good, d.phase.event.payload))
  }

  predicate HarmlessConsumer(p: Program, good: Command -> bool, c: Consumer) {
    match c
    case Holding(event) => HarmlessEvent(p, good, event.payload)
    case Sending(_, rest) => forall x | x in rest :: good(x)
    case Raised(_, error) => !error.ReactionError?
    case _ => true
  }

  predicate HarmlessState(p: Program, good: Command -> bool, s: State) {
    && (s.made != [] && s.made[0].CommandMade? ==> good(s.made[0].command.payload))
    && (forall i | 0 <= i < |s.drains| :: HarmlessDrain(p, good, s.drains[i]))
    && (forall i | 0 <= i < |s.control| && s.control[i].StartCommand? :: good(s.control[i].envelope.payload))
    && (forall i | 0 <= i < |s.inbox| :: HarmlessEvent(p, good, s.inbox[i].payload))
    && HarmlessConsumer(p, good, s.consumer)
  }

  lemma {:induction false} HarmlessStep(p: Program, good: Command -> bool, s: State, a: Action)
    requires Harmless(p, good) && HarmlessState(p, good, s) && Enabled(p, s, a) && S.Sound(s.scheduler)
    requires s.made != []
    ensures HarmlessState(p, good, Apply(p, s, a)) && Apply(p, s, a).made != []
  {
    hide S.Sound, HarmlessEvent;
    var r := Apply(p, s, a);
    if a.ByDrain? {
      HarmlessMove(p, good, s, a.drain, a.move);
    } else if a.PublishEvent? || a.SendControl? || a.TakeEvent? {
      HarmlessConsuming(p, good, s, a);
    } else if a.StartRoot? || a.Receive? {
      HarmlessStarting(p, good, s, a);
    }
  }

  lemma {:induction false} HarmlessStarting(p: Program, good: Command -> bool, s: State, a: Action)
    requires HarmlessState(p, good, s) && Enabled(p, s, a) && S.Sound(s.scheduler)
    requires s.made != [] && (a.StartRoot? || a.Receive?)
    ensures HarmlessState(p, good, Apply(p, s, a)) && Apply(p, s, a).made != []
  {
    hide S.Sound, HarmlessEvent;
  }

  lemma {:induction false} HarmlessConsuming(p: Program, good: Command -> bool, s: State, a: Action)
    requires Harmless(p, good) && HarmlessState(p, good, s) && Enabled(p, s, a) && S.Sound(s.scheduler)
    requires s.made != [] && (a.PublishEvent? || a.SendControl? || a.TakeEvent?)
    ensures HarmlessState(p, good, Apply(p, s, a)) && Apply(p, s, a).made != []
  {
    hide S.Sound;
  }

  lemma {:induction false} HarmlessMove(p: Program, good: Command -> bool, s: State, i: nat, move: Move)
    requires Harmless(p, good) && HarmlessState(p, good, s) && Enabled(p, s, ByDrain(i, move)) && S.Sound(s.scheduler)
    requires s.made != []
    ensures HarmlessState(p, good, Apply(p, s, ByDrain(i, move))) && Apply(p, s, ByDrain(i, move)).made != []
  {
    hide S.Sound, HarmlessEvent;
    var r := Apply(p, s, ByDrain(i, move));
    assert HarmlessDrain(p, good, s.drains[i]);
    assert HarmlessDrain(p, good, r.drains[i]);
    assert forall j | 0 <= j < |s.drains| && j != i :: r.drains[j] == s.drains[j];
  }

  lemma {:induction false} HarmlessAlong(p: Program, good: Command -> bool, s: State, actions: seq<Action>, t: State)
    requires Harmless(p, good) && HarmlessState(p, good, s) && s.made != [] && Runs(p, s, actions, t)
    ensures HarmlessState(p, good, t)
    decreases |actions|
  {
    hide Harmless, HarmlessState;
    if actions != [] {
      HarmlessStep(p, good, s, actions[0]);
      HarmlessAlong(p, good, Apply(p, s, actions[0]), actions[1..], t);
    }
  }

  predicate BudgetErrorOnly(p: Program, error: Error) {
    && p.maxSteps.Some?
    && error.SupervisorError?
    && error.group.faults == []
    && error.group.budget.Some?
    && error.group.budget.value.limit == p.maxSteps.value
    && error.group.budget.value.attempted == p.maxSteps.value + 1
  }

  /**
    The budget verdict, for handlers and reactions that do not fail: a run that has ended has
    ended normally if the expansion has at most `maxSteps` commands, else with the budget error
    for step `maxSteps + 1` and nothing beside it, whatever the schedule.
   */
  lemma {:induction false} BudgetVerdict(p: Program, good: Command -> bool, root: Command, origin: string,
                                         correlation: string, actions: seq<Action>, t: State)
    requires Harmless(p, good) && good(root)
    requires Begin(p, root, origin, correlation).Open?
    requires Runs(p, Begin(p, root, origin, correlation).state, actions, t)
    requires Over(t)
    ensures t.consumer.Finished? <==> Completes(p, root)
    ensures t.consumer.Raised? ==> BudgetErrorOnly(p, t.consumer.error)
  {
    hide Completes, Harmless, S.Sound, PumpAdmission.Matched, Counted, Fenced, Faults;
    var s := Begin(p, root, origin, correlation).state;
    VerdictIsScheduleFree(p, root, origin, correlation, actions, t);
    HarmlessAlong(p, good, s, actions, t);
    InvAtBeginning(p, root, origin, correlation);
    InvAlong(p, s, actions, t);
    FaultsAreFailures(t.drains);
    assert NoFaults(t) by {
      assert forall i | 0 <= i < |t.drains| :: HarmlessDrain(p, good, t.drains[i]);
    }
  }

  /** However a run goes, it never starts more than `maxSteps` drains, and a budget error names the next step. */
  lemma {:induction false} StepsStayInBudget(p: Program, root: Command, origin: string, correlation: string,
                                             actions: seq<Action>, t: State)
    requires Begin(p, root, origin, correlation).Open?
    requires Runs(p, Begin(p, root, origin, correlation).state, actions, t)
    ensures t.steps == |t.drains| && (p.maxSteps.Some? ==> |t.drains| <= p.maxSteps.value)
    ensures t.consumer.Raised? && t.consumer.error.SupervisorError? ==> HonestBudget(p, t.consumer.error.group.budget)
    ensures t.consumer.Raised? ==> !t.consumer.error.SupervisorGone?
  {
    hide S.Sound, PumpAdmission.Matched, Counted, Fenced, Faults;
    InvAtBeginning(p, root, origin, correlation);
    InvAlong(p, Begin(p, root, origin, correlation).state, actions, t);
  }
}
