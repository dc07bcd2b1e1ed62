/**
  When runs end. If what a root command can lead to is finite, counting on past failures, every
  run of it is bounded, however it fails, and ends; normally exactly if the expansion is finite,
  unfailing and within the step budget. So what a run ends with does not depend on the schedule.
 */
module PumpTermination {
  import opened Messages
  import opened Buses
  import opened Pump
  import opened PumpCounters
  import opened PumpProgress
  import opened PumpExpansion
  import opened PumpConfluence
  import opened PumpMeasure
  import S = Scheduler

  // ---------------------------------------------------------- the reach of a command

  function Plus(a: Option<nat>, b: Option<nat>): Option<nat> {
    if a.None? || b.None? then None else Some(a.value + b.value)
  }

  /**
    How many events and commands `c` leads to, itself included, if whatever fails is passed over:
    a handler that raises has yielded its events, a failing reaction calls for nothing.
   */
  function Reach(p: Program, c: Command, fuel: nat): Option<nat>
    decreases fuel, 0
  {
    if fuel == 0 then None else Plus(Some(1), EventsReach(p, ScriptOf(p, c).events, fuel - 1))
  }

  function EventReach(p: Program, e: Event, fuel: nat): Option<nat>
    decreases fuel, 0
  {
    if fuel == 0 then None else Plus(Some(1), CommandsReach(p, Answered(p, e), fuel - 1))
  }

  function EventsReach(p: Program, events: seq<Event>, fuel: nat): Option<nat>
    decreases fuel, |events| + 1
  {
    if events == [] then Some(0)
    else Plus(EventsReach(p, events[..|events| - 1], fuel), EventReach(p, events[|events| - 1], fuel))
  }

  function CommandsReach(p: Program, commands: seq<Command>, fuel: nat): Option<nat>
    decreases fuel, |commands| + 1
  {
    if commands == [] then Some(0)
    else Plus(CommandsReach(p, commands[..|commands| - 1], fuel), Reach(p, commands[|commands| - 1], fuel))
  }

  /** Where nothing fails the reach is the size of the sequential walk. */
  lemma {:induction false} ReachIsWalk(p: Program, c: Command, fuel: nat)
    requires Walk(p, c, fuel).Some?
    ensures Reach(p, c, fuel) == Some(|Walk(p, c, fuel).value.events| + |Walk(p, c, fuel).value.commands|)
    decreases fuel, 0
  {
    EventsReachIsWalk(p, ScriptOf(p, c).events, fuel - 1);
  }

  lemma {:induction false} EventsReachIsWalk(p: Program, events: seq<Event>, fuel: nat)
    requires WalkEvents(p, events, fuel).Some?
    ensures EventsReach(p, events, fuel) ==
            Some(|WalkEvents(p, events, fuel).value.events| + |WalkEvents(p, events, fuel).value.commands|)
    decreases fuel, |events|
  {
    if events != [] {
      var last := events[|events| - 1];
      EventsReachIsWalk(p, events[..|events| - 1], fuel);
      assert WalkEvent(p, last, fuel).Some?;
      CommandsReachIsWalk(p, Publish(p.subscriptions, last).commands, fuel - 1);
    }
  }

  lemma {:induction false} CommandsReachIsWalk(p: Program, commands: seq<Command>, fuel: nat)
    requires WalkCommands(p, commands, fuel).Some?
    ensures CommandsReach(p, commands, fuel) ==
            Some(|WalkCommands(p, commands, fuel).value.events| + |WalkCommands(p, commands, fuel).value.commands|)
    decreases fuel, |commands| + 1
  {
    if commands != [] {
      CommandsReachIsWalk(p, commands[..|commands| - 1], fuel);
      ReachIsWalk(p, commands[|commands| - 1], fuel);
    }
  }

  // --------------------------------------------------------------- the reach as weight

  /** Seven steps for everything reached, with enough fuel for it all. */
  function ReachWeights(p: Program, fuel: nat): Weights {
    Weights((e: Event) => 7 * Known(EventReach(p, e, fuel)), (c: Command) => 7 * Known(Reach(p, c, fuel)))
  }

  function Known(size: Option<nat>): nat {
    if size.Some? && size.value > 0 then size.value else 1
  }

  lemma {:induction false} ReachIsWeighty(p: Program, fuel: nat)
    ensures Weighty(ReachWeights(p, fuel))
  {
  }

  lemma {:induction false} KnownWeighs(p: Program, e: Event, c: Command, fuel: nat)
    ensures EventReach(p, e, fuel).Some? && EventReach(p, e, fuel).value > 0 ==>
              ReachWeights(p, fuel).event(e) == 7 * EventReach(p, e, fuel).value
    ensures Reach(p, c, fuel).Some? && Reach(p, c, fuel).value > 0 ==>
              ReachWeights(p, fuel).command(c) == 7 * Reach(p, c, fuel).value
  {
  }

  /** More fuel changes nothing, and a sequence weighs what its items weigh. */
  lemma {:induction false} ReachMore(p: Program, c: Command, fuel: nat, more: nat)
    requires fuel <= more && Reach(p, c, fuel).Some?
    ensures Reach(p, c, more) == Reach(p, c, fuel) && Reach(p, c, fuel).value > 0
    decreases fuel, 0
  {
    EventsWeigh(p, ScriptOf(p, c).events, fuel - 1, more - 1);
  }

  lemma {:induction false} EventReachMore(p: Program, e: Event, fuel: nat, more: nat)
    requires fuel <= more && EventReach(p, e, fuel).Some?
    ensures EventReach(p, e, more) == EventReach(p, e, fuel) && EventReach(p, e, fuel).value > 0
    decreases fuel, 0
  {
    CommandsWeigh(p, Answered(p, e), fuel - 1, more - 1);
  }

  lemma {:induction false} EventsWeigh(p: Program, events: seq<Event>, fuel: nat, more: nat)
    requires fuel <= more && EventsReach(p, events, fuel).Some?
    ensures EventsReach(p, events, more) == EventsReach(p, events, fuel)
    ensures forall i | 0 <= i < |events| :: EventReach(p, events[i], more).Some?
    ensures Sum(ReachWeights(p, more).event, events) == 7 * EventsReach(p, events, fuel).value
    decreases fuel, |events| + 1
  {
    hide ReachWeights, Reach, EventReach, CommandsReach, ScriptOf, Answered;
    if events != [] {
      var front, last := events[..|events| - 1], events[|events| - 1];
      EventsWeigh(p, front, fuel, more);
      EventReachMore(p, last, fuel, more);
      KnownWeighs(p, last, Command("", ""), more);
      assert forall i | 0 <= i < |front| :: front[i] == events[i];
    }
  }

  lemma {:induction false} CommandsWeigh(p: Program, commands: seq<Command>, fuel: nat, more: nat)
    requires fuel <= more && CommandsReach(p, commands, fuel).Some?
    ensures CommandsReach(p, commands, more) == CommandsReach(p, commands, fuel)
    ensures forall i | 0 <= i < |commands| :: Reach(p, commands[i], more).Some?
    ensures Sum(ReachWeights(p, more).command, commands) == 7 * CommandsReach(p, commands, fuel).value
    decreases fuel, |commands| + 1
  {
    hide ReachWeights, Reach, EventReach, EventsReach, ScriptOf, Answered;
    if commands != [] {
      var front, last := commands[..|commands| - 1], commands[|commands| - 1];
      CommandsWeigh(p, front, fuel, more);
      ReachMore(p, last, fuel, more);
      KnownWeighs(p, Event("", ""), last, more);
      assert forall i | 0 <= i < |front| :: front[i] == commands[i];
    }
  }

  /** What is within reach weighs what it leads to, and that is within reach. */
  lemma {:induction false} ReachCovers(p: Program, c: Command, fuel: nat)
    requires Reach(p, c, fuel).Some?
    ensures CoversCommand(p, ReachWeights(p, fuel), c)
    ensures EventsInReach(p, fuel, ScriptOf(p, c).events)
  {
    EventsWeigh(p, ScriptOf(p, c).events, fuel - 1, fuel);
  }

  lemma {:induction false} EventReachCovers(p: Program, e: Event, fuel: nat)
    requires EventReach(p, e, fuel).Some?
    ensures CoversEvent(p, ReachWeights(p, fuel), e)
    ensures CommandsInReach(p, fuel, Answered(p, e))
  {
    CommandsWeigh(p, Answered(p, e), fuel - 1, fuel);
  }

  predicate EventsInReach(p: Program, fuel: nat, events: seq<Event>) {
    forall i | 0 <= i < |events| :: EventReach(p, events[i], fuel).Some?
  }

  predicate CommandsInReach(p: Program, fuel: nat, commands: seq<Command>) {
    forall i | 0 <= i < |commands| :: Reach(p, commands[i], fuel).Some?
  }

  // ----------------------------------------------------------- a run stays within reach

  predicate DrainInReach(p: Program, fuel: nat, d: Drain) {
    && Reach(p, d.command.payload, fuel).Some?
    && (d.phase.Putting? ==> EventReach(p, d.phase.event.payload, fuel).Some?)
  }

  predicate ConsumerInReach(p: Program, fuel: nat, c: Consumer) {
    match c
    case Holding(event) => EventReach(p, event.payload, fuel).Some?
    case Sending(_, rest) => CommandsInReach(p, fuel, rest)
    case _ => true
  }

  predicate InReach(p: Program, fuel: nat, s: State) {
    && s.made != []
    && (s.made[0].CommandMade? ==> Reach(p, s.made[0].command.payload, fuel).Some?)
    && (forall i | 0 <= i < |s.drains| :: DrainInReach(p, fuel, s.drains[i]))
    && (forall i | 0 <= i < |s.control| && s.control[i].StartCommand? ::
          Reach(p, s.control[i].envelope.payload, fuel).Some?)
    && (forall i | 0 <= i < |s.inbox| :: EventReach(p, s.inbox[i].payload, fuel).Some?)
    && ConsumerInReach(p, fuel, s.consumer)
  }

  lemma {:induction false} InReachStep(p: Program, fuel: nat, s: State, a: Action)
    requires InReach(p, fuel, s) && Enabled(p, s, a) && S.Sound(s.scheduler)
    ensures InReach(p, fuel, Apply(p, s, a))
  {
    hide S.Sound, Reach, EventReach, Faults, Others, Dispatch;
    if a.ByDrain? {
      InReachMove(p, fuel, s, a.drain, a.move);
    } else if a.PublishEvent? {
      EventReachCovers(p, s.consumer.event.payload, fuel);
    }
  }

  lemma {:induction false} InReachMove(p: Program, fuel: nat, s: State, i: nat, move: Move)
    requires InReach(p, fuel, s) && Enabled(p, s, ByDrain(i, move)) && S.Sound(s.scheduler)
    ensures InReach(p, fuel, Apply(p, s, ByDrain(i, move)))
  {
    hide S.Sound, Reach, EventReach;
    var r := Apply(p, s, ByDrain(i, move));
    ReachCovers(p, s.drains[i].command.payload, fuel);
    assert DrainInReach(p, fuel, s.drains[i]);
    assert DrainInReach(p, fuel, r.drains[i]);
    assert forall j | 0 <= j < |s.drains| && j != i :: r.drains[j] == s.drains[j];
  }

  predicate IsOwn(a: Action) {
    !Foreign(a)
  }

  lemma {:induction false} ReachingStep(p: Program, fuel: nat, s: State, a: Action)
    requires InReach(p, fuel, s) && Enabled(p, s, a) && S.Sound(s.scheduler)
    ensures var w := ReachWeights(p, fuel);
            StepsLeft(p, w, Apply(p, s, a)) + (if IsOwn(a) then 1 else 0) <= StepsLeft(p, w, s)
  {
    hide S.Sound, Reach, EventReach, CoversCommand, CoversEvent, ReachWeights, StepsLeft, Apply;
    var w := ReachWeights(p, fuel);
    ReachIsWeighty(p, fuel);
    if Foreign(a) {
      OthersUseNothing(p, w, s, a);
    } else {
      if a.PublishEvent? {
        EventReachCovers(p, s.consumer.event.payload, fuel);
      }
      if StartsNow(s, a) != [] {
        ReachCovers(p, StartsNow(s, a)[0], fuel);
      }
      StepUses(p, w, s, a);
    }
  }

  lemma {:induction false} ReachingRun(p: Program, fuel: nat, s: State, actions: seq<Action>, t: State)
    requires InReach(p, fuel, s) && Runs(p, s, actions, t)
    ensures Count(IsOwn, actions) <= StepsLeft(p, ReachWeights(p, fuel), s)
    decreases |actions|
  {
    hide InReach, StepsLeft, ReachWeights, Count;
    if actions == [] {
      CountZero(IsOwn, actions);
      ReachIsWeighty(p, fuel);
      StepsLeftNotNegative(p, ReachWeights(p, fuel), s);
    } else {
      InReachStep(p, fuel, s, actions[0]);
      ReachingStep(p, fuel, s, actions[0]);
      ReachingRun(p, fuel, Apply(p, s, actions[0]), actions[1..], t);
      CountTail(IsOwn, actions);
    }
  }

  // -------------------------------------------------------------------- the theorems

  /**
    Termination, whatever fails and whatever the schedule: a run of a root command with a finite
    reach takes at most seven steps for everything reached and two more, not counting what other
    runs do to the scheduler.
   */
  lemma {:induction false} FiniteReachEnds(p: Program, root: Command, origin: string, correlation: string,
                                           fuel: nat, actions: seq<Action>, t: State)
    requires Begin(p, root, origin, correlation).Open? && Reach(p, root, fuel).Some?
    requires Runs(p, Begin(p, root, origin, correlation).state, actions, t)
    ensures Count(IsOwn, actions) <= 7 * Reach(p, root, fuel).value + 2
    ensures (forall a | Enabled(p, t, a) :: !Moving(t, a)) ==> Over(t)
  {
    hide Inv, Count, Runs, Moving;
    var s := Begin(p, root, origin, correlation).state;
    ReachMore(p, root, fuel, fuel);
    ReachingRun(p, fuel, s, actions, t);
    StepsAtBeginning(p, ReachWeights(p, fuel), root, origin, correlation);
    if !Over(t) {
      InvAtBeginning(p, root, origin, correlation);
      InvAlong(p, s, actions, t);
      var a := Progress(p, t);
      assert Enabled(p, t, a) && Moving(t, a);
    }
  }

  lemma {:induction false} StepsAtBeginning(p: Program, w: Weights, root: Command, origin: string, correlation: string)
    requires Begin(p, root, origin, correlation).Open?
    ensures StepsLeft(p, w, Begin(p, root, origin, correlation).state) == w.command(root) + 2
  {
  }

  lemma {:induction false} CompletingRun(p: Program, root: Command, s: State, actions: seq<Action>, t: State)
    requires Inv(p, s) && Accounted(p, root, s) && !GivenUp(s) && Completes(p, root) && Runs(p, s, actions, t)
    ensures !GivenUp(t)
    decreases |actions|
  {
    hide Inv, Accounted, Completes, GivenUp;
    if actions != [] {
      InvStep(p, s, actions[0]);
      AccountedStep(p, root, s, actions[0]);
      NeverGivenUp(p, root, s, actions[0]);
      CompletingRun(p, root, Apply(p, s, actions[0]), actions[1..], t);
    }
  }

  /** How long a run of a completing `root` can be. */
  ghost function Bound(p: Program, root: Command): nat {
    7 * (|Expand(p, root).events| + |Expand(p, root).commands|) + 2
  }

  lemma {:induction false} BoundIsReach(p: Program, root: Command) returns (fuel: nat)
    requires Expand(p, root).finite
    ensures Reach(p, root, fuel).Some? && Bound(p, root) == 7 * Reach(p, root, fuel).value + 2
  {
    fuel :| Walk(p, root, fuel).Some?;
    ExpandIsWalk(p, root, fuel);
    ReachIsWalk(p, root, fuel);
    var trace := Walk(p, root, fuel).value;
    assert Expand(p, root) == Tally(true, multiset(trace.events), multiset(trace.commands));
  }

  /**
    A root command whose expansion is finite, unfailing and within the budget has no run longer
    than `Bound`, and a run that cannot go on has ended normally.
   */
  lemma {:induction false} CompletingRunsFinish(p: Program, root: Command, origin: string, correlation: string,
                                                actions: seq<Action>, t: State)
    requires Begin(p, root, origin, correlation).Open? && Completes(p, root)
    requires Runs(p, Begin(p, root, origin, correlation).state, actions, t)
    ensures Count(IsOwn, actions) <= Bound(p, root)
    ensures (forall a | Enabled(p, t, a) :: !Moving(t, a)) ==> t.consumer.Finished?
    ensures !t.consumer.Raised?
  {
    hide Inv, Accounted, Runs, Count, Moving, Bound, Expand, Reach;
    var s := Begin(p, root, origin, correlation).state;
    InvAtBeginning(p, root, origin, correlation);
    AccountedAtBeginning(p, root, origin, correlation);
    CompletingRun(p, root, s, actions, t);
    var fuel := BoundIsReach(p, root);
    FiniteReachEnds(p, root, origin, correlation, fuel, actions, t);
  }

  /** A run that has ended has ended normally exactly if the expansion allows it. */
  lemma {:induction false} VerdictIsScheduleFree(p: Program, root: Command, origin: string, correlation: string,
                                                 actions: seq<Action>, t: State)
    requires Begin(p, root, origin, correlation).Open?
    requires Runs(p, Begin(p, root, origin, correlation).state, actions, t)
    requires Over(t)
    ensures t.consumer.Finished? <==> Completes(p, root)
  {
    hide Completes;
    if t.consumer.Finished? {
      NormalEndIsExpansion(p, root, origin, correlation, actions, t);
    } else if Completes(p, root) {
      CompletingRunsFinish(p, root, origin, correlation, actions, t);
    }
  }

  /** Within a finite reach, a walk that finds no failure needs no more fuel than the reach. */
  lemma {:induction false} WalkWithinReach(p: Program, c: Command, fuel: nat, more: nat)
    requires Reach(p, c, fuel).Some? && Walk(p, c, more).Some?
    ensures Walk(p, c, fuel).Some?
    decreases fuel, 0
  {
    EventsWalkWithinReach(p, ScriptOf(p, c).events, fuel - 1, more - 1);
  }

  lemma {:induction false} EventsWalkWithinReach(p: Program, events: seq<Event>, fuel: nat, more: nat)
    requires EventsReach(p, events, fuel).Some? && WalkEvents(p, events, more).Some?
    ensures WalkEvents(p, events, fuel).Some?
    decreases fuel, |events|
  {
    if events != [] {
      var last := events[|events| - 1];
      EventsWalkWithinReach(p, events[..|events| - 1], fuel, more);
      assert EventReach(p, last, fuel).Some? && WalkEvent(p, last, more).Some?;
      CommandsWalkWithinReach(p, Answered(p, last), fuel - 1, more - 1);
    }
  }

  lemma {:induction false} CommandsWalkWithinReach(p: Program, commands: seq<Command>, fuel: nat, more: nat)
    requires CommandsReach(p, commands, fuel).Some? && WalkCommands(p, commands, more).Some?
    ensures WalkCommands(p, commands, fuel).Some?
    decreases fuel, |commands| + 1
  {
    if commands != [] {
      CommandsWalkWithinReach(p, commands[..|commands| - 1], fuel, more);
      WalkWithinReach(p, commands[|commands| - 1], fuel, more);
    }
  }

  /** The walk meets no failure and the budget has room for its commands. */
  predicate WalkSucceeds(p: Program, root: Command, fuel: nat) {
    var walk := Walk(p, root, fuel);
    walk.Some? && (p.maxSteps.Some? ==> |walk.value.commands| <= p.maxSteps.value)
  }

  lemma {:induction false} CompletesIfWalkSucceeds(p: Program, root: Command, fuel: nat)
    requires Reach(p, root, fuel).Some?
    ensures Completes(p, root) <==> WalkSucceeds(p, root, fuel)
  {
    if more: nat :| Walk(p, root, more).Some? {
      WalkWithinReach(p, root, fuel, more);
      ExpandIsWalk(p, root, fuel);
    }
  }

  /**
    However a root command of finite reach fails: a run that cannot go on is over, and it has
    raised exactly if the walk of that reach meets a failure or has more commands than the budget.
   */
  lemma {:induction false} FiniteReachDecides(p: Program, root: Command, origin: string, correlation: string,
                                              fuel: nat, actions: seq<Action>, t: State)
    requires Begin(p, root, origin, correlation).Open? && Reach(p, root, fuel).Some?
    requires Runs(p, Begin(p, root, origin, correlation).state, actions, t)
    requires forall a | Enabled(p, t, a) :: !Moving(t, a)
    ensures t.consumer.Finished? <==> WalkSucceeds(p, root, fuel)
    ensures t.consumer.Raised? <==> !WalkSucceeds(p, root, fuel)
  {
    hide Completes, Runs, Moving, Reach, WalkSucceeds, Begin;
    FiniteReachEnds(p, root, origin, correlation, fuel, actions, t);
    VerdictIsScheduleFree(p, root, origin, correlation, actions, t);
    CompletesIfWalkSucceeds(p, root, fuel);
  }
}
