/** The harness over the pump: the outcome of an undisturbed run is decided by its root command. */
module HarnessOverPump {
  import opened Messages
  import opened Lifecycle
  import opened Harness
  import opened HarnessLaws
  import P = Pump
  import PumpProgress
  import PumpConfluence
  import PumpTermination
  import PumpBudget
  import O = PumpOrder

  function LiftCommand(c: Envelope<Command>): Message {
    Envelope(c.id, Other(c.payload.kind, c.payload.body), c.correlation, c.causation, c.origin)
  }

  function LiftEvent(e: Envelope<Event>): Message {
    Envelope(e.id, Other(e.payload.kind, e.payload.body), e.correlation, e.causation, e.origin)
  }

  predicate IsFaultOf(f: Failure, faults: seq<Envelope<Command>>) {
    f.Execution? && f.phase == "command_handler" && exists c :: c in faults && f.cause == LiftCommand(c)
  }

  predicate IsBudgetOf(f: Failure, budget: Option<P.Budget>) {
    budget.Some? && f == BudgetReached(budget.value.limit, budget.value.attempted, LiftCommand(budget.value.cause))
  }

  /** `f` is how the pump's error looks as an exception; a task group lists its errors in any order. */
  predicate Shows(f: Failure, error: P.Error) {
    match error
    case SupervisorError(group) =>
      && f.Group?
      && (forall i | 0 <= i < |f.nested| :: IsFaultOf(f.nested[i], group.faults) || IsBudgetOf(f.nested[i], group.budget))
      && (group.budget.Some? ==> exists i :: 0 <= i < |f.nested| && IsBudgetOf(f.nested[i], group.budget))
      && (group.faults != [] ==> exists i :: 0 <= i < |f.nested| && IsFaultOf(f.nested[i], group.faults))
    case ReactionError(event) =>
      f.Execution? && f.phase == "event_handler" && f.cause == LiftEvent(event)
    case SupervisorGone => f.Plain?
  }

  lemma {:induction false} FlatLeaves(failures: seq<Failure>)
    requires forall i | 0 <= i < |failures| :: !failures[i].Group?
    ensures AllLeaves(failures) == failures
  {
    if failures != [] {
      assert Leaves(failures[0]) == [failures[0]];
      FlatLeaves(failures[1..]);
    }
  }

  /** A step budget reached is reported as such, even if drains have failed beside it. */
  lemma {:induction false} BudgetIsReported(f: Failure, group: P.Group)
    requires Shows(f, P.SupervisorError(group)) && group.budget.Some?
    ensures ReasonFor(f) == Budget(group.budget.value.limit, group.budget.value.attempted)
  {
    FlatLeaves(f.nested);
    FindErrorIsFirstLeaf(f, WantBudget);
    FirstIsLeaf(f.nested, WantBudget);
  }

  /** Otherwise the fault names the command handler and a command that failed. */
  lemma {:induction false} FaultIsReported(f: Failure, group: P.Group, last: Message)
    requires Shows(f, P.SupervisorError(group)) && group.budget.None? && group.faults != []
    ensures ReasonFor(f).Fault? && ReasonFor(f).fault.phase == "command_handler"
    ensures exists c :: c in group.faults && CauseFor(f, last) == LiftCommand(c)
  {
    FlatLeaves(f.nested);
    FindErrorIsFirstLeaf(f, WantBudget);
    FindErrorIsFirstLeaf(f, WantExecution);
    FirstIsLeaf(f.nested, WantBudget);
    FirstIsLeaf(f.nested, WantExecution);
    var i :| 0 <= i < |f.nested| && IsFaultOf(f.nested[i], group.faults);
    assert Is(f.nested[i], WantExecution);
  }

  /** The reads of a consumer nobody disturbs: the pump's stream, then how it ended. */
  predicate Undisturbed(turns: seq<Turn>, s: P.State) {
    && |turns| == |s.stream| + 1
    && (forall i | 0 <= i < |turns| :: !turns[i].before && turns[i].during.NoRequest?)
    && (forall i | 0 <= i < |s.stream| :: turns[i].read == Item(LiftEvent(s.stream[i])))
    && match s.consumer
       case Finished => turns[|s.stream|].read == Exhausted
       case Raised(_, error) => turns[|s.stream|].read.Raised? && Shows(turns[|s.stream|].read.failure, error)
       case _ => false
  }

  lemma {:induction false} UndisturbedStop(turns: seq<Turn>, s: P.State)
    requires Undisturbed(turns, s)
    ensures var stop := ReadWork(turns, false).stop;
            if s.consumer.Finished? then stop == Ended else stop == Failing(turns[|s.stream|].read.failure)
  {
    var k := ReadsUpTo(turns, false);
    var n := |s.stream|;
    var stop := if s.consumer.Finished? then Ended else Failing(turns[n].read.failure);
    forall j: nat | j < n ensures GoesOn(turns, false, j) {
      assert turns[j].read == Item(LiftEvent(s.stream[j]));
    }
    StopIsUnique(turns, false, k, ReadWork(turns, false).stop, n, stop);
  }

  /**
    End to end: for a run of the pump that has ended, the harness's outcome is completion exactly
    if the root command's expansion is finite, unfailing and within the step budget; otherwise it
    is a failure. The schedule has no say in it.
   */
  lemma {:induction false} OutcomeIsScheduleFree(
    p: P.Program, root: Command, origin: string, correlation: string, actions: seq<P.Action>, t: P.State, env: Environment)
    requires P.Begin(p, root, origin, correlation).Open?
    requires P.Runs(p, P.Begin(p, root, origin, correlation).state, actions, t)
    requires P.Over(t) && Undisturbed(env.turns, t)
    ensures OutcomeFor(ReadWork(env.turns, false).stop).CompletedOutcome? <==> PumpConfluence.Completes(p, root)
    ensures OutcomeFor(ReadWork(env.turns, false).stop).FailedOutcome? <==> !PumpConfluence.Completes(p, root)
  {
    hide P.Runs, P.Begin, PumpConfluence.Completes, Undisturbed, ReadWork;
    PumpTermination.VerdictIsScheduleFree(p, root, origin, correlation, actions, t);
    UndisturbedStop(env.turns, t);
  }

  /**
    When handlers and reactions do not fail, a run over budget is reported as a budget failure with
    the configured limit and the step after it, and nothing else can go wrong.
   */
  lemma {:induction false} OverBudgetOutcome(
    p: P.Program, good: Command -> bool, root: Command, origin: string, correlation: string,
    actions: seq<P.Action>, t: P.State, env: Environment)
    requires PumpBudget.Harmless(p, good) && good(root)
    requires P.Begin(p, root, origin, correlation).Open?
    requires P.Runs(p, P.Begin(p, root, origin, correlation).state, actions, t)
    requires P.Over(t) && Undisturbed(env.turns, t)
    ensures PumpConfluence.Completes(p, root) || p.maxSteps.Some?
    ensures OutcomeFor(ReadWork(env.turns, false).stop) ==
            if PumpConfluence.Completes(p, root) then CompletedOutcome
            else FailedOutcome(Budget(p.maxSteps.value, p.maxSteps.value + 1))
  {
    hide P.Runs, P.Begin, PumpConfluence.Completes, ReadWork, PumpBudget.Harmless, ReasonFor;
    PumpBudget.BudgetVerdict(p, good, root, origin, correlation, actions, t);
    UndisturbedStop(env.turns, t);
    if t.consumer.Raised? {
      BudgetIsReported(env.turns[|t.stream|].read.failure, t.consumer.error.group);
    }
  }

  // ------------------------------------------------------------------ one run's messages

  lemma {:induction false} FaultsAreCommands(drains: seq<P.Drain>, c: Envelope<Command>)
    requires c in P.Faults(drains)
    ensures exists i :: 0 <= i < |drains| && drains[i].command == c
  {
    var n := |drains| - 1;
    if c in P.Faults(drains[..n]) {
      FaultsAreCommands(drains[..n], c);
      var i :| 0 <= i < n && drains[..n][i].command == c;
      assert drains[i].command == c;
    }
  }

  /** A command that was started, or refused by the budget, is of the run. */
  lemma {:induction false} CommandInRun(p: P.Program, root: Envelope<Command>, s: P.State, c: Envelope<Command>)
    requires O.Logged(root, s.made) && O.Known(s) && O.StartedInOrder(s)
    requires c in P.Faults(s.drains) || c in O.Refused(s)
    ensures InRun(LiftCommand(c), root.correlation)
  {
    if c in P.Faults(s.drains) {
      FaultsAreCommands(s.drains, c);
      var i :| 0 <= i < |s.drains| && s.drains[i].command == c;
      assert O.KnownCommand(s.made, c);
    } else {
      assert c in O.MadeCommands(s.made);
      O.LoggedIds(root, s.made);
      O.MadeAreLogged(s.made);
      var i :| 0 <= i < |O.MadeCommands(s.made)| && O.MadeCommands(s.made)[i] == c;
      assert O.KnownCommand(s.made, c);
    }
  }

  lemma {:induction false} EventInRun(root: Envelope<Command>, s: P.State, i: nat)
    requires O.Logged(root, s.made) && O.Known(s) && i < |O.Flow(s)|
    ensures InRun(LiftEvent(O.Flow(s)[i]), root.correlation)
  {
    assert O.KnownEvent(s.made, O.Flow(s)[i]);
  }

  /** The exceptions shown for the pump's error name messages of the run. */
  lemma {:induction false} ErrorInRun(p: P.Program, root: Envelope<Command>, s: P.State, f: Failure)
    requires O.Logged(root, s.made) && O.Known(s) && O.StartedInOrder(s)
    requires PumpProgress.Concluded(p, s) && PumpProgress.Staged(p, s) && s.consumer.Raised? && Shows(f, s.consumer.error)
    ensures FailureInRun(f, root.correlation)
  {
    hide O.Logged, O.Known, O.StartedInOrder;
    match s.consumer.error {
      case SupervisorError(group) =>
        FlatLeaves(f.nested);
        forall i | 0 <= i < |f.nested| ensures InRun(f.nested[i].cause, root.correlation) {
          if IsFaultOf(f.nested[i], group.faults) {
            var c :| c in group.faults && f.nested[i].cause == LiftCommand(c);
            CommandInRun(p, root, s, c);
          } else {
            CommandInRun(p, root, s, group.budget.value.cause);
          }
        }
      case ReactionError(event) =>
        assert O.Flow(s)[|s.stream|] == event;
        EventInRun(root, s, |s.stream|);
      case SupervisorGone =>
    }
  }

  /** Everything the harness hands out over the pump carries the run's correlation id. */
  lemma {:induction false} TraceIsOneRun(
    p: P.Program, root: Command, origin: string, correlation: string, actions: seq<P.Action>, t: P.State, env: Environment,
    first: nat, command: Payload)
    requires P.Begin(p, root, origin, correlation).Open?
    requires P.Runs(p, P.Begin(p, root, origin, correlation).state, actions, t)
    requires Undisturbed(env.turns, t)
    ensures var r := Tell(first, command, origin, correlation, env);
            forall i | 0 <= i < |r.trace| :: InRun(r.trace[i].envelope, correlation)
  {
    hide P.Runs, P.Begin, Tell, O.Logged, O.Known, O.StartedInOrder;
    hide O.Reacted, O.EmittedInOrder, O.CausesFirst, PumpConfluence.Scripted, FailureInRun, Shows;
    var c, n := P.RootOf(root, origin, correlation), |t.stream|;
    O.ReachableIsOrdered(p, root, origin, correlation, actions, t);
    forall i | 0 <= i < |env.turns| ensures TurnInRun(env.turns[i], correlation) {
      if i < n {
        assert O.Flow(t)[i] == t.stream[i];
        EventInRun(c, t, i);
        assert env.turns[i].read == Item(LiftEvent(t.stream[i]));
      } else if t.consumer.Raised? {
        ErrorInRun(p, c, t, env.turns[n].read.failure);
      }
    }
    TraceStaysInRun(first, command, origin, correlation, env);
  }
}
