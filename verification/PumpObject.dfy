/**
  The pump as an object over its buses and scheduler. Each method is the code one task runs
  between two suspension points, in place, and performs exactly the protocol's action.
 */
module PumpObject {
  import opened Messages
  import opened Buses
  import opened Pump
  import opened PumpAdmission
  import opened PumpCounters
  import opened PumpProgress
  import opened PumpExpansion
  import opened PumpConfluence
  import opened PumpMeasure
  import opened PumpTermination
  import opened PumpBudget
  import S = Scheduler

  lemma {:induction false} FinishedTally(p: Program, root: Command, s: State)
    requires Inv(p, s) && Accounted(p, root, s) && s.consumer.Finished?
    ensures Done(s) == Expand(p, root)
  {
    hide Expand, Total, Done, S.Sound, Matched, Counted, Fenced, Scripted;
    FinishedWork(p, s);
    DoneIsFinite(s);
  }

  /** The event loop: at any turn, in any state in which the run can go on, some step it can take. */
  ghost predicate Picks(p: Program, pick: (nat, State) -> Action) {
    forall turn, s | CanGoOn(p, s) :: Enabled(p, s, pick(turn, s)) && IsOwn(pick(turn, s))
  }

  ghost predicate CanGoOn(p: Program, s: State) {
    exists a :: Enabled(p, s, a) && IsOwn(a)
  }

  /** What every turn keeps. */
  ghost predicate Kept(p: Program, root: Command, s: State) {
    && Inv(p, s) && Accounted(p, root, s)
    && Alone(s.drains, s.scheduler)
    && (Completes(p, root) ==> !GivenUp(s))
  }

  lemma {:induction false} BeginsWell(p: Program, root: Command, origin: string, correlation: string)
    requires Begin(p, root, origin, correlation).Open? && S.Idle(p.found)
    ensures Kept(p, root, Begin(p, root, origin, correlation).state)
    ensures Begin(p, root, origin, correlation).state.made != []
  {
    InvAtBeginning(p, root, origin, correlation);
    AccountedAtBeginning(p, root, origin, correlation);
  }

  lemma {:induction false} BeginsInReach(p: Program, root: Command, origin: string, correlation: string, fuel: nat)
    requires Begin(p, root, origin, correlation).Open? && Reach(p, root, fuel).Some?
    ensures InReach(p, fuel, Begin(p, root, origin, correlation).state)
  {
  }

  lemma {:induction false} PickKeeps(p: Program, root: Command, s: State, pick: (nat, State) -> Action, turn: nat)
    requires Kept(p, root, s) && !Over(s) && Picks(p, pick)
    ensures Enabled(p, s, pick(turn, s)) && IsOwn(pick(turn, s)) && S.Sound(s.scheduler)
    ensures Kept(p, root, Apply(p, s, pick(turn, s)))
  {
    hide Accounted, Completes, GivenUp, Alone, Enabled, S.Sound, Counted, Fenced, Staged, Concluded, Apply, Matched;
    var some := Progress(p, s);
    assert CanGoOn(p, s) by {
      assert Enabled(p, s, some) && IsOwn(some);
    }
    var a := pick(turn, s);
    InvStep(p, s, a);
    AccountedStep(p, root, s, a);
    OwnedStep(p, s, a);
    if Completes(p, root) {
      NeverGivenUp(p, root, s, a);
    }
  }

  lemma {:induction false} EndingIsVerdict(p: Program, root: Command, s: State)
    requires Kept(p, root, s) && Over(s)
    ensures s.consumer.Finished? <==> Completes(p, root)
    ensures s.consumer.Finished? ==> Done(s) == Expand(p, root)
  {
    hide Expand, Total, Done, S.Sound, Matched, Counted, Fenced, Scripted, Accounted;
    if s.consumer.Finished? {
      FinishedTally(p, root, s);
      FinishedWork(p, s);
      DoneIsFinite(s);
    }
  }

  lemma {:induction false} DoneIsFinite(s: State)
    ensures Done(s).finite
  {
  }

  class RuntimePump {
    const eventBus: InMemoryEventBus
    const commandBus: InMemoryCommandBus
    const scheduler: S.CapabilityScheduler
    const inboxSize: nat
    const maxSteps: Option<nat>
    const found: SharedQueue

    var inbox: seq<Envelope<Event>>
    var control: seq<Control>
    var activeTasks: int
    var pendingEvents: int
    var steps: nat
    var supervisor: Supervisor
    var drains: seq<Drain>
    var consumer: Consumer
    var stream: seq<Envelope<Event>>
    var made: seq<Record>

    function Setting(): Program
      reads commandBus, eventBus
    {
      Program(commandBus.bindings, eventBus.subscriptions, inboxSize, maxSteps, found)
    }

    function View(): State
      reads this, scheduler
    {
      State(inbox, control, activeTasks, pendingEvents, steps, supervisor, drains, consumer, stream, made, scheduler.View())
    }

    ghost predicate Can(a: Action)
      reads this, scheduler, commandBus, eventBus
    {
      Enabled(Setting(), View(), a) && S.Sound(scheduler.View())
    }

    /** `run_envelope`, called with a runnable configuration. */
    constructor (eventBus: InMemoryEventBus, commandBus: InMemoryCommandBus, scheduler: S.CapabilityScheduler,
                 inboxSize: nat, maxSteps: Option<nat>, command: Command, origin: string, correlation: string)
      requires S.Sound(scheduler.View())
      requires Runnable(Program(commandBus.bindings, eventBus.subscriptions, inboxSize, maxSteps, scheduler.View()))
      ensures this.eventBus == eventBus && this.commandBus == commandBus && this.scheduler == scheduler
      ensures this.inboxSize == inboxSize && this.maxSteps == maxSteps && found == scheduler.View()
      ensures Open(View()) == Begin(Setting(), command, origin, correlation)
    {
      this.eventBus, this.commandBus, this.scheduler := eventBus, commandBus, scheduler;
      this.inboxSize, this.maxSteps, found := inboxSize, maxSteps, scheduler.View();
      inbox, control, stream, drains := [], [], [], [];
      activeTasks, pendingEvents, steps := 0, 0, 0;
      supervisor, consumer := Starting, Reading;
      made := [CommandMade(Create<Command, Event>(0, correlation, command, origin, None))];
    }

    // ------------------------------------------------------------- supervisor

    /** Count the step or refuse it, then create the drain's task. */
    method Start(envelope: Envelope<Command>)
      modifies this
      ensures View() == StartDrain(Setting(), old(View()), envelope)
    {
      var attempted := steps + 1;
      if maxSteps.Some? && attempted > maxSteps.value {
        supervisor := Aborting(Some(Budget(maxSteps.value, attempted, envelope)));
        return;
      }
      steps := attempted;
      activeTasks := activeTasks + 1;
      drains := drains + [Drain(envelope, Created)];
    }

    method StartFirst()
      requires Can(StartRoot)
      modifies this
      ensures View() == Apply(Setting(), old(View()), StartRoot)
    {
      supervisor := Serving;
      Start(made[0].command);
    }

    /** One turn of the supervisor's loop. */
    method ProcessControl()
      requires Can(Receive)
      modifies this
      ensures View() == Apply(Setting(), old(View()), Receive)
    {
      var message := control[0];
      control := control[1..];
      match message {
        case StartCommand(envelope) => Start(envelope);
        case EventAcknowledged => pendingEvents := pendingEvents - 1;
        case DrainFinished => activeTasks := activeTasks - 1;
      }
      if supervisor.Serving? && activeTasks == 0 && pendingEvents == 0 && control == [] {
        supervisor := Leaving;
      }
    }

    method ChildFailed(child: nat)
      requires Can(NoteFailure(child))
      modifies this
      ensures View() == Apply(Setting(), old(View()), NoteFailure(child))
    {
      supervisor := Aborting(None);
    }

    method LeaveGroup()
      requires Can(ExitGroup)
      modifies this
      ensures View() == Apply(Setting(), old(View()), ExitGroup)
    {
      var faults := [];
      var i := 0;
      while i < |drains|
        invariant i <= |drains| && faults == Faults(drains[..i])
        invariant View() == old(View())
      {
        assert drains[..i + 1][..i] == drains[..i];
        if drains[i].phase == Ended(true) {
          faults := faults + [drains[i].command];
        }
        i := i + 1;
      }
      assert drains[..i] == drains;
      var budget := if supervisor.Aborting? then supervisor.budget else None;
      supervisor := Stopped(if budget.None? && faults == [] then None else Some(Group(budget, faults)));
    }

    // ----------------------------------------------------------------- drains

    method SetPhase(i: nat, phase: Phase)
      requires i < |drains|
      modifies this`drains
      ensures drains == old(drains)[i := old(drains)[i].(phase := phase)]
    {
      drains := drains[i := drains[i].(phase := phase)];
    }

    /** Dispatch the command and queue for admission. */
    method AskAdmission(i: nat)
      requires Can(ByDrain(i, Ask))
      modifies this, scheduler
      ensures View() == Apply(Setting(), old(View()), ByDrain(i, Ask))
      ensures drains[i].phase.Admitting? ==>
                exists claims ::
                  && PlannedAs(commandBus.bindings, drains[i].command.payload, claims)
                  && old(S.WellFormed(scheduler.View())) && scheduler.View() == S.Arrive(old(scheduler.View()), claims)
    {
      var dispatched := commandBus.DispatchCommand(drains[i].command.payload);
      match dispatched {
        case Refused => SetPhase(i, Finishing(true));
        case Stream(claims, _) =>
          var ticket := scheduler.Admit(claims);
          SetPhase(i, Admitting(ticket));
      }
    }

    method EnterHandler(i: nat)
      requires Can(ByDrain(i, Enter))
      modifies this
      ensures View() == Apply(Setting(), old(View()), ByDrain(i, Enter))
    {
      SetPhase(i, Handling(drains[i].phase.ticket, 0));
    }

    /** The handler yields: make the envelope and count the event before putting it. */
    method EmitEvent(i: nat)
      requires Can(ByDrain(i, Emit))
      modifies this
      ensures View() == Apply(Setting(), old(View()), ByDrain(i, Emit))
    {
      var d := drains[i];
      var script := ScriptOf(Setting(), d.command.payload);
      var event := Create(|made|, "", script.events[d.phase.sent], d.command.origin, Some(d.command));
      made := made + [EventMade(event)];
      pendingEvents := pendingEvents + 1;
      SetPhase(i, Putting(d.phase.ticket, d.phase.sent, event));
    }

    method PutEvent(i: nat)
      requires Can(ByDrain(i, Put))
      modifies this
      ensures View() == Apply(Setting(), old(View()), ByDrain(i, Put))
    {
      var phase := drains[i].phase;
      inbox := inbox + [phase.event];
      SetPhase(i, Handling(phase.ticket, phase.sent + 1));
    }

    /** The handler's stream ends, one way or another, and its admission is given up. */
    method FinishHandler(i: nat)
      requires Can(ByDrain(i, Finish))
      modifies this, scheduler
      ensures View() == Apply(Setting(), old(View()), ByDrain(i, Finish))
      // a handler that cancels itself has not failed
      ensures forall claims | PlannedAs(commandBus.bindings, drains[i].command.payload, claims) ::
                var command := drains[i].command.payload;
                drains[i].phase == Finishing(commandBus.bindings[command.kind].handler(command).ending.Raises?)
    {
      var d := drains[i];
      ScriptIsHandlers(Setting(), d.command.payload);
      scheduler.Release(d.phase.ticket);
      SetPhase(i, Finishing(ScriptOf(Setting(), d.command.payload).ending.Raises?));
    }

    method ReportFinished(i: nat)
      requires Can(ByDrain(i, Report))
      modifies this
      ensures View() == Apply(Setting(), old(View()), ByDrain(i, Report))
    {
      control := control + [DrainFinished];
      SetPhase(i, Ended(drains[i].phase.failed));
    }

    /** Cancelled by its task group, wherever it is; there is no report then. */
    method CancelDrain(i: nat)
      requires Can(ByDrain(i, Drop))
      modifies this, scheduler
      ensures View() == Apply(Setting(), old(View()), ByDrain(i, Drop))
    {
      var phase := drains[i].phase;
      var held := None;
      if phase.Admitting? {
        scheduler.Cancel(phase.ticket);
        scheduler.Release(phase.ticket);
      } else if phase.Handling? {
        scheduler.Release(phase.ticket);
      } else if phase.Putting? {
        pendingEvents := pendingEvents - 1;
        held := Some(phase.ticket);
      }
      SetPhase(i, Cancelled(held));
    }

    method FinaliseStream(i: nat)
      requires Can(ByDrain(i, Release))
      modifies this, scheduler
      ensures View() == Apply(Setting(), old(View()), ByDrain(i, Release))
    {
      scheduler.Release(drains[i].phase.held.value);
      SetPhase(i, Cancelled(None));
    }

    method MoveOn(i: nat, move: Move)
      requires Can(ByDrain(i, move))
      modifies this, scheduler
      ensures View() == Apply(Setting(), old(View()), ByDrain(i, move))
    {
      match move {
        case Ask => AskAdmission(i);
        case Enter => EnterHandler(i);
        case Emit => EmitEvent(i);
        case Put => PutEvent(i);
        case Finish => FinishHandler(i);
        case Report => ReportFinished(i);
        case Drop => CancelDrain(i);
        case Release => FinaliseStream(i);
      }
    }

    // --------------------------------------------------------------- consumer

    method NextEvent()
      requires Can(TakeEvent)
      modifies this
      ensures View() == Apply(Setting(), old(View()), TakeEvent)
    {
      consumer := Holding(inbox[0]);
      inbox := inbox[1..];
    }

    method React()
      requires Can(PublishEvent)
      modifies this
      ensures View() == Apply(Setting(), old(View()), PublishEvent)
    {
      var event := consumer.event;
      var reaction := eventBus.PublishEvent(event.payload);
      match reaction {
        case Fails => consumer := Raised(Some(event), ReactionError(event));
        case Commands(commands) => consumer := Sending(event, commands);
      }
    }

    method SendNext()
      requires Can(SendControl)
      modifies this
      ensures View() == Apply(Setting(), old(View()), SendControl)
    {
      var event, rest := consumer.event, consumer.rest;
      if rest == [] {
        control := control + [EventAcknowledged];
        consumer := Yielding(event);
      } else {
        var child := Create(|made|, "", rest[0], event.origin, Some(event));
        made := made + [CommandMade(child)];
        control := control + [StartCommand(child)];
        consumer := Sending(event, rest[1..]);
      }
    }

    method YieldNext()
      requires Can(YieldEvent)
      modifies this
      ensures View() == Apply(Setting(), old(View()), YieldEvent)
    {
      stream := stream + [consumer.event];
      consumer := Reading;
    }

    /** The supervisor is done: raise its error, or end the stream. */
    method End()
      requires Can(SeeStopped)
      modifies this
      ensures View() == Apply(Setting(), old(View()), SeeStopped)
    {
      if supervisor.error.Some? {
        consumer := Raised(if consumer.Sending? then Some(consumer.event) else None, SupervisorError(supervisor.error.value));
      } else if consumer.Reading? {
        consumer := Finished;
      } else {
        consumer := Raised(Some(consumer.event), SupervisorGone);
      }
    }

    // ------------------------------------------------------------------- runs

    method Perform(a: Action)
      requires Can(a)
      modifies this, scheduler
      ensures View() == Apply(Setting(), old(View()), a)
    {
      match a {
        case StartRoot => StartFirst();
        case Receive => ProcessControl();
        case NoteFailure(child) => ChildFailed(child);
        case ExitGroup => LeaveGroup();
        case ByDrain(i, move) => MoveOn(i, move);
        case TakeEvent => NextEvent();
        case PublishEvent => React();
        case SendControl => SendNext();
        case YieldEvent => YieldNext();
        case SeeStopped => End();
        case OthersArrive(claims) =>
          var ticket := scheduler.Admit(claims);
        case OthersLeave(ticket) =>
          scheduler.Cancel(ticket);
          scheduler.Release(ticket);
      }
    }

    /**
      Total correctness: undisturbed by other runs, a root command of finite reach is run to its end
      whatever enabled action is picked at each turn. It ends normally exactly if the walk of that
      reach succeeds, and then with the events and commands of the expansion.
     */
    method RunToEnd(pick: (nat, State) -> Action, ghost root: Command, ghost origin: string, ghost correlation: string,
                    ghost fuel: nat)
      requires Open(View()) == Begin(Setting(), root, origin, correlation)
      requires S.Idle(scheduler.View()) && Picks(Setting(), pick)
      requires Reach(Setting(), root, fuel).Some?
      modifies this, scheduler
      ensures consumer.Finished? || consumer.Raised?
      ensures consumer.Finished? <==> WalkSucceeds(Setting(), root, fuel)
      ensures consumer.Finished? ==>
                Tally(true, multiset(Payloads(stream)), multiset(Started(drains))) == Expand(Setting(), root)
    {
      hide Completes, Expand, S.Sound, Accounted, GivenUp, Enabled, StepsLeft, InReach, WalkSucceeds, Alone, S.Idle;
      ghost var p, w := Setting(), ReachWeights(Setting(), fuel);
      BeginsWell(p, root, origin, correlation);
      BeginsInReach(p, root, origin, correlation, fuel);
      var turn := 0;
      while !Over(View())
        invariant Setting() == p && InReach(p, fuel, View())
        invariant Kept(p, root, View())
        decreases StepsLeft(p, w, View())
      {
        ghost var s := View();
        var a := pick(turn, View());
        PickKeeps(p, root, s, pick, turn);
        ReachingStep(p, fuel, s, a);
        InReachStep(p, fuel, s, a);
        ReachIsWeighty(p, fuel);
        StepsLeftNotNegative(p, w, Apply(p, s, a));
        Perform(a);
        turn := turn + 1;
      }
      EndingIsVerdict(p, root, View());
      CompletesIfWalkSucceeds(p, root, fuel);
    }

    /** With a step budget any undisturbed run ends, normally exactly if the expansion completes. */
    method RunWithBudget(pick: (nat, State) -> Action, ghost root: Command, ghost origin: string, ghost correlation: string)
      requires Open(View()) == Begin(Setting(), root, origin, correlation)
      requires S.Idle(scheduler.View()) && Picks(Setting(), pick)
      requires maxSteps.Some?
      modifies this, scheduler
      ensures consumer.Finished? || consumer.Raised?
      ensures consumer.Finished? <==> Completes(Setting(), root)
      ensures steps <= maxSteps.value
    {
      hide Completes, Expand, S.Sound, Accounted, GivenUp, Enabled, StepsLeft, Alone, S.Idle, OwnWeights, Weighty;
      ghost var p, w := Setting(), OwnWeights(Setting());
      BeginsWell(p, root, origin, correlation);
      OwnWeightsCover(p, Event("", ""));
      var turn := 0;
      while !Over(View())
        invariant Setting() == p && made != [] && steps <= maxSteps.value
        invariant Kept(p, root, View())
        decreases maxSteps.value - steps, StepsLeft(p, w, View())
      {
        ghost var s := View();
        var a := pick(turn, View());
        PickKeeps(p, root, s, pick, turn);
        BudgetedStep(p, s, a);
        StepsLeftNotNegative(p, w, Apply(p, s, a));
        StepsLeftNotNegative(p, w, s);
        Perform(a);
        turn := turn + 1;
      }
      EndingIsVerdict(p, root, View());
    }
  }

  /** Sizes and budgets below one are rejected before anything is created. */
  method RunEnvelope(eventBus: InMemoryEventBus, commandBus: InMemoryCommandBus, scheduler: S.CapabilityScheduler,
                     inboxSize: nat, maxSteps: Option<nat>, command: Command, origin: string, correlation: string)
    returns (pump: Option<RuntimePump>)
    requires S.Sound(scheduler.View())
    ensures pump.None? <==> inboxSize < 1 || (maxSteps.Some? && maxSteps.value < 1)
    ensures var p := Program(commandBus.bindings, eventBus.subscriptions, inboxSize, maxSteps, scheduler.View());
            match pump
            case None => Begin(p, command, origin, correlation) == Rejected
            case Some(run) => fresh(run) && run.Setting() == p && Open(run.View()) == Begin(p, command, origin, correlation)
  {
    if inboxSize < 1 || (maxSteps.Some? && maxSteps.value < 1) {
      return None;
    }
    var run := new RuntimePump(eventBus, commandBus, scheduler, inboxSize, maxSteps, command, origin, correlation);
    return Some(run);
  }
}
