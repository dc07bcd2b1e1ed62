/**
  What every reachable state of the pump satisfies, and what follows: the supervisor stops
  cleanly only when the work is done and nothing failed, and no state before the end is stuck.
 */
module PumpProgress {
  import opened Messages
  import opened Buses
  import opened Pump
  import opened PumpCounters
  import opened PumpAdmission
  import S = Scheduler

  // -------------------------------------------------------------- the invariant

  predicate Failed(d: Drain) {
    d.phase == Ended(true)
  }

  predicate NoFaults(s: State) {
    forall i | 0 <= i < |s.drains| :: !Failed(s.drains[i])
  }

  predicate NoneCancelled(s: State) {
    forall i | 0 <= i < |s.drains| :: !s.drains[i].phase.Cancelled?
  }

  /** A budget error names the configured limit and the first step beyond it. */
  predicate HonestBudget(p: Program, budget: Option<Budget>) {
    budget.Some? ==> p.maxSteps == Some(budget.value.limit) && budget.value.attempted == budget.value.limit + 1
  }

  /** What the supervisor's progress says about the rest. */
  predicate Staged(p: Program, s: State) {
    match s.supervisor
    case Starting => s.drains == [] && s.control == [] && s.inbox == [] && s.consumer == Reading && s.stream == []
                     && s.made != [] && s.made[0].CommandMade?
    case Serving => !Idle(s) && s.drains != [] && NoneCancelled(s)
    case Leaving => Idle(s) && s.drains != []
    case Aborting(budget) => HonestBudget(p, budget) && (budget.Some? || !NoFaults(s))
    case Stopped(None) => Idle(s) && NoFaults(s) && s.drains != []
    case Stopped(Some(group)) =>
      && HonestBudget(p, group.budget)
      && (group.budget.Some? || group.faults != [])
      && group.faults == Faults(s.drains)
      && AllSettled(s)
  }

  predicate AllSettled(s: State) {
    forall i | 0 <= i < |s.drains| :: Settled(s.drains[i])
  }

  /** How the stream can have ended. */
  predicate Concluded(p: Program, s: State) {
    && (s.consumer.Finished? ==> s.supervisor == Stopped(None))
    && (s.consumer.Raised? ==>
          match s.consumer.error
          case SupervisorError(group) => s.supervisor == Stopped(Some(group))
          case ReactionError(event) => s.consumer.held == Some(event) && Publish(p.subscriptions, event.payload).Fails?
          case SupervisorGone => false)
  }

  ghost predicate Inv(p: Program, s: State) {
    && Runnable(p)
    && Owned(s)
    && Counted(s) && Fenced(s)
    && s.steps == |s.drains|
    && (p.maxSteps.Some? ==> s.steps <= p.maxSteps.value)
    && Staged(p, s)
    && Concluded(p, s)
  }

  lemma {:induction false} InvAtBeginning(p: Program, command: Command, origin: string, correlation: string)
    requires Begin(p, command, origin, correlation).Open?
    ensures Inv(p, Begin(p, command, origin, correlation).state)
  {
  }

  // ------------------------------------------------------------------ preservation

  lemma {:induction false} FaultsAreFailures(drains: seq<Drain>)
    ensures Faults(drains) == [] <==> forall i | 0 <= i < |drains| :: !Failed(drains[i])
  {
    if drains != [] {
      FaultsAreFailures(drains[..|drains| - 1]);
      assert forall i | 0 <= i < |drains| - 1 :: drains[..|drains| - 1][i] == drains[i];
    }
  }

  /** The faults are the commands of the drains that failed, each once. */
  lemma {:induction false} FaultsExactly(drains: seq<Drain>)
    ensures forall c :: c in Faults(drains) <==> exists i :: 0 <= i < |drains| && Failed(drains[i]) && drains[i].command == c
    ensures |Faults(drains)| == Count(Failed, drains)
  {
    if drains != [] {
      var n := |drains| - 1;
      FaultsExactly(drains[..n]);
      forall c ensures c in Faults(drains) <==> exists i :: 0 <= i < |drains| && Failed(drains[i]) && drains[i].command == c {
        if c in Faults(drains[..n]) {
          var i :| 0 <= i < n && Failed(drains[..n][i]) && drains[..n][i].command == c;
          assert Failed(drains[i]) && drains[i].command == c;
        }
        if i :| 0 <= i < n && Failed(drains[i]) && drains[i].command == c {
          assert drains[..n][i] == drains[i];
        }
      }
    }
  }

  /** In a quiet state no drain moves and the consumer has nothing to publish or send. */
  lemma {:induction false} IdleStays(p: Program, s: State, a: Action)
    requires Counted(s) && Fenced(s) && Idle(s)
    requires Enabled(p, s, a) && (s.supervisor.Leaving? || s.supervisor.Stopped?)
    ensures a.ExitGroup? || a.YieldEvent? || a.SeeStopped? || Foreign(a)
    ensures a.SeeStopped? ==> s.consumer.Reading?
  {
    hide Count;
    ZeroIsQuiet(s);
  }

  lemma {:induction false} StagedStep(p: Program, s: State, a: Action)
    requires Inv(p, s) && Enabled(p, s, a)
    ensures Staged(p, Apply(p, s, a)) && Concluded(p, Apply(p, s, a))
  {
    hide S.Sound, Matched, Count, Fenced, Faults;
    var r := Apply(p, s, a);
    if a.ExitGroup? {
      FaultsAreFailures(s.drains);
    } else if s.supervisor.Leaving? || s.supervisor == Stopped(None) {
      IdleStays(p, s, a);
    } else if a.Receive? || a.StartRoot? || a.NoteFailure? {
      StagedBySupervisor(p, s, a);
    } else if s.supervisor.Serving? {
      assert !Idle(r) && r.drains != [];
    } else if s.supervisor.Aborting? || s.supervisor.Stopped? {
      assert r.supervisor == s.supervisor;
      StagedAfterAbort(p, s, a);
    }
  }

  lemma {:induction false} StagedBySupervisor(p: Program, s: State, a: Action)
    requires Inv(p, s) && Enabled(p, s, a) && (a.Receive? || a.StartRoot? || a.NoteFailure?)
    ensures Staged(p, Apply(p, s, a)) && Concluded(p, Apply(p, s, a))
  {
    hide S.Sound, Matched, Count, Fenced;
  }

  /** A group that is being cancelled or is gone keeps the failures it has seen. */
  lemma {:induction false} StagedAfterAbort(p: Program, s: State, a: Action)
    requires Inv(p, s) && Enabled(p, s, a)
    requires s.supervisor.Aborting? || (s.supervisor.Stopped? && s.supervisor.error.Some?)
    requires !a.ExitGroup?
    ensures Staged(p, Apply(p, s, a)) && Concluded(p, Apply(p, s, a))
  {
    hide S.Sound, Matched, Count, Fenced, Counted, Faults, Others, Idle, HonestBudget;
    var r := Apply(p, s, a);
    if a.ByDrain? {
      FaultsStay(p, s, a.drain, a.move);
    } else {
      assert r.drains == s.drains && r.supervisor == s.supervisor by {
        GroupIsDone(p, s, a);
      }
    }
  }

  /** A supervisor that no longer serves starts nothing. */
  lemma {:induction false} GroupIsDone(p: Program, s: State, a: Action)
    requires Enabled(p, s, a) && S.Sound(s.scheduler) && (s.supervisor.Aborting? || s.supervisor.Stopped?)
    requires !a.ExitGroup? && !a.ByDrain?
    ensures Apply(p, s, a).drains == s.drains && Apply(p, s, a).supervisor == s.supervisor
  {
    hide S.Sound, Others;
  }

  lemma {:induction false} FaultsStay(p: Program, s: State, i: nat, move: Move)
    requires Enabled(p, s, ByDrain(i, move)) && S.Sound(s.scheduler)
    requires s.supervisor.Aborting? || s.supervisor.Stopped?
    ensures var r := MoveDrain(p, s, i, move);
            && Faults(r.drains) == Faults(s.drains)
            && (NoFaults(r) <==> NoFaults(s))
            && (AllSettled(s) ==> AllSettled(r))
            && r.supervisor == s.supervisor && r.consumer == s.consumer
  {
    hide S.Sound, Faults;
    var r := MoveDrain(p, s, i, move);
    assert forall j | 0 <= j < |s.drains| :: Failed(r.drains[j]) == Failed(s.drains[j]) && r.drains[j].command == s.drains[j].command;
    SettledFaultsStay(s.drains, r.drains);
  }

  lemma {:induction false} SettledFaultsStay(before: seq<Drain>, after: seq<Drain>)
    requires |before| == |after|
    requires forall i | 0 <= i < |before| :: before[i].command == after[i].command && Failed(before[i]) == Failed(after[i])
    ensures Faults(before) == Faults(after)
  {
    if before != [] {
      var n := |before| - 1;
      assert forall i | 0 <= i < n :: before[..n][i] == before[i] && after[..n][i] == after[i];
      SettledFaultsStay(before[..n], after[..n]);
    }
  }

  lemma {:induction false} InvStep(p: Program, s: State, a: Action)
    requires Inv(p, s) && Enabled(p, s, a)
    ensures Inv(p, Apply(p, s, a))
  {
    hide Matched, S.Sound, Counted, Fenced, Staged, Concluded;
    OwnedStep(p, s, a);
    CountedStep(p, s, a);
    FencedStep(p, s, a);
    StagedStep(p, s, a);
    StepsStep(p, s, a);
  }

  lemma {:induction false} StepsStep(p: Program, s: State, a: Action)
    requires s.steps == |s.drains| && (p.maxSteps.Some? ==> s.steps <= p.maxSteps.value)
    requires Enabled(p, s, a) && S.Sound(s.scheduler)
    ensures var r := Apply(p, s, a);
            r.steps == |r.drains| && (p.maxSteps.Some? ==> r.steps <= p.maxSteps.value)
  {
    hide S.Sound;
  }

  // --------------------------------------------------------------- deadlock freedom

  /**
    With the control queue empty and the consumer waiting for events, an unreported drain can move,
    or one it waits for; or another run's ticket that it waits for can leave.
   */
  lemma {:induction false} SomeDrainMoves(p: Program, s: State, i: nat) returns (a: Action)
    requires Inv(p, s) && s.supervisor.Serving? && s.control == [] && s.inbox == [] && s.consumer.Reading?
    requires i < |s.drains| && !Settled(s.drains[i])
    ensures Enabled(p, s, a) && Moving(s, a)
  {
    hide S.Sound, Count, Fenced, Counted, S.Present, S.IsActive;
    var j := i;
    if s.drains[i].phase.Admitting? {
      var ticket := s.drains[i].phase.ticket;
      assert Holder(s.drains, i, ticket);
      var active := SomeoneIsAdmitted(s, i, ticket);
      if k: nat :| Holder(s.drains, k, active) {
        j := k;
      } else {
        return OthersLeave(active);
      }
      if s.drains[j].phase.Admitting? {
        GrantedIsActive(s, j);
      }
    }
    a := ByDrain(j, MoveOf(p, s, j));
  }

  /** A step of this run, or the leaving of another run's admitted ticket; never that if there is none. */
  ghost predicate Moving(s: State, a: Action) {
    && !a.OthersArrive?
    && (a.OthersLeave? ==> S.IsActive(s.scheduler, a.ticket) && !Alone(s.drains, s.scheduler))
  }

  /** The one move a drain's phase leaves it. */
  function MoveOf(p: Program, s: State, j: nat): Move
    requires j < |s.drains|
  {
    match s.drains[j].phase
    case Created => Ask
    case Admitting(_) => Enter
    case Handling(_, sent) => if sent < |ScriptOf(p, s.drains[j].command.payload).events| then Emit else Finish
    case Putting(_, _, _) => Put
    case Cancelled(_) => Release
    case _ => Report
  }

  lemma {:induction false} ServingProgress(p: Program, s: State) returns (a: Action)
    requires Inv(p, s) && s.supervisor.Serving? && !Over(s)
    ensures Enabled(p, s, a) && Moving(s, a)
  {
    hide S.Sound, Count, Matched;
    if s.control != [] {
      return Receive;
    }
    match s.consumer {
      case Sending(_, _) => return SendControl;
      case Holding(_) => return PublishEvent;
      case Yielding(_) => return YieldEvent;
      case Reading =>
        if s.inbox != [] {
          return TakeEvent;
        }
        ZeroIsQuiet(s);
        var i: nat :| i < |s.drains| && !s.drains[i].phase.Ended?;
        a := SomeDrainMoves(p, s, i);
    }
  }

  /**
    Deadlock freedom, for every inbox size the pump accepts: in every reachable state before the
    end of the stream somebody can take a step, whatever is blocked on queues or on admission.
   */
  lemma {:induction false} Progress(p: Program, s: State) returns (a: Action)
    requires Inv(p, s) && !Over(s)
    ensures Enabled(p, s, a) && Moving(s, a)
  {
    hide S.Sound, Matched, Count;
    match s.supervisor {
      case Starting => a := StartRoot;
      case Serving => a := ServingProgress(p, s);
      case Leaving =>
        ZeroIsQuiet(s);
        a := ExitGroup;
      case Aborting(_) =>
        if i: nat :| i < |s.drains| && !Settled(s.drains[i]) {
          if s.drains[i].phase.Admitting? {
            GrantedIsActive(s, i);
          }
          a := ByDrain(i, Drop);
        } else {
          a := ExitGroup;
        }
      case Stopped(_) =>
        a := match s.consumer
             case Holding(_) => PublishEvent
             case Yielding(_) => YieldEvent
             case Sending(_, _) => if |s.control| < p.inboxSize then SendControl else SeeStopped
             case _ => if s.inbox != [] then TakeEvent else SeeStopped;
    }
  }

  // ------------------------------------------------------------------------- runs

  lemma {:induction false} InvAlong(p: Program, s: State, actions: seq<Action>, t: State)
    requires Inv(p, s) && Runs(p, s, actions, t)
    ensures Inv(p, t)
    decreases |actions|
  {
    hide Inv;
    if actions != [] {
      InvStep(p, s, actions[0]);
      InvAlong(p, Apply(p, s, actions[0]), actions[1..], t);
    }
  }

  predicate QueuesFit(p: Program, s: State) {
    |s.inbox| <= p.inboxSize && |s.control| <= p.inboxSize
  }

  /** Both queues stay within the configured size. */
  lemma {:induction false} QueuesStayBounded(p: Program, s: State, actions: seq<Action>, t: State)
    requires QueuesFit(p, s) && Runs(p, s, actions, t)
    ensures QueuesFit(p, t)
    decreases |actions|
  {
    if actions != [] {
      QueuesFitStep(p, s, actions[0]);
      QueuesStayBounded(p, Apply(p, s, actions[0]), actions[1..], t);
    }
  }

  lemma {:induction false} QueuesFitStep(p: Program, s: State, a: Action)
    requires QueuesFit(p, s) && Enabled(p, s, a) && S.Sound(s.scheduler)
    ensures QueuesFit(p, Apply(p, s, a))
  {
    hide S.Sound, Faults, Others, Dispatch, ScriptOf;
  }

  /** No reachable state before the end of the stream is stuck. */
  lemma {:induction false} DeadlockFreedom(p: Program, command: Command, origin: string, correlation: string,
                                           actions: seq<Action>, t: State)
    requires Begin(p, command, origin, correlation).Open?
    requires Runs(p, Begin(p, command, origin, correlation).state, actions, t)
    ensures Over(t) || exists a :: Enabled(p, t, a) && Moving(t, a)
  {
    hide Inv;
    InvAtBeginning(p, command, origin, correlation);
    InvAlong(p, Begin(p, command, origin, correlation).state, actions, t);
    if !Over(t) {
      var a := Progress(p, t);
      assert Enabled(p, t, a) && Moving(t, a);
    }
  }

  /**
    Sound quiescence: in every reachable state the counters are exact, both are zero exactly when
    there is no work anywhere, and the supervisor has stopped of itself only then.
   */
  lemma {:induction false} QuiescenceIsSound(p: Program, command: Command, origin: string, correlation: string,
                                             actions: seq<Action>, t: State)
    requires Begin(p, command, origin, correlation).Open?
    requires Runs(p, Begin(p, command, origin, correlation).state, actions, t)
    ensures t.activeTasks == Count(Unreported, t.drains) + Count(IsReport, t.control)
    ensures t.pendingEvents == Count(InPut, t.drains) + |t.inbox| + InHand(t.consumer) + Count(IsAck, t.control)
    ensures t.activeTasks == 0 && t.pendingEvents == 0 <==> Quiet(t) && t.control == []
    ensures t.supervisor.Leaving? || t.supervisor == Stopped(None) ==> Quiet(t) && t.control == []
  {
    hide S.Sound, Matched, Count, Faults;
    InvAtBeginning(p, command, origin, correlation);
    InvAlong(p, Begin(p, command, origin, correlation).state, actions, t);
    ZeroMeansIdle(t);
  }

  /** The drain has failed, or was cancelled because something else had. */
  predicate Doomed(s: State, i: nat) {
    && i < |s.drains|
    && (s.drains[i].phase == Finishing(true) || Failed(s.drains[i]) || s.drains[i].phase.Cancelled?)
  }

  lemma {:induction false} DoomedStays(p: Program, s: State, i: nat, a: Action)
    requires Doomed(s, i) && Enabled(p, s, a) && S.Sound(s.scheduler)
    ensures Doomed(Apply(p, s, a), i)
  {
    hide S.Sound;
  }

  /**
    No failure is swallowed: once a drain has failed, no continuation ends the stream normally,
    even if the supervisor processes its report and finds the pump idle first.
   */
  lemma {:induction false} NoSwallowedFailure(p: Program, s: State, i: nat, actions: seq<Action>, t: State)
    requires Inv(p, s) && Doomed(s, i) && Runs(p, s, actions, t)
    ensures !t.consumer.Finished?
    decreases |actions|
  {
    if actions == [] {
      hide S.Sound, Matched, Count;
      if s.consumer.Finished? {
        ZeroIsQuiet(s);
      }
    } else {
      hide Inv, S.Sound;
      InvStep(p, s, actions[0]);
      assert S.Sound(s.scheduler);
      DoomedStays(p, s, i, actions[0]);
      NoSwallowedFailure(p, Apply(p, s, actions[0]), i, actions[1..], t);
    }
  }

  /** A stream that ended normally left nothing behind and hides no failure. */
  lemma {:induction false} FinishedIsClean(p: Program, s: State)
    requires Inv(p, s) && s.consumer.Finished?
    ensures s.inbox == [] && s.control == []
    ensures forall i | 0 <= i < |s.drains| :: s.drains[i].phase == Ended(false)
  {
    hide S.Sound, Matched, Count;
    ZeroIsQuiet(s);
  }

  /**
    When the supervisor has stopped, the run's tickets still in the scheduler are those of handlers
    cancelled inside `inbox.put` whose streams have not been finalised.
   */
  lemma {:induction false} OnlyAbandonedHold(p: Program, s: State, i: nat, id: nat)
    requires Inv(p, s) && s.supervisor.Stopped? && Holder(s.drains, i, id)
    ensures s.drains[i].phase == Cancelled(Some(id))
  {
    hide S.Sound, Matched, Count;
    if s.supervisor.error.None? {
      ZeroIsQuiet(s);
    }
  }

  /**
    A run that has ended normally has given every admission back: whatever is still in the
    scheduler belongs to other runs, and nothing is if there are none.
   */
  lemma {:induction false} FinishedGivesBack(p: Program, s: State)
    requires Inv(p, s) && s.consumer.Finished?
    ensures forall t | S.Outstanding(s.scheduler, t) :: Others(s, t.id)
    ensures Alone(s.drains, s.scheduler) ==> S.Idle(s.scheduler)
  {
    FinishedIsClean(p, s);
    NoneHeld(s);
  }
}
