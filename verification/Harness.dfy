/**
  A run of the harness (harness.py): `RunStarted`, the work events, a fault or budget event if
  the work failed, the outcome, and the terminal event that the commit handler confirms.

  The pump's stream, the requests to cancel and the commit handler are whatever they are: an
  `Environment` lists what they do at each suspension.
 */
module Harness {
  import opened Messages
  import opened Lifecycle

  // -------------------------------------------------------------------- the environment

  datatype Description = Description(exceptionType: string, message: string)

  /** Exceptions the pump's stream can raise. An execution error describes the exception behind it. */
  datatype Failure =
    | BudgetReached(limit: nat, attempted: nat, cause: Message)
    | Execution(phase: string, cause: Message, original: Description)
    | Plain(description: Description)
    | Group(description: Description, nested: seq<Failure>)

  /** What reading the next work event comes to. `Interrupted` is cancellation from outside. */
  datatype Read = Item(event: Message) | Exhausted | Raised(failure: Failure) | Interrupted

  /** A request to cancel made while a read is awaited is noticed by that read, or by the next one. */
  datatype Request = NoRequest | Noticed | Late

  /** `before`: cancellation is requested while the run is suspended at its last event. */
  datatype Turn = Turn(before: bool, during: Request, read: Read)

  datatype CommitEnding = Returns | Fails | FailsFinalization | CommitInterrupted

  /** What the commit handler streams, and how it ends; a refused dispatch streams nothing and fails. */
  datatype Commit = Commit(payloads: seq<Payload>, ending: CommitEnding)

  datatype Environment = Environment(turns: seq<Turn>, requestAtFault: bool, requestAtReady: bool, commit: Commit)

  // ------------------------------------------------------------------ searching errors

  datatype Wanted = WantBudget | WantExecution

  predicate Is(f: Failure, wanted: Wanted) {
    match wanted
    case WantBudget => f.BudgetReached?
    case WantExecution => f.Execution?
  }

  function FindError(f: Failure, wanted: Wanted): (found: Option<Failure>)
    ensures found.Some? ==> Is(found.value, wanted)
  {
    if Is(f, wanted) then Some(f)
    else if f.Group? then FindAmong(f.nested, wanted)
    else None
  }

  function FindAmong(failures: seq<Failure>, wanted: Wanted): (found: Option<Failure>)
    ensures found.Some? ==> Is(found.value, wanted)
  {
    if failures == [] then None
    else
      var found := FindError(failures[0], wanted);
      if found.Some? then found else FindAmong(failures[1..], wanted)
  }

  /** The exceptions a tree of groups holds, from left to right. */
  function Leaves(f: Failure): seq<Failure> {
    if f.Group? then AllLeaves(f.nested) else [f]
  }

  function AllLeaves(failures: seq<Failure>): seq<Failure> {
    if failures == [] then [] else Leaves(failures[0]) + AllLeaves(failures[1..])
  }

  function FirstThatIs(leaves: seq<Failure>, wanted: Wanted): Option<Failure> {
    if leaves == [] then None
    else if Is(leaves[0], wanted) then Some(leaves[0])
    else FirstThatIs(leaves[1..], wanted)
  }

  lemma {:induction false} FirstOfBoth(a: seq<Failure>, b: seq<Failure>, wanted: Wanted)
    ensures FirstThatIs(a + b, wanted) ==
            if FirstThatIs(a, wanted).Some? then FirstThatIs(a, wanted) else FirstThatIs(b, wanted)
  {
    if a == [] {
      assert a + b == b;
    } else {
      assert (a + b)[1..] == a[1..] + b;
      FirstOfBoth(a[1..], b, wanted);
    }
  }

  /** The search finds the first exception of the wanted kind anywhere in the tree. */
  lemma {:induction false} FindErrorIsFirstLeaf(f: Failure, wanted: Wanted)
    ensures FindError(f, wanted) == FirstThatIs(Leaves(f), wanted)
  {
    if f.Group? {
      FindAmongIsFirstLeaf(f.nested, wanted);
    }
  }

  lemma {:induction false} FindAmongIsFirstLeaf(failures: seq<Failure>, wanted: Wanted)
    ensures FindAmong(failures, wanted) == FirstThatIs(AllLeaves(failures), wanted)
  {
    if failures != [] {
      FindErrorIsFirstLeaf(failures[0], wanted);
      FindAmongIsFirstLeaf(failures[1..], wanted);
      FirstOfBoth(Leaves(failures[0]), AllLeaves(failures[1..]), wanted);
    }
  }

  // ------------------------------------------------------------------ what a run tells

  /** Events are told apart by who made them: a work handler may emit any payload. */
  datatype Entry = Own(envelope: Message) | Work(envelope: Message)

  datatype FinalizationError = MultipleTerminals | MismatchedTerminal | HandlerFailed | HandlersOwnError | NoTerminal

  /** `Left`: interrupted, or abandoned by the consumer. */
  datatype Conclusion = Concluded | FinalizationFailed(error: FinalizationError) | Left

  datatype Report = Report(trace: seq<Entry>, conclusion: Conclusion, state: RunState)

  /** Why reading work events stopped. */
  datatype Stop = Ended | CancelSeen | Failing(failure: Failure) | Gone

  datatype Reading = Reading(events: seq<Message>, stop: Stop)

  /** Cancellation wins over what the read has brought; a late request wins over the next read. */
  function ReadWork(turns: seq<Turn>, requested: bool): Reading {
    if turns == [] then Reading([], Gone)
    else
      var turn := turns[0];
      if requested || turn.before || turn.during.Noticed? then Reading([], CancelSeen)
      else
        match turn.read
        case Exhausted => Reading([], Ended)
        case Raised(failure) => Reading([], Failing(failure))
        case Interrupted => Reading([], Gone)
        case Item(event) =>
          var rest := ReadWork(turns[1..], turn.during.Late?);
          rest.(events := [event] + rest.events)
  }

  const CANCELLATION := "semantic cancellation requested"

  function ReasonFor(f: Failure): Reason {
    var budget, execution := FindError(f, WantBudget), FindError(f, WantExecution);
    if budget.Some? then Budget(budget.value.limit, budget.value.attempted)
    else if execution.Some? then
      var original := execution.value.original;
      Fault(RuntimeFault(execution.value.phase, original.exceptionType, original.message))
    else Fault(RuntimeFault("runtime", DescriptionOf(f).exceptionType, DescriptionOf(f).message))
  }

  function DescriptionOf(f: Failure): Description {
    match f
    case Plain(description) => description
    case Group(description, _) => description
    case Execution(_, _, original) => original
    case BudgetReached(_, _, _) => Description("StepBudgetLimitReached", "")
  }

  function CauseFor(f: Failure, last: Message): Message {
    var budget, execution := FindError(f, WantBudget), FindError(f, WantExecution);
    if budget.Some? then budget.value.cause else if execution.Some? then execution.value.cause else last
  }

  function EventFor(reason: Reason): Payload {
    match reason
    case Fault(fault) => RuntimeFaulted(fault)
    case Budget(limit, attempted) => StepBudgetExceeded(limit, attempted)
  }

  function OutcomeFor(stop: Stop): Outcome {
    match stop
    case Failing(failure) => FailedOutcome(ReasonFor(failure))
    case CancelSeen => CancelledOutcome(CANCELLATION)
    case _ => CompletedOutcome
  }

  /** What committing comes to: the first payload out of line decides. */
  function Verdict(expected: Payload, commit: Commit): Conclusion {
    if commit.payloads != [] && commit.payloads[0] != expected then FinalizationFailed(MismatchedTerminal)
    else if |commit.payloads| > 1 then FinalizationFailed(MultipleTerminals)
    else
      match commit.ending
      case CommitInterrupted => Left
      case Fails => FinalizationFailed(HandlerFailed)
      case FailsFinalization => FinalizationFailed(HandlersOwnError)
      case Returns => if commit.payloads == [] then FinalizationFailed(NoTerminal) else Concluded
  }

  /** Number `k` of the envelopes the harness makes in a run whose root has id `first`. */
  function Made(first: nat, k: nat, origin: string, payload: Payload, cause: Message): Message {
    Create(first + k, "", payload, origin, Some(cause))
  }

  function RootOf(first: nat, command: Payload, origin: string, correlation: string): Message {
    Create<Payload, Payload>(first, correlation, command, origin, None)
  }

  function WorkEntries(events: seq<Message>): seq<Entry> {
    seq(|events|, i requires 0 <= i < |events| => Work(events[i]))
  }

  function OwnEntries(events: seq<Message>): seq<Entry> {
    seq(|events|, i requires 0 <= i < |events| => Own(events[i]))
  }

  /** The last message the consumer has been given. */
  function LastOf(started: Message, events: seq<Message>): Message {
    if events == [] then started else events[|events| - 1]
  }

  /** The event announcing a failure; its cause is the failing message, or the last one for want of it. */
  function FaultEvents(first: nat, origin: string, stop: Stop, last: Message): seq<Message> {
    match stop
    case Failing(failure) => [Made(first, 2, origin, EventFor(ReasonFor(failure)), CauseFor(failure, last))]
    case _ => []
  }

  /** The end of a run: the outcome and, if the commit handler agrees, the terminal event. */
  function Finalized(first: nat, origin: string, outcome: Outcome, last: Message, commit: Commit): Report {
    var ready := Made(first, 0, origin, RunOutcomeReady(outcome), last);
    var verdict := Verdict(TerminalFor(outcome), commit);
    if verdict.Concluded? then
      var command := Made(first, 1, origin, CommitRunOutcome(outcome), ready);
      var terminal := Made(first, 2, origin, TerminalFor(outcome), command);
      Report([Own(ready), Own(terminal)], Concluded, FinalState(outcome))
    else Report([Own(ready)], verdict, FINALIZING)
  }

  function Tell(first: nat, command: Payload, origin: string, correlation: string, env: Environment): Report {
    var started := Made(first, 1, origin, RunStarted, RootOf(first, command, origin, correlation));
    var reading := ReadWork(env.turns, false);
    var told := [Own(started)] + WorkEntries(reading.events);
    if reading.stop.Gone? then Report(told, Left, RUNNING)
    else
      var faults := FaultEvents(first, origin, reading.stop, LastOf(started, reading.events));
      var last := LastOf(started, reading.events + faults);
      var end := Finalized(first + 2 + |faults|, origin, OutcomeFor(reading.stop), last, env.commit);
      end.(trace := told + OwnEntries(faults) + end.trace)
  }

  // ------------------------------------------------------------------------ the harness

  class ActiveRun {
    const lifecycle: RunLifecycle
    var cancelRequested: bool

    constructor ()
      ensures !cancelRequested && fresh(lifecycle) && lifecycle.state == CREATED
    {
      lifecycle := new RunLifecycle();
      cancelRequested := false;
    }
  }

  class Harness {
    var activeRuns: map<string, ActiveRun>
    var nextId: nat

    constructor ()
      ensures activeRuns == map[] && nextId == 0
    {
      activeRuns, nextId := map[], 0;
    }

    /** A request counts only while the run is known and its work is running. */
    method Cancel(correlation: string)
      modifies if correlation in activeRuns then {activeRuns[correlation]} else {}
      ensures correlation in activeRuns ==>
                activeRuns[correlation].cancelRequested ==
                (old(activeRuns[correlation].cancelRequested) || activeRuns[correlation].lifecycle.state == RUNNING)
    {
      if correlation in activeRuns {
        var run := activeRuns[correlation];
        if run.lifecycle.state == RUNNING {
          run.cancelRequested := true;
        }
      }
    }

    method Envelop(payload: Payload, origin: string, cause: Message) returns (message: Message)
      modifies this`nextId
      ensures message == Made(old(nextId), 0, origin, payload, cause) && nextId == old(nextId) + 1
    {
      message := Create(nextId, "", payload, origin, Some(cause));
      nextId := nextId + 1;
    }

    /** The work events up to where the run turns away from them. */
    method PrimaryEvents(run: ActiveRun, correlation: string, turns: seq<Turn>) returns (events: seq<Message>, stop: Stop)
      requires correlation in activeRuns && activeRuns[correlation] == run
      requires run.lifecycle.state == RUNNING
      modifies run
      ensures Reading(events, stop) == ReadWork(turns, old(run.cancelRequested))
    {
      events := [];
      var i := 0;
      while i < |turns|
        invariant i <= |turns|
        invariant var rest := ReadWork(turns[i..], run.cancelRequested);
                  rest.(events := events + rest.events) == ReadWork(turns, old(run.cancelRequested))
      {
        var turn := turns[i];
        if turn.before {
          Cancel(correlation);
        }
        var noticed := run.cancelRequested;
        if turn.during != NoRequest {
          Cancel(correlation);
          noticed := noticed || turn.during == Noticed;
        }
        if noticed {
          return events, CancelSeen;
        }
        match turn.read {
          case Item(event) => events := events + [event];
          case Exhausted => return events, Ended;
          case Raised(failure) => return events, Failing(failure);
          case Interrupted => return events, Gone;
        }
        i := i + 1;
      }
      return events, Gone;
    }

    /** Run the commit handler: it has to emit exactly the expected event and end. */
    method CommitOutcome(outcome: Outcome, ready: Message, origin: string, commit: Commit)
      returns (terminal: Option<Message>, conclusion: Conclusion)
      modifies this`nextId
      ensures conclusion == Verdict(TerminalFor(outcome), commit)
      ensures terminal.Some? <==> conclusion.Concluded?
      ensures outcome.CompletedOutcome? ==> (terminal.Some? <==> commit == Commit([RunCompleted(outcome)], Returns))
      ensures outcome.FailedOutcome? ==> (terminal.Some? <==> commit == Commit([RunFailed(outcome)], Returns))
      ensures outcome.CancelledOutcome? ==> (terminal.Some? <==> commit == Commit([RunCancelled(outcome)], Returns))
      ensures terminal.Some? ==>
                terminal.value == Made(old(nextId), 1, origin, TerminalFor(outcome),
                                       Made(old(nextId), 0, origin, CommitRunOutcome(outcome), ready))
    {
      var command := Envelop(CommitRunOutcome(outcome), origin, ready);
      var expected := TerminalFor(outcome);
      assert commit.payloads == [expected] <==> |commit.payloads| == 1 && commit.payloads[0] == expected;
      var observed: Option<Message> := None;
      var i := 0;
      while i < |commit.payloads|
        invariant i <= |commit.payloads| && i <= 1
        invariant if i == 0 then observed == None && nextId == old(nextId) + 1
                  else commit.payloads[0] == expected && observed == Some(Made(old(nextId), 1, origin, expected, command))
      {
        if observed.Some? {
          return None, FinalizationFailed(MultipleTerminals);
        }
        if commit.payloads[i] != expected {
          return None, FinalizationFailed(MismatchedTerminal);
        }
        var message := Envelop(commit.payloads[i], origin, command);
        observed := Some(message);
        i := i + 1;
      }
      match commit.ending {
        case CommitInterrupted => return None, Left;
        case FailsFinalization => return None, FinalizationFailed(HandlersOwnError);
        case Fails => return None, FinalizationFailed(HandlerFailed);
        case Returns =>
      }
      if observed.None? {
        return None, FinalizationFailed(NoTerminal);
      }
      return observed, Concluded;
    }

    /** From the outcome to the terminal event. */
    method Finalize(run: ActiveRun, correlation: string, origin: string, outcome: Outcome, last: Message, env: Environment)
      returns (end: Report)
      requires correlation in activeRuns && activeRuns[correlation] == run
      requires run.lifecycle.state == RUNNING
      modifies this`nextId, run, run.lifecycle
      ensures end == Finalized(old(nextId), origin, outcome, last, env.commit)
    {
      hide Verdict, TerminalFor;
      var allowed := run.lifecycle.Transition(FINALIZING);
      assert allowed;
      var ready := Envelop(RunOutcomeReady(outcome), origin, last);
      if env.requestAtReady {
        Cancel(correlation);
      }
      var terminal, conclusion := CommitOutcome(outcome, ready, origin, env.commit);
      if terminal.None? {
        return Report([Own(ready)], conclusion, run.lifecycle.state);
      }
      allowed := run.lifecycle.Transition(FinalState(outcome));
      assert allowed;
      return Report([Own(ready), Own(terminal.value)], conclusion, run.lifecycle.state);
    }

    /** `run`: what the consumer is given, how the generator ends, and the state the run is left in. */
    method Run(command: Payload, origin: string, correlation: string, env: Environment) returns (report: Report)
      modifies this
      ensures report == Tell(old(nextId), command, origin, correlation, env)
      ensures activeRuns == old(activeRuns) - {correlation}
    {
      hide ReadWork, Finalized, ReasonFor, CauseFor, EventFor;
      var root := Create<Payload, Payload>(nextId, correlation, command, origin, None);
      nextId := nextId + 1;
      var run := new ActiveRun();
      activeRuns := activeRuns[correlation := run];
      var allowed := run.lifecycle.Transition(RUNNING);
      assert allowed;
      var started := Envelop(RunStarted, origin, root);

      var events, stop := PrimaryEvents(run, correlation, env.turns);
      var trace, last := [Own(started)] + WorkEntries(events), LastOf(started, events);
      if stop.Gone? {
        activeRuns := activeRuns - {correlation};
        return Report(trace, Left, run.lifecycle.state);
      }
      ghost var faults := FaultEvents(old(nextId), origin, stop, last);
      if stop.Failing? {
        last := Envelop(EventFor(ReasonFor(stop.failure)), origin, CauseFor(stop.failure, last));
        trace := trace + [Own(last)];
        assert faults == [last];
        if env.requestAtFault {
          Cancel(correlation);
        }
      }
      assert last == LastOf(started, events + faults);
      assert trace == [Own(started)] + WorkEntries(events) + OwnEntries(faults);
      var end := Finalize(run, correlation, origin, OutcomeFor(stop), last, env);
      activeRuns := activeRuns - {correlation};
      return end.(trace := trace + end.trace);
    }
  }
}
