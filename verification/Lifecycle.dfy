/** Run states and outcomes (lifecycle.py). */
module Lifecycle {
  import opened Messages

  datatype RunState = CREATED | RUNNING | FINALIZING | COMPLETED | FAILED | CANCELLED

  function Targets(state: RunState): set<RunState> {
    match state
    case CREATED => {RUNNING}
    case RUNNING => {FINALIZING}
    case FINALIZING => {COMPLETED, FAILED, CANCELLED}
    case _ => {}
  }

  /** The table lets a run go one stage further, and nowhere else. */
  lemma {:induction false} OneStageFurther(state: RunState, target: RunState)
    ensures target in Targets(state) <==> Rank(target) == Rank(state) + 1
  {
  }

  class RunLifecycle {
    var state: RunState

    constructor ()
      ensures state == CREATED
    {
      state := CREATED;
    }

    /** `false` stands for the invalid-transition error, which changes nothing. */
    method Transition(target: RunState) returns (allowed: bool)
      modifies this
      ensures allowed == (target in Targets(old(state)))
      ensures state == if allowed then target else old(state)
    {
      if target !in Targets(state) {
        return false;
      }
      state := target;
      return true;
    }
  }

  /** What a series of transition requests leads to; rejected ones change nothing. */
  function After(state: RunState, requests: seq<RunState>): RunState {
    if requests == [] then state
    else
      var before := After(state, requests[..|requests| - 1]);
      var target := requests[|requests| - 1];
      if target in Targets(before) then target else before
  }

  function Rank(state: RunState): nat {
    match state
    case CREATED => 0
    case RUNNING => 1
    case FINALIZING => 2
    case _ => 3
  }

  /** A run moves through its states one way, and a final state is for good. */
  lemma {:induction false} StatesGoForward(state: RunState, requests: seq<RunState>)
    ensures Rank(state) <= Rank(After(state, requests)) <= Rank(state) + |requests|
    ensures Rank(After(state, requests)) == Rank(state) ==> After(state, requests) == state
  {
    if requests != [] {
      StatesGoForward(state, requests[..|requests| - 1]);
    }
  }

  // -------------------------------------------------------------- outcomes and messages

  datatype RuntimeFault = RuntimeFault(phase: string, exceptionType: string, message: string)

  datatype Reason = Fault(fault: RuntimeFault) | Budget(limit: nat, attempted: nat)

  datatype Outcome = CompletedOutcome | FailedOutcome(reason: Reason) | CancelledOutcome(why: string)

  /** Payloads as the harness tells them apart; `Other` is any message of the application. */
  datatype Payload =
    | RunStarted
    | RuntimeFaulted(fault: RuntimeFault)
    | StepBudgetExceeded(limit: nat, attempted: nat)
    | RunOutcomeReady(outcome: Outcome)
    | CommitRunOutcome(outcome: Outcome)
    | RunCompleted(outcome: Outcome)
    | RunFailed(outcome: Outcome)
    | RunCancelled(outcome: Outcome)
    | Other(kind: string, body: string)

  type Message = Envelope<Payload>

  function FinalState(outcome: Outcome): RunState {
    match outcome
    case CompletedOutcome => COMPLETED
    case FailedOutcome(_) => FAILED
    case CancelledOutcome(_) => CANCELLED
  }

  /** The one event the commit handler may emit. */
  function TerminalFor(outcome: Outcome): Payload {
    match outcome
    case CompletedOutcome => RunCompleted(outcome)
    case FailedOutcome(_) => RunFailed(outcome)
    case CancelledOutcome(_) => RunCancelled(outcome)
  }
}
