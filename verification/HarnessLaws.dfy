/** What every run of the harness keeps to, whatever the pump, the canceller and the commit handler do. */
module HarnessLaws {
  import opened Messages
  import opened Lifecycle
  import opened Harness

  // ------------------------------------------------------------------------ the trace

  /** A commit handler satisfies the harness exactly by emitting the expected event and ending. */
  lemma {:induction false} OnlyTheExpectedEvent(expected: Payload, commit: Commit)
    ensures Verdict(expected, commit).Concluded? <==> commit == Commit([expected], Returns)
  {
    assert commit.payloads == [expected] <==> |commit.payloads| == 1 && commit.payloads[0] == expected;
  }

  /** What follows the work events, the last of which, or `RunStarted`, is `last`. */
  predicate Closes(tail: seq<Entry>, stop: Stop, last: Message, commit: Commit, r: Report) {
    var k := if stop.Failing? then 1 else 0;
    && k + 1 <= |tail| <= k + 2
    && (forall i | 0 <= i < |tail| :: tail[i].Own?)
    && tail[k].envelope.payload.RunOutcomeReady?
    && tail[k].envelope.causation == Some(if k == 1 then tail[0].envelope.id else last.id)
    && var outcome := tail[k].envelope.payload.outcome;
       && (outcome.CompletedOutcome? <==> stop.Ended?)
       && (outcome.CancelledOutcome? <==> stop.CancelSeen?)
       && (k == 1 ==> outcome.FailedOutcome? && tail[0].envelope.payload == EventFor(outcome.reason))
       && (|tail| == k + 2 <==> r.conclusion.Concluded?)
       && (r.conclusion.Concluded? <==> commit == Commit([TerminalFor(outcome)], Returns))
       && (r.conclusion.Concluded? ==>
             && tail[k + 1].envelope.payload == TerminalFor(outcome) && r.state == FinalState(outcome)
             // its cause is the commit command, made right after the outcome
             && tail[k + 1].envelope.causation == Some(tail[k].envelope.id + 1))
       && (!r.conclusion.Concluded? ==> r.state == FINALIZING)
  }

  /** The last message given out before the tail. */
  function Previous(trace: seq<Entry>, n: nat): Message
    requires n < |trace|
  {
    trace[n].envelope
  }

  /**
    Trace grammar: `RunStarted`, the work events, at most one fault or budget event, the outcome,
    and a terminal event of the same outcome or a finalization error without one. Only the work
    events are not the harness's own.
   */
  lemma {:induction false} TraceGrammar(first: nat, command: Payload, origin: string, correlation: string, env: Environment)
    ensures var r, reading := Tell(first, command, origin, correlation, env), ReadWork(env.turns, false);
            var n := |reading.events|;
            && |r.trace| >= n + 1
            && r.trace[0].Own? && r.trace[0].envelope.payload == RunStarted && r.trace[0].envelope.causation == Some(first)
            && (forall i | 0 <= i < n :: r.trace[i + 1] == Work(reading.events[i]))
            && if reading.stop.Gone? then |r.trace| == n + 1 && r.conclusion == Left && r.state == RUNNING
               else Closes(r.trace[n + 1..], reading.stop, Previous(r.trace, n), env.commit, r)
  {
    hide ReadWork, ReasonFor, CauseFor, Verdict, Finalized, Closes, EventFor, OutcomeFor;
    var r, reading := Tell(first, command, origin, correlation, env), ReadWork(env.turns, false);
    var started := Made(first, 1, origin, RunStarted, RootOf(first, command, origin, correlation));
    var told := [Own(started)] + WorkEntries(reading.events);
    if !reading.stop.Gone? {
      var tail := FinalizedCloses(first, origin, reading.stop, started, reading.events, env.commit, r);
      assert r.trace == told + tail;
      assert r.trace[|told|..] == tail;
      assert Previous(r.trace, |reading.events|) == LastOf(started, reading.events);
    }
  }

  lemma {:induction false} FinalizedCloses(first: nat, origin: string, stop: Stop, started: Message, events: seq<Message>,
                                           commit: Commit, r: Report) returns (tail: seq<Entry>)
    requires var faults := FaultEvents(first, origin, stop, LastOf(started, events));
             var end := Finalized(first + 2 + |faults|, origin, OutcomeFor(stop), LastOf(started, events + faults), commit);
             !stop.Gone? && r.conclusion == end.conclusion && r.state == end.state
    ensures var faults := FaultEvents(first, origin, stop, LastOf(started, events));
            var end := Finalized(first + 2 + |faults|, origin, OutcomeFor(stop), LastOf(started, events + faults), commit);
            tail == OwnEntries(faults) + end.trace
    ensures Closes(tail, stop, LastOf(started, events), commit, r)
  {
    hide ReasonFor, CauseFor, Verdict;
    var faults := FaultEvents(first, origin, stop, LastOf(started, events));
    var end := Finalized(first + 2 + |faults|, origin, OutcomeFor(stop), LastOf(started, events + faults), commit);
    OnlyTheExpectedEvent(TerminalFor(OutcomeFor(stop)), commit);
    tail := OwnEntries(faults) + end.trace;
    assert events + [] == events;
  }

  // -------------------------------------------------------------- when cancelling counts

  /** Whether read `k` finds cancellation requested. */
  predicate NoticedAt(turns: seq<Turn>, requested: bool, k: nat)
    requires k < |turns|
  {
    || turns[k].before || turns[k].during.Noticed?
    || (if k == 0 then requested else turns[k - 1].during.Late?)
  }

  predicate GoesOn(turns: seq<Turn>, requested: bool, k: nat)
    requires k < |turns|
  {
    !NoticedAt(turns, requested, k) && turns[k].read.Item?
  }

  /** Turn `k` is the first that does not hand out an event, and what it comes to. */
  predicate StopsAt(turns: seq<Turn>, requested: bool, k: nat, stop: Stop)
    requires k <= |turns|
  {
    && (forall j: nat | j < k :: GoesOn(turns, requested, j))
    && if k == |turns| then stop == Gone
       else if NoticedAt(turns, requested, k) then stop == CancelSeen
       else
         match turns[k].read
         case Item(_) => false
         case Exhausted => stop == Ended
         case Raised(failure) => stop == Failing(failure)
         case Interrupted => stop == Gone
  }

  lemma {:induction false} ReadsUpTo(turns: seq<Turn>, requested: bool) returns (k: nat)
    ensures k <= |turns| && StopsAt(turns, requested, k, ReadWork(turns, requested).stop)
    ensures |ReadWork(turns, requested).events| == k
    ensures forall j | 0 <= j < k :: turns[j].read == Item(ReadWork(turns, requested).events[j])
  {
    k := 0;
    if turns != [] && GoesOn(turns, requested, 0) {
      var late := turns[0].during.Late?;
      var rest := ReadsUpTo(turns[1..], late);
      k := rest + 1;
      assert forall j: nat | j < rest :: GoesOn(turns[1..], late, j) == GoesOn(turns, requested, j + 1);
      forall j: nat | j < k ensures GoesOn(turns, requested, j) {
        if j > 0 {
          assert GoesOn(turns[1..], late, j - 1);
        }
      }
    }
  }

  lemma {:induction false} StopIsUnique(turns: seq<Turn>, requested: bool, k: nat, stop: Stop, k': nat, stop': Stop)
    requires k <= |turns| && k' <= |turns| && StopsAt(turns, requested, k, stop) && StopsAt(turns, requested, k', stop')
    ensures k == k' && stop == stop'
  {
    assert k < k' ==> GoesOn(turns, requested, k);
    assert k' < k ==> GoesOn(turns, requested, k');
  }

  /**
    A run is cancelled exactly if some read finds cancellation requested before any read ends or
    fails. A request made later, such as while the fault event is handed out, changes nothing.
   */
  lemma {:induction false} CancelledExactlyIf(first: nat, command: Payload, origin: string, correlation: string, env: Environment)
    ensures var r := Tell(first, command, origin, correlation, env);
            (exists i :: 0 <= i < |r.trace| && TellsCancelled(r.trace[i]))
            <==>
            exists k: nat :: k < |env.turns| && NoticedAt(env.turns, false, k) && forall j: nat | j < k :: GoesOn(env.turns, false, j)
  {
    hide ReadWork, Tell;
    var r, reading := Tell(first, command, origin, correlation, env), ReadWork(env.turns, false);
    var n := ReadsUpTo(env.turns, false);
    TraceGrammar(first, command, origin, correlation, env);
    if reading.stop.CancelSeen? {
      assert NoticedAt(env.turns, false, n);
      CancelOutcome(first, command, origin, correlation, env);
    } else {
      if k: nat :| k < |env.turns| && NoticedAt(env.turns, false, k) && forall j: nat | j < k :: GoesOn(env.turns, false, j) {
        StopIsUnique(env.turns, false, n, reading.stop, k, CancelSeen);
      }
      if !reading.stop.Gone? {
        NotCancelled(r.trace[n + 1..], reading.stop, Previous(r.trace, n), env.commit, r);
      }
      forall i | 0 <= i < |r.trace| ensures !TellsCancelled(r.trace[i]) {
        if i > n {
          assert r.trace[n + 1..][i - n - 1] == r.trace[i];
        } else if i > 0 {
          assert r.trace[(i - 1) + 1] == Work(reading.events[i - 1]);
        }
      }
    }
  }

  /** The harness's own event announcing that the run was cancelled. */
  predicate TellsCancelled(entry: Entry) {
    entry.Own? && entry.envelope.payload == RunOutcomeReady(CancelledOutcome(CANCELLATION))
  }

  lemma {:induction false} NotCancelled(tail: seq<Entry>, stop: Stop, last: Message, commit: Commit, r: Report)
    requires Closes(tail, stop, last, commit, r) && !stop.CancelSeen?
    ensures forall i | 0 <= i < |tail| :: tail[i].envelope.payload != RunOutcomeReady(CancelledOutcome(CANCELLATION))
  {
  }

  lemma {:induction false} CancelOutcome(first: nat, command: Payload, origin: string, correlation: string, env: Environment)
    requires ReadWork(env.turns, false).stop.CancelSeen?
    ensures var r, n := Tell(first, command, origin, correlation, env), |ReadWork(env.turns, false).events|;
            n + 1 < |r.trace| && TellsCancelled(r.trace[n + 1])
  {
    hide ReadWork;
  }

  // -------------------------------------------------------------- how each ending is told

  /** The run tells `payload` last and is left in `state`. */
  predicate EndsWith(r: Report, payload: Payload, state: RunState) {
    r.trace != [] && r.trace[|r.trace| - 1].Own? && r.trace[|r.trace| - 1].envelope.payload == payload && r.state == state
  }

  lemma {:induction false} ReadingStops(turns: seq<Turn>, k: nat, stop: Stop)
    requires k <= |turns| && StopsAt(turns, false, k, stop)
    ensures ReadWork(turns, false).stop == stop && |ReadWork(turns, false).events| == k
    ensures forall j | 0 <= j < k :: turns[j].read == Item(ReadWork(turns, false).events[j])
  {
    var n := ReadsUpTo(turns, false);
    StopIsUnique(turns, false, n, ReadWork(turns, false).stop, k, stop);
  }

  /** A run whose work ends tells that it has completed exactly if the handler confirms that and nothing else. */
  lemma {:induction false} EndedRunCompletes(first: nat, command: Payload, origin: string, correlation: string, env: Environment, k: nat)
    requires k <= |env.turns| && StopsAt(env.turns, false, k, Ended)
    ensures EndsWith(Tell(first, command, origin, correlation, env), RunCompleted(CompletedOutcome), COMPLETED) <==>
            env.commit == Commit([RunCompleted(CompletedOutcome)], Returns)
  {
    hide ReadWork, StopsAt;
    ReadingStops(env.turns, k, Ended);
    OnlyTheExpectedEvent(RunCompleted(CompletedOutcome), env.commit);
  }

  /** A run whose work fails tells that it has failed, and for what reason, exactly if the handler confirms just that. */
  lemma {:induction false} FailingRunFails(first: nat, command: Payload, origin: string, correlation: string, env: Environment,
                                           k: nat, failure: Failure)
    requires k <= |env.turns| && StopsAt(env.turns, false, k, Failing(failure))
    ensures var outcome := FailedOutcome(ReasonFor(failure));
            EndsWith(Tell(first, command, origin, correlation, env), RunFailed(outcome), FAILED) <==>
            env.commit == Commit([RunFailed(outcome)], Returns)
  {
    hide ReadWork, StopsAt, ReasonFor, CauseFor;
    ReadingStops(env.turns, k, Failing(failure));
    OnlyTheExpectedEvent(RunFailed(FailedOutcome(ReasonFor(failure))), env.commit);
  }

  /** A run that finds itself cancelled tells so exactly if the handler confirms that and nothing else. */
  lemma {:induction false} CancelledRunCancels(first: nat, command: Payload, origin: string, correlation: string, env: Environment, k: nat)
    requires k <= |env.turns| && StopsAt(env.turns, false, k, CancelSeen)
    ensures var outcome := CancelledOutcome("semantic cancellation requested");
            EndsWith(Tell(first, command, origin, correlation, env), RunCancelled(outcome), CANCELLED) <==>
            env.commit == Commit([RunCancelled(outcome)], Returns)
  {
    hide ReadWork, StopsAt;
    ReadingStops(env.turns, k, CancelSeen);
    OnlyTheExpectedEvent(RunCancelled(CancelledOutcome(CANCELLATION)), env.commit);
  }

  /** Which finalization error goes with which stream of the commit handler. */
  lemma {:induction false} FinalizationErrors(expected: Payload, commit: Commit)
    ensures var verdict := Verdict(expected, commit);
            && (verdict == FinalizationFailed(MismatchedTerminal) <==> commit.payloads != [] && !([expected] <= commit.payloads))
            && (verdict == FinalizationFailed(MultipleTerminals) <==> [expected] < commit.payloads)
            && (verdict == FinalizationFailed(HandlerFailed) <==> commit.payloads <= [expected] && commit.ending.Fails?)
            && (verdict == FinalizationFailed(HandlersOwnError) <==> commit.payloads <= [expected] && commit.ending.FailsFinalization?)
            && (verdict == FinalizationFailed(NoTerminal) <==> commit.payloads == [] && commit.ending.Returns?)
            && (verdict == Left <==> commit.payloads <= [expected] && commit.ending.CommitInterrupted?)
  {
    OnlyTheExpectedEvent(expected, commit);
    assert [expected] <= commit.payloads <==> commit.payloads != [] && commit.payloads[0] == expected;
  }

  /** `leaves[i]` is the first exception of its kind. */
  predicate FirstAt(leaves: seq<Failure>, wanted: Wanted, i: nat) {
    i < |leaves| && Is(leaves[i], wanted) && forall j | 0 <= j < i :: !Is(leaves[j], wanted)
  }

  lemma {:induction false} FirstAtIsFound(leaves: seq<Failure>, wanted: Wanted, i: nat)
    requires FirstAt(leaves, wanted, i)
    ensures FirstThatIs(leaves, wanted) == Some(leaves[i])
  {
    if i > 0 {
      assert FirstAt(leaves[1..], wanted, i - 1) by {
        assert forall j | 0 <= j < i - 1 :: leaves[1..][j] == leaves[j + 1];
      }
      FirstAtIsFound(leaves[1..], wanted, i - 1);
    }
  }

  /** The exception, of all those in the tree, that a failed run is announced with. */
  ghost predicate Announces(event: Message, f: Failure, last: nat) {
    var leaves := Leaves(f);
    && (forall i: nat | FirstAt(leaves, WantBudget, i) ::
          && event.payload == StepBudgetExceeded(leaves[i].limit, leaves[i].attempted)
          && event.causation == Some(leaves[i].cause.id))
    && (forall i: nat | FirstAt(leaves, WantExecution, i) && (forall j | 0 <= j < |leaves| :: !leaves[j].BudgetReached?) ::
          && event.payload == RuntimeFaulted(RuntimeFault(leaves[i].phase, leaves[i].original.exceptionType, leaves[i].original.message))
          && event.causation == Some(leaves[i].cause.id))
    && ((forall j | 0 <= j < |leaves| :: leaves[j].Plain? || leaves[j].Group?) ==>
          && (f.Plain? || f.Group?)
          && event.payload == RuntimeFaulted(RuntimeFault("runtime", f.description.exceptionType, f.description.message))
          && event.causation == Some(last))
  }

  /** A failed run announces the first budget error, else the first execution error, else the failure itself. */
  lemma {:induction false} FailureAnnounced(first: nat, command: Payload, origin: string, correlation: string, env: Environment,
                                            k: nat, failure: Failure)
    requires k < |env.turns| && StopsAt(env.turns, false, k, Failing(failure))
    ensures var r := Tell(first, command, origin, correlation, env);
            && k + 1 < |r.trace| && r.trace[k + 1].Own?
            && Announces(r.trace[k + 1].envelope, failure, r.trace[k].envelope.id)
  {
    hide ReadWork, StopsAt, Announces, ReasonFor, CauseFor, EventFor, Finalized;
    ReadingStops(env.turns, k, Failing(failure));
    var r, events := Tell(first, command, origin, correlation, env), ReadWork(env.turns, false).events;
    var started := Made(first, 1, origin, RunStarted, RootOf(first, command, origin, correlation));
    var fault := Made(first, 2, origin, EventFor(ReasonFor(failure)), CauseFor(failure, LastOf(started, events)));
    assert FaultEvents(first, origin, Failing(failure), LastOf(started, events)) == [fault];
    FaultAnnounces(first, origin, failure, LastOf(started, events));
  }

  lemma {:induction false} FaultAnnounces(first: nat, origin: string, f: Failure, last: Message)
    ensures Announces(Made(first, 2, origin, EventFor(ReasonFor(f)), CauseFor(f, last)), f, last.id)
  {
    var leaves := Leaves(f);
    FindErrorIsFirstLeaf(f, WantBudget);
    FindErrorIsFirstLeaf(f, WantExecution);
    FirstIsLeaf(leaves, WantBudget);
    FirstIsLeaf(leaves, WantExecution);
    forall i: nat, wanted: Wanted | FirstAt(leaves, wanted, i) ensures FirstThatIs(leaves, wanted) == Some(leaves[i]) {
      FirstAtIsFound(leaves, wanted, i);
    }
  }

  // --------------------------------------------------------------------- one run's messages

  predicate InRun(m: Message, correlation: string) {
    m.correlation == correlation
  }

  predicate FailureInRun(f: Failure, correlation: string) {
    forall i | 0 <= i < |Leaves(f)| ::
      (Leaves(f)[i].BudgetReached? || Leaves(f)[i].Execution?) ==> InRun(Leaves(f)[i].cause, correlation)
  }

  predicate TurnInRun(t: Turn, correlation: string) {
    match t.read
    case Item(event) => InRun(event, correlation)
    case Raised(failure) => FailureInRun(failure, correlation)
    case _ => true
  }

  lemma {:induction false} FirstIsLeaf(leaves: seq<Failure>, wanted: Wanted)
    ensures FirstThatIs(leaves, wanted).Some? ==>
              Is(FirstThatIs(leaves, wanted).value, wanted)
              && exists i :: 0 <= i < |leaves| && leaves[i] == FirstThatIs(leaves, wanted).value
    ensures FirstThatIs(leaves, wanted).None? ==> forall i | 0 <= i < |leaves| :: !Is(leaves[i], wanted)
  {
    if leaves != [] && !Is(leaves[0], wanted) {
      FirstIsLeaf(leaves[1..], wanted);
      if FirstThatIs(leaves, wanted).Some? {
        var i :| 0 <= i < |leaves| - 1 && leaves[1..][i] == FirstThatIs(leaves, wanted).value;
        assert leaves[i + 1] == FirstThatIs(leaves, wanted).value;
      } else {
        forall i | 0 <= i < |leaves| ensures !Is(leaves[i], wanted) {
          if i > 0 {
            assert leaves[1..][i - 1] == leaves[i];
          }
        }
      }
    }
  }

  lemma {:induction false} CauseIsInRun(f: Failure, last: Message, correlation: string)
    requires FailureInRun(f, correlation) && InRun(last, correlation)
    ensures InRun(CauseFor(f, last), correlation)
  {
    FindErrorIsFirstLeaf(f, WantBudget);
    FindErrorIsFirstLeaf(f, WantExecution);
    FirstIsLeaf(Leaves(f), WantBudget);
    FirstIsLeaf(Leaves(f), WantExecution);
  }

  /** Everything a run hands out carries the run's correlation id, if the pump's messages do. */
  lemma {:induction false} TraceStaysInRun(first: nat, command: Payload, origin: string, correlation: string, env: Environment)
    requires forall i | 0 <= i < |env.turns| :: TurnInRun(env.turns[i], correlation)
    ensures var r := Tell(first, command, origin, correlation, env);
            forall i | 0 <= i < |r.trace| :: InRun(r.trace[i].envelope, correlation)
  {
    hide ReadWork, CauseFor, ReasonFor, Verdict;
    var r, reading := Tell(first, command, origin, correlation, env), ReadWork(env.turns, false);
    var started := Made(first, 1, origin, RunStarted, RootOf(first, command, origin, correlation));
    var n := ReadsUpTo(env.turns, false);
    forall i | 0 <= i < n ensures InRun(reading.events[i], correlation) {
      assert TurnInRun(env.turns[i], correlation);
    }
    assert InRun(started, correlation);
    if reading.stop.Failing? {
      assert TurnInRun(env.turns[n], correlation);
      CauseIsInRun(reading.stop.failure, LastOf(started, reading.events), correlation);
    }
  }
}
