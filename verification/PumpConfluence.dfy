/**
  Whatever the schedule, a run that ends normally has yielded exactly the events, and started
  exactly the commands, of the root command's expansion; and what the run ends with is decided
  by that expansion alone. The proof is a conserved quantity: what has been done, plus what all
  the work still somewhere in the pump will come to.
 */
module PumpConfluence {
  import opened Messages
  import opened Pump
  import opened PumpCounters
  import opened PumpAdmission
  import opened PumpProgress
  import opened PumpExpansion
  import S = Scheduler

  // --------------------------------------------------------------- payloads only

  function Payloads(events: seq<Envelope<Event>>): seq<Event> {
    seq(|events|, i requires 0 <= i < |events| => events[i].payload)
  }

  function CommandsOf(drains: seq<Drain>): seq<Envelope<Command>> {
    seq(|drains|, i requires 0 <= i < |drains| => drains[i].command)
  }

  function CommandPayloads(commands: seq<Envelope<Command>>): seq<Command> {
    seq(|commands|, i requires 0 <= i < |commands| => commands[i].payload)
  }

  function Started(drains: seq<Drain>): seq<Command> {
    CommandPayloads(CommandsOf(drains))
  }

  /** The envelopes whose start is in the control queue. */
  function Starts(control: seq<Control>): seq<Envelope<Command>> {
    if control == [] then []
    else
      var last := control[|control| - 1];
      Starts(control[..|control| - 1]) + if last.StartCommand? then [last.envelope] else []
  }

  function Queued(control: seq<Control>): seq<Command> {
    CommandPayloads(Starts(control))
  }

  lemma {:induction false} StartsAppend(control: seq<Control>, m: Control)
    ensures Starts(control + [m]) == Starts(control) + if m.StartCommand? then [m.envelope] else []
  {
    assert (control + [m])[..|control|] == control;
  }

  lemma {:induction false} StartsTail(control: seq<Control>)
    requires control != []
    ensures Starts(control) == (if control[0].StartCommand? then [control[0].envelope] else []) + Starts(control[1..])
  {
    if |control| > 1 {
      var front := control[..|control| - 1];
      StartsTail(front);
      assert control[1..][..|control| - 2] == front[1..];
    } else {
      assert control[..0] == [] && control[1..] == [];
    }
  }

  lemma {:induction false} QueuedAppend(control: seq<Control>, m: Control)
    ensures Queued(control + [m]) == if m.StartCommand? then Queued(control) + [m.envelope.payload] else Queued(control)
  {
    StartsAppend(control, m);
  }

  lemma {:induction false} QueuedTail(control: seq<Control>)
    requires control != []
    ensures Queued(control) == if control[0].StartCommand? then [control[0].envelope.payload] + Queued(control[1..])
                               else Queued(control[1..])
  {
    StartsTail(control);
  }

  // ---------------------------------------------------------- the work in the pump

  /** The part of a drain's command that its handler has not put into the inbox. */
  ghost function Rest(p: Program, c: Command, sent: nat): Tally {
    var script := ScriptOf(p, c);
    if script.ending.Raises? || sent > |script.events| then ENDLESS else ExpandEvents(p, script.events[sent..])
  }

  ghost function DrainWork(p: Program, d: Drain): Tally {
    match d.phase
    case Created => Rest(p, d.command.payload, 0)
    case Admitting(_) => Rest(p, d.command.payload, 0)
    case Handling(_, sent) => Rest(p, d.command.payload, sent)
    case Putting(_, sent, _) => Rest(p, d.command.payload, sent)
    case Finishing(failed) => if failed then ENDLESS else NOTHING
    case Ended(failed) => if failed then ENDLESS else NOTHING
    case Cancelled(_) => ENDLESS
  }

  ghost function DrainsWork(p: Program, drains: seq<Drain>): Tally {
    if drains == [] then NOTHING
    else Add(DrainsWork(p, drains[..|drains| - 1]), DrainWork(p, drains[|drains| - 1]))
  }

  ghost function ConsumerWork(p: Program, c: Consumer): Tally {
    match c
    case Reading => NOTHING
    case Holding(event) => ExpandEvents(p, [event.payload])
    case Sending(event, rest) => Add(OneEvent(event.payload), ExpandCommands(p, rest))
    case Yielding(event) => OneEvent(event.payload)
    case Finished => NOTHING
    case Raised(_, _) => ENDLESS
  }

  ghost function SupervisorWork(p: Program, s: State): Tally {
    if s.supervisor.Starting? && s.made != [] && s.made[0].CommandMade? then
      Add(Expand(p, s.made[0].command.payload), ExpandCommands(p, Queued(s.control)))
    else
      ExpandCommands(p, Queued(s.control))
  }

  ghost function Done(s: State): Tally {
    Tally(true, multiset(Payloads(s.stream)), multiset(Started(s.drains)))
  }

  /** What is done and what is to come. */
  ghost function Total(p: Program, s: State): Tally {
    Add(Add(Done(s), DrainsWork(p, s.drains)),
        Add(ExpandEvents(p, Payloads(s.inbox)), Add(ConsumerWork(p, s.consumer), SupervisorWork(p, s))))
  }

  /** Emitted events are the script's: the one being put is the next one. */
  predicate Scripted(p: Program, drains: seq<Drain>) {
    forall i | 0 <= i < |drains| ::
      var events := ScriptOf(p, drains[i].command.payload).events;
      match drains[i].phase
      case Handling(_, sent) => sent <= |events|
      case Putting(_, sent, event) =>
        sent < |events| && event.payload == events[sent] && event.causation == Some(drains[i].command.id)
      case _ => true
  }

  lemma {:induction false} ScriptedStep(p: Program, s: State, a: Action)
    requires Scripted(p, s.drains) && Enabled(p, s, a) && S.Sound(s.scheduler)
    ensures Scripted(p, Apply(p, s, a).drains)
  {
    hide S.Sound;
  }

  // -------------------------------------------------------- conserved by every step

  /** The work of all drains but number `i`. */
  ghost function OthersWork(p: Program, drains: seq<Drain>, i: nat): Tally
    requires i < |drains|
  {
    Add(DrainsWork(p, drains[..i]), DrainsWork(p, drains[i + 1..]))
  }

  lemma {:induction false} AddNothing(a: Tally)
    ensures Add(a, NOTHING) == a
  {
  }

  lemma {:induction false} SplitWork(p: Program, drains: seq<Drain>, i: nat)
    requires i < |drains|
    ensures DrainsWork(p, drains) == Add(OthersWork(p, drains, i), DrainWork(p, drains[i]))
  {
    hide DrainWork, Add;
    var n := |drains| - 1;
    if i < n {
      var before, here, after := DrainsWork(p, drains[..i]), DrainWork(p, drains[i]), DrainsWork(p, drains[..n][i + 1..]);
      var last := DrainWork(p, drains[n]);
      SplitWork(p, drains[..n], i);
      assert drains[..n][..i] == drains[..i];
      assert drains[i + 1..][..n - i - 1] == drains[..n][i + 1..];
      AddAssociates(Add(before, after), here, last);
      AddCommutes(here, last);
      AddAssociates(Add(before, after), last, here);
      AddAssociates(before, after, last);
    } else {
      assert drains[i + 1..] == [];
      AddNothing(DrainsWork(p, drains[..i]));
    }
  }

  lemma {:induction false} UpdateWork(p: Program, drains: seq<Drain>, i: nat, d: Drain)
    requires i < |drains|
    ensures DrainsWork(p, drains) == Add(OthersWork(p, drains, i), DrainWork(p, drains[i]))
    ensures DrainsWork(p, drains[i := d]) == Add(OthersWork(p, drains, i), DrainWork(p, d))
  {
    SplitWork(p, drains, i);
    SplitWork(p, drains[i := d], i);
    assert drains[i := d][..i] == drains[..i] && drains[i := d][i + 1..] == drains[i + 1..];
  }

  /** A drain putting its next event hands that event's work to the inbox. */
  lemma {:induction false} RestOfNext(p: Program, c: Command, sent: nat)
    requires sent < |ScriptOf(p, c).events|
    ensures Same(Rest(p, c, sent), Add(ExpandEvents(p, [ScriptOf(p, c).events[sent]]), Rest(p, c, sent + 1)))
  {
    hide ExpandEvents;
    var events := ScriptOf(p, c).events;
    assert events[sent..] == [events[sent]] + events[sent + 1..];
    ExpandEventsConcat(p, [events[sent]], events[sent + 1..]);
  }

  lemma {:induction false} RestAtStart(p: Program, c: Command)
    ensures Same(Expand(p, c), Add(OneCommand(c), Rest(p, c, 0)))
  {
    hide ExpandEvents, Expand;
    ExpandUnfolds(p, c);
    assert ScriptOf(p, c).events[0..] == ScriptOf(p, c).events;
  }

  lemma {:induction false} RestAtEnd(p: Program, c: Command)
    ensures Rest(p, c, |ScriptOf(p, c).events|) == if ScriptOf(p, c).ending.Raises? then ENDLESS else NOTHING
  {
    hide ExpandEvents;
    var events := ScriptOf(p, c).events;
    ExpandNone(p);
    assert events[|events|..] == [];
  }

  lemma {:induction false} MoveKeepsWork(p: Program, s: State, i: nat, move: Move)
    requires i < |s.drains| && CanMove(p, s, s.drains[i], move) && Scripted(p, s.drains)
    requires !move.Put? && !move.Drop?
    ensures DrainWork(p, s.drains[i].(phase := NextPhase(p, s, s.drains[i], move))) == DrainWork(p, s.drains[i])
  {
    hide ExpandEvents;
    if move.Finish? {
      RestAtEnd(p, s.drains[i].command.payload);
    }
  }

  lemma {:induction false} TotalAfterMove(p: Program, s: State, i: nat, move: Move)
    requires Enabled(p, s, ByDrain(i, move)) && S.Sound(s.scheduler) && Scripted(p, s.drains) && !move.Drop?
    ensures Same(Total(p, Apply(p, s, ByDrain(i, move))), Total(p, s))
  {
    hide S.Sound, ExpandEvents, ExpandCommands, Expand, DrainWork, Rest, Queued, DrainsWork, OthersWork, Add, Same;
    var r := Apply(p, s, ByDrain(i, move));
    var rest := Add(ConsumerWork(p, s.consumer), SupervisorWork(p, s));
    var others := OthersWork(p, s.drains, i);
    UpdateWork(p, s.drains, i, r.drains[i]);
    assert Started(r.drains) == Started(s.drains);
    assert SupervisorWork(p, r) == SupervisorWork(p, s) by {
      if move.Report? {
        QueuedAppend(s.control, DrainFinished);
        assert Queued(r.control) == Queued(s.control);
      }
    }
    Gather(Done(s), others, DrainWork(p, s.drains[i]), ExpandEvents(p, Payloads(s.inbox)), rest);
    Gather(Done(s), others, DrainWork(p, r.drains[i]), ExpandEvents(p, Payloads(r.inbox)), rest);
    if move.Put? {
      PutKeepsWork(p, s, i);
    } else {
      MoveKeepsWork(p, s, i, move);
      assert r.inbox == s.inbox;
      SameRefl(Add(ExpandEvents(p, Payloads(s.inbox)), DrainWork(p, s.drains[i])));
    }
    AddRespectsSame(Add(Add(Done(s), others), rest),
                    Add(ExpandEvents(p, Payloads(r.inbox)), DrainWork(p, r.drains[i])),
                    Add(ExpandEvents(p, Payloads(s.inbox)), DrainWork(p, s.drains[i])));
  }

  lemma {:induction false} SameRefl(a: Tally)
    ensures Same(a, a)
  {
  }

  lemma {:induction false} Gather(done: Tally, others: Tally, own: Tally, inbox: Tally, rest: Tally)
    ensures Add(Add(done, Add(others, own)), Add(inbox, rest)) == Add(Add(Add(done, others), rest), Add(inbox, own))
  {
  }

  lemma {:induction false} PutKeepsWork(p: Program, s: State, i: nat)
    requires Enabled(p, s, ByDrain(i, Put)) && S.Sound(s.scheduler) && Scripted(p, s.drains)
    ensures var r := Apply(p, s, ByDrain(i, Put));
            Same(Add(ExpandEvents(p, Payloads(r.inbox)), DrainWork(p, r.drains[i])),
                 Add(ExpandEvents(p, Payloads(s.inbox)), DrainWork(p, s.drains[i])))
  {
    hide S.Sound, ExpandEvents, Expand, Rest;
    var r, d := Apply(p, s, ByDrain(i, Put)), s.drains[i];
    RestOfNext(p, d.command.payload, d.phase.sent);
    ExpandEventsConcat(p, Payloads(s.inbox), [d.phase.event.payload]);
    assert Payloads(r.inbox) == Payloads(s.inbox) + [d.phase.event.payload];
  }

  lemma {:induction false} NewDrainWork(p: Program, s: State, envelope: Envelope<Command>)
    ensures var drains := s.drains + [Drain(envelope, Created)];
            Same(Add(Done(s.(drains := drains)), DrainsWork(p, drains)),
                 Add(Add(Done(s), DrainsWork(p, s.drains)), Expand(p, envelope.payload)))
  {
    hide ExpandEvents, Expand, Rest;
    var drains, c := s.drains + [Drain(envelope, Created)], envelope.payload;
    RestAtStart(p, c);
    assert drains[..|s.drains|] == s.drains;
    assert Started(drains) == Started(s.drains) + [c];
    assert multiset(Started(s.drains) + [c]) == multiset(Started(s.drains)) + multiset{c};
  }

  /** Moving one item's work from the waiting part to the done part. */
  lemma {:induction false} WorkStarts(base: Tally, base': Tally, one: Tally, inbox: Tally, consumer: Tally, waiting: Tally, waiting': Tally)
    requires Same(base', Add(base, one)) && Same(waiting, Add(one, waiting'))
    ensures Same(Add(base', Add(inbox, Add(consumer, waiting'))), Add(base, Add(inbox, Add(consumer, waiting))))
  {
    if base'.finite && inbox.finite && consumer.finite && waiting'.finite {
      assert base'.events == base.events + one.events && waiting.events == one.events + waiting'.events;
    }
  }

  /** Work inside the consumer or waiting for the supervisor, seen from outside. */
  lemma {:induction false} InContext(base: Tally, inbox: Tally, a: Tally, b: Tally)
    requires Same(a, b)
    ensures Same(Add(base, Add(inbox, a)), Add(base, Add(inbox, b)))
  {
    hide Add, Same;
    AddRespectsSame(inbox, a, b);
    AddRespectsSame(base, Add(inbox, a), Add(inbox, b));
  }

  lemma {:induction false} TotalAfterStartRoot(p: Program, s: State)
    requires Inv(p, s) && Enabled(p, s, StartRoot)
    ensures Same(Total(p, Apply(p, s, StartRoot)), Total(p, s))
  {
    hide S.Sound, Matched, Counted, Fenced, ExpandEvents, ExpandCommands, Expand, DrainsWork, Queued, Add;
    NewDrainWork(p, s, s.made[0].command);
    var r := Apply(p, s, StartRoot);
    WorkStarts(Add(Done(s), DrainsWork(p, s.drains)), Add(Done(r), DrainsWork(p, r.drains)),
               Expand(p, s.made[0].command.payload), ExpandEvents(p, Payloads(s.inbox)),
               ConsumerWork(p, s.consumer), SupervisorWork(p, s), SupervisorWork(p, r));
  }

  lemma {:induction false} TotalAfterReceive(p: Program, s: State)
    requires Inv(p, s) && Enabled(p, s, Receive) && !Apply(p, s, Receive).supervisor.Aborting?
    ensures Same(Total(p, Apply(p, s, Receive)), Total(p, s))
  {
    hide S.Sound, Matched, Counted, Fenced, ExpandEvents, ExpandCommands, Expand, DrainsWork, Queued, Add;
    QueuedTail(s.control);
    var r := Apply(p, s, Receive);
    if s.control[0].StartCommand? {
      var c := s.control[0].envelope;
      NewDrainWork(p, s, c);
      QueuedWork(p, c.payload, Queued(s.control[1..]));
      WorkStarts(Add(Done(s), DrainsWork(p, s.drains)), Add(Done(r), DrainsWork(p, r.drains)),
                 Expand(p, c.payload), ExpandEvents(p, Payloads(s.inbox)),
                 ConsumerWork(p, s.consumer), SupervisorWork(p, s), SupervisorWork(p, r));
    } else {
      assert SupervisorWork(p, r) == SupervisorWork(p, s);
    }
  }

  lemma {:induction false} QueuedWork(p: Program, c: Command, rest: seq<Command>)
    ensures Same(ExpandCommands(p, [c] + rest), Add(Expand(p, c), ExpandCommands(p, rest)))
  {
    hide ExpandCommands, Expand;
    ExpandCommandsConcat(p, [c], rest);
    ExpandOneCommand(p, c);
  }

  lemma {:induction false} TotalAfterTake(p: Program, s: State)
    requires S.Sound(s.scheduler) && Enabled(p, s, TakeEvent)
    ensures Same(Total(p, Apply(p, s, TakeEvent)), Total(p, s))
  {
    hide S.Sound, ExpandEvents, ExpandCommands, Expand, DrainsWork, Queued, Add, Same;
    var e, rest := s.inbox[0].payload, Payloads(s.inbox[1..]);
    assert Payloads(s.inbox) == [e] + rest;
    ExpandEventsConcat(p, [e], rest);
    TakeOver(Add(Done(s), DrainsWork(p, s.drains)), ExpandEvents(p, Payloads(s.inbox)),
             ExpandEvents(p, [e]), ExpandEvents(p, rest), SupervisorWork(p, s));
  }

  lemma {:induction false} TakeOver(base: Tally, inbox: Tally, one: Tally, rest: Tally, supervisor: Tally)
    requires Same(inbox, Add(one, rest))
    ensures Same(Add(base, Add(rest, Add(one, supervisor))), Add(base, Add(inbox, Add(NOTHING, supervisor))))
  {
  }

  lemma {:induction false} TotalAfterPublish(p: Program, s: State)
    requires S.Sound(s.scheduler) && Enabled(p, s, PublishEvent)
    ensures Same(Total(p, Apply(p, s, PublishEvent)), Total(p, s))
  {
    hide S.Sound, ExpandEvents, ExpandCommands, Expand, DrainsWork, Queued, Add, Same;
    var r := Apply(p, s, PublishEvent);
    ExpandEventUnfolds(p, s.consumer.event.payload);
    var supervisor := SupervisorWork(p, s);
    SameSides(ConsumerWork(p, s.consumer), ConsumerWork(p, r.consumer), supervisor);
    InContext(Add(Done(s), DrainsWork(p, s.drains)), ExpandEvents(p, Payloads(s.inbox)),
              Add(ConsumerWork(p, r.consumer), supervisor), Add(ConsumerWork(p, s.consumer), supervisor));
  }

  lemma {:induction false} SameSides(a: Tally, b: Tally, rest: Tally)
    requires Same(a, b)
    ensures Same(Add(b, rest), Add(a, rest))
  {
  }

  lemma {:induction false} TotalAfterSend(p: Program, s: State)
    requires S.Sound(s.scheduler) && Enabled(p, s, SendControl) && !s.supervisor.Starting?
    ensures Same(Total(p, Apply(p, s, SendControl)), Total(p, s))
  {
    hide S.Sound, ExpandEvents, ExpandCommands, Expand, DrainsWork, Queued, Add;
    var r, rest := Apply(p, s, SendControl), s.consumer.rest;
    QueuedAppend(s.control, r.control[|s.control|]);
    if rest == [] {
      ExpandNone(p);
      AddNothing(OneEvent(s.consumer.event.payload));
    } else {
      SendKeepsWork(p, s.consumer.event.payload, rest, Queued(s.control));
      InContext(Add(Done(s), DrainsWork(p, s.drains)), ExpandEvents(p, Payloads(s.inbox)),
                Add(ConsumerWork(p, r.consumer), SupervisorWork(p, r)),
                Add(ConsumerWork(p, s.consumer), SupervisorWork(p, s)));
    }
  }

  lemma {:induction false} SendKeepsWork(p: Program, e: Event, rest: seq<Command>, queued: seq<Command>)
    requires rest != []
    ensures Same(Add(Add(OneEvent(e), ExpandCommands(p, rest[1..])), ExpandCommands(p, queued + [rest[0]])),
                 Add(Add(OneEvent(e), ExpandCommands(p, rest)), ExpandCommands(p, queued)))
  {
    hide ExpandCommands, OneEvent;
    assert rest == [rest[0]] + rest[1..];
    ExpandCommandsConcat(p, [rest[0]], rest[1..]);
    ExpandCommandsConcat(p, queued, [rest[0]]);
    PassAcross(OneEvent(e), ExpandCommands(p, [rest[0]]), ExpandCommands(p, rest[1..]), ExpandCommands(p, rest),
               ExpandCommands(p, queued), ExpandCommands(p, queued + [rest[0]]));
  }

  lemma {:induction false} PassAcross(e: Tally, one: Tally, tail: Tally, all: Tally, queued: Tally, queued': Tally)
    requires Same(all, Add(one, tail)) && Same(queued', Add(queued, one))
    ensures Same(Add(Add(e, tail), queued'), Add(Add(e, all), queued))
  {
  }

  lemma {:induction false} TotalAfterYield(p: Program, s: State)
    requires S.Sound(s.scheduler) && Enabled(p, s, YieldEvent)
    ensures Same(Total(p, Apply(p, s, YieldEvent)), Total(p, s))
  {
    hide S.Sound, ExpandEvents, ExpandCommands, Expand, DrainsWork, Queued, Add;
    var r, e := Apply(p, s, YieldEvent), s.consumer.event.payload;
    YieldIsDone(s, e, r);
    HandOver(Done(s), OneEvent(e), DrainsWork(p, s.drains), ExpandEvents(p, Payloads(s.inbox)), SupervisorWork(p, s));
  }

  lemma {:induction false} YieldIsDone(s: State, e: Event, r: State)
    requires s.consumer.Yielding? && e == s.consumer.event.payload
    requires r.stream == s.stream + [s.consumer.event] && r.drains == s.drains
    ensures Done(r) == Add(Done(s), OneEvent(e))
  {
    assert Payloads(r.stream) == Payloads(s.stream) + [e];
    assert multiset(Payloads(s.stream) + [e]) == multiset(Payloads(s.stream)) + multiset{e};
  }

  lemma {:induction false} HandOver(done: Tally, one: Tally, drains: Tally, inbox: Tally, supervisor: Tally)
    ensures Same(Add(Add(Add(done, one), drains), Add(inbox, Add(NOTHING, supervisor))),
                 Add(Add(done, drains), Add(inbox, Add(one, supervisor))))
  {
  }

  // ------------------------------------------------------------------ the invariant

  /** The run is being given up, or has been. */
  predicate GivenUp(s: State) {
    s.supervisor.Aborting? || (s.supervisor.Stopped? && s.supervisor.error.Some?) || s.consumer.Raised?
  }

  ghost predicate Accounted(p: Program, root: Command, s: State) {
    && Scripted(p, s.drains)
    && (GivenUp(s) || Same(Total(p, s), Expand(p, root)))
  }

  lemma {:induction false} AccountedStep(p: Program, root: Command, s: State, a: Action)
    requires Inv(p, s) && Accounted(p, root, s) && Enabled(p, s, a)
    ensures Accounted(p, root, Apply(p, s, a))
  {
    hide S.Sound, Matched, Counted, Fenced, Total, Expand, Scripted, Faults;
    var r := Apply(p, s, a);
    ScriptedStep(p, s, a);
    if GivenUp(r) {
    } else if GivenUp(s) {
      assert a.ExitGroup? && s.supervisor.Aborting?;
      InvStep(p, s, a);
      assert false;
    } else {
      TotalKept(p, s, a);
    }
  }

  lemma {:induction false} TotalKept(p: Program, s: State, a: Action)
    requires Inv(p, s) && Scripted(p, s.drains) && Enabled(p, s, a) && !GivenUp(s) && !GivenUp(Apply(p, s, a))
    ensures Same(Total(p, Apply(p, s, a)), Total(p, s))
  {
    hide S.Sound, Matched, Counted, Fenced, Others, Total, Same, Faults, Scripted;
    match a {
      case StartRoot => TotalAfterStartRoot(p, s);
      case Receive => TotalAfterReceive(p, s);
      case ByDrain(i, move) => TotalAfterMove(p, s, i, move);
      case TakeEvent => TotalAfterTake(p, s);
      case PublishEvent => TotalAfterPublish(p, s);
      case SendControl => TotalAfterSend(p, s);
      case YieldEvent => TotalAfterYield(p, s);
      case _ => TotalStays(p, s, a);
    }
  }

  /** Steps of the task group and of other runs leave all work where it is. */
  lemma {:induction false} TotalStays(p: Program, s: State, a: Action)
    requires S.Sound(s.scheduler) && Enabled(p, s, a) && !GivenUp(s) && !GivenUp(Apply(p, s, a))
    requires a.NoteFailure? || a.ExitGroup? || a.SeeStopped? || Foreign(a)
    ensures Same(Total(p, Apply(p, s, a)), Total(p, s))
  {
    hide S.Sound, ExpandEvents, ExpandCommands, Expand, DrainsWork, Queued, Others, Add, Same, Faults;
    SameRefl(Total(p, s));
  }

  lemma {:induction false} AccountedAtBeginning(p: Program, root: Command, origin: string, correlation: string)
    requires Begin(p, root, origin, correlation).Open?
    ensures Accounted(p, root, Begin(p, root, origin, correlation).state)
  {
    var s := Begin(p, root, origin, correlation).state;
    hide Expand, ExpandEvents, ExpandCommands;
    ExpandNone(p);
    assert Payloads(s.inbox) == [] && Payloads(s.stream) == [] && Started(s.drains) == [];
    assert Done(s) == NOTHING && DrainsWork(p, s.drains) == NOTHING;
    assert SupervisorWork(p, s) == Add(Expand(p, root), NOTHING);
    AddNothing(Expand(p, root));
  }

  lemma {:induction false} AccountedAlong(p: Program, root: Command, s: State, actions: seq<Action>, t: State)
    requires Inv(p, s) && Accounted(p, root, s) && Runs(p, s, actions, t)
    ensures Inv(p, t) && Accounted(p, root, t)
    decreases |actions|
  {
    hide Inv, Accounted;
    if actions != [] {
      InvStep(p, s, actions[0]);
      AccountedStep(p, root, s, actions[0]);
      AccountedAlong(p, root, Apply(p, s, actions[0]), actions[1..], t);
    }
  }

  // ------------------------------------------------------------------- the theorems

  lemma {:induction false} ReachableFacts(p: Program, root: Command, origin: string, correlation: string,
                                          actions: seq<Action>, t: State)
    requires Begin(p, root, origin, correlation).Open?
    requires Runs(p, Begin(p, root, origin, correlation).state, actions, t)
    ensures Inv(p, t) && Accounted(p, root, t)
  {
    hide Inv, Accounted;
    var s := Begin(p, root, origin, correlation).state;
    InvAtBeginning(p, root, origin, correlation);
    AccountedAtBeginning(p, root, origin, correlation);
    AccountedAlong(p, root, s, actions, t);
  }

  /** The root command's expansion is finite, nothing in it fails, and it fits the step budget. */
  ghost predicate Completes(p: Program, root: Command) {
    Expand(p, root).finite && (p.maxSteps.Some? ==> |Expand(p, root).commands| <= p.maxSteps.value)
  }

  lemma {:induction false} FinishedWork(p: Program, s: State)
    requires Inv(p, s) && s.consumer.Finished?
    ensures Total(p, s) == Done(s)
    ensures |Done(s).commands| == s.steps
  {
    hide ExpandEvents, ExpandCommands, Expand, S.Sound, Matched, Counted, Fenced, DrainsWork, Queued;
    assert Queued([]) == [] by {
      QueuedNone();
    }
    FinishedIsClean(p, s);
    ExpandNone(p);
    EndedWork(p, s.drains);
    assert Payloads(s.inbox) == [];
  }

  lemma {:induction false} QueuedNone()
    ensures Queued([]) == []
  {
  }

  lemma {:induction false} EndedWork(p: Program, drains: seq<Drain>)
    requires forall i | 0 <= i < |drains| :: drains[i].phase == Ended(false)
    ensures DrainsWork(p, drains) == NOTHING
  {
    if drains != [] {
      assert forall i | 0 <= i < |drains| - 1 :: drains[..|drains| - 1][i] == drains[i];
      EndedWork(p, drains[..|drains| - 1]);
    }
  }

  /**
    Confluence: a run that ends normally, under whatever schedule, has yielded exactly the events
    of the depth-first walk of the root command and started exactly its commands, each as often.
   */
  lemma {:induction false} NormalEndIsExpansion(p: Program, root: Command, origin: string, correlation: string,
                                                actions: seq<Action>, t: State)
    requires Begin(p, root, origin, correlation).Open?
    requires Runs(p, Begin(p, root, origin, correlation).state, actions, t)
    requires t.consumer.Finished?
    ensures exists fuel: nat ::
              Walk(p, root, fuel).Some?
              && multiset(Payloads(t.stream)) == multiset(Walk(p, root, fuel).value.events)
              && multiset(Started(t.drains)) == multiset(Walk(p, root, fuel).value.commands)
    ensures Completes(p, root) && t.steps == |Expand(p, root).commands|
  {
    hide Total, S.Sound, Matched, Counted, Fenced, Scripted;
    ReachableFacts(p, root, origin, correlation, actions, t);
    FinishedWork(p, t);
    var fuel: nat :| Walk(p, root, fuel).Some? && Expand(p, root) == Weigh(Walk(p, root, fuel));
  }

  /** Started and queued commands are part of a finite total. */
  lemma {:induction false} DoneIsWithin(p: Program, s: State)
    requires Total(p, s).finite
    ensures s.consumer.Holding? ==> ExpandEvents(p, [s.consumer.event.payload]).finite
    ensures DrainsWork(p, s.drains).finite
    ensures ExpandCommands(p, Queued(s.control)).finite
    ensures |s.drains| + |ExpandCommands(p, Queued(s.control)).commands| <= |Total(p, s).commands|
  {
    hide ExpandEvents, ExpandCommands, Expand, DrainsWork, Queued;
    var waiting, all := ExpandCommands(p, Queued(s.control)).commands, Total(p, s).commands;
    assert Done(s).commands + waiting <= all;
    assert all == (Done(s).commands + waiting) + (all - (Done(s).commands + waiting));
  }

  lemma {:induction false} FailedIsEndless(p: Program, drains: seq<Drain>, i: nat)
    requires i < |drains| && Failed(drains[i])
    ensures !DrainsWork(p, drains).finite
  {
    UpdateWork(p, drains, i, drains[i]);
  }

  /** A queued start is within a finite budget that covers the total. */
  lemma {:induction false} QueuedFits(p: Program, s: State)
    requires Inv(p, s) && Total(p, s).finite && s.control != [] && s.control[0].StartCommand?
    requires p.maxSteps.Some? ==> |Total(p, s).commands| <= p.maxSteps.value
    ensures !OverBudget(p, s)
  {
    hide S.Sound, Matched, Counted, Fenced, Total, Expand, ExpandCommands, Queued;
    var c, rest := s.control[0].envelope.payload, Queued(s.control[1..]);
    DoneIsWithin(p, s);
    QueuedTail(s.control);
    QueuedWork(p, c, rest);
    ExpandUnfolds(p, c);
    assert c in ExpandCommands(p, Queued(s.control)).commands;
  }

  /** While the expansion is finite, in budget and accounted for, no step gives the run up. */
  lemma {:induction false} NeverGivenUp(p: Program, root: Command, s: State, a: Action)
    requires Inv(p, s) && Accounted(p, root, s) && Completes(p, root) && !GivenUp(s) && Enabled(p, s, a)
    ensures !GivenUp(Apply(p, s, a))
  {
    hide S.Sound, Matched, Counted, Fenced, Scripted, Expand, Total, DrainsWork, ExpandEvents, ExpandCommands;
    DoneIsWithin(p, s);
    match a {
      case Receive =>
        if s.control[0].StartCommand? {
          QueuedFits(p, s);
        }
      case NoteFailure(i) =>
        FailedIsEndless(p, s.drains, i);
      case ExitGroup =>
        FaultsAreFailures(s.drains);
        if i: nat :| i < |s.drains| && Failed(s.drains[i]) {
          FailedIsEndless(p, s.drains, i);
        }
      case PublishEvent => ExpandEventUnfolds(p, s.consumer.event.payload);
      case SeeStopped => InvStep(p, s, a);
      case _ =>
    }
  }
}
