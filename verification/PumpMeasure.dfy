/**
  How many steps a pump can still take: a measure over its whole state, given what each event and
  each command that is still to come may weigh. Every step of the run uses some of it.
 */
module PumpMeasure {
  import opened Messages
  import opened Buses
  import opened Pump
  import S = Scheduler

  // ------------------------------------------------------------------------ sums

  function Sum<T>(f: T -> int, xs: seq<T>): int {
    if xs == [] then 0 else Sum(f, xs[..|xs| - 1]) + f(xs[|xs| - 1])
  }

  lemma {:induction false} SumAppend<T>(f: T -> int, xs: seq<T>, x: T)
    ensures Sum(f, xs + [x]) == Sum(f, xs) + f(x)
  {
    assert (xs + [x])[..|xs|] == xs;
  }

  lemma {:induction false} SumTail<T>(f: T -> int, xs: seq<T>)
    requires xs != []
    ensures Sum(f, xs) == f(xs[0]) + Sum(f, xs[1..])
  {
    if |xs| > 1 {
      SumTail(f, xs[..|xs| - 1]);
      assert xs[1..][..|xs| - 2] == xs[..|xs| - 1][1..];
    }
  }

  lemma {:induction false} SumUpdate<T>(f: T -> int, xs: seq<T>, i: nat, x: T)
    requires i < |xs|
    ensures Sum(f, xs[i := x]) == Sum(f, xs) - f(xs[i]) + f(x)
  {
    var n := |xs| - 1;
    if i < n {
      SumUpdate(f, xs[..n], i, x);
      assert xs[i := x][..n] == xs[..n][i := x];
    } else {
      assert xs[i := x][..n] == xs[..n];
    }
  }

  lemma {:induction false} SumNotNegative<T>(f: T -> int, xs: seq<T>)
    requires forall x :: f(x) >= 0
    ensures Sum(f, xs) >= 0
  {
    if xs != [] {
      SumNotNegative(f, xs[..|xs| - 1]);
    }
  }

  // ----------------------------------------------------------------------- weights

  /** What an event its handler has not yielded, and a command its consumer has not sent, may come to. */
  datatype Weights = Weights(event: Event -> int, command: Command -> int)

  /** Enough for the event's and the command's own passage through the pump. */
  ghost predicate Weighty(w: Weights) {
    && (forall e :: w.event(e) >= 7)
    && (forall c :: w.command(c) >= 2)
  }

  /** The commands an event calls for; none if a reaction fails. */
  function Answered(p: Program, e: Event): seq<Command> {
    match Publish(p.subscriptions, e)
    case Fails => []
    case Commands(commands) => commands
  }

  /** The event's weight covers what it calls for: it is emitted, put, taken, published, acknowledged, received and yielded. */
  predicate CoversEvent(p: Program, w: Weights, e: Event) {
    w.event(e) >= 7 + Sum(w.command, Answered(p, e))
  }

  /** The command's weight covers what it yields: it is sent, received, dispatched, admitted, ended, reported and received. */
  predicate CoversCommand(p: Program, w: Weights, c: Command) {
    w.command(c) >= 7 + Sum(w.event, ScriptOf(p, c).events)
  }

  // ----------------------------------------------------------------------- the measure

  /** An event in the inbox has been emitted and put. */
  function InboxSteps(w: Weights): Envelope<Event> -> int {
    (e: Envelope<Event>) => w.event(e.payload) - 2
  }

  function HandlerSteps(p: Program, w: Weights, c: Command, sent: nat): int {
    var events := ScriptOf(p, c).events;
    3 + if sent <= |events| then Sum(w.event, events[sent..]) else 0
  }

  function DrainSteps(p: Program, w: Weights): Drain -> int {
    (d: Drain) =>
      match d.phase
      case Created => HandlerSteps(p, w, d.command.payload, 0) + 2
      case Admitting(_) => HandlerSteps(p, w, d.command.payload, 0) + 1
      case Handling(_, sent) => HandlerSteps(p, w, d.command.payload, sent)
      case Putting(_, sent, event) => HandlerSteps(p, w, d.command.payload, sent + 1) + w.event(event.payload) - 1
      case Finishing(_) => 2
      case Ended(_) => 0
      case Cancelled(held) => if held.Some? then 1 else 0
  }

  function ConsumerSteps(w: Weights, c: Consumer): int {
    match c
    case Reading => 1
    case Holding(event) => w.event(event.payload) - 2
    case Sending(_, rest) => 4 + Sum(w.command, rest)
    case Yielding(_) => 2
    case Finished => 0
    case Raised(_, _) => 0
  }

  /** A start in the control queue has been sent. */
  function MessageSteps(w: Weights): Control -> int {
    (m: Control) => if m.StartCommand? then w.command(m.envelope.payload) - 1 else 1
  }

  function SupervisorSteps(w: Weights, s: State): int {
    match s.supervisor
    case Starting => 1 + if s.made != [] && s.made[0].CommandMade? then w.command(s.made[0].command.payload) else 0
    case Serving => 2
    case Leaving => 1
    case Aborting(_) => 1
    case Stopped(_) => 0
  }

  function StepsLeft(p: Program, w: Weights, s: State): int {
    Sum(DrainSteps(p, w), s.drains) + Sum(InboxSteps(w), s.inbox) + ConsumerSteps(w, s.consumer)
    + Sum(MessageSteps(w), s.control) + SupervisorSteps(w, s)
  }

  lemma {:induction false} StepsLeftNotNegative(p: Program, w: Weights, s: State)
    requires Weighty(w)
    ensures StepsLeft(p, w, s) >= 0
  {
    hide Sum, Weighty;
    forall d: Drain ensures DrainSteps(p, w)(d) >= 0 {
      DrainNotNegative(p, w, d);
    }
    forall e: Envelope<Event> ensures InboxSteps(w)(e) >= 0 {
      EnoughForEvent(w, e.payload);
    }
    forall m: Control ensures MessageSteps(w)(m) >= 0 {
      EnoughForMessage(w, m);
    }
    SumNotNegative(DrainSteps(p, w), s.drains);
    SumNotNegative(InboxSteps(w), s.inbox);
    SumNotNegative(MessageSteps(w), s.control);
    ConsumerNotNegative(w, s);
  }

  lemma {:induction false} DrainNotNegative(p: Program, w: Weights, d: Drain)
    requires Weighty(w)
    ensures DrainSteps(p, w)(d) >= 0
  {
    hide HandlerSteps;
    match d.phase {
      case Handling(_, sent) => HandlerNotNegative(p, w, d.command.payload, sent);
      case Putting(_, sent, event) =>
        HandlerNotNegative(p, w, d.command.payload, sent + 1);
        EnoughForEvent(w, event.payload);
      case _ => HandlerNotNegative(p, w, d.command.payload, 0);
    }
  }

  lemma {:induction false} EnoughForEvent(w: Weights, e: Event)
    requires Weighty(w)
    ensures w.event(e) >= 7
  {
  }

  lemma {:induction false} EnoughForMessage(w: Weights, m: Control)
    requires Weighty(w)
    ensures MessageSteps(w)(m) >= 1
  {
    if m.StartCommand? {
      assert w.command(m.envelope.payload) >= 2;
    }
  }

  lemma {:induction false} ConsumerNotNegative(w: Weights, s: State)
    requires Weighty(w)
    ensures ConsumerSteps(w, s.consumer) >= 0 && SupervisorSteps(w, s) >= 0
  {
    if s.consumer.Sending? {
      SumNotNegative(w.command, s.consumer.rest);
    }
  }

  lemma {:induction false} HandlerNotNegative(p: Program, w: Weights, c: Command, sent: nat)
    requires Weighty(w)
    ensures HandlerSteps(p, w, c, sent) >= 3
  {
    var events := ScriptOf(p, c).events;
    if sent <= |events| {
      SumNotNegative(w.event, events[sent..]);
    }
  }

  // ---------------------------------------------------------------- every step uses some

  lemma {:induction false} MoveUses(p: Program, w: Weights, s: State, i: nat, move: Move)
    requires Weighty(w) && i < |s.drains| && CanMove(p, s, s.drains[i], move)
    ensures var d := s.drains[i];
            DrainSteps(p, w)(d.(phase := NextPhase(p, s, d, move)))
            + (if move.Put? then InboxSteps(w)(d.phase.event) else if move.Report? then 1 else 0)
            < DrainSteps(p, w)(d)
  {
    hide Sum, HandlerSteps, Weighty;
    var d := s.drains[i];
    match d.phase {
      case Handling(_, sent) =>
        HandlerNotNegative(p, w, d.command.payload, sent);
        if move.Emit? {
          HandlerYields(p, w, d.command.payload, sent);
        }
      case Putting(_, sent, event) =>
        HandlerNotNegative(p, w, d.command.payload, sent + 1);
        EnoughForEvent(w, event.payload);
      case _ => HandlerNotNegative(p, w, d.command.payload, 0);
    }
  }

  lemma {:induction false} HandlerYields(p: Program, w: Weights, c: Command, sent: nat)
    requires sent < |ScriptOf(p, c).events|
    ensures HandlerSteps(p, w, c, sent) == w.event(ScriptOf(p, c).events[sent]) + HandlerSteps(p, w, c, sent + 1)
  {
    var events := ScriptOf(p, c).events;
    SumTail(w.event, events[sent..]);
    assert events[sent..][1..] == events[sent + 1..];
  }

  lemma {:induction false} DrainUses(p: Program, w: Weights, s: State, i: nat, move: Move)
    requires Weighty(w) && Enabled(p, s, ByDrain(i, move)) && S.Sound(s.scheduler)
    ensures StepsLeft(p, w, Apply(p, s, ByDrain(i, move))) < StepsLeft(p, w, s)
  {
    hide S.Sound, Sum, DrainSteps, InboxSteps, Weighty;
    var r := Apply(p, s, ByDrain(i, move));
    MoveUses(p, w, s, i, move);
    SumUpdate(DrainSteps(p, w), s.drains, i, r.drains[i]);
    if move.Put? {
      SumAppend(InboxSteps(w), s.inbox, s.drains[i].phase.event);
    }
    if move.Report? {
      SumAppend(MessageSteps(w), s.control, DrainFinished);
    }
  }

  /** The commands whose start this step attempts. */
  function StartsNow(s: State, a: Action): seq<Command> {
    if a.StartRoot? && s.made != [] && s.made[0].CommandMade? then [s.made[0].command.payload]
    else if a.Receive? && s.control != [] && s.control[0].StartCommand? then [s.control[0].envelope.payload]
    else []
  }

  lemma {:induction false} StartUses(p: Program, w: Weights, s: State, envelope: Envelope<Command>)
    requires Weighty(w) && !OverBudget(p, s) && !s.supervisor.Starting?
    ensures StepsLeft(p, w, StartDrain(p, s, envelope)) ==
            StepsLeft(p, w, s) + 5 + Sum(w.event, ScriptOf(p, envelope.payload).events)
  {
    hide Sum;
    var events := ScriptOf(p, envelope.payload).events;
    var d := Drain(envelope, Created);
    SumAppend(DrainSteps(p, w), s.drains, d);
    assert events[0..] == events;
    assert HandlerSteps(p, w, envelope.payload, 0) == 3 + Sum(w.event, events);
    assert DrainSteps(p, w)(d) == 5 + Sum(w.event, events);
  }

  lemma {:induction false} ReceiveUses(p: Program, w: Weights, s: State)
    requires Weighty(w) && Enabled(p, s, Receive) && S.Sound(s.scheduler)
    ensures var r := Apply(p, s, Receive);
            && (StartsNow(s, Receive) == [] ==> r.steps == s.steps && StepsLeft(p, w, r) < StepsLeft(p, w, s))
            && (StartsNow(s, Receive) != [] ==>
                  || (r.steps == s.steps && StepsLeft(p, w, r) < StepsLeft(p, w, s))
                  || (r.steps == s.steps + 1 &&
                      (CoversCommand(p, w, StartsNow(s, Receive)[0]) ==> StepsLeft(p, w, r) < StepsLeft(p, w, s))))
  {
    hide S.Sound, Sum, DrainSteps;
    SumTail(MessageSteps(w), s.control);
    var s' := s.(control := s.control[1..]);
    if s.control[0].StartCommand? && !OverBudget(p, s') {
      StartUses(p, w, s', s.control[0].envelope);
    }
  }

  lemma {:induction false} RootUses(p: Program, w: Weights, s: State)
    requires Weighty(w) && Enabled(p, s, StartRoot) && S.Sound(s.scheduler)
    ensures var r := Apply(p, s, StartRoot);
            || (r.steps == s.steps && StepsLeft(p, w, r) < StepsLeft(p, w, s))
            || (r.steps == s.steps + 1 &&
                (CoversCommand(p, w, StartsNow(s, StartRoot)[0]) ==> StepsLeft(p, w, r) < StepsLeft(p, w, s)))
  {
    hide S.Sound, Sum, DrainSteps;
    var s' := s.(supervisor := Serving);
    if !OverBudget(p, s') {
      StartUses(p, w, s', s.made[0].command);
    }
  }

  lemma {:induction false} ConsumingUses(p: Program, w: Weights, s: State, a: Action)
    requires Weighty(w) && Enabled(p, s, a) && S.Sound(s.scheduler)
    requires a.TakeEvent? || a.PublishEvent? || a.SendControl? || a.YieldEvent? || a.SeeStopped?
    requires s.made != [] && (a.PublishEvent? ==> CoversEvent(p, w, s.consumer.event.payload))
    ensures StepsLeft(p, w, Apply(p, s, a)) < StepsLeft(p, w, s)
  {
    hide S.Sound, Sum, DrainSteps;
    if a.TakeEvent? {
      SumTail(InboxSteps(w), s.inbox);
    } else if a.PublishEvent? {
      NothingToSend(w);
    } else if a.SendControl? {
      SendUses(p, w, s);
    } else if a.SeeStopped? {
      ConsumerNotNegative(w, s);
      if s.consumer.Sending? {
        SumNotNegative(w.command, s.consumer.rest);
      }
    }
  }

  lemma {:induction false} SendUses(p: Program, w: Weights, s: State)
    requires s.consumer.Sending? && s.made != []
    ensures StepsLeft(p, w, Send(s)) == StepsLeft(p, w, s) - 1
  {
    hide Sum, DrainSteps;
    var rest := s.consumer.rest;
    SumAppend(MessageSteps(w), s.control, Send(s).control[|s.control|]);
    if rest != [] {
      SumTail(w.command, rest);
    } else {
      NothingToSend(w);
    }
  }

  lemma {:induction false} NothingToSend(w: Weights)
    ensures Sum(w.command, []) == 0
  {
  }

  /**
    Every step of the run starts one more drain or leaves fewer steps; it leaves fewer anyway if
    it starts a command whose weight covers what it yields.
   */
  lemma {:induction false} StepUses(p: Program, w: Weights, s: State, a: Action)
    requires Weighty(w) && Enabled(p, s, a) && S.Sound(s.scheduler) && !Foreign(a)
    requires s.made != [] && (a.PublishEvent? ==> CoversEvent(p, w, s.consumer.event.payload))
    ensures var r := Apply(p, s, a);
            || (r.steps == s.steps && StepsLeft(p, w, r) < StepsLeft(p, w, s))
            || (r.steps == s.steps + 1 && StartsNow(s, a) != [] &&
                (CoversCommand(p, w, StartsNow(s, a)[0]) ==> StepsLeft(p, w, r) < StepsLeft(p, w, s)))
  {
    hide S.Sound, Sum, DrainSteps, Faults, Weighty, CoversCommand, CoversEvent;
    match a {
      case StartRoot => RootUses(p, w, s);
      case Receive => ReceiveUses(p, w, s);
      case ByDrain(i, move) => DrainUses(p, w, s, i, move);
      case NoteFailure(_) =>
      case ExitGroup =>
      case _ => ConsumingUses(p, w, s, a);
    }
  }

  /** What other runs do leaves this one's steps as they are. */
  lemma {:induction false} OthersUseNothing(p: Program, w: Weights, s: State, a: Action)
    requires Foreign(a) && Enabled(p, s, a) && S.Sound(s.scheduler)
    ensures Apply(p, s, a) == s.(scheduler := Apply(p, s, a).scheduler)
    ensures StepsLeft(p, w, Apply(p, s, a)) == StepsLeft(p, w, s)
  {
    hide S.Sound, Sum;
  }
}
