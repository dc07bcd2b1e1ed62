/**
  The runtime pump (runtime.py, `RuntimePump.run_envelope`) as a protocol.

  One supervisor, one drain per started command and the consumer share two bounded queues and
  two counters. A `State` holds all of it, an `Action` is the code one of them runs between
  two suspension points, and a run is any sequence of enabled actions.
 */
module Pump {
  import opened Messages
  import opened Buses
  import Scheduler

  /** A scheduler as it may be found between two steps of its users. */
  type SharedQueue = q: Scheduler.Queue | Scheduler.Sound(q) witness Scheduler.EMPTY

  /** What does not change during a run. `found` is the scheduler as the run finds it. */
  datatype Program = Program(
    bindings: Bindings,
    subscriptions: seq<Subscription>,
    inboxSize: nat,
    maxSteps: Option<nat>,
    found: SharedQueue)

  datatype Control = StartCommand(envelope: Envelope<Command>) | EventAcknowledged | DrainFinished

  datatype Budget = Budget(limit: nat, attempted: nat, cause: Envelope<Command>)

  /** The exception group a task group raises: its body's error and its children's. */
  datatype Group = Group(budget: Option<Budget>, faults: seq<Envelope<Command>>)

  /** `Leaving`: the idle `break` was taken. `Aborting`: the group is cancelling its tasks. */
  datatype Supervisor =
    | Starting
    | Serving
    | Leaving
    | Aborting(budget: Option<Budget>)
    | Stopped(error: Option<Group>)

  /**
    Where a drain is. `Admitting` holds a ticket that may not be granted yet, `Handling` has put
    `sent` events, `Putting` has counted the next one but not put it, `Finishing` has left the
    handler and its admission but not reported, `Ended` has reported. A drain cancelled inside
    `inbox.put` keeps its ticket until its generator is finalised.
   */
  datatype Phase =
    | Created
    | Admitting(ticket: nat)
    | Handling(ticket: nat, sent: nat)
    | Putting(ticket: nat, sent: nat, event: Envelope<Event>)
    | Finishing(failed: bool)
    | Ended(failed: bool)
    | Cancelled(held: Option<nat>)

  datatype Drain = Drain(command: Envelope<Command>, phase: Phase)

  datatype Error = SupervisorError(group: Group) | ReactionError(event: Envelope<Event>) | SupervisorGone

  /**
    `Sending` has published `event` and still has to send the start of the commands in `rest`;
    `Raised` had taken `held`, if any, and not acknowledged it.
   */
  datatype Consumer =
    | Reading
    | Holding(event: Envelope<Event>)
    | Sending(event: Envelope<Event>, rest: seq<Command>)
    | Yielding(event: Envelope<Event>)
    | Finished
    | Raised(held: Option<Envelope<Event>>, error: Error)

  /** The envelopes of a run in the order the factory made them; an envelope's id is its index. */
  datatype Record = CommandMade(command: Envelope<Command>) | EventMade(event: Envelope<Event>)

  datatype State = State(
    inbox: seq<Envelope<Event>>,
    control: seq<Control>,
    activeTasks: int,
    pendingEvents: int,
    steps: nat,
    supervisor: Supervisor,
    drains: seq<Drain>,
    consumer: Consumer,
    stream: seq<Envelope<Event>>,
    made: seq<Record>,
    scheduler: Scheduler.Queue)

  // -------------------------------------------------------------------- opening

  datatype Opened = Rejected | Open(state: State)

  /** Sizes and budgets below one are rejected before anything starts. */
  predicate Runnable(p: Program) {
    p.inboxSize >= 1 && (p.maxSteps.Some? ==> p.maxSteps.value >= 1)
  }

  function RootOf(command: Command, origin: string, correlation: string): Envelope<Command> {
    Create<Command, Event>(0, correlation, command, origin, None)
  }

  function Begin(p: Program, command: Command, origin: string, correlation: string): Opened {
    if !Runnable(p) then Rejected
    else Open(State([], [], 0, 0, 0, Starting, [], Reading, [],
                    [CommandMade(RootOf(command, origin, correlation))], p.found))
  }

  // -------------------------------------------------------------------- actions

  /** What a drain does next. */
  datatype Move =
    | Ask      // dispatch and ask for admission
    | Enter    // the admission was granted
    | Emit     // the handler yields an event, count it
    | Put      // the inbox has room
    | Finish   // the handler ends, give up the admission
    | Report   // the control queue has room for the final report
    | Drop     // cancelled by its task group
    | Release  // a generator abandoned inside `inbox.put` is finalised

  datatype Action =
    | StartRoot                // supervise: start the root command
    | Receive                  // supervise: take and process one control message, test for idleness
    | NoteFailure(child: nat)  // task group: a child has failed, cancel the rest
    | ExitGroup                // task group: all children are done
    | ByDrain(drain: nat, move: Move)
    | TakeEvent                // consumer: next_event gets an event
    | PublishEvent             // consumer: run the reactions
    | SendControl              // consumer: send_control puts a start or the acknowledgement
    | YieldEvent               // consumer: hand the event to the caller
    | SeeStopped               // consumer: next_event or send_control finds the supervisor done
    | OthersArrive(claims: Scheduler.Claims)  // another run's command asks for admission
    | OthersLeave(ticket: nat)                // another run's ticket leaves, admitted or not

  /** A step of some other run on the shared scheduler. */
  predicate Foreign(a: Action) {
    a.OthersArrive? || a.OthersLeave?
  }

  function TicketOf(phase: Phase): Option<nat> {
    match phase
    case Admitting(ticket) => Some(ticket)
    case Handling(ticket, _) => Some(ticket)
    case Putting(ticket, _, _) => Some(ticket)
    case Cancelled(held) => held
    case _ => None
  }

  /** Ticket `id` is in the scheduler and in no hands of this run. */
  predicate Others(s: State, id: nat) {
    && id < |s.scheduler.futures| && Scheduler.Present(s.scheduler, id)
    && forall i | 0 <= i < |s.drains| :: TicketOf(s.drains[i].phase) != Some(id)
  }

  function ScriptOf(p: Program, command: Command): (s: Script)
    ensures Dispatch(p.bindings, command).Refused? ==> s == Script([], Raises)
  {
    match Dispatch(p.bindings, command)
    case Refused => Script([], Raises)
    case Stream(_, script) => script
  }

  /** A planned command's script is what its bound handler does. */
  lemma {:induction false} ScriptIsHandlers(p: Program, command: Command)
    ensures forall claims | PlannedAs(p.bindings, command, claims) :: ScriptOf(p, command) == p.bindings[command.kind].handler(command)
  {
    DispatchIsPlanned(p.bindings, command);
  }

  predicate Over(s: State) {
    s.consumer.Finished? || s.consumer.Raised?
  }

  predicate TasksRun(s: State) {
    s.supervisor.Serving? || s.supervisor.Leaving?
  }

  predicate Settled(d: Drain) {
    d.phase.Ended? || d.phase.Cancelled?
  }

  predicate Idle(s: State) {
    s.activeTasks == 0 && s.pendingEvents == 0 && s.control == []
  }

  predicate OverBudget(p: Program, s: State) {
    p.maxSteps.Some? && s.steps + 1 > p.maxSteps.value
  }

  /** The commands of the drains that failed, in starting order. */
  function Faults(drains: seq<Drain>): seq<Envelope<Command>> {
    if drains == [] then []
    else
      var last := drains[|drains| - 1];
      Faults(drains[..|drains| - 1]) + if last.phase == Ended(true) then [last.command] else []
  }

  predicate CanMove(p: Program, s: State, d: Drain, move: Move) {
    match move
    case Ask => TasksRun(s) && d.phase.Created?
    case Enter =>
      && TasksRun(s) && d.phase.Admitting?
      && d.phase.ticket < |s.scheduler.futures| && s.scheduler.futures[d.phase.ticket] == Scheduler.Granted
    case Emit => TasksRun(s) && d.phase.Handling? && d.phase.sent < |ScriptOf(p, d.command.payload).events|
    case Put => TasksRun(s) && d.phase.Putting? && |s.inbox| < p.inboxSize
    case Finish => TasksRun(s) && d.phase.Handling? && d.phase.sent >= |ScriptOf(p, d.command.payload).events|
    case Report => TasksRun(s) && d.phase.Finishing? && |s.control| < p.inboxSize
    case Drop =>
      s.supervisor.Aborting? && !Settled(d) && (d.phase.Admitting? ==> d.phase.ticket < |s.scheduler.futures|)
    case Release => d.phase.Cancelled? && d.phase.held.Some?
  }

  predicate Enabled(p: Program, s: State, a: Action) {
    && !Over(s)
    && match a
       case StartRoot => s.supervisor.Starting? && s.made != [] && s.made[0].CommandMade?
       case Receive => s.supervisor.Serving? && s.control != []
       case NoteFailure(i) => s.supervisor.Serving? && i < |s.drains| && s.drains[i].phase == Ended(true)
       case ExitGroup =>
         (s.supervisor.Leaving? || s.supervisor.Aborting?) && forall d | d in s.drains :: Settled(d)
       case ByDrain(i, move) => i < |s.drains| && CanMove(p, s, s.drains[i], move)
       case TakeEvent => s.consumer.Reading? && s.inbox != []
       case PublishEvent => s.consumer.Holding?
       case SendControl => s.consumer.Sending? && |s.control| < p.inboxSize
       case YieldEvent => s.consumer.Yielding?
       case SeeStopped =>
         && s.supervisor.Stopped?
         && ((s.consumer.Reading? && s.inbox == []) || (s.consumer.Sending? && |s.control| >= p.inboxSize))
       case OthersArrive(_) => true
       case OthersLeave(ticket) => Others(s, ticket)
  }

  // ----------------------------------------------------------- what actions do

  /** `start`: refuse the step beyond the budget, else create the drain's task. */
  function StartDrain(p: Program, s: State, envelope: Envelope<Command>): State {
    if OverBudget(p, s) then
      s.(supervisor := Aborting(Some(Budget(p.maxSteps.value, s.steps + 1, envelope))))
    else
      s.(steps := s.steps + 1, activeTasks := s.activeTasks + 1, drains := s.drains + [Drain(envelope, Created)])
  }

  function BreakIfIdle(s: State): State {
    if s.supervisor.Serving? && Idle(s) then s.(supervisor := Leaving) else s
  }

  function Process(p: Program, s: State, message: Control): State {
    match message
    case StartCommand(envelope) => BreakIfIdle(StartDrain(p, s, envelope))
    case EventAcknowledged => BreakIfIdle(s.(pendingEvents := s.pendingEvents - 1))
    case DrainFinished => BreakIfIdle(s.(activeTasks := s.activeTasks - 1))
  }

  function Exit(s: State): State {
    var faults := Faults(s.drains);
    var budget := if s.supervisor.Aborting? then s.supervisor.budget else None;
    s.(supervisor := Stopped(if budget.None? && faults == [] then None else Some(Group(budget, faults))))
  }

  /** Where the drain's next move takes it. */
  function NextPhase(p: Program, s: State, d: Drain, move: Move): Phase
    requires CanMove(p, s, d, move)
  {
    match move
    case Ask => if Dispatch(p.bindings, d.command.payload).Refused? then Finishing(true) else Admitting(|s.scheduler.futures|)
    case Enter => Handling(d.phase.ticket, 0)
    case Emit => Putting(d.phase.ticket, d.phase.sent, NextEvent(p, s, d))
    case Put => Handling(d.phase.ticket, d.phase.sent + 1)
    case Finish => Finishing(ScriptOf(p, d.command.payload).ending.Raises?)
    case Report => Ended(d.phase.failed)
    case Drop => Cancelled(if d.phase.Putting? then Some(d.phase.ticket) else None)
    case Release => Cancelled(None)
  }

  function NextEvent(p: Program, s: State, d: Drain): Envelope<Event>
    requires CanMove(p, s, d, Emit)
  {
    Caused(|s.made|, ScriptOf(p, d.command.payload).events[d.phase.sent], d.command)
  }

  /** What the move does to the scheduler. */
  function NextQueue(p: Program, s: State, d: Drain, move: Move): Scheduler.Queue
    requires CanMove(p, s, d, move) && Scheduler.Sound(s.scheduler)
  {
    match move
    case Ask =>
      (match Dispatch(p.bindings, d.command.payload)
       case Refused => s.scheduler
       case Stream(claims, _) => Scheduler.Arrive(s.scheduler, claims))
    case Finish => Scheduler.Leave(s.scheduler, d.phase.ticket)
    case Release => Scheduler.Leave(s.scheduler, d.phase.held.value)
    case Drop =>
      if d.phase.Admitting? then Scheduler.Abandon(s.scheduler, d.phase.ticket)
      else if d.phase.Handling? then Scheduler.Leave(s.scheduler, d.phase.ticket)
      else s.scheduler
    case _ => s.scheduler
  }

  /** What the move does to the queues, counters and the factory. */
  function NextShared(p: Program, s: State, d: Drain, move: Move): State
    requires CanMove(p, s, d, move)
  {
    match move
    case Emit => s.(pendingEvents := s.pendingEvents + 1, made := s.made + [EventMade(NextEvent(p, s, d))])
    case Put => s.(inbox := s.inbox + [d.phase.event])
    case Report => s.(control := s.control + [DrainFinished])
    case Drop => if d.phase.Putting? then s.(pendingEvents := s.pendingEvents - 1) else s
    case _ => s
  }

  function MoveDrain(p: Program, s: State, i: nat, move: Move): State
    requires i < |s.drains| && CanMove(p, s, s.drains[i], move) && Scheduler.Sound(s.scheduler)
  {
    var d := s.drains[i];
    NextShared(p, s, d, move)
    .(drains := s.drains[i := d.(phase := NextPhase(p, s, d, move))],
      scheduler := NextQueue(p, s, d, move))
  }

  function Publishing(p: Program, s: State): State
    requires s.consumer.Holding?
  {
    match Publish(p.subscriptions, s.consumer.event.payload)
    case Fails => s.(consumer := Raised(Some(s.consumer.event), ReactionError(s.consumer.event)))
    case Commands(commands) => s.(consumer := Sending(s.consumer.event, commands))
  }

  function Send(s: State): State
    requires s.consumer.Sending?
  {
    var event, rest := s.consumer.event, s.consumer.rest;
    if rest == [] then
      s.(control := s.control + [EventAcknowledged], consumer := Yielding(event))
    else
      var child := Caused(|s.made|, rest[0], event);
      s.(control := s.control + [StartCommand(child)], made := s.made + [CommandMade(child)],
         consumer := Sending(event, rest[1..]))
  }

  function Conclude(s: State): State
    requires s.supervisor.Stopped?
  {
    var held := if s.consumer.Sending? then Some(s.consumer.event) else None;
    match s.supervisor.error
    case Some(group) => s.(consumer := Raised(held, SupervisorError(group)))
    case None => s.(consumer := if s.consumer.Reading? then Finished else Raised(held, SupervisorGone))
  }

  function Apply(p: Program, s: State, a: Action): State
    requires Enabled(p, s, a) && Scheduler.Sound(s.scheduler)
  {
    match a
    case StartRoot => StartDrain(p, s.(supervisor := Serving), s.made[0].command)
    case Receive => Process(p, s.(control := s.control[1..]), s.control[0])
    case NoteFailure(_) => s.(supervisor := Aborting(None))
    case ExitGroup => Exit(s)
    case ByDrain(i, move) => MoveDrain(p, s, i, move)
    case TakeEvent => s.(inbox := s.inbox[1..], consumer := Holding(s.inbox[0]))
    case PublishEvent => Publishing(p, s)
    case SendControl => Send(s)
    case YieldEvent => s.(stream := s.stream + [s.consumer.event], consumer := Reading)
    case SeeStopped => Conclude(s)
    case OthersArrive(claims) => s.(scheduler := Scheduler.Arrive(s.scheduler, claims))
    case OthersLeave(ticket) => s.(scheduler := Scheduler.Abandon(s.scheduler, ticket))
  }

  // ----------------------------------------------------------------------- runs

  /** `actions` can be performed from `s` one after the other and lead to `t`. */
  ghost predicate Runs(p: Program, s: State, actions: seq<Action>, t: State)
    decreases |actions|
  {
    if actions == [] then s == t
    else
      && Enabled(p, s, actions[0])
      && Scheduler.Sound(s.scheduler)
      && Runs(p, Apply(p, s, actions[0]), actions[1..], t)
  }
}
