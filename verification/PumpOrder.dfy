/**
  The orders a run keeps, whatever the schedule: commands start in the order in which the events
  taken call for them, a command's events come out in the order its handler yields them, and
  everything an event stems from has come out before it.
 */
module PumpOrder {
  import opened Messages
  import opened Buses
  import opened Pump
  import opened PumpProgress
  import opened PumpConfluence
  import S = Scheduler

  // ------------------------------------------------------------ sequences to compare

  /** The command envelopes of a log. */
  function MadeCommands(made: seq<Record>): seq<Envelope<Command>> {
    if made == [] then []
    else
      var last := made[|made| - 1];
      MadeCommands(made[..|made| - 1]) + if last.CommandMade? then [last.command] else []
  }

  /** What the reactions to the events answer, in order. */
  function Reactions(p: Program, events: seq<Envelope<Event>>): seq<Command> {
    if events == [] then []
    else
      var published := Publish(p.subscriptions, events[|events| - 1].payload);
      Reactions(p, events[..|events| - 1]) + if published.Commands? then published.commands else []
  }

  /** The event the consumer has taken and not yielded. */
  function Held(c: Consumer): seq<Envelope<Event>> {
    match c
    case Holding(event) => [event]
    case Sending(event, _) => [event]
    case Yielding(event) => [event]
    case Raised(Some(event), _) => [event]
    case _ => []
  }

  /** The events taken out of the inbox, in order. */
  function TakenEvents(s: State): seq<Envelope<Event>> {
    s.stream + Held(s.consumer)
  }

  /** The events put into the inbox, in order. */
  function Flow(s: State): seq<Envelope<Event>> {
    TakenEvents(s) + s.inbox
  }

  /** The events caused by command `id`. */
  function Of(id: nat, events: seq<Envelope<Event>>): seq<Event> {
    if events == [] then []
    else
      var last := events[|events| - 1];
      Of(id, events[..|events| - 1]) + if last.causation == Some(id) then [last.payload] else []
  }

  lemma {:induction false} MadeAppend(made: seq<Record>, x: Record)
    ensures MadeCommands(made + [x]) == MadeCommands(made) + if x.CommandMade? then [x.command] else []
  {
    assert (made + [x])[..|made|] == made;
  }

  lemma {:induction false} ReactionsAppend(p: Program, events: seq<Envelope<Event>>, e: Envelope<Event>)
    ensures Reactions(p, events + [e]) ==
            Reactions(p, events) + match Publish(p.subscriptions, e.payload) case Fails => [] case Commands(commands) => commands
  {
    assert (events + [e])[..|events|] == events;
  }

  lemma {:induction false} OfAppend(id: nat, events: seq<Envelope<Event>>, e: Envelope<Event>)
    ensures Of(id, events + [e]) == Of(id, events) + if e.causation == Some(id) then [e.payload] else []
  {
    assert (events + [e])[..|events|] == events;
  }

  lemma {:induction false} OfNone(id: nat, events: seq<Envelope<Event>>)
    requires forall i | 0 <= i < |events| :: events[i].causation != Some(id)
    ensures Of(id, events) == []
  {
    if events != [] {
      OfNone(id, events[..|events| - 1]);
    }
  }

  lemma {:induction false} OfPrefix(id: nat, events: seq<Envelope<Event>>, n: nat)
    requires n <= |events|
    ensures Of(id, events[..n]) <= Of(id, events)
  {
    if n < |events| {
      assert events[..|events| - 1][..n] == events[..n];
      OfPrefix(id, events[..|events| - 1], n);
    } else {
      assert events[..n] == events;
    }
  }

  lemma {:induction false} FlowStep(p: Program, s: State, a: Action)
    requires Enabled(p, s, a) && S.Sound(s.scheduler)
    ensures Flow(Apply(p, s, a)) ==
            Flow(s) + if a.ByDrain? && a.move.Put? then [s.drains[a.drain].phase.event] else []
    ensures TakenEvents(Apply(p, s, a)) == TakenEvents(s) + if a.TakeEvent? then [s.inbox[0]] else []
  {
    hide S.Sound;
  }

  // ------------------------------------------------------------------------ the log

  function IdOf(r: Record): nat {
    if r.CommandMade? then r.command.id else r.event.id
  }

  function CauseOf(r: Record): Option<nat> {
    if r.CommandMade? then r.command.causation else r.event.causation
  }

  predicate SameRun(r: Record, root: Envelope<Command>) {
    if r.CommandMade? then r.command.correlation == root.correlation && r.command.origin == root.origin
    else r.event.correlation == root.correlation && r.event.origin == root.origin
  }

  /** Record `k` was caused by an earlier record of the other kind. */
  predicate CausedEarlier(made: seq<Record>, k: nat)
    requires k < |made|
  {
    match CauseOf(made[k])
    case None => false
    case Some(j) => j < k && made[j].CommandMade? != made[k].CommandMade?
  }

  predicate Logged(root: Envelope<Command>, made: seq<Record>) {
    && made != [] && made[0] == CommandMade(root) && root.id == 0 && root.causation.None?
    && (forall k | 0 <= k < |made| :: IdOf(made[k]) == k && SameRun(made[k], root))
    && (forall k: nat | 1 <= k < |made| :: CausedEarlier(made, k))
  }

  predicate KnownEvent(made: seq<Record>, e: Envelope<Event>) {
    e.id < |made| && made[e.id] == EventMade(e)
  }

  predicate KnownCommand(made: seq<Record>, c: Envelope<Command>) {
    c.id < |made| && made[c.id] == CommandMade(c)
  }

  predicate FromDrain(drains: seq<Drain>, e: Envelope<Event>) {
    exists j :: 0 <= j < |drains| && e.causation == Some(drains[j].command.id)
  }

  /** Every message around is in the log, and every event comes from a started command. */
  predicate Known(s: State) {
    && (forall i | 0 <= i < |s.drains| :: KnownCommand(s.made, s.drains[i].command))
    && (forall i | 0 <= i < |s.drains| && s.drains[i].phase.Putting? :: KnownEvent(s.made, s.drains[i].phase.event))
    && (forall i | 0 <= i < |Flow(s)| :: KnownEvent(s.made, Flow(s)[i]) && FromDrain(s.drains, Flow(s)[i]))
  }

  // ---------------------------------------------------------------- order of starting

  /** The command made and not yet offered to `start`: the root, at first. */
  function Unoffered(s: State): seq<Envelope<Command>> {
    if s.supervisor.Starting? && s.made != [] && s.made[0].CommandMade? then [s.made[0].command] else []
  }

  /** The command whose start the budget refused. */
  function Refused(s: State): seq<Envelope<Command>> {
    match s.supervisor
    case Aborting(Some(budget)) => [budget.cause]
    case Stopped(Some(Group(Some(budget), _))) => [budget.cause]
    case _ => []
  }

  /** Commands are started in the order they are made, up to the one the budget refuses. */
  predicate StartedInOrder(s: State) {
    MadeCommands(s.made) == Unoffered(s) + (CommandsOf(s.drains) + (Refused(s) + Starts(s.control)))
  }

  lemma {:induction false} StartedInOrderStep(p: Program, s: State, a: Action)
    requires StartedInOrder(s) && Staged(p, s) && Enabled(p, s, a) && S.Sound(s.scheduler)
    ensures StartedInOrder(Apply(p, s, a))
  {
    hide S.Sound, Staged, StartedInOrder;
    match a {
      case StartRoot => RootInOrder(p, s);
      case Receive => ReceivedInOrder(p, s, s.control[0]);
      case _ => MessagesInOrder(p, s, a);
    }
  }

  lemma {:induction false} RootInOrder(p: Program, s: State)
    requires StartedInOrder(s) && Staged(p, s) && Enabled(p, s, StartRoot) && S.Sound(s.scheduler)
    ensures StartedInOrder(Apply(p, s, StartRoot))
  {
    hide S.Sound, Starts, MadeCommands;
    OfferedNext(p, s.(supervisor := Serving), s.made[0].command);
  }

  lemma {:induction false} ReceivedInOrder(p: Program, s: State, m: Control)
    requires StartedInOrder(s) && s.supervisor.Serving? && s.control != [] && m == s.control[0]
    ensures StartedInOrder(Process(p, s.(control := s.control[1..]), m))
  {
    hide Starts, MadeCommands, Idle, CommandsOf;
    var s' := s.(control := s.control[1..]);
    StartsTail(s.control);
    if m.StartCommand? {
      OfferedNext(p, s', m.envelope);
      IdleBreakKeepsOrder(StartDrain(p, s', m.envelope));
    }
  }

  lemma {:induction false} IdleBreakKeepsOrder(s: State)
    ensures var r := BreakIfIdle(s);
            r.made == s.made && r.drains == s.drains && r.control == s.control && Refused(r) == Refused(s)
    ensures s.supervisor.Serving? || s.supervisor.Aborting? ==> Unoffered(s) == Unoffered(BreakIfIdle(s)) == []
  {
  }

  lemma {:induction false} MessagesInOrder(p: Program, s: State, a: Action)
    requires StartedInOrder(s) && Staged(p, s) && Enabled(p, s, a) && S.Sound(s.scheduler)
    requires !a.StartRoot? && !a.Receive?
    ensures StartedInOrder(Apply(p, s, a))
  {
    hide S.Sound, Staged, Apply, Enabled, CommandsOf, Refused, Unoffered, MadeCommands, Starts;
    var r := Apply(p, s, a);
    MessagesAppended(p, s, a);
    var started, refused := Unoffered(s) + CommandsOf(s.drains), Refused(s);
    assert started + refused + Starts(s.control) == Unoffered(s) + (CommandsOf(s.drains) + (refused + Starts(s.control)));
    assert started + refused + Starts(r.control) == Unoffered(s) + (CommandsOf(s.drains) + (refused + Starts(r.control)));
    LineGrows(s.made, r.made, s.control, r.control, started + refused);
  }

  /** What is made and what is queued grow together. */
  lemma {:induction false} LineGrows(made: seq<Record>, made': seq<Record>, control: seq<Control>, control': seq<Control>,
                                     line: seq<Envelope<Command>>)
    requires MadeCommands(made) == line + Starts(control)
    requires made' == made || (|made'| == |made| + 1 && made' == made + [made'[|made|]])
    requires control' == control || (|control'| == |control| + 1 && control' == control + [control'[|control|]])
    requires var record := if made' == made then None else Some(made'[|made|]);
             var sent := if control' == control then None else Some(control'[|control|]);
             if record.Some? && record.value.CommandMade? then sent == Some(StartCommand(record.value.command))
             else sent.None? || !sent.value.StartCommand?
    ensures MadeCommands(made') == line + Starts(control')
  {
    hide MadeCommands, Starts;
    if made' != made {
      MadeAppend(made, made'[|made|]);
    }
    if control' != control {
      StartsAppend(control, control'[|control|]);
    }
  }

  /** A step that starts nothing makes at most one message, and makes a command only to queue it. */
  lemma {:induction false} MessagesAppended(p: Program, s: State, a: Action)
    requires Staged(p, s) && Enabled(p, s, a) && S.Sound(s.scheduler) && !a.StartRoot? && !a.Receive?
    ensures var r := Apply(p, s, a);
            && CommandsOf(r.drains) == CommandsOf(s.drains) && Refused(r) == Refused(s) && Unoffered(r) == Unoffered(s)
            && (r.made == s.made || (|r.made| == |s.made| + 1 && r.made == s.made + [r.made[|s.made|]]))
            && (r.control == s.control || (|r.control| == |s.control| + 1 && r.control == s.control + [r.control[|s.control|]]))
            && var made := if r.made == s.made then None else Some(r.made[|s.made|]);
               var sent := if r.control == s.control then None else Some(r.control[|s.control|]);
               if made.Some? && made.value.CommandMade? then sent == Some(StartCommand(made.value.command))
               else sent.None? || !sent.value.StartCommand?
  {
    hide S.Sound, Idle, NoFaults, Faults, NoneCancelled, HonestBudget, Dispatch, ScriptOf, Others;
    if a.ByDrain? {
      DrainAppends(p, s, a.drain, a.move);
    }
  }

  lemma {:induction false} DrainAppends(p: Program, s: State, i: nat, move: Move)
    requires Enabled(p, s, ByDrain(i, move)) && S.Sound(s.scheduler)
    ensures var r := Apply(p, s, ByDrain(i, move));
            && CommandsOf(r.drains) == CommandsOf(s.drains) && r.supervisor == s.supervisor
            && (s.made != [] ==> r.made != [] && r.made[0] == s.made[0])
            && (r.made == s.made || (|r.made| == |s.made| + 1 && r.made == s.made + [r.made[|s.made|]] && r.made[|s.made|].EventMade?))
            && (r.control == s.control || (|r.control| == |s.control| + 1 && r.control == s.control + [DrainFinished]))
  {
    hide S.Sound, Dispatch, ScriptOf;
  }

  /** The next command in line becomes a drain, or the one refused. */
  lemma {:induction false} OfferedNext(p: Program, s: State, envelope: Envelope<Command>)
    requires s.supervisor.Serving?
    ensures var r := StartDrain(p, s, envelope);
            CommandsOf(r.drains) + (Refused(r) + Starts(r.control)) == CommandsOf(s.drains) + ([envelope] + Starts(s.control))
  {
  }

  /** The commands made are the root and what the published events call for, but for those still to be sent. */
  predicate Reacted(p: Program, root: Command, s: State) {
    var made := CommandPayloads(MadeCommands(s.made));
    match s.consumer
    case Holding(_) => made == [root] + Reactions(p, s.stream)
    case Sending(_, rest) => made + rest == [root] + Reactions(p, TakenEvents(s))
    case Raised(_, _) => made <= [root] + Reactions(p, TakenEvents(s))
    case _ => made == [root] + Reactions(p, TakenEvents(s))
  }

  lemma {:induction false} ReactedStep(p: Program, root: Command, s: State, a: Action)
    requires Reacted(p, root, s) && Enabled(p, s, a) && S.Sound(s.scheduler)
    ensures Reacted(p, root, Apply(p, s, a))
  {
    hide S.Sound, Faults, Reactions, MadeCommands;
    var r := Apply(p, s, a);
    assert s.stream + [] == s.stream && r.stream + [] == r.stream;
    if a.PublishEvent? {
      ReactionsAppend(p, s.stream, s.consumer.event);
    } else if a.SendControl? {
      ReactedSend(p, root, s);
    } else {
      if r.made != s.made {
        MadeAppend(s.made, r.made[|s.made|]);
      }
      assert MadeCommands(r.made) == MadeCommands(s.made);
    }
  }

  lemma {:induction false} ReactedSend(p: Program, root: Command, s: State)
    requires Reacted(p, root, s) && s.consumer.Sending?
    ensures Reacted(p, root, Send(s))
  {
    hide Reactions, MadeCommands;
    var r, rest := Send(s), s.consumer.rest;
    if rest != [] {
      MadeAppend(s.made, r.made[|s.made|]);
      assert CommandPayloads(MadeCommands(r.made)) == CommandPayloads(MadeCommands(s.made)) + [rest[0]];
      assert [rest[0]] + rest[1..] == rest;
    }
  }

  // --------------------------------------------------------------- order of emission

  /** `out`, which drain `d` has put into the inbox, is what its handler has yielded so far. */
  predicate EmittedBy(p: Program, d: Drain, out: seq<Event>) {
    var events := ScriptOf(p, d.command.payload).events;
    match d.phase
    case Created => out == []
    case Admitting(_) => out == []
    case Handling(_, sent) => sent <= |events| && out == events[..sent]
    case Putting(_, sent, _) => sent < |events| && out == events[..sent]
    case Cancelled(_) => out <= events
    case _ => out == events
  }

  predicate EmittedInOrder(p: Program, s: State) {
    forall i | 0 <= i < |s.drains| :: EmittedBy(p, s.drains[i], Of(s.drains[i].command.id, Flow(s)))
  }

  predicate DistinctIds(drains: seq<Drain>) {
    forall i, j | 0 <= i < j < |drains| :: drains[i].command.id != drains[j].command.id
  }

  lemma {:induction false} EmittedInOrderStep(p: Program, s: State, a: Action)
    requires EmittedInOrder(p, s) && Scripted(p, s.drains) && Known(s)
    requires Enabled(p, s, a) && S.Sound(s.scheduler)
    requires DistinctIds(Apply(p, s, a).drains)
    ensures EmittedInOrder(p, Apply(p, s, a))
  {
    hide S.Sound, Flow, KnownCommand, KnownEvent, Faults;
    var r := Apply(p, s, a);
    FlowStep(p, s, a);
    forall i | 0 <= i < |r.drains| ensures EmittedBy(p, r.drains[i], Of(r.drains[i].command.id, Flow(r))) {
      if i < |s.drains| {
        var out := Of(s.drains[i].command.id, Flow(s));
        assert EmittedBy(p, s.drains[i], out) && out + [] == out;
        OutStep(p, s, a, i);
        if a.ByDrain? && a.drain == i {
          EmittedNext(p, s, i, a.move, out);
        }
      } else {
        assert r.drains[..|s.drains|] == s.drains && r.drains[i].phase.Created?;
        NewIsSilent(s, r.drains[i], r.drains);
        assert Flow(s) + [] == Flow(s);
      }
    }
  }

  lemma {:induction false} OtherDrainsStay(p: Program, s: State, a: Action, i: nat)
    requires Enabled(p, s, a) && S.Sound(s.scheduler) && i < |s.drains|
    ensures |Apply(p, s, a).drains| >= |s.drains|
    ensures forall j | 0 <= j < |s.drains| :: Apply(p, s, a).drains[j].command == s.drains[j].command
    ensures !(a.ByDrain? && a.drain == i) ==> Apply(p, s, a).drains[i] == s.drains[i]
  {
    hide S.Sound, Faults;
  }

  lemma {:induction false} OutStep(p: Program, s: State, a: Action, i: nat)
    requires Scripted(p, s.drains) && Enabled(p, s, a) && S.Sound(s.scheduler) && i < |s.drains|
    requires DistinctIds(Apply(p, s, a).drains)
    ensures |Apply(p, s, a).drains| >= |s.drains| && Apply(p, s, a).drains[i].command == s.drains[i].command
    ensures !(a.ByDrain? && a.drain == i) ==> Apply(p, s, a).drains[i] == s.drains[i]
    ensures Of(s.drains[i].command.id, Flow(Apply(p, s, a))) == Of(s.drains[i].command.id, Flow(s))
              + if a == ByDrain(i, Put) then [s.drains[i].phase.event.payload] else []
  {
    hide S.Sound, Flow, Faults;
    var id := s.drains[i].command.id;
    FlowStep(p, s, a);
    OtherDrainsStay(p, s, a, i);
    hide Apply, Dispatch, ScriptOf;
    assert Of(id, Flow(s)) + [] == Of(id, Flow(s)) && Flow(s) + [] == Flow(s);
    if a.ByDrain? && a.move.Put? {
      var r := Apply(p, s, a);
      assert r.drains[i].command.id == s.drains[i].command.id && r.drains[a.drain].command.id == s.drains[a.drain].command.id;
      OfAppend(s.drains[i].command.id, Flow(s), s.drains[a.drain].phase.event);
    }
  }

  lemma {:induction false} EmittedNext(p: Program, s: State, i: nat, move: Move, out: seq<Event>)
    requires Enabled(p, s, ByDrain(i, move)) && S.Sound(s.scheduler) && Scripted(p, s.drains)
    requires EmittedBy(p, s.drains[i], out)
    ensures EmittedBy(p, Apply(p, s, ByDrain(i, move)).drains[i],
                      out + if move.Put? then [s.drains[i].phase.event.payload] else [])
  {
    hide S.Sound;
  }

  lemma {:induction false} NewIsSilent(s: State, d: Drain, drains: seq<Drain>)
    requires Known(s) && drains == s.drains + [d] && DistinctIds(drains)
    ensures Of(d.command.id, Flow(s)) == []
  {
    hide KnownEvent, KnownCommand;
    forall i | 0 <= i < |Flow(s)| ensures Flow(s)[i].causation != Some(d.command.id) {
      assert FromDrain(s.drains, Flow(s)[i]);
      var j :| 0 <= j < |s.drains| && Flow(s)[i].causation == Some(s.drains[j].command.id);
      assert drains[j] == s.drains[j] && drains[|s.drains|] == d;
    }
    OfNone(d.command.id, Flow(s));
  }

  // ---------------------------------------------------------------- causes come first

  /** Some event among `events` has this id. */
  predicate Among(id: nat, events: seq<Envelope<Event>>) {
    exists j :: 0 <= j < |events| && events[j].id == id
  }

  /** The event that caused the command that caused `e`. */
  function ParentOf(made: seq<Record>, e: Envelope<Event>): Option<nat> {
    match e.causation
    case None => None
    case Some(c) => if c < |made| then CauseOf(made[c]) else None
  }

  predicate ParentFirst(made: seq<Record>, events: seq<Envelope<Event>>, i: nat)
    requires i < |events|
  {
    var parent := ParentOf(made, events[i]);
    parent.Some? ==> Among(parent.value, events[..i])
  }

  /** Commands are caused by events that were taken, and an event's parent is taken before it. */
  predicate CausesFirst(s: State) {
    && (forall k | 0 <= k < |s.made| && s.made[k].CommandMade? && CauseOf(s.made[k]).Some? ::
          Among(CauseOf(s.made[k]).value, TakenEvents(s)))
    && (forall i: nat | i < |TakenEvents(s)| :: ParentFirst(s.made, TakenEvents(s), i))
  }

  lemma {:induction false} AmongMore(id: nat, events: seq<Envelope<Event>>, e: Envelope<Event>)
    ensures Among(id, events + [e]) <==> Among(id, events) || e.id == id
  {
    if Among(id, events) {
      var j :| 0 <= j < |events| && events[j].id == id;
      assert (events + [e])[j].id == id;
    }
    if e.id == id {
      assert (events + [e])[|events|].id == id;
    }
  }

  lemma {:induction false} AmongAt(events: seq<Envelope<Event>>, n: nat)
    requires n < |events|
    ensures Among(events[n].id, events)
  {
  }

  lemma {:induction false} CausesFirstStep(p: Program, root: Envelope<Command>, s: State, a: Action)
    requires CausesFirst(s) && Known(s) && Logged(root, s.made) && Enabled(p, s, a) && S.Sound(s.scheduler)
    ensures CausesFirst(Apply(p, s, a))
  {
    hide S.Sound, Faults, Among, Flow, TakenEvents, KnownCommand, Logged;
    FlowStep(p, s, a);
    var r, e := Apply(p, s, a), if a.TakeEvent? then s.inbox[0] else Envelope(0, Event("", ""), "", None, "");
    if a.TakeEvent? {
      CausesFirstTake(root, s, e, r);
    } else if a.SendControl? || (a.ByDrain? && a.move.Emit?) {
      if r.made != s.made {
        CausesFirstMake(p, s, a);
      } else {
        assert TakenEvents(r) == TakenEvents(s);
      }
    } else {
      assert r.made == s.made && TakenEvents(r) == TakenEvents(s);
    }
  }

  lemma {:induction false} CausesFirstTake(root: Envelope<Command>, s: State, e: Envelope<Event>, r: State)
    requires CausesFirst(s) && Known(s) && Logged(root, s.made) && s.inbox != [] && e == s.inbox[0]
    requires r.made == s.made && TakenEvents(r) == TakenEvents(s) + [e]
    ensures CausesFirst(r)
  {
    hide Among;
    var n := |TakenEvents(s)|;
    assert Flow(s)[n] == e;
    assert FromDrain(s.drains, e);
    forall k | 0 <= k < |r.made| && r.made[k].CommandMade? && CauseOf(r.made[k]).Some?
      ensures Among(CauseOf(r.made[k]).value, TakenEvents(r))
    {
      AmongMore(CauseOf(r.made[k]).value, TakenEvents(s), e);
    }
    forall i: nat | i < |TakenEvents(r)| ensures ParentFirst(r.made, TakenEvents(r), i) {
      if i < n {
        assert ParentFirst(s.made, TakenEvents(s), i);
        assert TakenEvents(r)[..i] == TakenEvents(s)[..i];
      } else {
        assert TakenEvents(r)[..i] == TakenEvents(s);
      }
    }
  }

  lemma {:induction false} CausesFirstMake(p: Program, s: State, a: Action)
    requires CausesFirst(s) && Known(s) && Enabled(p, s, a) && S.Sound(s.scheduler)
    requires (a.SendControl? && s.consumer.rest != []) || (a.ByDrain? && a.move.Emit?)
    ensures CausesFirst(Apply(p, s, a))
  {
    hide S.Sound, Faults, Among;
    var r := Apply(p, s, a);
    FlowStep(p, s, a);
    assert TakenEvents(r) == TakenEvents(s);
    if a.SendControl? {
      var n := |s.stream|;
      assert TakenEvents(s)[n] == s.consumer.event;
      AmongAt(TakenEvents(s), n);
    }
    forall i: nat | i < |TakenEvents(r)| ensures ParentFirst(r.made, TakenEvents(r), i) {
      assert ParentFirst(s.made, TakenEvents(s), i);
      assert KnownEvent(s.made, Flow(s)[i]) && FromDrain(s.drains, Flow(s)[i]);
    }
  }

  // ------------------------------------------------------------ the log and its messages

  lemma {:induction false} LoggedStep(p: Program, root: Envelope<Command>, s: State, a: Action)
    requires Logged(root, s.made) && Known(s) && Enabled(p, s, a) && S.Sound(s.scheduler)
    ensures Logged(root, Apply(p, s, a).made)
  {
    hide S.Sound, Faults, FromDrain;
    var r, n := Apply(p, s, a), |s.made|;
    if r.made != s.made {
      assert r.made[..n] == s.made;
      if a.SendControl? {
        assert Flow(s)[|s.stream|] == s.consumer.event;
      } else {
        assert KnownCommand(s.made, s.drains[a.drain].command);
      }
      LoggedAppend(root, s.made, r.made[n]);
    }
  }

  lemma {:induction false} LoggedAppend(root: Envelope<Command>, made: seq<Record>, x: Record)
    requires Logged(root, made) && IdOf(x) == |made| && CauseOf(x).Some?
    requires CauseOf(x).value < |made| && made[CauseOf(x).value].CommandMade? != x.CommandMade?
    requires SameRun(x, root)
    ensures Logged(root, made + [x])
  {
    forall k: nat | 1 <= k < |made + [x]| ensures CausedEarlier(made + [x], k) {
      if k < |made| {
        assert CausedEarlier(made, k);
      }
    }
  }

  /** Commands made are in the log, and later ones have greater ids. */
  lemma {:induction false} MadeAreLogged(made: seq<Record>)
    requires forall k | 0 <= k < |made| :: IdOf(made[k]) == k
    ensures forall i | 0 <= i < |MadeCommands(made)| :: KnownCommand(made, MadeCommands(made)[i])
    ensures forall i, j | 0 <= i < j < |MadeCommands(made)| :: MadeCommands(made)[i].id < MadeCommands(made)[j].id
  {
    if made != [] {
      var front := made[..|made| - 1];
      MadeAreLogged(front);
      forall i | 0 <= i < |MadeCommands(made)| ensures KnownCommand(made, MadeCommands(made)[i]) {
        if i < |MadeCommands(front)| {
          assert KnownCommand(front, MadeCommands(front)[i]);
        }
      }
    }
  }

  lemma {:induction false} DrainsAreLogged(root: Envelope<Command>, s: State)
    requires Logged(root, s.made) && StartedInOrder(s)
    ensures DistinctIds(s.drains)
    ensures forall i | 0 <= i < |s.drains| :: KnownCommand(s.made, s.drains[i].command)
  {
    hide Logged, KnownCommand;
    assert forall k | 0 <= k < |s.made| :: IdOf(s.made[k]) == k by {
      LoggedIds(root, s.made);
    }
    MadeAreLogged(s.made);
    var n := |Unoffered(s)|;
    assert forall i | 0 <= i < |s.drains| :: MadeCommands(s.made)[n + i] == s.drains[i].command;
  }

  lemma {:induction false} LoggedIds(root: Envelope<Command>, made: seq<Record>)
    requires Logged(root, made)
    ensures forall k | 0 <= k < |made| :: IdOf(made[k]) == k
  {
  }

  lemma {:induction false} KnownEventsStep(p: Program, s: State, a: Action)
    requires Known(s) && Scripted(p, s.drains) && Enabled(p, s, a) && S.Sound(s.scheduler)
    requires forall i | 0 <= i < |Apply(p, s, a).drains| :: KnownCommand(Apply(p, s, a).made, Apply(p, s, a).drains[i].command)
    ensures Known(Apply(p, s, a))
  {
    hide S.Sound, Faults, Flow, KnownCommand, KnownEvent, FromDrain, Others;
    var r := Apply(p, s, a);
    FlowStep(p, s, a);
    MessagesStay(p, s, a);
    PutsAreKnown(p, s, a);
    hide Apply, Enabled;
    forall i | 0 <= i < |Flow(r)| ensures KnownEvent(r.made, Flow(r)[i]) && FromDrain(r.drains, Flow(r)[i]) {
      if i < |Flow(s)| {
        FromDrainStays(s.drains, r.drains, Flow(s)[i]);
      } else {
        ScriptedCause(p, s.drains, a.drain);
        FromDrainStays(s.drains, r.drains, s.drains[a.drain].phase.event);
      }
    }
  }

  /** An event being put is logged when it is made and stays so. */
  lemma {:induction false} PutsAreKnown(p: Program, s: State, a: Action)
    requires Known(s) && Enabled(p, s, a) && S.Sound(s.scheduler)
    ensures var r := Apply(p, s, a);
            forall i | 0 <= i < |r.drains| && r.drains[i].phase.Putting? :: KnownEvent(r.made, r.drains[i].phase.event)
  {
    hide S.Sound, Faults, Flow, KnownCommand, FromDrain, Others;
  }

  lemma {:induction false} ScriptedCause(p: Program, drains: seq<Drain>, i: nat)
    requires Scripted(p, drains) && i < |drains| && drains[i].phase.Putting?
    ensures FromDrain(drains, drains[i].phase.event)
  {
  }

  lemma {:induction false} FromDrainStays(before: seq<Drain>, after: seq<Drain>, e: Envelope<Event>)
    requires FromDrain(before, e) && |before| <= |after|
    requires forall i | 0 <= i < |before| :: after[i].command == before[i].command
    ensures FromDrain(after, e)
  {
    var j :| 0 <= j < |before| && e.causation == Some(before[j].command.id);
    assert after[j].command == before[j].command;
  }

  /** Known events stay known, a drain's commands stay its own. */
  lemma {:induction false} MessagesStay(p: Program, s: State, a: Action)
    requires Enabled(p, s, a) && S.Sound(s.scheduler)
    ensures var r := Apply(p, s, a);
            && |s.drains| <= |r.drains| && |s.made| <= |r.made| && r.made[..|s.made|] == s.made
            && (forall i | 0 <= i < |s.drains| :: r.drains[i].command == s.drains[i].command)
            && (forall e | KnownEvent(s.made, e) :: KnownEvent(r.made, e))
  {
    hide S.Sound, Faults;
  }

  // ------------------------------------------------------------------- the invariant

  ghost predicate Ordered(p: Program, root: Envelope<Command>, s: State) {
    && Scripted(p, s.drains)
    && Logged(root, s.made)
    && StartedInOrder(s)
    && Known(s)
    && Reacted(p, root.payload, s)
    && EmittedInOrder(p, s)
    && CausesFirst(s)
  }

  lemma {:induction false} OrderedStep(p: Program, root: Envelope<Command>, s: State, a: Action)
    requires Inv(p, s) && Ordered(p, root, s) && Enabled(p, s, a)
    ensures Ordered(p, root, Apply(p, s, a))
  {
    hide S.Sound, PumpAdmission.Matched, PumpCounters.Counted, PumpCounters.Fenced, Staged, Concluded, Scripted, Logged;
    hide StartedInOrder, Known, Reacted, EmittedInOrder, CausesFirst, Enabled, Apply;
    ScriptedStep(p, s, a);
    LoggedStep(p, root, s, a);
    StartedInOrderStep(p, s, a);
    DrainsAreLogged(root, Apply(p, s, a));
    KnownEventsStep(p, s, a);
    ReactedStep(p, root.payload, s, a);
    EmittedInOrderStep(p, s, a);
    CausesFirstStep(p, root, s, a);
  }

  lemma {:induction false} OrderedAtBeginning(p: Program, root: Command, origin: string, correlation: string)
    requires Begin(p, root, origin, correlation).Open?
    ensures Ordered(p, RootOf(root, origin, correlation), Begin(p, root, origin, correlation).state)
  {
    var s, c := Begin(p, root, origin, correlation).state, RootOf(root, origin, correlation);
    assert s.made[..0] == [];
    assert MadeCommands(s.made) == [c];
  }

  lemma {:induction false} OrderedAlong(p: Program, root: Envelope<Command>, s: State, actions: seq<Action>, t: State)
    requires Inv(p, s) && Ordered(p, root, s) && Runs(p, s, actions, t)
    ensures Inv(p, t) && Ordered(p, root, t)
    decreases |actions|
  {
    hide Inv, Ordered;
    if actions != [] {
      InvStep(p, s, actions[0]);
      OrderedStep(p, root, s, actions[0]);
      OrderedAlong(p, root, Apply(p, s, actions[0]), actions[1..], t);
    }
  }

  lemma {:induction false} ReachableIsOrdered(p: Program, root: Command, origin: string, correlation: string,
                                              actions: seq<Action>, t: State)
    requires Begin(p, root, origin, correlation).Open?
    requires Runs(p, Begin(p, root, origin, correlation).state, actions, t)
    ensures Inv(p, t) && Ordered(p, RootOf(root, origin, correlation), t)
  {
    hide Inv, Ordered;
    InvAtBeginning(p, root, origin, correlation);
    OrderedAtBeginning(p, root, origin, correlation);
    OrderedAlong(p, RootOf(root, origin, correlation), Begin(p, root, origin, correlation).state, actions, t);
  }

  // --------------------------------------------------------------------- the theorems

  /**
    The commands started are, in order, the root and then what the reactions to the events taken
    call for: a prefix of that list at any time, all of it when the run has ended normally.
   */
  lemma {:induction false} StartOrder(p: Program, root: Command, origin: string, correlation: string,
                                      actions: seq<Action>, t: State)
    requires Begin(p, root, origin, correlation).Open?
    requires Runs(p, Begin(p, root, origin, correlation).state, actions, t)
    ensures Started(t.drains) <= [root] + Reactions(p, TakenEvents(t))
    ensures t.consumer.Finished? ==> Started(t.drains) == [root] + Reactions(p, t.stream)
  {
    hide S.Sound, PumpAdmission.Matched, PumpCounters.Counted, PumpCounters.Fenced, Scripted, Logged, Known, EmittedInOrder, CausesFirst;
    ReachableIsOrdered(p, root, origin, correlation, actions, t);
    var made := MadeCommands(t.made);
    assert Started(t.drains) == CommandPayloads(CommandsOf(t.drains));
    assert Started(t.drains) <= CommandPayloads(made) by {
      StartedArePrefix(p, t);
    }
    if t.consumer.Holding? {
      ReactionsAppend(p, t.stream, t.consumer.event);
    }
    if t.consumer.Finished? {
      FinishedIsClean(p, t);
      assert Starts(t.control) == [] && CommandsOf(t.drains) == made;
      assert TakenEvents(t) == t.stream;
    }
  }

  lemma {:induction false} StartedArePrefix(p: Program, s: State)
    requires StartedInOrder(s) && Staged(p, s)
    ensures CommandPayloads(CommandsOf(s.drains)) <= CommandPayloads(MadeCommands(s.made))
  {
    if s.supervisor.Starting? {
      assert CommandsOf(s.drains) == [];
    } else {
      assert CommandsOf(s.drains) <= MadeCommands(s.made);
    }
  }

  /**
    Each command's events are in the stream in the order its handler yields them: a prefix of
    them at any time, all of them when the run has ended normally.
   */
  lemma {:induction false} EmissionOrder(p: Program, root: Command, origin: string, correlation: string,
                                         actions: seq<Action>, t: State, i: nat)
    requires Begin(p, root, origin, correlation).Open?
    requires Runs(p, Begin(p, root, origin, correlation).state, actions, t)
    requires i < |t.drains|
    ensures Of(t.drains[i].command.id, t.stream) <= ScriptOf(p, t.drains[i].command.payload).events
    ensures t.consumer.Finished? ==>
              Of(t.drains[i].command.id, t.stream) == ScriptOf(p, t.drains[i].command.payload).events
  {
    hide Inv, Scripted, Logged, Known, CausesFirst, Reacted, StartedInOrder, EmittedInOrder, Runs, Begin;
    ReachableIsOrdered(p, root, origin, correlation, actions, t);
    if t.consumer.Finished? {
      FinishedIsClean(p, t);
    }
    StreamIsInOrder(p, t, i);
  }

  lemma {:induction false} StreamIsInOrder(p: Program, s: State, i: nat)
    requires EmittedInOrder(p, s) && i < |s.drains|
    ensures Of(s.drains[i].command.id, s.stream) <= ScriptOf(p, s.drains[i].command.payload).events
    ensures s.consumer.Finished? && s.inbox == [] && s.drains[i].phase.Ended? ==>
              Of(s.drains[i].command.id, s.stream) == ScriptOf(p, s.drains[i].command.payload).events
  {
    hide ScriptOf, Of;
    assert EmittedBy(p, s.drains[i], Of(s.drains[i].command.id, Flow(s)));
    assert Flow(s)[..|s.stream|] == s.stream;
    OfPrefix(s.drains[i].command.id, Flow(s), |s.stream|);
    if s.consumer.Finished? && s.inbox == [] {
      assert Flow(s) == s.stream;
    }
  }

  /** The ids met by following causation from record `k`. */
  function Lineage(made: seq<Record>, k: nat): seq<nat> {
    if k < |made| && CauseOf(made[k]).Some? && CauseOf(made[k]).value < k then
      [k] + Lineage(made, CauseOf(made[k]).value)
    else [k]
  }

  /** From an event down to the root: events and commands in turn, all of one run, events taken before `events` ends. */
  predicate Descends(made: seq<Record>, root: Envelope<Command>, line: seq<nat>, events: seq<Envelope<Event>>) {
    && line != [] && line[|line| - 1] == 0
    && (forall m | 0 <= m < |line| :: line[m] < |made| && SameRun(made[line[m]], root))
    && (forall m | 0 <= m < |line| :: made[line[m]].EventMade? <==> m % 2 == 0)
    && (forall m: nat | m + 1 < |line| :: CauseOf(made[line[m]]) == Some(line[m + 1]))
    && (forall m | 0 < m < |line| && m % 2 == 0 :: Among(line[m], events))
  }

  /**
    Causal order: following causation from a yielded event leads, in alternating steps, to the
    root command; everything on the way is of the root's run, and every event on the way comes
    strictly earlier in the stream.
   */
  lemma {:induction false} CausalOrder(p: Program, root: Command, origin: string, correlation: string,
                                       actions: seq<Action>, t: State, i: nat)
    requires Begin(p, root, origin, correlation).Open?
    requires Runs(p, Begin(p, root, origin, correlation).state, actions, t)
    requires i < |t.stream|
    ensures KnownEvent(t.made, t.stream[i])
    ensures Descends(t.made, RootOf(root, origin, correlation), Lineage(t.made, t.stream[i].id), t.stream[..i])
  {
    hide Inv, Descends, Scripted, Known, CausesFirst, Logged, Reacted, EmittedInOrder, StartedInOrder, Runs, Begin;
    ReachableIsOrdered(p, root, origin, correlation, actions, t);
    LineageDescends(RootOf(root, origin, correlation), t, i);
  }

  lemma {:induction false} LineageDescends(root: Envelope<Command>, s: State, i: nat)
    requires Logged(root, s.made) && Known(s) && CausesFirst(s) && i < |s.stream|
    ensures KnownEvent(s.made, s.stream[i])
    ensures Descends(s.made, root, Lineage(s.made, s.stream[i].id), s.stream[..i])
    decreases i
  {
    hide Descends, FromDrain, KnownCommand;
    var e := s.stream[i];
    assert Flow(s)[i] == e && TakenEvents(s)[i] == e;
    assert e.id != 0;
    assert CausedEarlier(s.made, e.id);
    var c := e.causation.value;
    if c == 0 {
      assert Lineage(s.made, 0) == [0];
      assert Lineage(s.made, e.id) == [e.id, 0];
      ShortLine(root, s.made, e.id, s.stream[..i]);
    } else {
      assert CausedEarlier(s.made, c);
      assert ParentFirst(s.made, TakenEvents(s), i);
      var g := CauseOf(s.made[c]).value;
      assert TakenEvents(s)[..i] == s.stream[..i];
      var j :| 0 <= j < i && s.stream[..i][j].id == g;
      LineageDescends(root, s, j);
      assert Lineage(s.made, e.id) == [e.id, c] + Lineage(s.made, g);
      LongerLine(root, s.made, e.id, c, Lineage(s.made, g), s.stream, j, i);
    }
  }

  lemma {:induction false} ShortLine(root: Envelope<Command>, made: seq<Record>, e: nat, events: seq<Envelope<Event>>)
    requires Logged(root, made) && e < |made| && made[e].EventMade? && CauseOf(made[e]) == Some(0)
    ensures Descends(made, root, [e, 0], events)
  {
  }

  lemma {:induction false} LongerLine(root: Envelope<Command>, made: seq<Record>, e: nat, c: nat, line: seq<nat>,
                                      stream: seq<Envelope<Event>>, j: nat, i: nat)
    requires Logged(root, made) && j < i <= |stream| && line != [] && stream[j].id == line[0]
    requires Descends(made, root, line, stream[..j])
    requires e < |made| && made[e].EventMade? && CauseOf(made[e]) == Some(c)
    requires c < |made| && made[c].CommandMade? && CauseOf(made[c]) == Some(line[0])
    ensures Descends(made, root, [e, c] + line, stream[..i])
  {
    var all := [e, c] + line;
    forall m | 0 < m < |all| && m % 2 == 0 ensures Among(all[m], stream[..i]) {
      if m == 2 {
        assert stream[..i][j].id == all[m];
      } else {
        assert Among(line[m - 2], stream[..j]);
        var k :| 0 <= k < j && stream[..j][k].id == line[m - 2];
        assert stream[..i][k].id == all[m];
      }
    }
    assert forall m | 2 <= m < |all| :: all[m] == line[m - 2];
    forall m: nat | m + 1 < |all| ensures CauseOf(made[all[m]]) == Some(all[m + 1]) {
      if m >= 2 {
        assert CauseOf(made[line[m - 2]]) == Some(line[m - 2 + 1]);
      }
    }
  }
}
