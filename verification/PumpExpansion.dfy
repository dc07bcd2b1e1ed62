/**
  What a command comes to, without a schedule: run its handler, and for every event it yields
  run the reactions, depth first. The expansion may fail or go on for ever.
 */
module PumpExpansion {
  import opened Messages
  import opened Buses
  import opened Pump

  // ------------------------------------------------------ the sequential reference

  /** Events in the order yielded and commands in the order started; `None` if cut off or failing. */
  datatype Trace = Trace(events: seq<Event>, commands: seq<Command>)

  function Join(a: Option<Trace>, b: Option<Trace>): Option<Trace> {
    if a.None? || b.None? then None
    else Some(Trace(a.value.events + b.value.events, a.value.commands + b.value.commands))
  }

  /** Start `c` and walk what its handler yields. */
  function Walk(p: Program, c: Command, fuel: nat): Option<Trace>
    decreases fuel, 0
  {
    if fuel == 0 || ScriptOf(p, c).ending.Raises? then None
    else Join(Some(Trace([], [c])), WalkEvents(p, ScriptOf(p, c).events, fuel - 1))
  }

  /** Yield `e` and walk the commands of its reactions. */
  function WalkEvent(p: Program, e: Event, fuel: nat): Option<Trace>
    decreases fuel, 0
  {
    if fuel == 0 || Publish(p.subscriptions, e).Fails? then None
    else Join(Some(Trace([e], [])), WalkCommands(p, Publish(p.subscriptions, e).commands, fuel - 1))
  }

  function WalkEvents(p: Program, events: seq<Event>, fuel: nat): Option<Trace>
    decreases fuel, |events| + 1
  {
    if events == [] then Some(Trace([], []))
    else Join(WalkEvents(p, events[..|events| - 1], fuel), WalkEvent(p, events[|events| - 1], fuel))
  }

  function WalkCommands(p: Program, commands: seq<Command>, fuel: nat): Option<Trace>
    decreases fuel, |commands| + 1
  {
    if commands == [] then Some(Trace([], []))
    else Join(WalkCommands(p, commands[..|commands| - 1], fuel), Walk(p, commands[|commands| - 1], fuel))
  }

  lemma {:induction false} JoinAssociates(a: Option<Trace>, b: Option<Trace>, c: Option<Trace>)
    ensures Join(Join(a, b), c) == Join(a, Join(b, c))
  {
    if a.Some? && b.Some? && c.Some? {
      assert (a.value.events + b.value.events) + c.value.events == a.value.events + (b.value.events + c.value.events);
      assert (a.value.commands + b.value.commands) + c.value.commands
          == a.value.commands + (b.value.commands + c.value.commands);
    }
  }

  lemma {:induction false} JoinNothing(a: Option<Trace>)
    ensures Join(a, Some(Trace([], []))) == a && Join(Some(Trace([], [])), a) == a
  {
    if a.Some? {
      assert a.value.events + [] == a.value.events && a.value.commands + [] == a.value.commands;
      assert [] + a.value.events == a.value.events && [] + a.value.commands == a.value.commands;
    }
  }

  // -------------------------------------------------------- more fuel, same trace

  lemma {:induction false} WalkMore(p: Program, c: Command, fuel: nat, more: nat)
    requires fuel <= more && Walk(p, c, fuel).Some?
    ensures Walk(p, c, more) == Walk(p, c, fuel)
    decreases fuel, 0
  {
    WalkEventsMore(p, ScriptOf(p, c).events, fuel - 1, more - 1);
  }

  lemma {:induction false} WalkEventsMore(p: Program, events: seq<Event>, fuel: nat, more: nat)
    requires fuel <= more && WalkEvents(p, events, fuel).Some?
    ensures WalkEvents(p, events, more) == WalkEvents(p, events, fuel)
    decreases fuel, |events|
  {
    if events != [] {
      WalkEventsMore(p, events[..|events| - 1], fuel, more);
      assert WalkEvent(p, events[|events| - 1], fuel).Some?;
      WalkCommandsMore(p, Publish(p.subscriptions, events[|events| - 1]).commands, fuel - 1, more - 1);
    }
  }

  lemma {:induction false} WalkCommandsMore(p: Program, commands: seq<Command>, fuel: nat, more: nat)
    requires fuel <= more && WalkCommands(p, commands, fuel).Some?
    ensures WalkCommands(p, commands, more) == WalkCommands(p, commands, fuel)
    decreases fuel, |commands| + 1
  {
    if commands != [] {
      WalkCommandsMore(p, commands[..|commands| - 1], fuel, more);
      WalkMore(p, commands[|commands| - 1], fuel, more);
    }
  }

  // -------------------------------------------------------------------- tallies

  /** What something comes to, order forgotten. The rest says nothing unless `finite`. */
  datatype Tally = Tally(finite: bool, events: multiset<Event>, commands: multiset<Command>)

  const NOTHING := Tally(true, multiset{}, multiset{})

  const ENDLESS := Tally(false, multiset{}, multiset{})

  function Add(a: Tally, b: Tally): Tally {
    Tally(a.finite && b.finite, a.events + b.events, a.commands + b.commands)
  }

  predicate Same(a: Tally, b: Tally) {
    a.finite == b.finite && (a.finite ==> a == b)
  }

  lemma {:induction false} AddAssociates(a: Tally, b: Tally, c: Tally)
    ensures Add(Add(a, b), c) == Add(a, Add(b, c))
  {
  }

  lemma {:induction false} AddCommutes(a: Tally, b: Tally)
    ensures Add(a, b) == Add(b, a)
  {
  }

  lemma {:induction false} AddRespectsSame(rest: Tally, a: Tally, b: Tally)
    requires Same(a, b)
    ensures Same(Add(rest, a), Add(rest, b))
  {
  }

  function OneEvent(e: Event): Tally {
    Tally(true, multiset{e}, multiset{})
  }

  function OneCommand(c: Command): Tally {
    Tally(true, multiset{}, multiset{c})
  }

  function Weigh(t: Option<Trace>): Tally {
    match t
    case None => ENDLESS
    case Some(trace) => Tally(true, multiset(trace.events), multiset(trace.commands))
  }

  /** The expansion of a command, with as much fuel as it takes. */
  ghost function Expand(p: Program, c: Command): Tally {
    if fuel: nat :| Walk(p, c, fuel).Some? then Weigh(Walk(p, c, fuel)) else ENDLESS
  }

  ghost function ExpandEvents(p: Program, events: seq<Event>): Tally {
    if fuel: nat :| WalkEvents(p, events, fuel).Some? then Weigh(WalkEvents(p, events, fuel)) else ENDLESS
  }

  ghost function ExpandCommands(p: Program, commands: seq<Command>): Tally {
    if fuel: nat :| WalkCommands(p, commands, fuel).Some? then Weigh(WalkCommands(p, commands, fuel)) else ENDLESS
  }

  /** Expansion is what the sequential walk finds, as soon as it finds anything. */
  lemma {:induction false} ExpandIsWalk(p: Program, c: Command, fuel: nat)
    requires Walk(p, c, fuel).Some?
    ensures Expand(p, c) == Weigh(Walk(p, c, fuel))
  {
    var other: nat :| Walk(p, c, other).Some? && Expand(p, c) == Weigh(Walk(p, c, other));
    if fuel <= other { WalkMore(p, c, fuel, other); } else { WalkMore(p, c, other, fuel); }
  }

  lemma {:induction false} ExpandEventsIsWalk(p: Program, events: seq<Event>, fuel: nat)
    requires WalkEvents(p, events, fuel).Some?
    ensures ExpandEvents(p, events) == Weigh(WalkEvents(p, events, fuel))
  {
    var other: nat :| WalkEvents(p, events, other).Some? && ExpandEvents(p, events) == Weigh(WalkEvents(p, events, other));
    if fuel <= other { WalkEventsMore(p, events, fuel, other); } else { WalkEventsMore(p, events, other, fuel); }
  }

  lemma {:induction false} ExpandCommandsIsWalk(p: Program, commands: seq<Command>, fuel: nat)
    requires WalkCommands(p, commands, fuel).Some?
    ensures ExpandCommands(p, commands) == Weigh(WalkCommands(p, commands, fuel))
  {
    var other: nat :| WalkCommands(p, commands, other).Some?
                      && ExpandCommands(p, commands) == Weigh(WalkCommands(p, commands, other));
    if fuel <= other { WalkCommandsMore(p, commands, fuel, other); } else { WalkCommandsMore(p, commands, other, fuel); }
  }

  // --------------------------------------------------------- the laws of expansion

  lemma {:induction false} WeighJoin(a: Option<Trace>, b: Option<Trace>)
    ensures Same(Weigh(Join(a, b)), Add(Weigh(a), Weigh(b)))
  {
  }

  lemma {:induction false} ExpandUnfolds(p: Program, c: Command)
    ensures Same(Expand(p, c), if ScriptOf(p, c).ending.Raises? then ENDLESS
                               else Add(OneCommand(c), ExpandEvents(p, ScriptOf(p, c).events)))
  {
    var events := ScriptOf(p, c).events;
    if fuel: nat :| Walk(p, c, fuel).Some? {
      ExpandIsWalk(p, c, fuel);
      ExpandEventsIsWalk(p, events, fuel - 1);
      WeighJoin(Some(Trace([], [c])), WalkEvents(p, events, fuel - 1));
    } else if fuel: nat :| !ScriptOf(p, c).ending.Raises? && WalkEvents(p, events, fuel).Some? {
      assert Walk(p, c, fuel + 1).Some?;
    }
  }

  lemma {:induction false} WalkSingle(p: Program, e: Event, c: Command, fuel: nat)
    ensures WalkEvents(p, [e], fuel) == WalkEvent(p, e, fuel)
    ensures WalkCommands(p, [c], fuel) == Walk(p, c, fuel)
  {
    assert [e][..0] == [] && [c][..0] == [];
    assert WalkEvents(p, [], fuel) == WalkCommands(p, [], fuel) == Some(Trace([], []));
    JoinNothing(WalkEvent(p, e, fuel));
    JoinNothing(Walk(p, c, fuel));
  }

  lemma {:induction false} ExpandEventUnfolds(p: Program, e: Event)
    ensures Same(ExpandEvents(p, [e]),
                 match Publish(p.subscriptions, e)
                 case Fails => ENDLESS
                 case Commands(commands) => Add(OneEvent(e), ExpandCommands(p, commands)))
  {
    hide WalkEvents, WalkCommands;
    if fuel: nat :| WalkEvents(p, [e], fuel).Some? {
      WalkSingle(p, e, Command("", ""), fuel);
      ExpandEventsIsWalk(p, [e], fuel);
      var commands := Publish(p.subscriptions, e).commands;
      ExpandCommandsIsWalk(p, commands, fuel - 1);
      WeighJoin(Some(Trace([e], [])), WalkCommands(p, commands, fuel - 1));
    } else if Publish(p.subscriptions, e).Commands? {
      var commands := Publish(p.subscriptions, e).commands;
      if fuel: nat :| WalkCommands(p, commands, fuel).Some? {
        WalkSingle(p, e, Command("", ""), fuel + 1);
      }
    }
  }

  lemma {:induction false} ExpandOneCommand(p: Program, c: Command)
    ensures Same(ExpandCommands(p, [c]), Expand(p, c))
  {
    hide WalkEvents, WalkCommands;
    if fuel: nat :| WalkCommands(p, [c], fuel).Some? {
      WalkSingle(p, Event("", ""), c, fuel);
      ExpandCommandsIsWalk(p, [c], fuel);
      ExpandIsWalk(p, c, fuel);
    } else if fuel: nat :| Walk(p, c, fuel).Some? {
      WalkSingle(p, Event("", ""), c, fuel);
      assert WalkCommands(p, [c], fuel).Some?;
    }
  }

  lemma {:induction false} WalkEventsConcat(p: Program, a: seq<Event>, b: seq<Event>, fuel: nat)
    ensures WalkEvents(p, a + b, fuel) == Join(WalkEvents(p, a, fuel), WalkEvents(p, b, fuel))
  {
    if b == [] {
      assert a + b == a;
      JoinNothing(WalkEvents(p, a, fuel));
    } else {
      var front, last := b[..|b| - 1], b[|b| - 1];
      WalkEventsConcat(p, a, front, fuel);
      assert (a + b)[..|a + b| - 1] == a + front;
      JoinAssociates(WalkEvents(p, a, fuel), WalkEvents(p, front, fuel), WalkEvent(p, last, fuel));
    }
  }

  lemma {:induction false} WalkCommandsConcat(p: Program, a: seq<Command>, b: seq<Command>, fuel: nat)
    ensures WalkCommands(p, a + b, fuel) == Join(WalkCommands(p, a, fuel), WalkCommands(p, b, fuel))
  {
    if b == [] {
      assert a + b == a;
      JoinNothing(WalkCommands(p, a, fuel));
    } else {
      var front, last := b[..|b| - 1], b[|b| - 1];
      WalkCommandsConcat(p, a, front, fuel);
      assert (a + b)[..|a + b| - 1] == a + front;
      JoinAssociates(WalkCommands(p, a, fuel), WalkCommands(p, front, fuel), Walk(p, last, fuel));
    }
  }

  lemma {:induction false} ExpandEventsConcat(p: Program, a: seq<Event>, b: seq<Event>)
    ensures Same(ExpandEvents(p, a + b), Add(ExpandEvents(p, a), ExpandEvents(p, b)))
  {
    if fuel: nat :| WalkEvents(p, a + b, fuel).Some? {
      EventsFuel(p, a, b, fuel);
    } else if fa: nat, fb: nat :| WalkEvents(p, a, fa).Some? && WalkEvents(p, b, fb).Some? {
      var fuel := if fa <= fb then fb else fa;
      WalkEventsMore(p, a, fa, fuel);
      WalkEventsMore(p, b, fb, fuel);
      EventsFuel(p, a, b, fuel);
    }
  }

  lemma {:induction false} EventsFuel(p: Program, a: seq<Event>, b: seq<Event>, fuel: nat)
    requires WalkEvents(p, a + b, fuel).Some? || (WalkEvents(p, a, fuel).Some? && WalkEvents(p, b, fuel).Some?)
    ensures Same(ExpandEvents(p, a + b), Add(ExpandEvents(p, a), ExpandEvents(p, b)))
    ensures ExpandEvents(p, a + b).finite && WalkEvents(p, a + b, fuel).Some?
  {
    WalkEventsConcat(p, a, b, fuel);
    ExpandEventsIsWalk(p, a + b, fuel);
    ExpandEventsIsWalk(p, a, fuel);
    ExpandEventsIsWalk(p, b, fuel);
    WeighJoin(WalkEvents(p, a, fuel), WalkEvents(p, b, fuel));
  }

  lemma {:induction false} ExpandCommandsConcat(p: Program, a: seq<Command>, b: seq<Command>)
    ensures Same(ExpandCommands(p, a + b), Add(ExpandCommands(p, a), ExpandCommands(p, b)))
  {
    if fuel: nat :| WalkCommands(p, a + b, fuel).Some? {
      CommandsFuel(p, a, b, fuel);
    } else if fa: nat, fb: nat :| WalkCommands(p, a, fa).Some? && WalkCommands(p, b, fb).Some? {
      var fuel := if fa <= fb then fb else fa;
      WalkCommandsMore(p, a, fa, fuel);
      WalkCommandsMore(p, b, fb, fuel);
      CommandsFuel(p, a, b, fuel);
    }
  }

  lemma {:induction false} CommandsFuel(p: Program, a: seq<Command>, b: seq<Command>, fuel: nat)
    requires WalkCommands(p, a + b, fuel).Some? || (WalkCommands(p, a, fuel).Some? && WalkCommands(p, b, fuel).Some?)
    ensures Same(ExpandCommands(p, a + b), Add(ExpandCommands(p, a), ExpandCommands(p, b)))
    ensures ExpandCommands(p, a + b).finite && WalkCommands(p, a + b, fuel).Some?
  {
    WalkCommandsConcat(p, a, b, fuel);
    ExpandCommandsIsWalk(p, a + b, fuel);
    ExpandCommandsIsWalk(p, a, fuel);
    ExpandCommandsIsWalk(p, b, fuel);
    WeighJoin(WalkCommands(p, a, fuel), WalkCommands(p, b, fuel));
  }

  lemma {:induction false} ExpandNone(p: Program)
    ensures ExpandEvents(p, []) == NOTHING && ExpandCommands(p, []) == NOTHING
  {
    ExpandEventsIsWalk(p, [], 0);
    ExpandCommandsIsWalk(p, [], 0);
  }
}
