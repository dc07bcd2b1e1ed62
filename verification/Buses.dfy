/** The in-memory event and command buses (runtime.py). */
module Buses {
  import opened Messages
  import opened Scheduler

  // ------------------------------------------------------------------ event bus

  /** What an event handler answers: commands to enqueue, or an exception. */
  datatype Reaction = Commands(commands: seq<Command>) | Fails

  /** `matches` is the `isinstance` test against the subscribed class. */
  datatype Subscription = Subscription(matches: Event -> bool, handler: Event -> Reaction)

  /** The commands of all matching handlers in registration order; the first exception wins. */
  function Publish(subscriptions: seq<Subscription>, event: Event): Reaction {
    if subscriptions == [] then Commands([])
    else
      var earlier := Publish(subscriptions[..|subscriptions| - 1], event);
      var last := subscriptions[|subscriptions| - 1];
      if earlier.Fails? || !last.matches(event) then earlier
      else
        match last.handler(event)
        case Fails => Fails
        case Commands(commands) => Commands(earlier.commands + commands)
  }

  /** Subscribing in two batches fans out like publishing to one batch after the other. */
  lemma {:induction false} PublishConcat(first: seq<Subscription>, second: seq<Subscription>, event: Event)
    ensures var a, b := Publish(first, event), Publish(second, event);
            Publish(first + second, event) ==
            if a.Fails? || b.Fails? then Fails else Commands(a.commands + b.commands)
  {
    var all := first + second;
    if second == [] {
      assert all == first;
    } else {
      assert all[..|all| - 1] == first + second[..|second| - 1];
      PublishConcat(first, second[..|second| - 1], event);
    }
  }

  /** A matching handler alone decides; a handler that does not match is not asked. */
  lemma {:induction false} PublishToOne(s: Subscription, event: Event)
    ensures Publish([s], event) == if s.matches(event) then s.handler(event) else Commands([])
  {
    assert Publish([], event) == Commands([]);
    assert [s][..0] == [];
    if s.matches(event) && s.handler(event).Commands? {
      assert [] + s.handler(event).commands == s.handler(event).commands;
    }
  }

  function Flatten<T>(parts: seq<seq<T>>): seq<T> {
    if parts == [] then [] else parts[0] + Flatten(parts[1..])
  }

  /** What subscription `s` adds when nobody fails. */
  function AnswerOf(s: Subscription, event: Event): seq<Command> {
    if s.matches(event) && s.handler(event).Commands? then s.handler(event).commands else []
  }

  function AnswersOf(subscriptions: seq<Subscription>, event: Event): seq<seq<Command>> {
    seq(|subscriptions|, i requires 0 <= i < |subscriptions| => AnswerOf(subscriptions[i], event))
  }

  /** Fan-out position by position: who can fail the event, and what is answered in which order. */
  lemma {:induction false} PublishIsFanOut(subscriptions: seq<Subscription>, event: Event)
    ensures var reaction := Publish(subscriptions, event);
            && (reaction.Fails? <==>
                  exists i :: 0 <= i < |subscriptions| && subscriptions[i].matches(event) && subscriptions[i].handler(event).Fails?)
            && (reaction.Commands? ==>
                  reaction.commands == Flatten(AnswersOf(subscriptions, event)))
  {
    var n := |subscriptions|;
    var answers := AnswersOf(subscriptions, event);
    if n > 0 {
      var first, rest := subscriptions[0], subscriptions[1..];
      PublishToOne(first, event);
      PublishConcat([first], rest, event);
      assert [first] + rest == subscriptions;
      PublishIsFanOut(rest, event);
      assert answers[1..] == AnswersOf(rest, event);
      if i :| 0 <= i < n && subscriptions[i].matches(event) && subscriptions[i].handler(event).Fails? {
        assert i > 0 ==> rest[i - 1] == subscriptions[i];
      }
      if j :| 0 <= j < n - 1 && rest[j].matches(event) && rest[j].handler(event).Fails? {
        assert subscriptions[j + 1] == rest[j];
      }
    }
  }

  class InMemoryEventBus {
    var subscriptions: seq<Subscription>

    constructor ()
      ensures subscriptions == []
    {
      subscriptions := [];
    }

    method Subscribe(subscription: Subscription)
      modifies this
      ensures subscriptions == old(subscriptions) + [subscription]
    {
      subscriptions := subscriptions + [subscription];
    }

    method PublishEvent(event: Event) returns (reaction: Reaction)
      ensures reaction == Publish(subscriptions, event)
      ensures reaction.Fails? <==>
              exists i :: 0 <= i < |subscriptions| && subscriptions[i].matches(event) && subscriptions[i].handler(event).Fails?
      ensures reaction.Commands? ==>
                reaction.commands == Flatten(AnswersOf(subscriptions, event))
    {
      PublishIsFanOut(subscriptions, event);
      var commands: seq<Command> := [];
      var i := 0;
      while i < |subscriptions|
        invariant i <= |subscriptions|
        invariant Publish(subscriptions[..i], event) == Commands(commands)
      {
        var subscription := subscriptions[i];
        assert subscriptions[..i + 1][..i] == subscriptions[..i];
        if subscription.matches(event) {
          match subscription.handler(event) {
            case Fails =>
              FailureStops(subscriptions, event, i + 1);
              return Fails;
            case Commands(more) =>
              commands := commands + more;
          }
        }
        i := i + 1;
      }
      assert subscriptions[..i] == subscriptions;
      return Commands(commands);
    }
  }

  lemma {:induction false} FailureStops(subscriptions: seq<Subscription>, event: Event, n: nat)
    requires n <= |subscriptions| && Publish(subscriptions[..n], event).Fails?
    ensures Publish(subscriptions, event).Fails?
  {
    PublishConcat(subscriptions[..n], subscriptions[n..], event);
    assert subscriptions[..n] + subscriptions[n..] == subscriptions;
  }

  // ---------------------------------------------------------------- command bus

  /** How a handler's stream ends. A handler may cancel itself, which no one treats as a failure. */
  datatype Ending = Returns | Raises | CancelsItself

  /** What a handler does for one command: the events it streams and how it ends. */
  datatype Script = Script(events: seq<Event>, ending: Ending)

  /** A planner may raise (`None`). */
  datatype Binding = Binding(handler: Command -> Script, planner: Option<Command -> Option<Claims>>)

  type Bindings = map<string, Binding>

  /** `Refused`: `dispatch` itself raises, before there is a stream. */
  datatype Dispatched = Refused | Stream(claims: Claims, script: Script)

  function Dispatch(bindings: Bindings, command: Command): Dispatched {
    if command.kind !in bindings then Refused
    else
      var binding := bindings[command.kind];
      match binding.planner
      case None => Stream(DEFAULT_CLAIMS, binding.handler(command))
      case Some(planner) =>
        match planner(command)
        case None => Refused
        case Some(claims) => Stream(claims, binding.handler(command))
  }

  /** The planner's claims if there is a planner, else those of an unknown, hence exclusive, operation. */
  predicate PlannedAs(bindings: Bindings, command: Command, claims: Claims) {
    && command.kind in bindings
    && match bindings[command.kind].planner
       case None => claims == Claims({}, {}, true)
       case Some(planner) => planner(command) == Some(claims)
  }

  /** Dispatching is refused for want of a binding or of a plan, and else streams the bound handler as planned. */
  lemma {:induction false} DispatchIsPlanned(bindings: Bindings, command: Command)
    ensures Dispatch(bindings, command).Refused? <==>
            command.kind !in bindings || (bindings[command.kind].planner.Some? && bindings[command.kind].planner.value(command).None?)
    ensures Dispatch(bindings, command).Stream? ==>
              && PlannedAs(bindings, command, Dispatch(bindings, command).claims)
              && Dispatch(bindings, command).script == bindings[command.kind].handler(command)
  {
  }

  class InMemoryCommandBus {
    var bindings: Bindings

    constructor ()
      ensures bindings == map[]
    {
      bindings := map[];
    }

    /** A second binding of one command class is an error and changes nothing. */
    method Bind(kind: string, binding: Binding) returns (bound: bool)
      modifies this
      ensures bound == (kind !in old(bindings))
      ensures bindings == if bound then old(bindings)[kind := binding] else old(bindings)
    {
      if kind in bindings {
        return false;
      }
      bindings := bindings[kind := binding];
      return true;
    }

    /** Resolve the binding and plan the claims; the stream itself is lazy. */
    method DispatchCommand(command: Command) returns (dispatched: Dispatched)
      ensures dispatched == Dispatch(bindings, command)
      ensures dispatched.Stream? ==>
                PlannedAs(bindings, command, dispatched.claims) && dispatched.script == bindings[command.kind].handler(command)
      ensures dispatched.Refused? <==>
              command.kind !in bindings || (bindings[command.kind].planner.Some? && bindings[command.kind].planner.value(command).None?)
    {
      if command.kind !in bindings {
        return Refused;
      }
      var binding := bindings[command.kind];
      var claims := DEFAULT_CLAIMS;
      if binding.planner.Some? {
        var planned := binding.planner.value(command);
        if planned.None? {
          return Refused;
        }
        claims := planned.value;
      }
      return Stream(claims, binding.handler(command));
    }
  }
}
