/**
  What conflict-aware admission is for: bodies that run interleaved under the scheduler, each
  keeping to its claims, leave the store as if they had run one at a time in arrival order.
 */
module Serializability {
  import opened Scheduler

  /** One indivisible access of an admitted body; a write may use all the body has read so far. */
  datatype Access = Read(key: string) | Write(key: string, value: seq<int> -> int)

  /** What the body admitted as ticket `id` does next. */
  datatype Action = Action(id: nat, access: Access)

  /** The shared store, and for every ticket the values its body has read. */
  datatype World = World(store: map<string, int>, seen: map<nat, seq<int>>)

  function Seen(w: World, id: nat): seq<int> {
    if id in w.seen then w.seen[id] else []
  }

  function Perform(w: World, a: Action): World {
    match a.access
    case Read(key) =>
      w.(seen := w.seen[a.id := Seen(w, a.id) + [if key in w.store then w.store[key] else 0]])
    case Write(key, value) =>
      w.(store := w.store[key := value(Seen(w, a.id))])
  }

  function PerformAll(w: World, log: seq<Action>): World {
    if log == [] then w
    else Perform(PerformAll(w, log[..|log| - 1]), log[|log| - 1])
  }

  /** Exclusive bodies may touch anything; others read claimed keys and write keys claimed for writing. */
  predicate Permitted(claims: Claims, access: Access) {
    || claims.exclusive
    || (access.Read? && access.key in claims.readKeys + claims.writeKeys)
    || (access.Write? && access.key in claims.writeKeys)
  }

  /** What the bodies with these arrival numbers did, in the order they did it. */
  function Only(log: seq<Action>, id: nat): seq<Action> {
    if log == [] then []
    else
      var rest := Only(log[..|log| - 1], id);
      if log[|log| - 1].id == id then rest + [log[|log| - 1]] else rest
  }

  function Except(log: seq<Action>, id: nat): (rest: seq<Action>)
    ensures |rest| <= |log|
  {
    if log == [] then []
    else
      var rest := Except(log[..|log| - 1], id);
      if log[|log| - 1].id != id then rest + [log[|log| - 1]] else rest
  }

  /** The serial schedule: bodies `0` to `n - 1`, one after the other. */
  function Serial(log: seq<Action>, n: nat): seq<Action> {
    if n == 0 then [] else Serial(log, n - 1) + Only(log, n - 1)
  }

  /** Everybody keeps to the claims made on arrival. */
  ghost predicate Within(log: seq<Action>, claims: seq<Claims>) {
    forall i | 0 <= i < |log| :: log[i].id < |claims| && Permitted(claims[log[i].id], log[i].access)
  }

  /** Of two conflicting bodies, the one that arrived first acts first. */
  ghost predicate Ordered(log: seq<Action>, claims: seq<Claims>)
    requires Within(log, claims)
  {
    forall i, j | 0 <= i < j < |log| && Conflicts(claims[log[i].id], claims[log[j].id]) :: log[i].id <= log[j].id
  }

  // ------------------------------------------------------------------ commuting

  lemma {:induction false} ActionsCommute(w: World, a: Action, b: Action, claims: seq<Claims>)
    requires a.id < |claims| && b.id < |claims| && a.id != b.id
    requires Permitted(claims[a.id], a.access) && Permitted(claims[b.id], b.access)
    requires !Conflicts(claims[a.id], claims[b.id])
    ensures Perform(Perform(w, a), b) == Perform(Perform(w, b), a)
  {
    if a.access.Write? && b.access.Write? {
      KeysDiffer(a, b, claims);
      var store := w.store;
      var va, vb := a.access.value(Seen(w, a.id)), b.access.value(Seen(w, b.id));
      assert store[a.access.key := va][b.access.key := vb] == store[b.access.key := vb][a.access.key := va];
    } else if a.access.Read? && b.access.Read? {
      var va := Perform(w, a).seen[a.id];
      var vb := Perform(w, b).seen[b.id];
      assert w.seen[a.id := va][b.id := vb] == w.seen[b.id := vb][a.id := va];
    } else {
      KeysDiffer(a, b, claims);
    }
  }

  /** Accesses within claims that do not conflict collide on no key that either writes. */
  lemma {:induction false} KeysDiffer(a: Action, b: Action, claims: seq<Claims>)
    requires a.id < |claims| && b.id < |claims|
    requires Permitted(claims[a.id], a.access) && Permitted(claims[b.id], b.access)
    requires !Conflicts(claims[a.id], claims[b.id])
    requires a.access.Write? || b.access.Write?
    ensures a.access.key != b.access.key
  {
    var ca, cb := claims[a.id], claims[b.id];
    assert a.access.key !in ca.writeKeys * (cb.readKeys + cb.writeKeys);
    assert b.access.key !in cb.writeKeys * (ca.readKeys + ca.writeKeys);
  }

  /** The conflict test is exact: it holds just when accesses within the claims may collide, or one is exclusive. */
  lemma {:induction false} ConflictsExactly(l: Claims, r: Claims)
    ensures Conflicts(l, r) <==>
            || l.exclusive || r.exclusive
            || exists a, b :: Permitted(l, a) && Permitted(r, b) && Collide(a, b)
  {
    ApartIsCompatible(l, r);
    if !l.exclusive && !r.exclusive && !Apart(l, r) {
      if key :| key in l.writeKeys && (key in r.readKeys || key in r.writeKeys) {
        assert Permitted(l, Write(key, _ => 0)) && Permitted(r, Read(key)) && Collide(Write(key, _ => 0), Read(key));
      } else {
        var key :| key in r.writeKeys && (key in l.readKeys || key in l.writeKeys);
        assert Permitted(l, Read(key)) && Permitted(r, Write(key, _ => 0)) && Collide(Read(key), Write(key, _ => 0));
      }
    }
  }

  predicate Collide(a: Access, b: Access) {
    a.key == b.key && (a.Write? || b.Write?)
  }

  lemma {:induction false} PerformAppend(w: World, log: seq<Action>, a: Action)
    ensures PerformAll(w, log + [a]) == Perform(PerformAll(w, log), a)
  {
    assert (log + [a])[..|log|] == log;
  }

  lemma {:induction false} PerformConcat(w: World, first: seq<Action>, second: seq<Action>)
    ensures PerformAll(w, first + second) == PerformAll(PerformAll(w, first), second)
  {
    if second == [] {
      assert first + second == first;
    } else {
      var front, last := second[..|second| - 1], second[|second| - 1];
      PerformConcat(w, first, front);
      PerformAppend(w, first + front, last);
      assert first + second == (first + front) + [last];
    }
  }

  /** An action that conflicts with none of `others` may as well come before them. */
  lemma {:induction false} MoveBefore(w: World, others: seq<Action>, a: Action, claims: seq<Claims>)
    requires Within(others, claims) && a.id < |claims| && Permitted(claims[a.id], a.access)
    requires forall i | 0 <= i < |others| ::
               others[i].id != a.id && !Conflicts(claims[others[i].id], claims[a.id])
    ensures PerformAll(w, others + [a]) == PerformAll(Perform(w, a), others)
  {
    PerformAppend(w, others, a);
    if others != [] {
      var front, last := others[..|others| - 1], others[|others| - 1];
      ActionsCommute(PerformAll(w, front), last, a, claims);
      PerformAppend(w, front, a);
      MoveBefore(w, front, a, claims);
    }
  }

  lemma {:induction false} OnlyMembers(log: seq<Action>, id: nat)
    ensures forall a :: a in Only(log, id) <==> a in log && a.id == id
    ensures forall a :: a in Except(log, id) <==> a in log && a.id != id
  {
    if log != [] {
      OnlyMembers(log[..|log| - 1], id);
      assert log == log[..|log| - 1] + [log[|log| - 1]];
    }
  }

  lemma {:induction false} EarlierThanLast(log: seq<Action>, claims: seq<Claims>, a: Action)
    requires Within(log, claims) && Ordered(log, claims)
    requires log != [] && a in log[..|log| - 1]
    ensures a.id < |claims| && Permitted(claims[a.id], a.access)
    ensures Conflicts(claims[a.id], claims[log[|log| - 1].id]) ==> a.id <= log[|log| - 1].id
  {
    var i :| 0 <= i < |log| - 1 && log[i] == a;
  }

  lemma {:induction false} OrderedAppend(log: seq<Action>, a: Action, claims: seq<Claims>)
    requires Within(log, claims) && Ordered(log, claims)
    requires a.id < |claims| && Permitted(claims[a.id], a.access)
    requires forall b | b in log :: Conflicts(claims[b.id], claims[a.id]) ==> b.id <= a.id
    ensures Within(log + [a], claims) && Ordered(log + [a], claims)
  {
    assert forall i | 0 <= i < |log| :: log[i] in log;
  }

  /** The youngest body can be run after all the others. */
  lemma {:induction false} YoungestLast(w: World, log: seq<Action>, claims: seq<Claims>, id: nat)
    requires Within(log, claims) && Ordered(log, claims)
    requires forall i | 0 <= i < |log| :: log[i].id <= id
    ensures PerformAll(w, log) == PerformAll(PerformAll(w, Except(log, id)), Only(log, id))
  {
    if log != [] {
      var front, last := log[..|log| - 1], log[|log| - 1];
      YoungestLast(w, front, claims, id);
      var others, own := Except(front, id), Only(front, id);
      if last.id == id {
        PerformAppend(PerformAll(w, others), own, last);
      } else {
        OnlyMembers(front, id);
        forall i | 0 <= i < |own| ensures own[i].id < |claims| && Permitted(claims[own[i].id], own[i].access)
                                          && own[i].id == id && !Conflicts(claims[own[i].id], claims[last.id]) {
          EarlierThanLast(log, claims, own[i]);
        }
        MoveBefore(PerformAll(w, others), own, last, claims);
        PerformAppend(PerformAll(w, others), own, last);
        PerformAppend(w, others, last);
      }
    }
  }

  /** Leaving out one body keeps the others' order and claims. */
  lemma {:induction false} ExceptKeeps(log: seq<Action>, claims: seq<Claims>, id: nat)
    requires Within(log, claims) && Ordered(log, claims)
    ensures Within(Except(log, id), claims) && Ordered(Except(log, id), claims)
  {
    if log != [] {
      var front, last := log[..|log| - 1], log[|log| - 1];
      ExceptKeeps(front, claims, id);
      OnlyMembers(front, id);
      var rest := Except(front, id);
      forall a | a in rest ensures a.id < |claims| && (Conflicts(claims[a.id], claims[last.id]) ==> a.id <= last.id) {
        EarlierThanLast(log, claims, a);
      }
      if last.id != id {
        OrderedAppend(rest, last, claims);
      }
    }
  }

  lemma {:induction false} OnlyAfterExcept(log: seq<Action>, id: nat, other: nat)
    requires id != other
    ensures Only(Except(log, id), other) == Only(log, other)
  {
    if log != [] {
      var front, last := log[..|log| - 1], log[|log| - 1];
      OnlyAfterExcept(front, id, other);
      if last.id != id {
        assert (Except(front, id) + [last])[..|Except(front, id)|] == Except(front, id);
      }
    }
  }

  lemma {:induction false} SerialIgnoresYounger(log: seq<Action>, id: nat, n: nat)
    requires n <= id
    ensures Serial(Except(log, id), n) == Serial(log, n)
  {
    if n > 0 {
      SerialIgnoresYounger(log, id, n - 1);
      OnlyAfterExcept(log, id, n - 1);
    }
  }

  lemma {:induction false} ExceptBelow(log: seq<Action>, id: nat)
    requires forall i | 0 <= i < |log| :: log[i].id <= id
    ensures forall i | 0 <= i < |Except(log, id)| :: Except(log, id)[i].id < id
  {
    OnlyMembers(log, id);
    forall i | 0 <= i < |Except(log, id)| ensures Except(log, id)[i].id < id {
      assert Except(log, id)[i] in log;
    }
  }

  /** An ordered interleaving has the effect of the serial schedule. */
  lemma {:induction false} OrderedIsSerial(w: World, log: seq<Action>, claims: seq<Claims>, n: nat)
    requires Within(log, claims) && Ordered(log, claims)
    requires forall i | 0 <= i < |log| :: log[i].id < n
    ensures PerformAll(w, log) == PerformAll(w, Serial(log, n))
    decreases n
  {
    if n > 0 {
      hide Within, Ordered, Except, Only, PerformAll;
      var id := n - 1;
      YoungestLast(w, log, claims, id);
      ExceptKeeps(log, claims, id);
      ExceptBelow(log, id);
      OrderedIsSerial(w, Except(log, id), claims, id);
      SerialIgnoresYounger(log, id, id);
      PerformConcat(w, Serial(log, id), Only(log, id));
    } else {
      assert log == [];
    }
  }

  lemma {:induction false} OnlyConcat(a: seq<Action>, b: seq<Action>, id: nat)
    ensures Only(a + b, id) == Only(a, id) + Only(b, id)
  {
    if b == [] {
      assert a + b == a;
    } else {
      assert (a + b)[..|a + b| - 1] == a + b[..|b| - 1];
      OnlyConcat(a, b[..|b| - 1], id);
    }
  }

  lemma {:induction false} OnlyOfOnly(log: seq<Action>, k: nat, id: nat)
    ensures Only(Only(log, k), id) == if k == id then Only(log, id) else []
  {
    if log != [] {
      var front, last := log[..|log| - 1], log[|log| - 1];
      OnlyOfOnly(front, k, id);
      if last.id == k {
        assert (Only(front, k) + [last])[..|Only(front, k)|] == Only(front, k);
      }
    }
  }

  /** The serial schedule has every body do just what it did, in the order it did it. */
  lemma {:induction false} SerialKeepsBodies(log: seq<Action>, n: nat, id: nat)
    ensures Only(Serial(log, n), id) == if id < n then Only(log, id) else []
  {
    if n > 0 {
      SerialKeepsBodies(log, n - 1, id);
      OnlyConcat(Serial(log, n - 1), Only(log, n - 1), id);
      OnlyOfOnly(log, n - 1, id);
    }
  }

  // ------------------------------------------------- bodies under the scheduler

  /** The scheduler, the claims every arrival made, and what the admitted bodies did so far. */
  datatype System = System(queue: Queue, claims: seq<Claims>, log: seq<Action>, world: World)

  /** A scheduler step, or one access by a body. */
  datatype Move = Scheduling(step: Step) | Body(action: Action)

  function Start(world: World): System {
    System(EMPTY, [], [], world)
  }

  /** Bodies run only while their ticket is active and only touch what they claimed. */
  ghost predicate Allowed(s: System, move: Move) {
    && WellFormed(s.queue)
    && match move
       case Scheduling(_) => true
       case Body(action) =>
         && Holds(s.queue.active, action.id)
         && action.id < |s.claims|
         && Permitted(s.claims[action.id], action.access)
  }

  function Next(s: System, move: Move): System
    requires Allowed(s, move)
  {
    match move
    case Scheduling(step) =>
      s.(queue := Apply(s.queue, step), claims := if step.Arrival? then s.claims + [step.claims] else s.claims)
    case Body(action) =>
      s.(log := s.log + [action], world := Perform(s.world, action))
  }

  ghost predicate MoveAt(systems: seq<System>, moves: seq<Move>, i: nat)
    requires i < |moves| && |systems| == |moves| + 1
  {
    Allowed(systems[i], moves[i]) && systems[i + 1] == Next(systems[i], moves[i])
  }

  /** A run: the systems before, between and after the moves. */
  ghost predicate IsRunOf(systems: seq<System>, moves: seq<Move>) {
    |systems| == |moves| + 1 && forall i: nat | i < |moves| :: MoveAt(systems, moves, i)
  }

  ghost predicate Tracked(initial: World, s: System) {
    && Inv(s.queue)
    && |s.claims| == |s.queue.futures|
    && (forall t | Outstanding(s.queue, t) :: t.claims == s.claims[t.id])
    && Within(s.log, s.claims) && Ordered(s.log, s.claims)
    // nobody acted past an older conflicting ticket that is still around
    && (forall i, t | 0 <= i < |s.log| && Outstanding(s.queue, t) && t.id < s.log[i].id ::
          !Conflicts(s.claims[s.log[i].id], t.claims))
    && s.world == PerformAll(initial, s.log)
  }

  lemma {:induction false} SchedulingKeepsTracked(initial: World, s: System, step: Step)
    requires Tracked(initial, s)
    ensures Tracked(initial, Next(s, Scheduling(step)))
  {
    var r := Next(s, Scheduling(step));
    ApplyInv(s.queue, step);
    match step {
      case Arrival(claims) => ArriveKeeps(s.queue, claims);
      case Cancellation(id) =>
      case Departure(id) => LeaveInv(s.queue, id);
    }
    forall i | 0 <= i < |s.log| ensures r.claims[r.log[i].id] == s.claims[s.log[i].id] {
    }
    forall t | Outstanding(r.queue, t)
      ensures t.claims == r.claims[t.id]
      ensures Outstanding(s.queue, t) || t.id == |s.claims|
    {
    }
  }

  lemma {:induction false} BodyKeepsTracked(initial: World, s: System, action: Action)
    requires Tracked(initial, s) && Allowed(s, Body(action))
    ensures Tracked(initial, Next(s, Body(action)))
  {
    PerformAppend(initial, s.log, action);
    var own :| own in s.queue.active && own.id == action.id;
    assert Outstanding(s.queue, own) && Unobstructed(s.queue, own);
    forall i | 0 <= i < |s.log| && Conflicts(s.claims[s.log[i].id], s.claims[action.id])
      ensures s.log[i].id <= action.id
    {
      assert Conflicts(s.claims[s.log[i].id], own.claims);
    }
    var log := s.log + [action];
    forall i, j | 0 <= i < j < |log| && Conflicts(s.claims[log[i].id], s.claims[log[j].id])
      ensures log[i].id <= log[j].id
    {
    }
  }

  lemma {:induction false} TrackedAlong(initial: World, systems: seq<System>, moves: seq<Move>, n: nat)
    requires IsRunOf(systems, moves) && systems[0] == Start(initial) && n < |systems|
    ensures Tracked(initial, systems[n])
  {
    hide Tracked, Allowed, Next;
    if n == 0 {
      TrackedAtStart(initial);
    } else {
      TrackedAlong(initial, systems, moves, n - 1);
      assert MoveAt(systems, moves, n - 1);
      match moves[n - 1] {
        case Scheduling(step) => SchedulingKeepsTracked(initial, systems[n - 1], step);
        case Body(action) => BodyKeepsTracked(initial, systems[n - 1], action);
      }
    }
  }

  lemma {:induction false} TrackedAtStart(initial: World)
    ensures Tracked(initial, Start(initial))
  {
  }

  /**
    Conflict serializability. At every point of any run, however the admitted bodies were
    interleaved, the store is the one left by running what each body did in one go, bodies in
    arrival order.
   */
  lemma {:induction false} AdmissionIsSerializable(initial: World, systems: seq<System>, moves: seq<Move>, n: nat)
    requires IsRunOf(systems, moves) && systems[0] == Start(initial) && n < |systems|
    ensures systems[n].world == PerformAll(initial, Serial(systems[n].log, |systems[n].claims|))
  {
    TrackedAlong(initial, systems, moves, n);
    OrderedIsSerial(initial, systems[n].log, systems[n].claims, |systems[n].claims|);
  }
}
