/**
  Capability-aware admission (scheduler.py): tickets wait in arrival order and are
  granted as soon as nothing they conflict with is active or waiting ahead of them.

  `Queue` is the scheduler's state as a value and the functions on it are the atomic
  steps (each lock body runs without suspending); `CapabilityScheduler` is the object
  whose methods perform them in place.
 */
module Scheduler {

  datatype Claims = Claims(readKeys: set<string>, writeKeys: set<string>, exclusive: bool)

  /** What a binding without a planner claims: unknown, hence exclusive. */
  const DEFAULT_CLAIMS := Claims({}, {}, true)

  predicate Conflicts(left: Claims, right: Claims) {
    || left.exclusive
    || right.exclusive
    || left.writeKeys * (right.readKeys + right.writeKeys) != {}
    || right.writeKeys * (left.readKeys + left.writeKeys) != {}
  }

  /** `id` is the arrival number; it also names the ticket's future. */
  datatype Ticket = Ticket(id: nat, claims: Claims)

  datatype Future = Waiting | Granted | Cancelled

  /** `futures[id]` is the state of the future of the ticket that arrived as number `id`. */
  datatype Queue = Queue(pending: seq<Ticket>, active: seq<Ticket>, futures: seq<Future>)

  const EMPTY := Queue([], [], [])

  /** Nobody waits and nobody is admitted. */
  predicate Idle(q: Queue) {
    q.pending == [] && q.active == []
  }

  // ---------------------------------------------------------------- scheduling

  predicate Blocked(ticket: Ticket, others: seq<Ticket>) {
    exists other | other in others :: Conflicts(ticket.claims, other.claims)
  }

  /** The one-line filter: nothing active and nothing further ahead in `pending` conflicts. */
  predicate Ready(pending: seq<Ticket>, active: seq<Ticket>, index: nat)
    requires index < |pending|
  {
    !Blocked(pending[index], active) && !Blocked(pending[index], pending[..index])
  }

  /** The queue once the first `k` tickets of `pending` have been decided by that filter. */
  function Decide(pending: seq<Ticket>, active: seq<Ticket>, futures: seq<Future>, k: nat): (q: Queue)
    requires k <= |pending|
    requires forall t | t in pending :: t.id < |futures|
    ensures |q.futures| == |futures|
  {
    if k == 0 then
      Queue([], active, futures)
    else
      var q, ticket := Decide(pending, active, futures, k - 1), pending[k - 1];
      if Ready(pending, active, k - 1) then
        q.(active := q.active + [ticket], futures := q.futures[ticket.id := Granted])
      else
        q.(pending := q.pending + [ticket])
  }

  function Live(pending: seq<Ticket>, futures: seq<Future>): (live: seq<Ticket>)
    requires forall t | t in pending :: t.id < |futures|
    ensures forall t :: t in live <==> t in pending && futures[t.id] != Cancelled
  {
    if pending == [] then []
    else
      var last := |pending| - 1;
      var live := Live(pending[..last], futures);
      assert pending == pending[..last] + [pending[last]];
      if futures[pending[last].id] == Cancelled then live else live + [pending[last]]
  }

  function Schedule(q: Queue): (r: Queue)
    requires WellFormed(q)
  {
    var live := Live(q.pending, q.futures);
    Decide(live, q.active, q.futures, |live|)
  }

  // --------------------------------------------------------------- atomic steps

  function Enqueue(q: Queue, claims: Claims): Queue {
    var ticket := Ticket(|q.futures|, claims);
    q.(pending := q.pending + [ticket], futures := q.futures + [Waiting])
  }

  function Arrive(q: Queue, claims: Claims): (r: Queue)
    requires WellFormed(q)
  {
    EnqueueWellFormed(q, claims);
    Schedule(Enqueue(q, claims))
  }

  /** Cancelling a task that still waits cancels its future; a granted future stays granted. */
  function MarkCancelled(q: Queue, id: nat): Queue
    requires id < |q.futures|
  {
    if q.futures[id] == Waiting then q.(futures := q.futures[id := Cancelled]) else q
  }

  function Without(tickets: seq<Ticket>, id: nat): (rest: seq<Ticket>)
    ensures forall t :: t in rest <==> t in tickets && t.id != id
  {
    if tickets == [] then []
    else
      var last := |tickets| - 1;
      var rest := Without(tickets[..last], id);
      assert tickets == tickets[..last] + [tickets[last]];
      if tickets[last].id == id then rest else rest + [tickets[last]]
  }

  /** A waiting task is cancelled and leaves without having been admitted. */
  function Abandon(q: Queue, id: nat): Queue
    requires WellFormed(q) && id < |q.futures|
  {
    MarkCancelledWellFormed(q, id);
    Leave(MarkCancelled(q, id), id)
  }

  predicate Holds(tickets: seq<Ticket>, id: nat) {
    exists t | t in tickets :: t.id == id
  }

  function Leave(q: Queue, id: nat): Queue
    requires WellFormed(q)
  {
    if Holds(q.pending, id) then
      WithoutSorted(q.pending, id);
      Schedule(q.(pending := Without(q.pending, id)))
    else if Holds(q.active, id) then
      WithoutDistinct(q.active, id);
      Schedule(q.(active := Without(q.active, id)))
    else
      q
  }

  // ----------------------------------------------------------------- invariants

  ghost predicate Sorted(tickets: seq<Ticket>) {
    forall i, j | 0 <= i < j < |tickets| :: tickets[i].id < tickets[j].id
  }

  ghost predicate Distinct(tickets: seq<Ticket>) {
    forall i, j | 0 <= i < j < |tickets| :: tickets[i].id != tickets[j].id
  }

  /** Has arrived and has neither left nor been dropped from the queue. */
  predicate Outstanding(q: Queue, ticket: Ticket) {
    ticket in q.pending || ticket in q.active
  }

  ghost predicate WellFormed(q: Queue) {
    && Sorted(q.pending)
    && Distinct(q.active)
    && (forall t | Outstanding(q, t) :: t.id < |q.futures|)
    && (forall t | t in q.pending :: q.futures[t.id] != Granted)
    && (forall t | t in q.active :: q.futures[t.id] == Granted)
  }

  /** No older outstanding ticket conflicts with `ticket`. */
  ghost predicate Unobstructed(q: Queue, ticket: Ticket) {
    forall older | Outstanding(q, older) && older.id < ticket.id :: !Conflicts(ticket.claims, older.claims)
  }

  /** Who is active is read off the outstanding tickets and their arrival order alone. */
  ghost predicate HistoryFree(q: Queue) {
    forall t | Outstanding(q, t) :: t in q.active <==> Unobstructed(q, t)
  }

  ghost predicate Inv(q: Queue) {
    WellFormed(q) && HistoryFree(q)
  }

  // ------------------------------------------------------------ sequence lemmas

  lemma {:induction false} WithoutSorted(tickets: seq<Ticket>, id: nat)
    requires Sorted(tickets)
    ensures Sorted(Without(tickets, id))
  {
    if tickets != [] {
      var last := |tickets| - 1;
      WithoutSorted(tickets[..last], id);
      PrefixIsOlder(tickets, last);
      if tickets[last].id != id {
        AppendSorted(Without(tickets[..last], id), tickets[last]);
      }
    }
  }

  lemma {:induction false} WithoutDistinct(tickets: seq<Ticket>, id: nat)
    requires Distinct(tickets)
    ensures Distinct(Without(tickets, id))
  {
    if tickets != [] {
      var last := |tickets| - 1;
      WithoutDistinct(tickets[..last], id);
      if tickets[last].id != id {
        AppendDistinct(Without(tickets[..last], id), tickets[last]);
      }
    }
  }

  lemma {:induction false} AppendDistinct(tickets: seq<Ticket>, ticket: Ticket)
    requires Distinct(tickets) && forall t | t in tickets :: t.id != ticket.id
    ensures Distinct(tickets + [ticket])
  {
    assert forall i | 0 <= i < |tickets| :: tickets[i] in tickets;
  }

  lemma {:induction false} AppendSorted(tickets: seq<Ticket>, ticket: Ticket)
    requires Sorted(tickets) && forall t | t in tickets :: t.id < ticket.id
    ensures Sorted(tickets + [ticket])
  {
    assert forall i | 0 <= i < |tickets| :: tickets[i] in tickets;
  }

  /** In a sorted queue, exactly the tickets further ahead are older. */
  lemma {:induction false} PrefixIsOlder(tickets: seq<Ticket>, k: nat)
    requires Sorted(tickets) && k < |tickets|
    ensures forall t | t in tickets :: t in tickets[..k] <==> t.id < tickets[k].id
  {
    forall t | t in tickets ensures t in tickets[..k] <==> t.id < tickets[k].id {
      var i :| 0 <= i < |tickets| && tickets[i] == t;
      if i < k {
        assert tickets[..k][i] == t;
      }
    }
  }

  lemma {:induction false} LiveSorted(pending: seq<Ticket>, futures: seq<Future>)
    requires Sorted(pending)
    requires forall t | t in pending :: t.id < |futures|
    ensures Sorted(Live(pending, futures))
  {
    if pending != [] {
      var last := |pending| - 1;
      LiveSorted(pending[..last], futures);
      PrefixIsOlder(pending, last);
      if futures[pending[last].id] != Cancelled {
        AppendSorted(Live(pending[..last], futures), pending[last]);
      }
    }
  }

  // ---------------------------------------------------------- scheduling lemmas

  /** Deciding moves tickets from the queue to the active list and loses none. */
  lemma {:induction false} DecideMembers(pending: seq<Ticket>, active: seq<Ticket>, futures: seq<Future>, k: nat)
    requires k <= |pending|
    requires forall t | t in pending :: t.id < |futures|
    ensures var q := Decide(pending, active, futures, k);
            forall t :: Outstanding(q, t) <==> t in active || t in pending[..k]
  {
    if k > 0 {
      DecideMembers(pending, active, futures, k - 1);
      assert pending[..k] == pending[..k - 1] + [pending[k - 1]];
    }
  }

  /** Exactly the tickets passing the filter are granted; the others stay queued. */
  lemma {:induction false} DecideExactly(pending: seq<Ticket>, active: seq<Ticket>, futures: seq<Future>, k: nat, i: nat)
    requires i < k <= |pending| && Sorted(pending)
    requires forall t | t in pending :: t.id < |futures| && futures[t.id] != Granted
    requires forall t | t in active :: t.id < |futures| && futures[t.id] == Granted
    ensures pending[i] in Decide(pending, active, futures, k).active <==> Ready(pending, active, i)
    ensures pending[i] in Decide(pending, active, futures, k).pending <==> !Ready(pending, active, i)
  {
    var q := Decide(pending, active, futures, k - 1);
    if i < k - 1 {
      DecideExactly(pending, active, futures, k - 1, i);
      assert pending[i] != pending[k - 1];
    } else {
      DecideMembers(pending, active, futures, k - 1);
      assert forall t | t in pending[..k - 1] :: t.id < pending[k - 1].id;
      assert pending[i] !in active;
    }
  }

  /** The relative order of the tickets that keep waiting is unchanged. */
  lemma {:induction false} DecideOrder(pending: seq<Ticket>, active: seq<Ticket>, futures: seq<Future>, k: nat)
    requires k <= |pending| && Sorted(pending)
    requires forall t | t in pending :: t.id < |futures|
    ensures Sorted(Decide(pending, active, futures, k).pending)
  {
    if k > 0 {
      hide Blocked, Conflicts;
      DecideOrder(pending, active, futures, k - 1);
      DecideWaiting(pending, active, futures, k - 1);
      PrefixIsOlder(pending, k - 1);
      if !Ready(pending, active, k - 1) {
        AppendSorted(Decide(pending, active, futures, k - 1).pending, pending[k - 1]);
      }
    }
  }

  /** The ticket decided next is new to the active list. */
  lemma {:induction false} NextIsNotActive(pending: seq<Ticket>, active: seq<Ticket>, futures: seq<Future>, k: nat)
    requires k < |pending|
    requires forall t | t in pending[..k] :: t.id < pending[k].id
    requires forall t | t in pending :: t.id < |futures| && futures[t.id] != Granted
    requires forall t | t in active :: t.id < |futures| && futures[t.id] == Granted
    ensures forall t | t in Decide(pending, active, futures, k).active :: t.id != pending[k].id
  {
    var q := Decide(pending, active, futures, k);
    DecideMembers(pending, active, futures, k);
    forall t | t in q.active ensures t.id != pending[k].id {
      assert Outstanding(q, t);
      assert pending[k] in pending;
    }
  }

  lemma {:induction false} DecideDistinct(pending: seq<Ticket>, active: seq<Ticket>, futures: seq<Future>, k: nat)
    requires k <= |pending| && Sorted(pending) && Distinct(active)
    requires forall t | t in pending :: t.id < |futures| && futures[t.id] != Granted
    requires forall t | t in active :: t.id < |futures| && futures[t.id] == Granted
    ensures Distinct(Decide(pending, active, futures, k).active)
  {
    if k > 0 {
      DecideDistinct(pending, active, futures, k - 1);
      PrefixIsOlder(pending, k - 1);
      NextIsNotActive(pending, active, futures, k - 1);
      var granted := Decide(pending, active, futures, k - 1).active;
      AppendDistinct(granted, pending[k - 1]);
      assert Decide(pending, active, futures, k).active == granted + [pending[k - 1]] || Decide(pending, active, futures, k).active == granted;
    }
  }

  lemma {:induction false} DecideWaiting(pending: seq<Ticket>, active: seq<Ticket>, futures: seq<Future>, k: nat)
    requires k <= |pending|
    requires forall t | t in pending :: t.id < |futures|
    ensures forall t | t in Decide(pending, active, futures, k).pending :: t in pending[..k]
    ensures forall t | t in active :: t in Decide(pending, active, futures, k).active
  {
    if k > 0 {
      DecideWaiting(pending, active, futures, k - 1);
      assert pending[..k] == pending[..k - 1] + [pending[k - 1]];
    }
  }

  /** Only futures of granted tickets change, and they become granted. */
  lemma {:induction false} DecideFutures(pending: seq<Ticket>, active: seq<Ticket>, futures: seq<Future>, k: nat)
    requires k <= |pending|
    requires forall t | t in pending || t in active :: t.id < |futures|
    requires forall t | t in active :: futures[t.id] == Granted
    ensures forall t | t in Decide(pending, active, futures, k).active ::
              t.id < |futures| && Decide(pending, active, futures, k).futures[t.id] == Granted
    ensures forall id | 0 <= id < |futures| && Decide(pending, active, futures, k).futures[id] != futures[id] ::
              Decide(pending, active, futures, k).futures[id] == Granted && Holds(pending, id)
  {
    if k > 0 {
      DecideFutures(pending, active, futures, k - 1);
      assert Holds(pending, pending[k - 1].id);
    }
  }

  lemma {:induction false} DecideWaitingFutures(pending: seq<Ticket>, active: seq<Ticket>, futures: seq<Future>, k: nat)
    requires k <= |pending| && Sorted(pending)
    requires forall t | t in pending :: t.id < |futures|
    ensures forall t | t in Decide(pending, active, futures, k).pending ::
              t in pending && Decide(pending, active, futures, k).futures[t.id] == futures[t.id]
    ensures forall i | k <= i < |pending| ::
              Decide(pending, active, futures, k).futures[pending[i].id] == futures[pending[i].id]
  {
    if k > 0 {
      hide Ready, Blocked, Conflicts;
      DecideWaitingFutures(pending, active, futures, k - 1);
      DecideWaiting(pending, active, futures, k - 1);
      assert forall t | t in pending[..k - 1] :: t.id < pending[k - 1].id;
    }
  }

  lemma {:induction false} ConflictsSymmetric(a: Claims, b: Claims)
    ensures Conflicts(a, b) == Conflicts(b, a)
  {
    assert a.writeKeys * (b.readKeys + b.writeKeys) == (b.readKeys + b.writeKeys) * a.writeKeys;
  }

  /** From any well-formed queue without overtaking, scheduling restores the characterisation. */
  lemma {:induction false} ScheduleInv(q: Queue)
    requires WellFormed(q)
    requires forall t | t in q.active :: Unobstructed(q, t)
    ensures Inv(Schedule(q))
    ensures |Schedule(q).futures| == |q.futures|
    ensures forall t :: Outstanding(Schedule(q), t) <==> t in q.active || t in Live(q.pending, q.futures)
    ensures forall t | t in q.active :: t in Schedule(q).active
    ensures forall id | 0 <= id < |q.futures| && Schedule(q).futures[id] != q.futures[id] ::
              Schedule(q).futures[id] == Granted && Holds(Live(q.pending, q.futures), id)
  {
    var live, r := Live(q.pending, q.futures), Schedule(q);
    LiveSorted(q.pending, q.futures);
    assert live[..|live|] == live;
    DecideMembers(live, q.active, q.futures, |live|);
    DecideOrder(live, q.active, q.futures, |live|);
    DecideDistinct(live, q.active, q.futures, |live|);
    DecideWaitingFutures(live, q.active, q.futures, |live|);
    DecideWaiting(live, q.active, q.futures, |live|);
    DecideFutures(live, q.active, q.futures, |live|);
    forall t | Outstanding(r, t) ensures t in r.active <==> Unobstructed(r, t) {
      if t in live {
        var i :| 0 <= i < |live| && live[i] == t;
        DecideExactly(live, q.active, q.futures, |live|, i);
        ReadyIsUnobstructed(q, live, i, r);
      } else {
        assert Unobstructed(q, t);
        assert forall u | Outstanding(r, u) :: Outstanding(q, u);
      }
    }
  }

  /** For a queued ticket, the filter of the scan and the age-based rule agree. */
  lemma {:induction false} ReadyIsUnobstructed(q: Queue, live: seq<Ticket>, i: nat, r: Queue)
    requires WellFormed(q) && live == Live(q.pending, q.futures) && Sorted(live) && i < |live|
    requires forall t | t in q.active :: Unobstructed(q, t)
    requires forall t :: Outstanding(r, t) <==> t in q.active || t in live
    ensures Ready(live, q.active, i) <==> Unobstructed(r, live[i])
  {
    var t := live[i];
    PrefixIsOlder(live, i);
    assert Outstanding(q, t);
    if Blocked(t, q.active) {
      var u :| u in q.active && Conflicts(t.claims, u.claims);
      ConflictsSymmetric(t.claims, u.claims);
      assert Outstanding(r, u) && u.id < t.id by { assert Unobstructed(q, u); }
    } else if Blocked(t, live[..i]) {
      var u :| u in live[..i] && Conflicts(t.claims, u.claims);
      assert Outstanding(r, u);
    } else {
      forall older | Outstanding(r, older) && older.id < t.id ensures !Conflicts(t.claims, older.claims) {
        assert older in q.active || older in live[..i];
      }
    }
  }

  // ---------------------------------------------------------- step preservation

  lemma {:induction false} EnqueueWellFormed(q: Queue, claims: Claims)
    requires WellFormed(q)
    ensures WellFormed(Enqueue(q, claims))
    ensures forall t | t in q.pending || t in q.active :: Enqueue(q, claims).futures[t.id] == q.futures[t.id]
  {
  }

  lemma {:induction false} ArriveInv(q: Queue, claims: Claims)
    requires Inv(q)
    ensures Inv(Arrive(q, claims))
  {
    EnqueueWellFormed(q, claims);
    var q' := Enqueue(q, claims);
    forall t | t in q'.active ensures Unobstructed(q', t) {
      assert Outstanding(q, t);
      assert forall u | Outstanding(q', u) :: Outstanding(q, u) || u == Ticket(|q.futures|, claims);
    }
    ScheduleInv(q');
  }

  /** An arrival adds one ticket, drops only cancelled ones, and takes back no grant. */
  lemma {:induction false} ArriveKeeps(q: Queue, claims: Claims)
    requires Inv(q)
    ensures var r, ticket := Arrive(q, claims), Ticket(|q.futures|, claims);
            && |r.futures| == |q.futures| + 1
            && (forall t :: Outstanding(r, t) <==>
                  t == ticket || t in q.active || t in Live(q.pending, q.futures))
            && (forall t | t in q.active :: t in r.active)
            && (forall id | 0 <= id < |q.futures| && r.futures[id] != q.futures[id] ::
                  r.futures[id] == Granted && q.futures[id] == Waiting)
  {
    EnqueueWellFormed(q, claims);
    var q', ticket := Enqueue(q, claims), Ticket(|q.futures|, claims);
    forall t | t in q'.active ensures Unobstructed(q', t) {
      assert Outstanding(q, t);
      assert forall u | Outstanding(q', u) :: Outstanding(q, u) || u == ticket;
    }
    ScheduleInv(q');
    var live := Live(q'.pending, q'.futures);
    assert forall t :: t in live <==> t == ticket || t in Live(q.pending, q.futures);
  }

  lemma {:induction false} MarkCancelledWellFormed(q: Queue, id: nat)
    requires WellFormed(q) && id < |q.futures|
    ensures WellFormed(MarkCancelled(q, id))
  {
  }

  lemma {:induction false} MarkCancelledInv(q: Queue, id: nat)
    requires Inv(q) && id < |q.futures|
    ensures Inv(MarkCancelled(q, id))
  {
    var r := MarkCancelled(q, id);
    forall t | Outstanding(r, t) ensures t in r.active <==> Unobstructed(r, t) {
      assert Outstanding(q, t);
      assert Unobstructed(q, t) <==> Unobstructed(r, t) by {
        assert forall u :: Outstanding(q, u) <==> Outstanding(r, u);
      }
    }
  }

  lemma {:induction false} LeaveInv(q: Queue, id: nat)
    requires Inv(q)
    ensures Inv(Leave(q, id))
    ensures |Leave(q, id).futures| == |q.futures|
    ensures !Holds(Leave(q, id).pending, id) && !Holds(Leave(q, id).active, id)
    ensures forall t | Outstanding(Leave(q, id), t) :: Outstanding(q, t)
    ensures forall t | Outstanding(q, t) && t.id != id && q.futures[t.id] != Cancelled :: Outstanding(Leave(q, id), t)
    ensures forall t | t in q.active && t.id != id :: t in Leave(q, id).active
    ensures forall i | 0 <= i < |q.futures| && Leave(q, id).futures[i] != q.futures[i] ::
              Leave(q, id).futures[i] == Granted && q.futures[i] == Waiting && i != id
  {
    if Holds(q.pending, id) {
      var q' := q.(pending := Without(q.pending, id));
      WithoutSorted(q.pending, id);
      forall t | t in q'.active ensures Unobstructed(q', t) {
        assert Outstanding(q, t) && Unobstructed(q, t);
        assert forall u | Outstanding(q', u) :: Outstanding(q, u);
      }
      ScheduleInv(q');
    } else if Holds(q.active, id) {
      var q' := q.(active := Without(q.active, id));
      WithoutDistinct(q.active, id);
      forall t | t in q'.active ensures Unobstructed(q', t) {
        assert Outstanding(q, t) && Unobstructed(q, t);
        assert forall u | Outstanding(q', u) :: Outstanding(q, u);
      }
      ScheduleInv(q');
    }
  }

  // ------------------------------------------------------------------ guarantees

  /** What one pass of `_schedule_ready` does, without its restarts, whatever state it is called in. */
  lemma {:induction false} ScheduleFilters(q: Queue)
    requires WellFormed(q)
    ensures var live, r := Live(q.pending, q.futures), Schedule(q);
            && (forall t :: t in live <==> t in q.pending && q.futures[t.id] != Cancelled)
            && (forall i: nat | i < |live| ::
                  && (live[i] in r.active <==> Ready(live, q.active, i))
                  && (live[i] in r.pending <==> !Ready(live, q.active, i)))
            && (forall t :: Outstanding(r, t) <==> t in q.active || t in live)
            && Sorted(r.pending)
            && q.active <= r.active
            && Sorted(r.active[|q.active|..])
  {
    var live := Live(q.pending, q.futures);
    LiveSorted(q.pending, q.futures);
    forall i: nat | i < |live|
      ensures live[i] in Schedule(q).active <==> Ready(live, q.active, i)
      ensures live[i] in Schedule(q).pending <==> !Ready(live, q.active, i)
    {
      DecideExactly(live, q.active, q.futures, |live|, i);
    }
    DecideMembers(live, q.active, q.futures, |live|);
    assert live[..|live|] == live;
    DecideOrder(live, q.active, q.futures, |live|);
    DecideGrantsInOrder(live, q.active, q.futures, |live|);
  }

  lemma {:induction false} DecideGrantsInOrder(pending: seq<Ticket>, active: seq<Ticket>, futures: seq<Future>, k: nat)
    requires k <= |pending| && Sorted(pending)
    requires forall t | t in pending :: t.id < |futures|
    ensures var granted := Decide(pending, active, futures, k).active;
            && active <= granted
            && Sorted(granted[|active|..])
            && (forall t | t in granted[|active|..] :: t in pending[..k])
  {
    if k > 0 {
      DecideGrantsInOrder(pending, active, futures, k - 1);
      var before := Decide(pending, active, futures, k - 1).active;
      var added, ticket := before[|active|..], pending[k - 1];
      assert pending[..k] == pending[..k - 1] + [ticket];
      forall i | 0 <= i < |added| ensures added[i].id < ticket.id {
        assert added[i] in pending[..k - 1];
      }
      assert (before + [ticket])[|active|..] == added + [ticket];
    }
  }

  /** The active set is a function of the outstanding tickets: how they got there is forgotten. */
  lemma {:induction false} ActiveSetDetermined(q: Queue, r: Queue)
    requires Inv(q) && Inv(r)
    requires forall t :: Outstanding(q, t) <==> Outstanding(r, t)
    ensures forall t :: t in q.active <==> t in r.active
  {
    forall t | Outstanding(q, t) ensures Unobstructed(q, t) <==> Unobstructed(r, t) {
    }
  }

  lemma {:induction false} ActiveNeverConflict(q: Queue, a: Ticket, b: Ticket)
    requires Inv(q) && a in q.active && b in q.active && a.id != b.id
    ensures !Conflicts(a.claims, b.claims)
  {
    ConflictsSymmetric(a.claims, b.claims);
    assert Outstanding(q, a) && Outstanding(q, b);
  }

  /** Conflict FIFO: whoever holds up a waiting ticket arrived before it. */
  lemma {:induction false} NoOvertaking(q: Queue, a: Ticket, waiting: Ticket)
    requires Inv(q) && a in q.active && waiting in q.pending && Conflicts(waiting.claims, a.claims)
    ensures a.id < waiting.id
  {
    ConflictsSymmetric(waiting.claims, a.claims);
    assert Outstanding(q, a) && Outstanding(q, waiting);
  }

  lemma {:induction false} OldestIsActive(q: Queue, bound: nat) returns (oldest: Ticket)
    requires Inv(q)
    requires exists t :: Outstanding(q, t) && t.id < bound
    ensures oldest in q.active
    decreases bound
  {
    oldest :| Outstanding(q, oldest) && oldest.id < bound;
    if older :| Outstanding(q, older) && older.id < oldest.id {
      oldest := OldestIsActive(q, oldest.id);
    }
  }

  /** Nobody waits for nobody. */
  lemma {:induction false} WaitingImpliesActive(q: Queue)
    requires Inv(q) && q.pending != []
    ensures q.active != []
  {
    assert Outstanding(q, q.pending[0]);
    var oldest := OldestIsActive(q, |q.futures|);
  }

  // ------------------------------------------------------ the queue seen by holders

  predicate Present(q: Queue, id: nat) {
    Holds(q.pending, id) || Holds(q.active, id)
  }

  predicate IsActive(q: Queue, id: nat) {
    Holds(q.active, id)
  }

  /** No ticket of the queue is cancelled, as when cancelling and leaving are one step. */
  ghost predicate AllWaiting(q: Queue) {
    forall t | t in q.pending :: t.id < |q.futures| && q.futures[t.id] == Waiting
  }

  ghost predicate Sound(q: Queue) {
    Inv(q) && AllWaiting(q)
  }

  /** `r` is `q` without ticket `id`: the others are still there and nobody lost a grant. */
  ghost predicate Vacates(q: Queue, id: nat, r: Queue) {
    && (forall other: nat :: Present(r, other) <==> Present(q, other) && other != id)
    && (forall other: nat | IsActive(q, other) && other != id :: IsActive(r, other))
  }

  lemma {:induction false} ActiveOnceGranted(q: Queue, id: nat)
    requires Sound(q) && Present(q, id)
    ensures id < |q.futures|
    ensures IsActive(q, id) <==> q.futures[id] == Granted
  {
    var t :| Outstanding(q, t) && t.id == id;
  }

  lemma {:induction false} SomeoneIsActive(q: Queue, id: nat) returns (active: nat)
    requires Sound(q) && Present(q, id)
    ensures Present(q, active) && IsActive(q, active)
  {
    var t :| Outstanding(q, t) && t.id == id;
    var oldest := OldestIsActive(q, |q.futures|);
    active := oldest.id;
  }

  lemma {:induction false} ArriveAddsOne(q: Queue, claims: Claims)
    requires Sound(q)
    ensures Sound(Arrive(q, claims))
    ensures |Arrive(q, claims).futures| == |q.futures| + 1
    ensures !Present(q, |q.futures|)
    ensures forall id: nat :: Present(Arrive(q, claims), id) <==> Present(q, id) || id == |q.futures|
    ensures forall id: nat | IsActive(q, id) :: IsActive(Arrive(q, claims), id)
  {
    var r, ticket := Arrive(q, claims), Ticket(|q.futures|, claims);
    ArriveInv(q, claims);
    ArriveKeeps(q, claims);
    EnqueueWellFormed(q, claims);
    ScheduleKeepsWaiting(Enqueue(q, claims));
    SameIds(q, r, |q.futures|);
    assert Outstanding(r, ticket);
  }

  /** Tickets kept up to one id, ids kept up to that id. */
  lemma {:induction false} SameIds(q: Queue, r: Queue, except: nat)
    requires forall t: Ticket :: t.id != except ==> (Outstanding(q, t) <==> Outstanding(r, t))
    requires forall t | t in q.active && t.id != except :: t in r.active
    ensures forall id: nat | id != except :: Present(q, id) <==> Present(r, id)
    ensures forall id: nat | IsActive(q, id) && id != except :: IsActive(r, id)
  {
    forall id: nat | id != except ensures Present(q, id) <==> Present(r, id) {
      if Present(q, id) {
        var t :| Outstanding(q, t) && t.id == id;
        assert Outstanding(r, t);
      }
      if Present(r, id) {
        var t :| Outstanding(r, t) && t.id == id;
        assert Outstanding(q, t);
      }
    }
  }

  lemma {:induction false} ScheduleKeepsWaiting(q: Queue)
    requires WellFormed(q) && AllWaiting(q)
    ensures AllWaiting(Schedule(q))
  {
    var live := Live(q.pending, q.futures);
    LiveSorted(q.pending, q.futures);
    DecideWaitingFutures(live, q.active, q.futures, |live|);
  }

  lemma {:induction false} LeaveTakesOne(q: Queue, id: nat)
    requires Inv(q) && (forall t | t in q.pending && t.id != id :: q.futures[t.id] == Waiting)
    ensures Sound(Leave(q, id)) && Vacates(q, id, Leave(q, id))
  {
    LeaveInv(q, id);
    LeaveKeepsWaiting(q, id);
    SameIds(q, Leave(q, id), id);
  }

  lemma {:induction false} LeaveKeepsWaiting(q: Queue, id: nat)
    requires WellFormed(q) && (forall t | t in q.pending && t.id != id :: q.futures[t.id] == Waiting)
    ensures AllWaiting(Leave(q, id))
  {
    WithoutSorted(q.pending, id);
    WithoutDistinct(q.active, id);
    if Holds(q.pending, id) {
      ScheduleKeepsWaiting(q.(pending := Without(q.pending, id)));
    } else if Holds(q.active, id) {
      ScheduleKeepsWaiting(q.(active := Without(q.active, id)));
    }
  }

  lemma {:induction false} SoundLeave(q: Queue, id: nat)
    requires Sound(q)
    ensures Sound(Leave(q, id)) && Vacates(q, id, Leave(q, id))
  {
    LeaveTakesOne(q, id);
  }

  /** Abandoning is leaving, as far as the others are concerned. */
  lemma {:induction false} SoundAbandon(q: Queue, id: nat)
    requires Sound(q) && id < |q.futures|
    ensures Sound(Abandon(q, id)) && Vacates(q, id, Abandon(q, id))
  {
    MarkCancelledInv(q, id);
    LeaveTakesOne(MarkCancelled(q, id), id);
  }

  /** Tickets stay with their claims until they leave. */
  lemma {:induction false} ArriveKeepsTickets(q: Queue, claims: Claims)
    requires Sound(q)
    ensures Outstanding(Arrive(q, claims), Ticket(|q.futures|, claims))
    ensures forall t | Outstanding(q, t) :: Outstanding(Arrive(q, claims), t)
  {
    ArriveKeeps(q, claims);
  }

  lemma {:induction false} LeaveKeepsTickets(q: Queue, id: nat)
    requires Sound(q)
    ensures forall t | Outstanding(q, t) && t.id != id :: Outstanding(Leave(q, id), t)
  {
    LeaveInv(q, id);
  }

  lemma {:induction false} AbandonKeepsTickets(q: Queue, id: nat)
    requires Sound(q) && id < |q.futures|
    ensures forall t | Outstanding(q, t) && t.id != id :: Outstanding(Abandon(q, id), t)
  {
    MarkCancelledInv(q, id);
    LeaveInv(MarkCancelled(q, id), id);
    assert forall t | Outstanding(q, t) :: Outstanding(MarkCancelled(q, id), t);
  }

  /** A number names one ticket. */
  lemma {:induction false} ActiveById(q: Queue, t: Ticket)
    requires WellFormed(q) && Outstanding(q, t) && IsActive(q, t.id)
    ensures t in q.active
  {
    var u :| u in q.active && u.id == t.id;
    assert Outstanding(q, u);
  }

  // ------------------------------------------------------------------------ runs

  datatype Step = Arrival(claims: Claims) | Cancellation(id: nat) | Departure(id: nat)

  function Apply(q: Queue, step: Step): Queue
    requires WellFormed(q)
  {
    match step
    case Arrival(claims) => Arrive(q, claims)
    case Cancellation(id) => if id < |q.futures| then MarkCancelled(q, id) else q
    case Departure(id) => Leave(q, id)
  }

  lemma {:induction false} ApplyInv(q: Queue, step: Step)
    requires Inv(q)
    ensures Inv(Apply(q, step))
  {
    match step
    case Arrival(claims) => ArriveInv(q, claims);
    case Cancellation(id) => if id < |q.futures| { MarkCancelledInv(q, id); }
    case Departure(id) => LeaveInv(q, id);
  }

  ghost predicate StepAt(states: seq<Queue>, steps: seq<Step>, i: nat)
    requires i < |steps| && |states| == |steps| + 1
  {
    WellFormed(states[i]) && states[i + 1] == Apply(states[i], steps[i])
  }

  /** The queues a run passes through. */
  ghost predicate IsRun(states: seq<Queue>, steps: seq<Step>) {
    && |states| == |steps| + 1
    && states[0] == EMPTY
    && forall i | 0 <= i < |steps| :: StepAt(states, steps, i)
  }

  /** After every step of every run, active means: conflicts with no older outstanding ticket. */
  lemma {:induction false} EveryRunIsHistoryFree(states: seq<Queue>, steps: seq<Step>, n: nat)
    requires IsRun(states, steps) && n < |states|
    ensures Inv(states[n])
  {
    if n > 0 {
      EveryRunIsHistoryFree(states, steps, n - 1);
      assert StepAt(states, steps, n - 1);
      ApplyInv(states[n - 1], steps[n - 1]);
    }
  }

  /** `t` is one of the tickets that `ticket` waits for. */
  predicate Ahead(q: Queue, ticket: Ticket, t: Ticket) {
    Outstanding(q, t) && t.id < ticket.id && Conflicts(ticket.claims, t.claims)
  }

  /** No step ever adds to what a ticket waits for, and a departure takes the departing ticket from it. */
  lemma {:induction false} AheadShrinks(q: Queue, step: Step, ticket: Ticket, t: Ticket)
    requires Inv(q) && Outstanding(q, ticket) && Ahead(Apply(q, step), ticket, t)
    ensures Ahead(q, ticket, t) && step != Departure(t.id)
  {
    match step
    case Arrival(claims) => ArriveKeeps(q, claims);
    case Cancellation(id) =>
    case Departure(id) => LeaveInv(q, id);
  }

  // ------------------------------------------------------- admission by keys alone

  /** Neither is exclusive, and no key that one writes is read or written by the other. */
  predicate Apart(a: Claims, b: Claims) {
    && !a.exclusive && !b.exclusive
    && (forall key | key in a.writeKeys :: key !in b.readKeys && key !in b.writeKeys)
    && (forall key | key in b.writeKeys :: key !in a.readKeys && key !in a.writeKeys)
  }

  lemma {:induction false} ApartIsCompatible(a: Claims, b: Claims)
    ensures Apart(a, b) <==> !Conflicts(a, b)
  {
    if Apart(a, b) {
      assert a.writeKeys * (b.readKeys + b.writeKeys) == {};
      assert b.writeKeys * (a.readKeys + a.writeKeys) == {};
    } else if !a.exclusive && !b.exclusive {
      if key :| key in a.writeKeys && (key in b.readKeys || key in b.writeKeys) {
        assert key in a.writeKeys * (b.readKeys + b.writeKeys);
      } else {
        var key :| key in b.writeKeys && (key in a.readKeys || key in a.writeKeys);
        assert key in b.writeKeys * (a.readKeys + a.writeKeys);
      }
    }
  }

  /** Still around, and not cancelled while waiting. */
  predicate Around(q: Queue, t: Ticket) {
    t in q.active || (t in q.pending && t.id < |q.futures| && q.futures[t.id] != Cancelled)
  }

  /** A newcomer is admitted at once exactly if it keeps apart from every ticket around. */
  lemma {:induction false} NewcomerAdmitted(q: Queue, claims: Claims)
    requires Inv(q)
    ensures Ticket(|q.futures|, claims) in Arrive(q, claims).active <==>
            forall t | Around(q, t) :: Apart(claims, t.claims)
  {
    var r, ticket := Arrive(q, claims), Ticket(|q.futures|, claims);
    ArriveInv(q, claims);
    ArriveKeeps(q, claims);
    assert forall t :: Outstanding(r, t) <==> t == ticket || Around(q, t);
    assert forall t | Around(q, t) :: Outstanding(q, t);
    forall t | Around(q, t) ensures Apart(claims, t.claims) <==> !Conflicts(claims, t.claims) {
      ApartIsCompatible(claims, t.claims);
    }
  }

  // ------------------------------------------------------------------- cancellation

  /** The waiting task of `t` has been cancelled. */
  predicate IsCancelled(q: Queue, t: Ticket) {
    t.id < |q.futures| && q.futures[t.id] == Cancelled
  }

  lemma {:induction false} CancelledStays(q: Queue, step: Step, t: Ticket)
    requires Inv(q) && IsCancelled(q, t)
    ensures IsCancelled(Apply(q, step), t) && t !in Apply(q, step).active
    ensures Outstanding(Apply(q, step), t) ==> Outstanding(q, t)
  {
    ApplyInv(q, step);
    match step
    case Arrival(claims) => ArriveKeeps(q, claims);
    case Cancellation(id) =>
    case Departure(id) => LeaveInv(q, id);
  }

  /** The scan a step sets off: an arrival always does, a departure if the ticket is outstanding. */
  predicate Schedules(q: Queue, step: Step) {
    step.Arrival? || (step.Departure? && Present(q, step.id))
  }

  lemma {:induction false} CancelledIsDropped(q: Queue, step: Step, t: Ticket)
    requires Inv(q) && IsCancelled(q, t) && Schedules(q, step)
    ensures !Outstanding(Apply(q, step), t)
  {
    ApplyInv(q, step);
    match step
    case Arrival(claims) => ArriveKeeps(q, claims);
    case Departure(id) =>
      WithoutSorted(q.pending, id);
      WithoutDistinct(q.active, id);
      var q' := if Holds(q.pending, id) then q.(pending := Without(q.pending, id)) else q.(active := Without(q.active, id));
      ScheduleFilters(q');
  }

  lemma {:induction false} CancellationCancels(q: Queue, t: Ticket)
    requires Inv(q) && t in q.pending
    ensures IsCancelled(Apply(q, Cancellation(t.id)), t) && t !in Apply(q, Cancellation(t.id)).active
  {
    assert Outstanding(q, t);
    ApplyInv(q, Cancellation(t.id));
  }

  /** A ticket whose wait is cancelled is never granted, and is gone after the next scan. */
  lemma {:induction false} CancelledNeverGranted(states: seq<Queue>, steps: seq<Step>, i: nat, n: nat, t: Ticket)
    requires IsRun(states, steps) && i < n < |states|
    requires t in states[i].pending && steps[i] == Cancellation(t.id)
    ensures IsCancelled(states[n], t) && t !in states[n].active
    ensures (exists j: nat :: i < j < n && Schedules(states[j], steps[j])) ==> !Outstanding(states[n], t)
    decreases n
  {
    hide Inv, Apply, WellFormed, Outstanding, IsCancelled, Schedules;
    var q, step := states[n - 1], steps[n - 1];
    EveryRunIsHistoryFree(states, steps, n - 1);
    assert StepAt(states, steps, n - 1);
    if n == i + 1 {
      CancellationCancels(q, t);
    } else {
      CancelledNeverGranted(states, steps, i, n - 1, t);
      CancelledStays(q, step, t);
      if Schedules(q, step) {
        CancelledIsDropped(q, step, t);
      }
    }
  }

  // -------------------------------------------------------------------- bounded waiting

  /** Bounded waiting: once everything that was ahead has departed, a ticket still there is active. */
  lemma {:induction false} GrantedOnceOlderLeft(states: seq<Queue>, steps: seq<Step>, first: nat, last: nat, ticket: Ticket)
    requires IsRun(states, steps) && first <= last < |states|
    requires forall i | first <= i <= last :: Outstanding(states[i], ticket)
    requires forall t | Ahead(states[first], ticket, t) :: exists i | first <= i < last :: steps[i] == Departure(t.id)
    ensures ticket in states[last].active
  {
    EveryRunIsHistoryFree(states, steps, last);
    assert Outstanding(states[last], ticket);
    if ticket !in states[last].active {
      var t :| Outstanding(states[last], t) && t.id < ticket.id && Conflicts(ticket.claims, t.claims);
      AheadSince(states, steps, first, last, ticket, t);
      var i :| first <= i < last && steps[i] == Departure(t.id);
      AheadSince(states, steps, i + 1, last, ticket, t);
      StepKeepsAhead(states, steps, i, ticket, t);
    }
  }

  lemma {:induction false} AheadSince(states: seq<Queue>, steps: seq<Step>, first: nat, last: nat, ticket: Ticket, t: Ticket)
    requires IsRun(states, steps) && first <= last < |states|
    requires forall i | first <= i <= last :: Outstanding(states[i], ticket)
    requires Ahead(states[last], ticket, t)
    ensures Ahead(states[first], ticket, t)
    decreases last
  {
    if first < last {
      StepKeepsAhead(states, steps, last - 1, ticket, t);
      AheadSince(states, steps, first, last - 1, ticket, t);
    }
  }

  lemma {:induction false} StepKeepsAhead(states: seq<Queue>, steps: seq<Step>, i: nat, ticket: Ticket, t: Ticket)
    requires IsRun(states, steps) && i < |steps|
    requires Outstanding(states[i], ticket) && Ahead(states[i + 1], ticket, t)
    ensures Ahead(states[i], ticket, t) && steps[i] != Departure(t.id)
  {
    EveryRunIsHistoryFree(states, steps, i);
    assert StepAt(states, steps, i);
    AheadShrinks(states[i], steps[i], ticket, t);
  }

  // ---------------------------------------------------------------- the scheduler

  /** At the front of the undecided part, the scan's test is the filter. */
  lemma {:induction false} ScanTestIsFilter(pending: seq<Ticket>, active: seq<Ticket>, futures: seq<Future>, k: nat)
    requires k < |pending|
    requires forall t | t in pending :: t.id < |futures|
    ensures var q := Decide(pending, active, futures, k);
            Ready(pending, active, k) <==> !Blocked(pending[k], q.active) && !Blocked(pending[k], q.pending)
  {
    DecideMembers(pending, active, futures, k);
    var q := Decide(pending, active, futures, k);
    assert forall t :: t in q.active || t in q.pending <==> t in active || t in pending[..k];
  }

  /** A ticket the scan passed over stays blocked when the scan restarts. */
  lemma {:induction false} PassedOverStaysBlocked(pending: seq<Ticket>, active: seq<Ticket>, futures: seq<Future>, k: nat, i: nat)
    requires k <= |pending|
    requires forall t | t in pending :: t.id < |futures|
    requires i < |Decide(pending, active, futures, k).pending|
    ensures var q := Decide(pending, active, futures, k);
            Blocked(q.pending[i], q.active) || Blocked(q.pending[i], q.pending[..i])
  {
    var q := Decide(pending, active, futures, k);
    var q' := Decide(pending, active, futures, k - 1);
    if i < |q'.pending| {
      PassedOverStaysBlocked(pending, active, futures, k - 1, i);
      assert q.pending[..i] == q'.pending[..i];
    } else {
      ScanTestIsFilter(pending, active, futures, k - 1);
      assert q.pending[..i] == q'.pending;
    }
  }

  /** The next decision, and that the future it would settle is still as it was. */
  lemma {:induction false} DecideNext(live: seq<Ticket>, active: seq<Ticket>, futures: seq<Future>, k: nat)
    requires k < |live| && Sorted(live)
    requires forall t | t in live :: t.id < |futures|
    ensures var q, ticket := Decide(live, active, futures, k), live[k];
            && ticket.id < |futures|
            && q.futures[ticket.id] == futures[ticket.id]
            && Decide(live, active, futures, k + 1) ==
               if Ready(live, active, k)
               then Queue(q.pending, q.active + [ticket], q.futures[ticket.id := Granted])
               else Queue(q.pending + [ticket], q.active, q.futures)
  {
    DecideWaitingFutures(live, active, futures, k);
    assert live[k] in live;
  }

  /** Taking the first undecided ticket out of the queue. */
  lemma {:induction false} TakeOut(waiting: seq<Ticket>, live: seq<Ticket>, k: nat)
    requires k < |live|
    ensures var all := waiting + live[k..];
            && |all| == |waiting| + |live| - k
            && all[|waiting|] == live[k]
            && all[..|waiting|] == waiting
            && all[..|waiting|] + all[|waiting| + 1..] == waiting + live[k + 1..]
            && (waiting + [live[k]]) + live[k + 1..] == all
  {
  }

  /** Scheduling has dropped the cancelled tickets and settled the first `k` of the others. */
  ghost predicate Settled(before: Queue, k: nat, now: Queue)
    requires WellFormed(before)
  {
    var live := Live(before.pending, before.futures);
    && k <= |live|
    && var q := Decide(live, before.active, before.futures, k);
       now == q.(pending := q.pending + live[k..])
  }

  /** The scan has reached `index` without going past the first undecided ticket. */
  ghost predicate Scanned(before: Queue, k: nat, now: Queue, index: nat)
    requires WellFormed(before)
  {
    && Settled(before, k, now)
    && index <= |now.pending| - (|Live(before.pending, before.futures)| - k)
  }

  /** One test of the scan, at `index`: what it finds and what acting on it settles. */
  lemma {:induction false} ScanStep(before: Queue, k: nat, now: Queue, index: nat)
    requires WellFormed(before) && Scanned(before, k, now, index)
    requires index < |now.pending|
    ensures var ticket, front := now.pending[index], |now.pending| - (|Live(before.pending, before.futures)| - k);
            && ticket.id < |now.futures|
            && (Ready(now.pending, now.active, index) ==>
                  && index == front
                  && now.futures[ticket.id] != Cancelled
                  && Settled(before, k + 1, Queue(now.pending[..index] + now.pending[index + 1..],
                                                  now.active + [ticket], now.futures[ticket.id := Granted])))
            && (!Ready(now.pending, now.active, index) && index == front ==> Settled(before, k + 1, now))
  {
    var live := Live(before.pending, before.futures);
    var q := Decide(live, before.active, before.futures, k);
    LiveSorted(before.pending, before.futures);
    if index < |q.pending| {
      PassedOverStaysBlocked(live, before.active, before.futures, k, index);
      assert now.pending[..index] == q.pending[..index] && now.pending[index] == q.pending[index];
      assert q.pending[index] in live by { DecideWaitingFutures(live, before.active, before.futures, k); }
    } else {
      ScanTestIsFilter(live, before.active, before.futures, k);
      DecideNext(live, before.active, before.futures, k);
      TakeOut(q.pending, live, k);
      assert live[k] in live;
    }
  }

  lemma {:induction false} PassOver(before: Queue, k: nat, now: Queue, index: nat) returns (k': nat)
    requires WellFormed(before) && Scanned(before, k, now, index)
    requires index < |now.pending| && !Ready(now.pending, now.active, index)
    ensures Scanned(before, k', now, index + 1)
  {
    ScanStep(before, k, now, index);
    k' := if index == |now.pending| - (|Live(before.pending, before.futures)| - k) then k + 1 else k;
  }

  class CapabilityScheduler {
    var pending: seq<Ticket>
    var active: seq<Ticket>
    var futures: seq<Future>

    function View(): Queue
      reads this
    {
      Queue(pending, active, futures)
    }

    constructor ()
      ensures View() == EMPTY && Inv(View())
    {
      pending, active, futures := [], [], [];
    }

    predicate IsReady(index: nat, ticket: Ticket)
      requires index <= |pending|
      reads this
    {
      !Blocked(ticket, active) && !Blocked(ticket, pending[..index])
    }

    /** Move a ready ticket from the queue to the active list and settle its future. */
    method Grant(index: nat, ghost before: Queue, ghost k: nat)
      requires WellFormed(before) && Scanned(before, k, View(), index)
      requires index < |pending|
      requires Ready(pending, active, index)
      modifies this
      ensures Settled(before, k + 1, View()) && |pending| == |old(pending)| - 1
    {
      ScanStep(before, k, View(), index);
      var ticket := pending[index];
      assert ticket.id < |futures| && futures[ticket.id] != Cancelled;
      pending := pending[..index] + pending[index + 1..];
      active := active + [ticket];
      if futures[ticket.id] == Cancelled {
        assert false;  // cancelled tickets were dropped before the scan and nothing has run since
      }
      futures := futures[ticket.id := Granted];
    }

    /** The inner `for`: grant the first ready ticket of the queue and stop, if there is one. */
    method GrantFirstReady(ghost before: Queue, ghost decided: nat) returns (granted: bool, ghost k: nat)
      requires WellFormed(before) && Settled(before, decided, View())
      modifies this
      ensures Settled(before, k, View())
      ensures if granted then |pending| < |old(pending)| else pending == old(pending)
      ensures !granted ==> k == |Live(before.pending, before.futures)|
    {
      var index := 0;
      granted, k := false, decided;
      while index < |pending|
        invariant Scanned(before, k, View(), index) && pending == old(pending)
      {
        if IsReady(index, pending[index]) {
          Grant(index, before, k);
          granted, k := true, k + 1;
          return;
        }
        k := PassOver(before, k, View(), index);
        index := index + 1;
      }
    }

    /** Drop the cancelled tickets, then scan from the front again after every grant. */
    method ScheduleReady()
      requires WellFormed(View())
      modifies this
      ensures View() == Schedule(old(View()))
    {
      ghost var before, k := View(), 0;
      pending := Live(pending, futures);
      assert pending[0..] == pending;
      var granted := true;
      while granted
        invariant Settled(before, k, View())
        invariant !granted ==> k == |Live(before.pending, before.futures)|
        decreases |pending|, granted
      {
        granted, k := GrantFirstReady(before, k);
      }
    }

    /** Entry of `admit`: join the queue and schedule. The ticket is the arrival number. */
    method Admit(claims: Claims) returns (ticket: nat)
      requires Inv(View())
      modifies this
      ensures View() == Arrive(old(View()), claims) && Inv(View())
      ensures ticket == |old(futures)|
      ensures Ticket(ticket, claims) in active <==> forall t | old(Around(View(), t)) :: Apart(claims, t.claims)
    {
      ArriveInv(View(), claims);
      NewcomerAdmitted(View(), claims);
      EnqueueWellFormed(View(), claims);
      ticket := |futures|;
      pending := pending + [Ticket(ticket, claims)];
      futures := futures + [Waiting];
      ScheduleReady();
    }

    /** The waiting task is cancelled. */
    method Cancel(ticket: nat)
      requires Inv(View()) && ticket < |futures|
      modifies this
      ensures View() == MarkCancelled(old(View()), ticket) && Inv(View())
    {
      MarkCancelledInv(View(), ticket);
      if futures[ticket] == Waiting {
        futures := futures[ticket := Cancelled];
      }
    }

    /** The `finally` of `admit`: leave from wherever the ticket is. */
    method Release(ticket: nat)
      requires Inv(View())
      modifies this
      ensures View() == Leave(old(View()), ticket) && Inv(View())
    {
      LeaveInv(View(), ticket);
      WithoutSorted(pending, ticket);
      WithoutDistinct(active, ticket);
      if Holds(pending, ticket) {
        pending := Without(pending, ticket);
        ScheduleReady();
      } else if Holds(active, ticket) {
        active := Without(active, ticket);
        ScheduleReady();
      }
    }
  }
}
