/** Drains and the scheduler agree, in every reachable state, on who holds which ticket. */
module PumpAdmission {
  import opened Messages
  import opened Buses
  import opened Pump
  import S = Scheduler

  predicate Admitted(phase: Phase) {
    phase.Handling? || phase.Putting? || phase.Cancelled?
  }

  predicate Holder(drains: seq<Drain>, i: nat, id: nat) {
    i < |drains| && TicketOf(drains[i].phase) == Some(id)
  }

  /** A ticket in a drain's hands is in the scheduler, and in no other hands. */
  ghost predicate Matched(drains: seq<Drain>, q: S.Queue) {
    && (forall i: nat, id: nat | Holder(drains, i, id) :: S.Present(q, id))
    && (forall i: nat, id: nat | Holder(drains, i, id) && Admitted(drains[i].phase) :: S.IsActive(q, id))
    && (forall i: nat, j: nat, id: nat | Holder(drains, i, id) && Holder(drains, j, id) :: i == j)
  }

  /** No other run uses the scheduler: every ticket in it is in a drain's hands. */
  ghost predicate Alone(drains: seq<Drain>, q: S.Queue) {
    forall id: nat | S.Present(q, id) :: exists i: nat :: Holder(drains, i, id)
  }

  /** What this run does to the scheduler brings in no stranger. */
  ghost predicate StillAlone(s: State, r: State) {
    Alone(s.drains, s.scheduler) ==> Alone(r.drains, r.scheduler)
  }

  ghost predicate Owned(s: State) {
    S.Sound(s.scheduler) && Matched(s.drains, s.scheduler)
  }

  // ---------------------------------------------------------- how matching is kept

  /** A drain moves on with the ticket it has, or without one as before. */
  lemma {:induction false} KeepTicket(drains: seq<Drain>, q: S.Queue, i: nat, d: Drain)
    requires Matched(drains, q) && i < |drains|
    requires TicketOf(d.phase) == TicketOf(drains[i].phase)
    requires d.phase.Cancelled? || d.phase.Handling? || d.phase.Putting? ==>
               TicketOf(d.phase).None? || S.IsActive(q, TicketOf(d.phase).value)
    ensures Matched(drains[i := d], q)
    ensures Alone(drains, q) ==> Alone(drains[i := d], q)
  {
    hide S.Sound, S.Present, S.IsActive;
    var r := drains[i := d];
    assert forall j: nat, id: nat :: Holder(r, j, id) <==> Holder(drains, j, id);
  }

  /** A drain that had no ticket gets the newly arrived one. */
  lemma {:induction false} GainTicket(drains: seq<Drain>, q: S.Queue, i: nat, d: Drain, claims: S.Claims)
    requires Matched(drains, q) && S.Sound(q) && i < |drains|
    requires TicketOf(drains[i].phase).None? && d.phase == Admitting(|q.futures|)
    ensures Matched(drains[i := d], S.Arrive(q, claims))
    ensures Alone(drains, q) ==> Alone(drains[i := d], S.Arrive(q, claims))
  {
    hide S.Present, S.IsActive;
    var r, q', next := drains[i := d], S.Arrive(q, claims), |q.futures|;
    S.ArriveAddsOne(q, claims);
    assert forall j: nat, id: nat :: Holder(r, j, id) <==> Holder(drains, j, id) || (j == i && id == next);
    assert forall j: nat :: !Holder(drains, j, next);
    forall id: nat | Alone(drains, q) && S.Present(q', id) ensures exists j: nat :: Holder(r, j, id) {
      if id == next {
        assert Holder(r, i, id);
      } else {
        var j: nat :| Holder(drains, j, id);
        assert Holder(r, j, id);
      }
    }
  }

  /** A drain gives its ticket up and the ticket leaves the scheduler. */
  lemma {:induction false} DropTicket(drains: seq<Drain>, q: S.Queue, i: nat, d: Drain, ticket: nat, q': S.Queue)
    requires Matched(drains, q) && Holder(drains, i, ticket) && TicketOf(d.phase).None?
    requires S.Vacates(q, ticket, q')
    ensures Matched(drains[i := d], q')
    ensures Alone(drains, q) ==> Alone(drains[i := d], q')
  {
    hide S.Sound, S.Present, S.IsActive;
    var r := drains[i := d];
    forall j: nat, id: nat ensures Holder(r, j, id) <==> Holder(drains, j, id) && id != ticket {
      if id == ticket && Holder(drains, j, id) {
        assert j == i;
      }
    }
    forall id: nat | Alone(drains, q) && S.Present(q', id) ensures exists j: nat :: Holder(r, j, id) {
      var j: nat :| Holder(drains, j, id);
      assert Holder(r, j, id);
    }
  }

  lemma {:induction false} NewDrain(drains: seq<Drain>, q: S.Queue, d: Drain)
    requires Matched(drains, q) && d.phase.Created?
    ensures Matched(drains + [d], q)
    ensures Alone(drains, q) ==> Alone(drains + [d], q)
  {
    hide S.Sound, S.Present, S.IsActive;
    var r := drains + [d];
    assert forall j: nat, id: nat :: Holder(r, j, id) <==> Holder(drains, j, id);
  }

  lemma {:induction false} GrantedIsActive(s: State, i: nat)
    requires Owned(s) && i < |s.drains| && s.drains[i].phase.Admitting?
    ensures s.drains[i].phase.ticket < |s.scheduler.futures|
    ensures S.IsActive(s.scheduler, s.drains[i].phase.ticket) <==>
            s.scheduler.futures[s.drains[i].phase.ticket] == S.Granted
  {
    hide S.Sound, S.Present, S.IsActive;
    assert Holder(s.drains, i, s.drains[i].phase.ticket);
    S.ActiveOnceGranted(s.scheduler, s.drains[i].phase.ticket);
  }

  // ------------------------------------------------------------------- every step

  lemma {:induction false} OwnedStep(p: Program, s: State, a: Action)
    requires Owned(s) && Enabled(p, s, a)
    ensures Owned(Apply(p, s, a))
    ensures !Foreign(a) ==> StillAlone(s, Apply(p, s, a))
  {
    hide S.Sound, S.Present, S.IsActive;
    match a {
      case StartRoot => OwnedStart(p, s.(supervisor := Serving), s.made[0].command);
      case Receive =>
        if s.control[0].StartCommand? {
          OwnedStart(p, s.(control := s.control[1..]), s.control[0].envelope);
        }
      case ByDrain(i, move) => OwnedMove(p, s, i, move);
      case OthersArrive(claims) => OwnedDespiteArrival(s, claims);
      case OthersLeave(ticket) => OwnedDespiteLeaving(s, ticket);
      case _ =>
        assert Apply(p, s, a).drains == s.drains && Apply(p, s, a).scheduler == s.scheduler;
    }
  }

  /** Another run's ticket arriving takes nothing from this one. */
  lemma {:induction false} OwnedDespiteArrival(s: State, claims: S.Claims)
    requires Owned(s)
    ensures Owned(s.(scheduler := S.Arrive(s.scheduler, claims)))
  {
    hide S.Sound, S.Present, S.IsActive;
    S.ArriveAddsOne(s.scheduler, claims);
  }

  lemma {:induction false} OwnedDespiteLeaving(s: State, ticket: nat)
    requires Owned(s) && Others(s, ticket)
    ensures Owned(s.(scheduler := S.Abandon(s.scheduler, ticket)))
  {
    hide S.Sound, S.Present, S.IsActive;
    S.SoundAbandon(s.scheduler, ticket);
  }

  lemma {:induction false} OwnedStart(p: Program, s: State, envelope: Envelope<Command>)
    requires Owned(s)
    ensures Owned(StartDrain(p, s, envelope)) && StillAlone(s, StartDrain(p, s, envelope))
  {
    hide S.Sound, S.Present, S.IsActive;
    NewDrain(s.drains, s.scheduler, Drain(envelope, Created));
  }

  lemma {:induction false} OwnedMove(p: Program, s: State, i: nat, move: Move)
    requires Owned(s) && i < |s.drains| && CanMove(p, s, s.drains[i], move)
    ensures Owned(MoveDrain(p, s, i, move)) && StillAlone(s, MoveDrain(p, s, i, move))
  {
    hide Owned;
    match move {
      case Ask => OwnedAsk(p, s, i);
      case Finish => OwnedFinish(p, s, i);
      case Release => OwnedRelease(p, s, i);
      case Drop => OwnedDrop(p, s, i);
      case _ => OwnedOnward(p, s, i, move);
    }
  }

  lemma {:induction false} OwnedOnward(p: Program, s: State, i: nat, move: Move)
    requires Owned(s) && i < |s.drains| && CanMove(p, s, s.drains[i], move)
    requires move.Enter? || move.Emit? || move.Put? || move.Report? ||
             (move.Drop? && !s.drains[i].phase.Admitting? && !s.drains[i].phase.Handling?)
    ensures Owned(MoveDrain(p, s, i, move)) && StillAlone(s, MoveDrain(p, s, i, move))
  {
    hide S.Sound, S.Present, S.IsActive;
    var d := s.drains[i];
    if TicketOf(d.phase).Some? {
      assert Holder(s.drains, i, TicketOf(d.phase).value);
      if move.Enter? {
        GrantedIsActive(s, i);
      }
    }
    KeepTicket(s.drains, s.scheduler, i, d.(phase := NextPhase(p, s, d, move)));
  }

  lemma {:induction false} OwnedAsk(p: Program, s: State, i: nat)
    requires Owned(s) && i < |s.drains| && CanMove(p, s, s.drains[i], Ask)
    ensures Owned(MoveDrain(p, s, i, Ask)) && StillAlone(s, MoveDrain(p, s, i, Ask))
  {
    hide S.Sound, S.Present, S.IsActive;
    var q, d := s.scheduler, s.drains[i];
    var d' := d.(phase := NextPhase(p, s, d, Ask));
    match Dispatch(p.bindings, d.command.payload) {
      case Refused => KeepTicket(s.drains, q, i, d');
      case Stream(claims, _) =>
        S.ArriveAddsOne(q, claims);
        GainTicket(s.drains, q, i, d', claims);
    }
  }

  lemma {:induction false} OwnedFinish(p: Program, s: State, i: nat)
    requires Owned(s) && i < |s.drains| && CanMove(p, s, s.drains[i], Finish)
    ensures Owned(MoveDrain(p, s, i, Finish)) && StillAlone(s, MoveDrain(p, s, i, Finish))
  {
    hide S.Sound, S.Present, S.IsActive;
    var q, d := s.scheduler, s.drains[i];
    S.SoundLeave(q, d.phase.ticket);
    DropTicket(s.drains, q, i, d.(phase := NextPhase(p, s, d, Finish)), d.phase.ticket, NextQueue(p, s, d, Finish));
  }

  lemma {:induction false} OwnedRelease(p: Program, s: State, i: nat)
    requires Owned(s) && i < |s.drains| && CanMove(p, s, s.drains[i], Release)
    ensures Owned(MoveDrain(p, s, i, Release)) && StillAlone(s, MoveDrain(p, s, i, Release))
  {
    hide S.Sound, S.Present, S.IsActive;
    var q, d := s.scheduler, s.drains[i];
    S.SoundLeave(q, d.phase.held.value);
    DropTicket(s.drains, q, i, d.(phase := Cancelled(None)), d.phase.held.value, NextQueue(p, s, d, Release));
  }

  lemma {:induction false} OwnedDrop(p: Program, s: State, i: nat)
    requires Owned(s) && i < |s.drains| && CanMove(p, s, s.drains[i], Drop)
    ensures Owned(MoveDrain(p, s, i, Drop)) && StillAlone(s, MoveDrain(p, s, i, Drop))
  {
    hide S.Sound, S.Present, S.IsActive;
    var q, d := s.scheduler, s.drains[i];
    if d.phase.Admitting? {
      S.SoundAbandon(q, d.phase.ticket);
      DropTicket(s.drains, q, i, d.(phase := Cancelled(None)), d.phase.ticket, NextQueue(p, s, d, Drop));
    } else if d.phase.Handling? {
      S.SoundLeave(q, d.phase.ticket);
      DropTicket(s.drains, q, i, d.(phase := Cancelled(None)), d.phase.ticket, NextQueue(p, s, d, Drop));
    } else {
      OwnedOnward(p, s, i, Drop);
    }
  }

  /** While anything is admitted or waiting, some ticket is active: a drain's, or another run's. */
  lemma {:induction false} SomeoneIsAdmitted(s: State, i: nat, ticket: nat) returns (active: nat)
    requires Owned(s) && Holder(s.drains, i, ticket)
    ensures S.IsActive(s.scheduler, active)
    ensures (exists j: nat :: Holder(s.drains, j, active)) || Others(s, active)
    ensures Alone(s.drains, s.scheduler) ==> exists j: nat :: Holder(s.drains, j, active)
  {
    hide S.Sound, S.Present, S.IsActive;
    active := S.SomeoneIsActive(s.scheduler, ticket);
    S.ActiveOnceGranted(s.scheduler, active);
    if !exists j: nat :: Holder(s.drains, j, active) {
      forall j | 0 <= j < |s.drains| ensures TicketOf(s.drains[j].phase) != Some(active) {
        assert !Holder(s.drains, j, active);
      }
    }
  }

  lemma {:induction false} HeldBySomeone(s: State, t: S.Ticket)
    requires Alone(s.drains, s.scheduler) && S.Outstanding(s.scheduler, t)
    ensures exists i: nat :: Holder(s.drains, i, t.id)
  {
    assert S.Present(s.scheduler, t.id);
  }

  /** When no drain holds a ticket, all that is left in the scheduler is other runs'. */
  lemma {:induction false} NoneHeld(s: State)
    requires forall i: nat, id: nat :: !Holder(s.drains, i, id)
    ensures Alone(s.drains, s.scheduler) ==> S.Idle(s.scheduler)
    ensures forall t | S.Outstanding(s.scheduler, t) && t.id < |s.scheduler.futures| :: Others(s, t.id)
  {
    var q := s.scheduler;
    if Alone(s.drains, q) {
      if q.pending != [] {
        HeldBySomeone(s, q.pending[0]);
      }
      if q.active != [] {
        HeldBySomeone(s, q.active[0]);
      }
    }
    forall i | 0 <= i < |s.drains| ensures TicketOf(s.drains[i].phase).None? {
      if TicketOf(s.drains[i].phase).Some? {
        assert Holder(s.drains, i, TicketOf(s.drains[i].phase).value);
      }
    }
  }
}
