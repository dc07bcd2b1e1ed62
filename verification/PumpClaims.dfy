/**
  What the drains' tickets claim: each the claims its command was planned with. So handlers at
  work together never claim what another writes, and one that keeps apart need not wait.
 */
module PumpClaims {
  import opened Messages
  import opened Buses
  import opened Pump
  import opened PumpAdmission
  import opened PumpProgress
  import S = Scheduler

  /** Ticket `id` is in the scheduler with the claims `command` is planned with. */
  ghost predicate Carries(p: Program, command: Command, id: nat, q: S.Queue) {
    exists claims :: PlannedAs(p.bindings, command, claims) && S.Outstanding(q, S.Ticket(id, claims))
  }

  ghost predicate Claimed(p: Program, drains: seq<Drain>, q: S.Queue) {
    forall i: nat, id: nat | Holder(drains, i, id) :: Carries(p, drains[i].command.payload, id, q)
  }

  // ------------------------------------------------------------------- every step

  /** Tickets that stay, with drains that keep them or give them up. */
  lemma {:induction false} ClaimsStay(p: Program, before: seq<Drain>, q: S.Queue, after: seq<Drain>, q': S.Queue)
    requires Claimed(p, before, q) && |before| <= |after|
    requires forall i | 0 <= i < |before| :: after[i].command == before[i].command
    requires forall i: nat, id: nat | Holder(after, i, id) :: Holder(before, i, id) && TicketStays(q, id, q')
    ensures Claimed(p, after, q')
  {
    forall i: nat, id: nat | Holder(after, i, id) ensures Carries(p, after[i].command.payload, id, q') {
      assert Carries(p, before[i].command.payload, id, q);
      var claims :| PlannedAs(p.bindings, before[i].command.payload, claims) && S.Outstanding(q, S.Ticket(id, claims));
      assert S.Outstanding(q', S.Ticket(id, claims));
    }
  }

  ghost predicate TicketStays(q: S.Queue, id: nat, q': S.Queue) {
    forall claims :: S.Outstanding(q, S.Ticket(id, claims)) ==> S.Outstanding(q', S.Ticket(id, claims))
  }

  lemma {:induction false} ClaimedStep(p: Program, s: State, a: Action)
    requires Owned(s) && Claimed(p, s.drains, s.scheduler) && Enabled(p, s, a)
    ensures Claimed(p, Apply(p, s, a).drains, Apply(p, s, a).scheduler)
  {
    hide S.Sound, Claimed, Matched, Faults, S.Outstanding;
    var r := Apply(p, s, a);
    match a {
      case ByDrain(i, move) =>
        if move.Ask? {
          ClaimedAsk(p, s, i);
        } else {
          ClaimedMove(p, s, i, move);
        }
      case OthersArrive(claims) =>
        S.ArriveKeepsTickets(s.scheduler, claims);
        ClaimsStay(p, s.drains, s.scheduler, r.drains, r.scheduler);
      case OthersLeave(ticket) =>
        S.AbandonKeepsTickets(s.scheduler, ticket);
        ClaimsStay(p, s.drains, s.scheduler, r.drains, r.scheduler);
      case _ => ClaimsStay(p, s.drains, s.scheduler, r.drains, r.scheduler);
    }
  }

  lemma {:induction false} ClaimedAsk(p: Program, s: State, i: nat)
    requires Owned(s) && Claimed(p, s.drains, s.scheduler) && Enabled(p, s, ByDrain(i, Ask))
    ensures Claimed(p, MoveDrain(p, s, i, Ask).drains, MoveDrain(p, s, i, Ask).scheduler)
  {
    hide S.Sound, Matched, S.Outstanding, PlannedAs;
    var r, q, command := MoveDrain(p, s, i, Ask), s.scheduler, s.drains[i].command.payload;
    DispatchIsPlanned(p.bindings, command);
    match Dispatch(p.bindings, command) {
      case Refused => ClaimsStay(p, s.drains, q, r.drains, r.scheduler);
      case Stream(claims, _) =>
        S.ArriveKeepsTickets(q, claims);
        forall j: nat, id: nat | Holder(r.drains, j, id) ensures Carries(p, r.drains[j].command.payload, id, r.scheduler) {
          if j == i {
            assert PlannedAs(p.bindings, command, claims) && S.Outstanding(r.scheduler, S.Ticket(id, claims));
          } else {
            assert Holder(s.drains, j, id) && Carries(p, s.drains[j].command.payload, id, q);
            var c :| PlannedAs(p.bindings, s.drains[j].command.payload, c) && S.Outstanding(q, S.Ticket(id, c));
            assert S.Outstanding(r.scheduler, S.Ticket(id, c));
          }
        }
    }
  }

  /** A drain keeps its ticket, and then the scheduler is not touched, or gives just that ticket up. */
  lemma {:induction false} MoveAndTicket(p: Program, s: State, i: nat, move: Move)
    requires S.Sound(s.scheduler) && Enabled(p, s, ByDrain(i, move)) && !move.Ask?
    ensures var r, before := MoveDrain(p, s, i, move), TicketOf(s.drains[i].phase);
            && (forall j | 0 <= j < |s.drains| :: r.drains[j].command == s.drains[j].command)
            && (forall j | 0 <= j < |s.drains| && j != i :: r.drains[j] == s.drains[j])
            && (|| (TicketOf(r.drains[i].phase) == before && r.scheduler == s.scheduler)
                || (before.Some? && TicketOf(r.drains[i].phase).None?
                    && (|| r.scheduler == S.Leave(s.scheduler, before.value)
                        || (before.value < |s.scheduler.futures| && r.scheduler == S.Abandon(s.scheduler, before.value)))))
  {
    hide S.Sound;
  }

  lemma {:induction false} ClaimedMove(p: Program, s: State, i: nat, move: Move)
    requires Owned(s) && Claimed(p, s.drains, s.scheduler) && Enabled(p, s, ByDrain(i, move)) && !move.Ask?
    ensures Claimed(p, MoveDrain(p, s, i, move).drains, MoveDrain(p, s, i, move).scheduler)
  {
    MoveAndTicket(p, s, i, move);
    hide S.Sound, S.Outstanding, Claimed, S.Present, S.IsActive, Enabled, MoveDrain;
    var r, q, before := MoveDrain(p, s, i, move), s.scheduler, TicketOf(s.drains[i].phase);
    if r.scheduler != q {
      assert Holder(s.drains, i, before.value);
      S.LeaveKeepsTickets(q, before.value);
      if before.value < |q.futures| {
        S.AbandonKeepsTickets(q, before.value);
      }
    }
    forall j: nat, id: nat | Holder(r.drains, j, id) ensures Holder(s.drains, j, id) && TicketStays(q, id, r.scheduler) {
      if r.scheduler != q && j != i {
        assert Holder(s.drains, j, id) && id != before.value;
      }
    }
    ClaimsStay(p, s.drains, q, r.drains, r.scheduler);
  }

  lemma {:induction false} ClaimedAlong(p: Program, s: State, actions: seq<Action>, t: State)
    requires Inv(p, s) && Claimed(p, s.drains, s.scheduler) && Runs(p, s, actions, t)
    ensures Inv(p, t) && Claimed(p, t.drains, t.scheduler)
    decreases |actions|
  {
    hide Claimed, PumpCounters.Counted, PumpCounters.Fenced, Staged, Concluded, Matched, S.Sound, Enabled, Apply;
    if actions != [] {
      InvStep(p, s, actions[0]);
      ClaimedStep(p, s, actions[0]);
      ClaimedAlong(p, Apply(p, s, actions[0]), actions[1..], t);
    }
  }

  // ------------------------------------------------------------------- the theorems

  /** Inside its handler, or waiting to be. */
  predicate Asking(phase: Phase) {
    phase.Admitting? || phase.Handling? || phase.Putting?
  }

  predicate Inside(phase: Phase) {
    phase.Handling? || phase.Putting?
  }

  /** The ticket of a drain that waits or works claims what the binding's planner says, or everything for want of one. */
  lemma {:induction false} TicketsClaimAsPlanned(p: Program, root: Command, origin: string, correlation: string,
                                                 actions: seq<Action>, t: State, i: nat)
    requires Begin(p, root, origin, correlation).Open?
    requires Runs(p, Begin(p, root, origin, correlation).state, actions, t)
    requires i < |t.drains| && Asking(t.drains[i].phase)
    ensures Carries(p, t.drains[i].command.payload, t.drains[i].phase.ticket, t.scheduler)
  {
    hide Runs, Inv, Carries;
    InvAtBeginning(p, root, origin, correlation);
    ClaimedAlong(p, Begin(p, root, origin, correlation).state, actions, t);
    assert Holder(t.drains, i, t.drains[i].phase.ticket);
  }

  /** While a handler is at work no other ticket, of this run or another, is admitted with claims that touch its own. */
  lemma {:induction false} HandlerKeepsApart(p: Program, root: Command, origin: string, correlation: string,
                                             actions: seq<Action>, t: State, i: nat, claims: S.Claims, other: S.Ticket)
    requires Begin(p, root, origin, correlation).Open?
    requires Runs(p, Begin(p, root, origin, correlation).state, actions, t)
    requires i < |t.drains| && Inside(t.drains[i].phase) && PlannedAs(p.bindings, t.drains[i].command.payload, claims)
    requires other in t.scheduler.active && other.id != t.drains[i].phase.ticket
    ensures S.Apart(claims, other.claims)
  {
    hide Runs, Begin, Claimed, PumpCounters.Counted, PumpCounters.Fenced, Staged, Concluded;
    var s, id, command := Begin(p, root, origin, correlation).state, t.drains[i].phase.ticket, t.drains[i].command.payload;
    TicketsClaimAsPlanned(p, root, origin, correlation, actions, t, i);
    InvAtBeginning(p, root, origin, correlation);
    InvAlong(p, s, actions, t);
    assert Holder(t.drains, i, id) && Admitted(t.drains[i].phase);
    var own :| PlannedAs(p.bindings, command, own) && S.Outstanding(t.scheduler, S.Ticket(id, own));
    S.ActiveById(t.scheduler, S.Ticket(id, own));
    S.ActiveNeverConflict(t.scheduler, S.Ticket(id, own), other);
    S.ApartIsCompatible(claims, other.claims);
  }

  /** Two handlers at work together were planned apart: neither is exclusive, neither writes what the other touches. */
  lemma {:induction false} HandlersKeepApart(p: Program, root: Command, origin: string, correlation: string,
                                             actions: seq<Action>, t: State, i: nat, j: nat, ci: S.Claims, cj: S.Claims)
    requires Begin(p, root, origin, correlation).Open?
    requires Runs(p, Begin(p, root, origin, correlation).state, actions, t)
    requires i < |t.drains| && Inside(t.drains[i].phase) && PlannedAs(p.bindings, t.drains[i].command.payload, ci)
    requires j < |t.drains| && Inside(t.drains[j].phase) && PlannedAs(p.bindings, t.drains[j].command.payload, cj)
    requires i != j
    ensures S.Apart(ci, cj)
  {
    hide Runs, Begin, Claimed, PumpCounters.Counted, PumpCounters.Fenced, Staged, Concluded, S.Apart;
    var s, id, command := Begin(p, root, origin, correlation).state, t.drains[j].phase.ticket, t.drains[j].command.payload;
    TicketsClaimAsPlanned(p, root, origin, correlation, actions, t, j);
    InvAtBeginning(p, root, origin, correlation);
    InvAlong(p, s, actions, t);
    assert Holder(t.drains, j, id) && Admitted(t.drains[j].phase);
    assert Holder(t.drains, i, t.drains[i].phase.ticket);
    var own :| PlannedAs(p.bindings, command, own) && S.Outstanding(t.scheduler, S.Ticket(id, own));
    S.ActiveById(t.scheduler, S.Ticket(id, own));
    HandlerKeepsApart(p, root, origin, correlation, actions, t, i, ci, S.Ticket(id, own));
  }

  lemma {:induction false} GrantedOnArrival(q: S.Queue, claims: S.Claims)
    requires S.Sound(q) && forall t | S.Around(q, t) :: S.Apart(claims, t.claims)
    ensures |q.futures| < |S.Arrive(q, claims).futures| && S.Arrive(q, claims).futures[|q.futures|] == S.Granted
  {
    hide S.Apart, S.Arrive;
    S.NewcomerAdmitted(q, claims);
    S.ArriveInv(q, claims);
    S.ArriveKeeps(q, claims);
    assert S.Outstanding(S.Arrive(q, claims), S.Ticket(|q.futures|, claims));
  }

  /** A command that keeps apart from every ticket around may enter its handler as soon as it has asked. */
  lemma {:induction false} EntersAtOnce(p: Program, s: State, i: nat, claims: S.Claims)
    requires S.Sound(s.scheduler) && Enabled(p, s, ByDrain(i, Ask))
    requires PlannedAs(p.bindings, s.drains[i].command.payload, claims)
    requires forall t | S.Around(s.scheduler, t) :: S.Apart(claims, t.claims)
    ensures Enabled(p, Apply(p, s, ByDrain(i, Ask)), ByDrain(i, Enter))
  {
    hide S.Around, S.Apart, S.Sound, S.Arrive, Others, S.Abandon, S.Leave, Exit, Process, StartDrain, Send, Publishing, Conclude;
    DispatchIsPlanned(p.bindings, s.drains[i].command.payload);
    GrantedOnArrival(s.scheduler, claims);
  }
}
