/**
  The pump's two counters are exact in every reachable state, so the idle test stops the
  supervisor only when no work is left anywhere.
 */
module PumpCounters {
  import opened Messages
  import opened Pump
  import S = Scheduler

  // ------------------------------------------------------------------- counting

  function Count<T>(test: T -> bool, xs: seq<T>): nat {
    if xs == [] then 0 else Count(test, xs[..|xs| - 1]) + if test(xs[|xs| - 1]) then 1 else 0
  }

  lemma {:induction false} CountAppend<T>(test: T -> bool, xs: seq<T>, x: T)
    ensures Count(test, xs + [x]) == Count(test, xs) + if test(x) then 1 else 0
  {
    assert (xs + [x])[..|xs|] == xs;
  }

  lemma {:induction false} CountTail<T>(test: T -> bool, xs: seq<T>)
    requires xs != []
    ensures Count(test, xs) == Count(test, xs[1..]) + if test(xs[0]) then 1 else 0
  {
    if |xs| > 1 {
      CountTail(test, xs[..|xs| - 1]);
      assert xs[1..][..|xs| - 2] == xs[..|xs| - 1][1..];
    }
  }

  lemma {:induction false} CountUpdate<T>(test: T -> bool, xs: seq<T>, i: nat, x: T)
    requires i < |xs|
    ensures Count(test, xs[i := x]) + (if test(xs[i]) then 1 else 0) == Count(test, xs) + if test(x) then 1 else 0
  {
    var n := |xs| - 1;
    if i < n {
      CountUpdate(test, xs[..n], i, x);
      assert xs[i := x][..n] == xs[..n][i := x];
    } else {
      assert xs[i := x][..n] == xs[..n];
    }
  }

  lemma {:induction false} CountZero<T>(test: T -> bool, xs: seq<T>)
    ensures Count(test, xs) == 0 <==> forall i | 0 <= i < |xs| :: !test(xs[i])
  {
    if xs != [] {
      CountZero(test, xs[..|xs| - 1]);
      assert forall i | 0 <= i < |xs| - 1 :: xs[..|xs| - 1][i] == xs[i];
    }
  }

  // ----------------------------------------------------------- what is counted

  predicate Unreported(d: Drain) { !d.phase.Ended? }

  predicate InPut(d: Drain) { d.phase.Putting? }

  predicate IsReport(m: Control) { m.DrainFinished? }

  predicate IsAck(m: Control) { m.EventAcknowledged? }

  /** An event the consumer has taken and not yet acknowledged. */
  function InHand(c: Consumer): nat {
    if c.Holding? || c.Sending? || (c.Raised? && c.held.Some?) then 1 else 0
  }

  /** The commands of the event in hand may still be being sent; its acknowledgement is to come. */
  predicate Unsent(c: Consumer) {
    c.Sending? || (c.Raised? && c.held.Some?)
  }

  /**
    `active_tasks` is the drains started minus the reports processed; `pending_events` is the
    events counted but not put, in the inbox, in the consumer's hands, or acknowledged but unprocessed.
   */
  predicate Counted(s: State) {
    && s.activeTasks == Count(Unreported, s.drains) + Count(IsReport, s.control)
    && s.pendingEvents == Count(InPut, s.drains) + |s.inbox| + InHand(s.consumer) + Count(IsAck, s.control)
  }

  lemma {:induction false} CountedStep(p: Program, s: State, a: Action)
    requires Counted(s) && Enabled(p, s, a) && S.Sound(s.scheduler)
    ensures Counted(Apply(p, s, a))
  {
    hide S.Sound, Count;
    match a {
      case StartRoot => CountedStart(p, s.(supervisor := Serving), s.made[0].command);
      case Receive => CountedReceive(p, s);
      case ByDrain(i, move) => CountedMove(p, s, i, move);
      case SendControl =>
        var m := Apply(p, s, a).control[|s.control|];
        CountAppend(IsReport, s.control, m);
        CountAppend(IsAck, s.control, m);
      case _ =>
    }
  }

  lemma {:induction false} CountedStart(p: Program, s: State, envelope: Envelope<Command>)
    requires Counted(s)
    ensures Counted(StartDrain(p, s, envelope))
  {
    hide Count;
    CountAppend(Unreported, s.drains, Drain(envelope, Created));
    CountAppend(InPut, s.drains, Drain(envelope, Created));
  }

  lemma {:induction false} CountedReceive(p: Program, s: State)
    requires Counted(s) && Enabled(p, s, Receive) && S.Sound(s.scheduler)
    ensures Counted(Apply(p, s, Receive))
  {
    hide S.Sound, Count;
    CountTail(IsReport, s.control);
    CountTail(IsAck, s.control);
    if s.control[0].StartCommand? {
      CountedStart(p, s.(control := s.control[1..]), s.control[0].envelope);
    }
  }

  lemma {:induction false} CountedMove(p: Program, s: State, i: nat, move: Move)
    requires Counted(s) && Enabled(p, s, ByDrain(i, move)) && S.Sound(s.scheduler)
    ensures Counted(MoveDrain(p, s, i, move))
  {
    hide S.Sound, Count;
    var d := s.drains[i].(phase := NextPhase(p, s, s.drains[i], move));
    CountUpdate(Unreported, s.drains, i, d);
    CountUpdate(InPut, s.drains, i, d);
    if move.Report? {
      CountAppend(IsReport, s.control, DrainFinished);
      CountAppend(IsAck, s.control, DrainFinished);
    }
  }

  /** Counters at zero, read back: every drain has reported and no event is anywhere. */
  predicate Quiet(s: State) {
    && (forall i | 0 <= i < |s.drains| :: s.drains[i].phase.Ended?)
    && s.inbox == [] && InHand(s.consumer) == 0
    && (forall i | 0 <= i < |s.control| :: s.control[i].StartCommand?)
  }

  lemma {:induction false} ZeroIsQuiet(s: State)
    requires Counted(s)
    ensures s.activeTasks == 0 && s.pendingEvents == 0 <==> Quiet(s)
  {
    hide Count;
    CountZero(Unreported, s.drains);
    CountZero(InPut, s.drains);
    CountZero(IsReport, s.control);
    CountZero(IsAck, s.control);
    assert forall i | 0 <= i < |s.control| :: s.control[i].StartCommand? <==> !IsReport(s.control[i]) && !IsAck(s.control[i]);
  }

  // -------------------------------------------------- why the empty test is redundant

  /** Every start in the control queue has its event's acknowledgement still to come behind it. */
  predicate Fenced(s: State) {
    forall i | 0 <= i < |s.control| && s.control[i].StartCommand? ::
      Unsent(s.consumer) || exists j | i < j < |s.control| :: s.control[j].EventAcknowledged?
  }

  lemma {:induction false} FencedStep(p: Program, s: State, a: Action)
    requires Fenced(s) && Enabled(p, s, a) && S.Sound(s.scheduler)
    ensures Fenced(Apply(p, s, a))
  {
    hide S.Sound;
    var r := Apply(p, s, a);
    if a.Receive? {
      forall i | 0 <= i < |r.control| && r.control[i].StartCommand?
        ensures Unsent(r.consumer) || exists j | i < j < |r.control| :: r.control[j].EventAcknowledged?
      {
        assert s.control[i + 1] == r.control[i];
        if j :| i + 1 < j < |s.control| && s.control[j].EventAcknowledged? {
          assert r.control[j - 1] == s.control[j];
        }
      }
    } else if a.SendControl? || (a.ByDrain? && a.move.Report?) {
      assert s.control == r.control[..|s.control|] && |r.control| == |s.control| + 1;
      FencedAppend(s, r);
    } else {
      assert r.control == s.control;
    }
  }

  lemma {:induction false} FencedAppend(s: State, r: State)
    requires Fenced(s) && |r.control| == |s.control| + 1 && r.control[..|s.control|] == s.control
    requires !s.consumer.Raised?
    requires r.consumer.Sending? || r.control[|s.control|].EventAcknowledged? ||
             (r.consumer == s.consumer && r.control[|s.control|].DrainFinished?)
    ensures Fenced(r)
  {
    forall i | 0 <= i < |r.control| && r.control[i].StartCommand?
      ensures r.consumer.Sending? || exists j | i < j < |r.control| :: r.control[j].EventAcknowledged?
    {
      if i < |s.control| {
        assert s.control[i] == r.control[i];
        if j :| i < j < |s.control| && s.control[j].EventAcknowledged? {
          assert r.control[j] == s.control[j];
        }
      }
    }
  }

  /** Both counters at zero already mean that the control queue is empty. */
  lemma {:induction false} ZeroMeansIdle(s: State)
    requires Counted(s) && Fenced(s)
    ensures s.activeTasks == 0 && s.pendingEvents == 0 <==> Quiet(s) && s.control == []
    ensures Idle(s) <==> s.activeTasks == 0 && s.pendingEvents == 0
  {
    ZeroIsQuiet(s);
  }
}
