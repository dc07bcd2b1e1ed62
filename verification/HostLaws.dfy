/** What the host guarantees about the registrar over any series of calls, and what it does not. */
module HostLaws {
  import opened Messages
  import opened Resolver
  import opened ResolverLaws
  import opened Host

  // --------------------------------------------------------------- order of registering

  /** Which extension of `order` made contribution `i`. */
  function Contributor(order: seq<Plugin>, i: nat): (k: nat)
    requires i < |Contributions(order)|
    ensures k < |order|
  {
    if i < |Contributions(order[..|order| - 1])| then Contributor(order[..|order| - 1], i) else |order| - 1
  }

  lemma {:induction false} ContributorOwns(order: seq<Plugin>, i: nat)
    requires i < |Contributions(order)|
    ensures Contributions(order)[i].owner == order[Contributor(order, i)].id
  {
    var front := order[..|order| - 1];
    if i < |Contributions(front)| {
      ContributorOwns(front, i);
    }
  }

  lemma {:induction false} ContributorsAscend(order: seq<Plugin>, i: nat, j: nat)
    requires i <= j < |Contributions(order)|
    ensures Contributor(order, i) <= Contributor(order, j)
  {
    if j < |Contributions(order[..|order| - 1])| {
      ContributorsAscend(order[..|order| - 1], i, j);
    }
  }

  lemma {:induction false} ResolvedAreDistinct<T>(extensions: seq<Extension<T>>)
    requires Outcome(extensions).Resolved?
    ensures ResolverLaws.DistinctIds(Outcome(extensions).order)
  {
    hide Outcome, Greedy, Ready;
    ResolvedFacts(extensions);
    var order := Outcome(extensions).order;
    forall i, j | 0 <= i < j < |order| ensures order[i].id != order[j].id {
      assert IdsOf(order)[i] != IdsOf(order)[j];
    }
  }

  /** Everything an extension registers comes after everything the extensions it requires register. */
  lemma {:induction false} DependenciesRegisterFirst(loads: seq<Load>, i: nat, j: nat, e: Plugin)
    requires i < |Whole(loads)| && j < |Whole(loads)|
    requires e in Plugins(loads) && e.id == Whole(loads)[j].owner && Whole(loads)[i].owner in e.requirements
    ensures i < j
  {
    hide Outcome, Contributions, Contributor, Plugins;
    var order := Outcome(Plugins(loads)).order;
    ResolvedIsSorted(Plugins(loads));
    ResolvedAreDistinct(Plugins(loads));
    ContributorOwns(order, i);
    ContributorOwns(order, j);
    var a, b := Contributor(order, i), Contributor(order, j);
    assert e in multiset(order);
    var c :| 0 <= c < |order| && order[c] == e;
    assert c == b;
    assert RequiredBefore(order, b);
    var d :| 0 <= d < b && order[d].id == order[a].id;
    assert d == a;
    if j <= i {
      ContributorsAscend(order, j, i);
    }
  }

  /** The registrations one extension owns. */
  function OwnedBy(staged: seq<Staged>, owner: string): seq<Staged> {
    if staged == [] then []
    else
      var last := staged[|staged| - 1];
      OwnedBy(staged[..|staged| - 1], owner) + if last.owner == owner then [last] else []
  }

  lemma {:induction false} OwnedByConcat(a: seq<Staged>, b: seq<Staged>, owner: string)
    ensures OwnedBy(a + b, owner) == OwnedBy(a, owner) + OwnedBy(b, owner)
  {
    if b == [] {
      assert a + b == a;
    } else {
      assert (a + b)[..|a + b| - 1] == a + b[..|b| - 1];
      OwnedByConcat(a, b[..|b| - 1], owner);
    }
  }

  lemma {:induction false} OwnedByOne(staged: seq<Staged>, owner: string, same: bool)
    requires forall i | 0 <= i < |staged| :: (staged[i].owner == owner) == same
    ensures OwnedBy(staged, owner) == if same then staged else []
  {
    if staged != [] {
      OwnedByOne(staged[..|staged| - 1], owner, same);
      assert staged == staged[..|staged| - 1] + [staged[|staged| - 1]];
    }
  }

  /** Each extension registers all it asked for, once, in the order it asked. */
  lemma {:induction false} OwnContributions(order: seq<Plugin>, k: nat)
    requires ResolverLaws.DistinctIds(order) && k < |order|
    ensures OwnedBy(Contributions(order), order[k].id) == Contribution(order[k])
  {
    var n := |order| - 1;
    var owner := order[k].id;
    OwnedByConcat(Contributions(order[..n]), Contribution(order[n]), owner);
    OwnedByOne(Contribution(order[n]), owner, k == n);
    if k < n {
      OwnContributions(order[..n], k);
    } else {
      OthersOwnNothing(order[..n], owner);
    }
  }

  lemma {:induction false} OthersOwnNothing(order: seq<Plugin>, owner: string)
    requires forall i | 0 <= i < |order| :: order[i].id != owner
    ensures OwnedBy(Contributions(order), owner) == []
  {
    if order != [] {
      var n := |order| - 1;
      OthersOwnNothing(order[..n], owner);
      OwnedByConcat(Contributions(order[..n]), Contribution(order[n]), owner);
      OwnedByOne(Contribution(order[n]), owner, false);
    }
  }

  /** Nothing is lost or doubled: the whole is every loaded extension's contribution, once. */
  lemma {:induction false} WholeIsEveryone(loads: seq<Load>, e: Plugin)
    requires Composable(loads) && e in Plugins(loads)
    ensures OwnedBy(Whole(loads), e.id) == Contribution(e)
  {
    hide Outcome, Contributions, Plugins;
    var order := Outcome(Plugins(loads)).order;
    ResolvedIsSorted(Plugins(loads));
    ResolvedAreDistinct(Plugins(loads));
    assert e in multiset(order);
    var c :| 0 <= c < |order| && order[c] == e;
    OwnContributions(order, c);
  }

  /** What each loaded extension asked for is staged under its id, one by one and in the order asked. */
  lemma {:induction false} StagedAsAsked(loads: seq<Load>, e: Plugin)
    requires Composable(loads) && e in Plugins(loads)
    ensures var own, asked := OwnedBy(Whole(loads), e.id), e.body.registrations;
            |own| == |asked| && forall i | 0 <= i < |asked| :: own[i] == Staged(e.id, asked[i])
  {
    hide Composable, Whole, Plugins;
    WholeIsEveryone(loads, e);
  }

  /** The contributions stand together, extension after extension. */
  lemma {:induction false} ContributionAt(order: seq<Plugin>, k: nat) returns (pos: nat)
    requires k < |order|
    ensures var asked := order[k].body.registrations;
            && pos + |asked| <= |Contributions(order)|
            && forall i | 0 <= i < |asked| :: Contributions(order)[pos + i] == Staged(order[k].id, asked[i])
  {
    var n := |order| - 1;
    if k < n {
      pos := ContributionAt(order[..n], k);
    } else {
      pos := |Contributions(order[..n])|;
    }
  }

  /**
    After a successful start the registrar holds what it held, and then what every loaded extension
    asked for, each extension's registrations in one piece and in the order it asked.
   */
  lemma {:induction false} StartedLog(loads: seq<Load>, accepts: Acceptance, log: seq<Registration>, e: Plugin) returns (pos: nat)
    requires Attempted(loads, accepts, log).state == STARTED && e in Plugins(loads)
    ensures var log', asked := Attempted(loads, accepts, log).log, e.body.registrations;
            && log <= log' && |log| <= pos && pos + |asked| <= |log'|
            && log'[pos..pos + |asked|] == asked
  {
    hide Outcome, Contributions, Plugins;
    var order, whole := Outcome(Plugins(loads)).order, Whole(loads);
    ResolvedIsSorted(Plugins(loads));
    assert e in multiset(order);
    var k :| 0 <= k < |order| && order[k] == e;
    var at := ContributionAt(order, k);
    assert whole[..|whole|] == whole;
    pos := |log| + at;
  }

  /** A successful start reports the loaded extensions' ids, requirements first, and every failure, none of them required. */
  lemma {:induction false} StartedReport(loads: seq<Load>, accepts: Acceptance, log: seq<Registration>)
    requires Attempted(loads, accepts, log).state == STARTED
    ensures Attempted(loads, accepts, log).report.Some?
    ensures var report := Attempted(loads, accepts, log).report.value;
            && (exists order :: multiset(order) == multiset(Plugins(loads)) && RequirementsFirst(order) && report.installed == IdsOf(order))
            && report.skipped == Failures(loads)
            && forall f | f in report.skipped :: !f.required
  {
    hide Outcome, Contributions, Plugins, Failures;
    ResolvedIsSorted(Plugins(loads));
    RequiredAreRequired(Failures(loads));
  }

  // ----------------------------------------------------------------------- what is loaded

  /** Plugins and failures of all sources, source after source. */
  lemma {:induction false} LoadsConcat(a: seq<Load>, b: seq<Load>)
    ensures Plugins(a + b) == Plugins(a) + Plugins(b)
    ensures Failures(a + b) == Failures(a) + Failures(b)
  {
    if b == [] {
      assert a + b == a;
    } else {
      assert (a + b)[..|a + b| - 1] == a + b[..|b| - 1];
      LoadsConcat(a, b[..|b| - 1]);
    }
  }

  lemma {:induction false} LoadsOfOne(plugins: seq<Plugin>, failures: seq<LoadFailure>)
    ensures Plugins([Loaded(plugins, failures)]) == plugins
    ensures Failures([Loaded(plugins, failures)]) == failures
  {
    var load := Loaded(plugins, failures);
    assert [load][..0] == [] && Plugins([]) == [] && Failures([]) == [];
    assert [] + plugins == plugins && [] + failures == failures;
  }

  lemma {:induction false} RequiredAreRequired(failures: seq<LoadFailure>)
    ensures forall f :: f in Required(failures) <==> f in failures && f.required
  {
    if failures != [] {
      RequiredAreRequired(failures[..|failures| - 1]);
      assert failures == failures[..|failures| - 1] + [failures[|failures| - 1]];
    }
  }

  /** The extension at `k` is the first of the order whose install raises. */
  predicate RaisesFirst(order: seq<Plugin>, k: nat) {
    k < |order| && !order[k].body.completes && forall j | 0 <= j < k :: order[j].body.completes
  }

  /** The registrar refuses the staged registration at `n`, and none before it. */
  predicate RefusedFirst(accepts: Acceptance, log: seq<Registration>, staged: seq<Staged>, n: nat) {
    && n < |staged| && !AcceptsNext(accepts, log, staged, n)
    && forall k: nat | k < n :: AcceptsNext(accepts, log, staged, k)
  }

  /** Why a start fails: the first thing that goes wrong, in the order loads, resolution, installs, registrations. */
  lemma {:induction false} FailedStartSays(loads: seq<Load>, accepts: Acceptance, log: seq<Registration>)
    requires Attempted(loads, accepts, log).state == FAILED
    ensures var outcome := Outcome(Plugins(loads));
            match ErrorOf(loads, accepts, log)
            case LoadFailed => exists i :: 0 <= i < |loads| && loads[i].LoadRaises?
            case RequiredLoadFailed(failures) =>
              && AllLoad(loads) && failures != []
              && forall f :: f in failures <==> f in Failures(loads) && f.required
            case NotResolved(resolution) =>
              && AllLoad(loads) && (forall f | f in Failures(loads) :: !f.required)
              && resolution == outcome && !outcome.Resolved?
            case InstallFailed(owner) =>
              && AllLoad(loads) && (forall f | f in Failures(loads) :: !f.required) && outcome.Resolved?
              && exists k: nat :: RaisesFirst(outcome.order, k) && outcome.order[k].id == owner
            case RegistrationFailed(owner, isSubscribe) =>
              && Composable(loads)
              && exists n: nat :: RefusedFirst(accepts, log, Whole(loads), n)
                   && Whole(loads)[n].owner == owner && Whole(loads)[n].registration.Subscribe? == isSubscribe
            case StateError(_) => false
  {
    hide Outcome, Contributions, Plugins, Failures, Taken;
    var outcome := Outcome(Plugins(loads));
    RequiredAreRequired(Failures(loads));
    if AllLoad(loads) && Required(Failures(loads)) == [] && outcome.Resolved? {
      if AllInstall(outcome.order) {
        TakenIsLongest(accepts, log, Whole(loads));
        assert RefusedFirst(accepts, log, Whole(loads), Taken(accepts, log, Whole(loads)));
      } else {
        var k := FirstRaising(outcome.order);
        AllInstallUpTo(outcome.order, k);
        assert RaisesFirst(outcome.order, k);
      }
    }
  }

  /** When composing gets as far as the registrar: all sources load, nothing required failed, all resolves, all installs return. */
  lemma {:induction false} ComposableExactly(loads: seq<Load>)
    ensures Composable(loads) <==>
            && (forall i | 0 <= i < |loads| :: loads[i].Loaded?)
            && (forall f | f in Failures(loads) :: !f.required)
            && Outcome(Plugins(loads)).Resolved?
            && (forall e | e in Plugins(loads) :: e.body.completes)
  {
    hide Outcome, Contributions, Plugins, Failures;
    RequiredAreRequired(Failures(loads));
    assert Required(Failures(loads)) == [] <==> forall f :: f !in Required(Failures(loads)) by {
      assert Required(Failures(loads)) != [] ==> Required(Failures(loads))[0] in Required(Failures(loads));
    }
    var outcome := Outcome(Plugins(loads));
    if outcome.Resolved? {
      ResolvedIsSorted(Plugins(loads));
      assert forall e :: e in outcome.order <==> e in multiset(outcome.order);
      assert forall e :: e in Plugins(loads) <==> e in multiset(Plugins(loads));
      assert forall i | 0 <= i < |outcome.order| :: outcome.order[i] in outcome.order;
    }
  }

  /** The host starts exactly if it composes and the registrar takes every registration. */
  lemma {:induction false} StartsExactly(loads: seq<Load>, accepts: Acceptance, log: seq<Registration>)
    ensures Attempted(loads, accepts, log).state == STARTED <==>
            Composable(loads) && forall k: nat | k < |Whole(loads)| :: AcceptsNext(accepts, log, Whole(loads), k)
  {
    hide Composable, Whole, Taken, Plugins, Outcome;
    TakenIsLongest(accepts, log, Whole(loads));
  }

  // ------------------------------------------------------------------------------ runs

  datatype Call = StartCall | StopCall

  function After(loads: seq<Load>, accepts: Acceptance, calls: seq<Call>, p: Phase): Phase {
    if calls == [] then p
    else
      var before := After(loads, accepts, calls[..|calls| - 1], p);
      match calls[|calls| - 1]
      case StartCall => AfterStart(loads, accepts, before)
      case StopCall => AfterStop(before)
  }

  predicate OnlyStarts(calls: seq<Call>) {
    forall i | 0 <= i < |calls| :: calls[i] == StartCall
  }

  /**
    Only the first call can register anything, and the host is started exactly while it has only
    been asked to start and that attempt succeeded.
   */
  lemma {:induction false} OnlyFirstCallRegisters(loads: seq<Load>, accepts: Acceptance, base: seq<Registration>, calls: seq<Call>)
    requires calls != []
    ensures var r := After(loads, accepts, calls, Phase(CREATED, None, base));
            var first := Attempted(loads, accepts, base);
            && r.log == (if calls[0] == StartCall then first.log else base)
            && (r.state == STARTED <==> OnlyStarts(calls) && first.state == STARTED)
            && (r.state == STARTED ==> r == first)
            && r.state != CREATED
            && (r.state == STOPPED <==> !OnlyStarts(calls))
  {
    hide Attempted;
    var p, n := Phase(CREATED, None, base), |calls| - 1;
    AttemptEnds(loads, accepts, base);
    if n > 0 {
      OnlyFirstCallRegisters(loads, accepts, base, calls[..n]);
      assert calls == calls[..n] + [calls[n]];
    } else {
      assert calls[..0] == [] && After(loads, accepts, [], p) == p;
    }
  }

  lemma {:induction false} AttemptEnds(loads: seq<Load>, accepts: Acceptance, log: seq<Registration>)
    ensures Attempted(loads, accepts, log).state == STARTED || Attempted(loads, accepts, log).state == FAILED
  {
  }

  predicate AcceptsNext(accepts: Acceptance, log: seq<Registration>, staged: seq<Staged>, k: nat)
    requires k < |staged|
  {
    accepts(log + Registrations(staged[..k]), staged[k].registration)
  }

  /** The registrar takes the longest prefix none of which it refuses. */
  lemma {:induction false} TakenIsLongest(accepts: Acceptance, log: seq<Registration>, staged: seq<Staged>)
    ensures var n := Taken(accepts, log, staged);
            && (forall k: nat | k < n :: AcceptsNext(accepts, log, staged, k))
            && (n < |staged| ==> !AcceptsNext(accepts, log, staged, n))
    decreases |staged|
  {
    assert log + Registrations([]) == log;
    if staged != [] && accepts(log, staged[0].registration) {
      var n, log' := Taken(accepts, log, staged), log + [staged[0].registration];
      TakenIsLongest(accepts, log', staged[1..]);
      forall k: nat | 1 <= k < |staged|
        ensures AcceptsNext(accepts, log, staged, k) == AcceptsNext(accepts, log', staged[1..], k - 1)
      {
        assert log + Registrations(staged[..k]) == log' + Registrations(staged[1..][..k - 1]);
      }
      assert AcceptsNext(accepts, log, staged, 0) by {
        assert staged[..0] == [];
      }
      forall k: nat | k < n ensures AcceptsNext(accepts, log, staged, k) {
        if k > 0 {
          assert AcceptsNext(accepts, log', staged[1..], k - 1);
        }
      }
    }
  }

  /**
    Staged composition: what a series of calls leaves in the registrar is what was there and then
    a prefix of the contributions in resolved order. It is nothing unless all loads, the
    resolution and all installs succeeded, and all of it exactly if the host has become started.
   */
  lemma {:induction false} LogIsPrefix(loads: seq<Load>, accepts: Acceptance, base: seq<Registration>, calls: seq<Call>)
    returns (n: nat)
    ensures n <= |Whole(loads)|
    ensures After(loads, accepts, calls, Phase(CREATED, None, base)).log == base + Registrations(Whole(loads)[..n])
    ensures !Composable(loads) ==> After(loads, accepts, calls, Phase(CREATED, None, base)).log == base
    ensures calls != [] && calls[0] == StartCall && Composable(loads) ==>
              (n == |Whole(loads)| <==> After(loads, accepts, calls[..1], Phase(CREATED, None, base)).state == STARTED)
  {
    hide Outcome, Contributions, Plugins, Taken;
    assert base + Registrations([]) == base;
    if calls != [] && calls[0] == StartCall {
      n := Taken(accepts, base, Whole(loads));
      OnlyFirstCallRegisters(loads, accepts, base, calls);
      OnlyFirstCallRegisters(loads, accepts, base, calls[..1]);
    } else {
      n := 0;
      if calls != [] {
        OnlyFirstCallRegisters(loads, accepts, base, calls);
      }
    }
  }

  // ------------------------------------------------------------------------ atomicity

  /** All of the composition is registered, or none of it. */
  predicate AllOrNothing(loads: seq<Load>, accepts: Acceptance, log: seq<Registration>) {
    var after := Attempted(loads, accepts, log).log;
    after == log || after == log + Registrations(Whole(loads))
  }

  /** One command handler to a command, as on the command bus. */
  function OneHandlerEach(log: seq<Registration>, r: Registration): bool {
    r.Handle? ==> forall i | 0 <= i < |log| :: log[i].Handle? ==> log[i].command != r.command
  }

  /**
    Exactly when composing is all or nothing: there is nothing to register, or the registrar
    refuses the very first registration, or it refuses none.
   */
  lemma {:induction false} AtomicExactlyIf(loads: seq<Load>, accepts: Acceptance, log: seq<Registration>)
    ensures var whole := Whole(loads);
            AllOrNothing(loads, accepts, log) <==>
            || whole == []
            || !accepts(log, whole[0].registration)
            || forall k: nat | k < |whole| :: AcceptsNext(accepts, log, whole, k)
  {
    hide Whole;
    var whole := Whole(loads);
    var n := Taken(accepts, log, whole);
    TakenIsLongest(accepts, log, whole);
    assert |Registrations(whole[..n])| == n && |Registrations(whole)| == |whole|;
    assert whole[..|whole|] == whole;
    assert log + [] == log;
  }

  /** The replay is not atomic: a second handler for one command leaves the first one registered. */
  lemma {:induction false} ReplayIsNotAtomic() returns (loads: seq<Load>)
    ensures Composable(loads)
    ensures Attempted(loads, OneHandlerEach, []).state == FAILED
    ensures !AllOrNothing(loads, OneHandlerEach, [])
  {
    hide Outcome, Composable, Whole, Taken;
    var first, second := Handle("greet", "first", None), Handle("greet", "second", None);
    var e := Extension("greeter", [], Body([first, second], true));
    loads := [Loaded([e], [])];
    SingleIsComposable(e, loads);
    var whole := Whole(loads);
    assert whole == [Staged("greeter", first), Staged("greeter", second)];
    assert [] + Registrations(whole[..1]) == [first];
    assert [first][0].Handle? && whole[1].registration == second;
    assert !AcceptsNext(OneHandlerEach, [], whole, 1);
    TakenIsLongest(OneHandlerEach, [], whole);
    AtomicExactlyIf(loads, OneHandlerEach, []);
  }

  lemma {:induction false} SingleIsComposable(e: Plugin, loads: seq<Load>)
    requires loads == [Loaded([e], [])] && e.requirements == [] && e.body.completes
    ensures Composable(loads) && Whole(loads) == Contribution(e)
  {
    hide Outcome;
    assert loads[..0] == [];
    assert Plugins(loads) == [e] && Failures(loads) == [];
    SingleResolves(e);
    assert [e][..0] == [] && Contributions([]) == [];
    assert Contributions([e]) == [] + Contribution(e);
  }

  lemma {:induction false} SingleResolves(e: Plugin)
    requires e.requirements == []
    ensures Outcome([e]) == Resolved([e])
  {
    hide Outcome, Greedy, Ready;
    var g := GraphOf([e]);
    assert IdsOf([e]) == [e.id] && First([e], e.id) == e;
    assert g.Keys == {e.id} && g[e.id] == {};
    UnrepeatedIsDistinct([e]);
    CompleteUnlessIncomplete(g);
    CompleteOutcome([e]);
    GreedyIsLeast(g, [e.id]);
    ResolvedIsSorted([e]);
    var order := Outcome([e]).order;
    assert |order| == |multiset(order)| == 1;
    assert order[0] in multiset(order);
  }

  /** No command is handled twice among `registrations`, or again after `log`. */
  predicate HandlersAreNew(log: seq<Registration>, registrations: seq<Registration>) {
    forall k | 0 <= k < |registrations| && registrations[k].Handle? ::
      && (forall i | 0 <= i < |log| :: log[i].Handle? ==> log[i].command != registrations[k].command)
      && (forall j | 0 <= j < k :: registrations[j].Handle? ==> registrations[j].command != registrations[k].command)
  }

  /** With one handler to a command, which compositions are all or nothing is read off their registrations. */
  lemma {:induction false} AtomicWithOneHandlerEach(loads: seq<Load>, log: seq<Registration>)
    ensures var whole := Whole(loads);
            AllOrNothing(loads, OneHandlerEach, log) <==>
            || whole == []
            || !OneHandlerEach(log, whole[0].registration)
            || HandlersAreNew(log, Registrations(whole))
  {
    hide Whole, AllOrNothing;
    AtomicExactlyIf(loads, OneHandlerEach, log);
    AcceptedIfNew(log, Whole(loads));
  }

  lemma {:induction false} AcceptedIfNew(log: seq<Registration>, staged: seq<Staged>)
    ensures (forall k: nat | k < |staged| :: AcceptsNext(OneHandlerEach, log, staged, k))
            <==> HandlersAreNew(log, Registrations(staged))
  {
    var all := Registrations(staged);
    forall k: nat | k < |staged|
      ensures AcceptsNext(OneHandlerEach, log, staged, k) <==>
              (all[k].Handle? ==>
                 && (forall i | 0 <= i < |log| :: log[i].Handle? ==> log[i].command != all[k].command)
                 && (forall j | 0 <= j < k :: all[j].Handle? ==> all[j].command != all[k].command))
    {
      NewAt(log, staged, k);
    }
  }

  lemma {:induction false} NewAt(log: seq<Registration>, staged: seq<Staged>, k: nat)
    requires k < |staged|
    ensures var all := Registrations(staged);
            AcceptsNext(OneHandlerEach, log, staged, k) <==>
            (all[k].Handle? ==>
               && (forall i | 0 <= i < |log| :: log[i].Handle? ==> log[i].command != all[k].command)
               && (forall j | 0 <= j < k :: all[j].Handle? ==> all[j].command != all[k].command))
  {
    var all, before := Registrations(staged), log + Registrations(staged[..k]);
    assert forall m | 0 <= m < |before| :: before[m] == if m < |log| then log[m] else all[m - |log|];
    assert forall i | 0 <= i < |log| :: before[i] == log[i];
    if AcceptsNext(OneHandlerEach, log, staged, k) && all[k].Handle? {
      forall j | 0 <= j < k && all[j].Handle? ensures all[j].command != all[k].command {
        assert before[|log| + j] == all[j];
      }
    }
  }
}
