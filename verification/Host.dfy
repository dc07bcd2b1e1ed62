/**
  Composing extensions (extension_host.py): load, resolve, stage what each extension registers,
  then replay it all into the real registrar.
 */
module Host {
  import opened Messages
  import opened Resolver

  datatype Registration = Subscribe(event: string, handler: string) | Handle(command: string, handler: string, planner: Option<string>)

  /** What `install` does with the registrar it is given, and whether it then returns or raises. */
  datatype Body = Body(registrations: seq<Registration>, completes: bool)

  type Plugin = Extension<Body>

  datatype LoadFailure = LoadFailure(id: string, required: bool, detail: string)

  /** What a source's `load` gives. */
  datatype Load = LoadRaises | Loaded(plugins: seq<Plugin>, failures: seq<LoadFailure>)

  datatype Staged = Staged(owner: string, registration: Registration)

  datatype Error =
    | StateError(state: HostState)
    | LoadFailed
    | RequiredLoadFailed(failures: seq<LoadFailure>)
    | NotResolved(resolution: Resolution<Body>)
    | InstallFailed(owner: string)
    | RegistrationFailed(owner: string, isSubscribe: bool)

  datatype HostReport = HostReport(installed: seq<string>, skipped: seq<LoadFailure>)

  datatype HostState = CREATED | STARTED | STOPPED | FAILED

  datatype Reply = Started(report: HostReport) | Refused(error: Error)

  // ------------------------------------------------------------------ what is composed

  function Contribution(e: Plugin): seq<Staged> {
    seq(|e.body.registrations|, i requires 0 <= i < |e.body.registrations| => Staged(e.id, e.body.registrations[i]))
  }

  /** The contributions of `order`, one extension after the other. */
  function Contributions(order: seq<Plugin>): seq<Staged> {
    if order == [] then [] else Contributions(order[..|order| - 1]) + Contribution(order[|order| - 1])
  }

  function Plugins(loads: seq<Load>): seq<Plugin> {
    if loads == [] then []
    else Plugins(loads[..|loads| - 1]) + if loads[|loads| - 1].Loaded? then loads[|loads| - 1].plugins else []
  }

  function Failures(loads: seq<Load>): seq<LoadFailure> {
    if loads == [] then []
    else Failures(loads[..|loads| - 1]) + if loads[|loads| - 1].Loaded? then loads[|loads| - 1].failures else []
  }

  function Required(failures: seq<LoadFailure>): seq<LoadFailure> {
    if failures == [] then []
    else Required(failures[..|failures| - 1]) + if failures[|failures| - 1].required then [failures[|failures| - 1]] else []
  }

  predicate AllLoad(loads: seq<Load>) {
    forall i | 0 <= i < |loads| :: loads[i].Loaded?
  }

  predicate AllInstall(order: seq<Plugin>) {
    forall i | 0 <= i < |order| :: order[i].body.completes
  }

  /** Everything up to the replay succeeds. */
  predicate Composable(loads: seq<Load>) {
    && AllLoad(loads)
    && Required(Failures(loads)) == []
    && Outcome(Plugins(loads)).Resolved?
    && AllInstall(Outcome(Plugins(loads)).order)
  }

  /** What the host is to register: nothing unless everything up to the replay succeeds. */
  function Whole(loads: seq<Load>): seq<Staged> {
    if Composable(loads) then Contributions(Outcome(Plugins(loads)).order) else []
  }

  function Registrations(staged: seq<Staged>): seq<Registration> {
    seq(|staged|, i requires 0 <= i < |staged| => staged[i].registration)
  }

  type Acceptance = (seq<Registration>, Registration) -> bool

  /** How many of `staged` a registrar holding `log` takes before it refuses one. */
  function Taken(accepts: Acceptance, log: seq<Registration>, staged: seq<Staged>): (n: nat)
    ensures n <= |staged|
    decreases |staged|
  {
    if staged == [] || !accepts(log, staged[0].registration) then 0
    else 1 + Taken(accepts, log + [staged[0].registration], staged[1..])
  }

  // ----------------------------------------------------------------------- the host

  /** The real registrar: it may refuse any registration, for instance a second binding. */
  class Registrar {
    const accepts: Acceptance
    var log: seq<Registration>

    constructor (accepts: Acceptance)
      ensures this.accepts == accepts && log == []
    {
      this.accepts := accepts;
      log := [];
    }

    method Register(registration: Registration) returns (accepted: bool)
      modifies this
      ensures accepted == accepts(old(log), registration)
      ensures log == if accepted then old(log) + [registration] else old(log)
    {
      accepted := accepts(log, registration);
      if accepted {
        log := log + [registration];
      }
    }
  }

  datatype Phase = Phase(state: HostState, report: Option<HostReport>, log: seq<Registration>)

  /** The host and its registrar after the one attempt at composing. */
  function Attempted(loads: seq<Load>, accepts: Acceptance, log: seq<Registration>): Phase {
    var whole := Whole(loads);
    var n := Taken(accepts, log, whole);
    var log' := log + Registrations(whole[..n]);
    if Composable(loads) && n == |whole| then
      Phase(STARTED, Some(HostReport(IdsOf(Outcome(Plugins(loads)).order), Failures(loads))), log')
    else Phase(FAILED, None, log')
  }

  /** Why the attempt failed, the first thing wrong in the order things are done. */
  function ErrorOf(loads: seq<Load>, accepts: Acceptance, log: seq<Registration>): Error
    requires Attempted(loads, accepts, log).state == FAILED
  {
    var outcome := Outcome(Plugins(loads));
    if !AllLoad(loads) then LoadFailed
    else if Required(Failures(loads)) != [] then RequiredLoadFailed(Required(Failures(loads)))
    else if !outcome.Resolved? then NotResolved(outcome)
    else if !AllInstall(outcome.order) then InstallFailed(outcome.order[FirstRaising(outcome.order)].id)
    else
      var refused := Whole(loads)[Taken(accepts, log, Whole(loads))];
      RegistrationFailed(refused.owner, refused.registration.Subscribe?)
  }

  function FirstRaising(order: seq<Plugin>): (k: nat)
    requires !AllInstall(order)
    ensures k < |order| && !order[k].body.completes && AllInstall(order[..k])
  {
    if AllInstall(order[..|order| - 1]) then |order| - 1 else FirstRaising(order[..|order| - 1])
  }

  function AfterStart(loads: seq<Load>, accepts: Acceptance, p: Phase): Phase {
    if p.state == CREATED then Attempted(loads, accepts, p.log) else p
  }

  function AfterStop(p: Phase): Phase {
    if p.state == STOPPED then p else p.(state := STOPPED, report := None)
  }

  /** The list that staging appends to. */
  class StagingList {
    var registrations: seq<Staged>

    constructor ()
      ensures registrations == []
    {
      registrations := [];
    }
  }

  class StagingRegistrar {
    const owner: string
    const list: StagingList

    constructor (owner: string, list: StagingList)
      ensures this.owner == owner && this.list == list
    {
      this.owner := owner;
      this.list := list;
    }

    method Register(registration: Registration)
      modifies list
      ensures list.registrations == old(list.registrations) + [Staged(owner, registration)]
    {
      list.registrations := list.registrations + [Staged(owner, registration)];
    }
  }

  method Install(e: Plugin, registrar: StagingRegistrar) returns (returned: bool)
    requires registrar.owner == e.id
    modifies registrar.list
    ensures returned == e.body.completes
    ensures registrar.list.registrations == old(registrar.list.registrations) + Contribution(e)
  {
    var i := 0;
    while i < |e.body.registrations|
      invariant i <= |e.body.registrations|
      invariant registrar.list.registrations == old(registrar.list.registrations) + Contribution(e)[..i]
    {
      registrar.Register(e.body.registrations[i]);
      i := i + 1;
    }
    return e.body.completes;
  }

  class ExtensionHost {
    const sources: seq<Load>
    const registrar: Registrar
    var state: HostState
    var report: Option<HostReport>

    ghost predicate Valid()
      reads this
    {
      state == STARTED <==> report.Some?
    }

    function View(): Phase
      reads this, registrar
    {
      Phase(state, report, registrar.log)
    }

    constructor (sources: seq<Load>, registrar: Registrar)
      ensures this.sources == sources && this.registrar == registrar
      ensures Valid() && View() == Phase(CREATED, None, registrar.log)
    {
      this.sources, this.registrar := sources, registrar;
      state, report := CREATED, None;
    }

    /** Load every source and sort out what they give. */
    method LoadAll() returns (loaded: bool, plugins: seq<Plugin>, failures: seq<LoadFailure>, required: seq<LoadFailure>)
      ensures loaded == AllLoad(sources)
      ensures loaded ==> plugins == Plugins(sources) && failures == Failures(sources) && required == Required(failures)
    {
      plugins, failures, required := [], [], [];
      var i := 0;
      while i < |sources|
        invariant i <= |sources| && AllLoad(sources[..i])
        invariant plugins == Plugins(sources[..i]) && failures == Failures(sources[..i])
      {
        assert sources[..i + 1][..i] == sources[..i];
        if sources[i].LoadRaises? {
          return false, plugins, failures, required;
        }
        plugins := plugins + sources[i].plugins;
        failures := failures + sources[i].failures;
        i := i + 1;
      }
      assert sources[..i] == sources;
      i := 0;
      while i < |failures|
        invariant i <= |failures| && required == Required(failures[..i])
      {
        assert failures[..i + 1][..i] == failures[..i];
        if failures[i].required {
          required := required + [failures[i]];
        }
        i := i + 1;
      }
      assert failures[..i] == failures;
      return true, plugins, failures, required;
    }

    /** Let every extension register with the staging list. */
    method StageAll(order: seq<Plugin>) returns (failed: Option<string>, staged: seq<Staged>)
      ensures failed == if AllInstall(order) then None else Some(order[FirstRaising(order)].id)
      ensures failed.None? ==> staged == Contributions(order)
    {
      var list := new StagingList();
      var i := 0;
      while i < |order|
        invariant i <= |order| && fresh(list)
        invariant AllInstall(order[..i]) && list.registrations == Contributions(order[..i])
      {
        assert order[..i + 1][..i] == order[..i];
        var staging := new StagingRegistrar(order[i].id, list);
        var returned := Install(order[i], staging);
        if !returned {
          FirstRaisingIs(order, i);
          return Some(order[i].id), list.registrations;
        }
        i := i + 1;
      }
      assert order[..i] == order;
      return None, list.registrations;
    }

    /** Hand the staged registrations to the registrar until it refuses one. */
    method ReplayAll(staged: seq<Staged>) returns (n: nat)
      modifies registrar
      ensures n == Taken(registrar.accepts, old(registrar.log), staged)
      ensures registrar.log == old(registrar.log) + Registrations(staged[..n])
    {
      n := 0;
      ghost var base := registrar.log;
      while n < |staged|
        invariant n <= |staged| && registrar.log == base + Registrations(staged[..n])
        invariant Taken(registrar.accepts, base, staged) == n + Taken(registrar.accepts, registrar.log, staged[n..])
      {
        var accepted := registrar.Register(staged[n].registration);
        if !accepted {
          return;
        }
        assert staged[n..][1..] == staged[n + 1..];
        assert Registrations(staged[..n + 1]) == Registrations(staged[..n]) + [staged[n].registration];
        n := n + 1;
      }
    }

    /** `start`. */
    method Start() returns (reply: Reply)
      requires Valid()
      modifies this, registrar
      ensures Valid() && View() == AfterStart(sources, registrar.accepts, old(View()))
      ensures reply == if state == STARTED then Started(report.value)
                       else if old(state) == CREATED then Refused(ErrorOf(sources, registrar.accepts, old(registrar.log)))
                       else Refused(StateError(old(state)))
    {
      if state == STARTED {
        return Started(report.value);
      }
      if state != CREATED {
        return Refused(StateError(state));
      }
      var error;
      report, error := Compose();
      if report.None? {
        state := FAILED;
        return Refused(error);
      }
      state := STARTED;
      return Started(report.value);
    }

    /** The body of the `try`. */
    method Compose() returns (composed: Option<HostReport>, error: Error)
      requires state == CREATED && report.None?
      modifies registrar
      ensures var attempt := Attempted(sources, registrar.accepts, old(registrar.log));
              && registrar.log == attempt.log && composed == attempt.report
              && (composed.None? ==> error == ErrorOf(sources, registrar.accepts, old(registrar.log)))
    {
      hide Outcome, Contributions, AllInstall, FirstRaising, Plugins, Failures, Required, Taken;
      ghost var log := registrar.log;
      assert log + Registrations([]) == log;
      var loaded, plugins, failures, required := LoadAll();
      if !loaded {
        return None, LoadFailed;
      }
      if required != [] {
        return None, RequiredLoadFailed(required);
      }
      var resolution := Resolve(plugins);
      if !resolution.Resolved? {
        return None, NotResolved(resolution);
      }
      var failed, staged := StageAll(resolution.order);
      if failed.Some? {
        return None, InstallFailed(failed.value);
      }
      var n := ReplayAll(staged);
      if n < |staged| {
        return None, RegistrationFailed(staged[n].owner, staged[n].registration.Subscribe?);
      }
      return Some(HostReport(IdsOf(resolution.order), failures)), LoadFailed;
    }

    method Stop()
      requires Valid()
      modifies this
      ensures Valid() && View() == AfterStop(old(View()))
    {
      if state == STOPPED {
        return;
      }
      report := None;
      state := STOPPED;
    }
  }

  lemma {:induction false} FirstRaisingIs(order: seq<Plugin>, i: nat)
    requires i < |order| && AllInstall(order[..i]) && !order[i].body.completes
    ensures !AllInstall(order) && FirstRaising(order) == i
  {
    AllInstallUpTo(order, i);
    AllInstallUpTo(order, FirstRaising(order));
  }

  lemma {:induction false} AllInstallUpTo(order: seq<Plugin>, k: nat)
    requires k <= |order| && AllInstall(order[..k])
    ensures forall j | 0 <= j < k :: order[j].body.completes
  {
    assert forall j | 0 <= j < k :: order[..k][j] == order[j];
  }
}
