/** `villa up`, `villa restart` and `villa down`: reconcile the unit files, then start,
    restart or stop services. */
module Lifecycle {
  import opened StackHost
  import opened StackApply

  /** The native control dashboard, which no Quadlet file stands behind. */
  const DASHBOARD: Service := "villa-dashboard"

  datatype Result = Blocked | Pass

  datatype Target = Whole | One(svc: Service)

  /** What a render declares; the registry and the native services are fixed. */
  datatype Stage = Stage(units: seq<Unit>, registry: seq<UnitName>, natives: map<Service, Text>)

  function ServiceUnits(units: seq<Unit>): (svcs: seq<Service>)
    ensures forall svc :: svc in svcs <==> Container(svc) in Names(units)
  {
    if units == [] then []
    else
      var front, u := units[..|units| - 1], units[|units| - 1];
      assert units == front + [u];
      if u.name.Container? then ServiceUnits(front) + [u.name.service] else ServiceUnits(front)
  }

  function Managed(units: seq<Unit>): seq<Service> {
    ServiceUnits(units) + [DASHBOARD]
  }

  method ManagedServices(units: seq<Unit>) returns (svcs: seq<Service>)
    ensures svcs == Managed(units)
  {
    svcs := [];
    for i := 0 to |units|
      invariant svcs == ServiceUnits(units[..i])
    {
      assert units[..i+1][..i] == units[..i];
      if units[i].name.Container? {
        svcs := svcs + [units[i].name.service];
      }
    }
    assert units[..|units|] == units;
    svcs := svcs + [DASHBOARD];
  }

  /** An unknown service is refused before anything is touched. */
  method ResolveTargets(target: Target, services: seq<Service>) returns (ok: bool, targets: seq<Service>)
    ensures ok <==> target.Whole? || target.svc in services
    ensures ok ==> targets == match target case Whole => services case One(svc) => [svc]
  {
    ok, targets := target.Whole?, services;
    if target.One? {
      for i := 0 to |services|
        invariant forall j :: 0 <= j < i ==> services[j] != target.svc
      {
        if services[i] == target.svc {
          return true, [target.svc];
        }
      }
    }
  }

  ghost predicate Targets(targets: seq<Service>, target: Target, units: seq<Unit>) {
    match target
    case Whole => targets == Managed(units)
    case One(svc) => targets == [svc] && svc in Managed(units)
  }

  // ------------------------------------------------------------------
  // What each verb leaves behind
  // ------------------------------------------------------------------

  function PlanOf(st: Stage, disk: map<UnitName, Text>): Plan {
    Plan(Differing(st.units, disk, true), Differing(st.units, disk, false), Orphans(st.registry, Names(st.units), disk))
  }

  lemma PlansAreUnique(p: Plan, st: Stage, disk: map<UnitName, Text>)
    requires IsPlan(p, st.units, disk, st.registry)
    ensures p == PlanOf(st, disk)
  {
  }

  predicate NothingToDo(p: Plan) {
    p.changed == [] && p.removed == []
  }

  function RemovedServices(p: Plan): set<Service> {
    set u | u in p.removed && u.name.Container? :: u.name.service
  }

  /** The host once a stage has been applied: files, manager, stopped services. */
  function AfterApply(s: Snapshot, st: Stage): Snapshot {
    var p := PlanOf(st, s.disk);
    if NothingToDo(p) then s
    else
      var disk := After(s.disk, p);
      Snapshot(disk, disk, s.up - RemovedServices(p))
  }

  /** A running service whose unit did not change is left alone; every other target is
      brought up from what systemd has loaded. */
  function BroughtUp(s: Snapshot, targets: seq<Service>, changed: set<UnitName>,
                     natives: map<Service, Text>): map<Service, Text> {
    if targets == [] then s.up
    else
      var front, svc := targets[..|targets| - 1], targets[|targets| - 1];
      var up := BroughtUp(s, front, changed, natives);
      if svc in up && Container(svc) !in changed then up else up[svc := Definition(svc, s.loaded, natives)]
  }

  /** The targets that are down, or whose unit changed: what an `up` starts or restarts. */
  function InNeed(s: Snapshot, targets: seq<Service>, changed: set<UnitName>,
                  natives: map<Service, Text>): seq<Service> {
    if targets == [] then []
    else
      var front, svc := targets[..|targets| - 1], targets[|targets| - 1];
      var up, before := BroughtUp(s, front, changed, natives), InNeed(s, front, changed, natives);
      if svc in up && Container(svc) !in changed then before else before + [svc]
  }

  lemma InNeedSnoc(s: Snapshot, targets: seq<Service>, i: nat, changed: set<UnitName>, natives: map<Service, Text>)
    requires i < |targets|
    ensures var up, before := BroughtUp(s, targets[..i], changed, natives), InNeed(s, targets[..i], changed, natives);
      InNeed(s, targets[..i+1], changed, natives)
        == if targets[i] in up && Container(targets[i]) !in changed then before else before + [targets[i]]
  {
    assert targets[..i+1][..i] == targets[..i];
  }

  /** A running service whose unit did not change is never touched. */
  lemma {:induction false} InNeedOnly(s: Snapshot, targets: seq<Service>, changed: set<UnitName>,
                                      natives: map<Service, Text>)
    ensures forall svc :: svc in InNeed(s, targets, changed, natives) ==>
      svc in targets && (svc !in s.up || Container(svc) in changed)
    ensures forall svc :: svc in targets && (svc !in s.up || Container(svc) in changed) ==>
      svc in InNeed(s, targets, changed, natives)
    decreases |targets|
  {
    if targets == [] {
    } else {
      var front, svc := targets[..|targets| - 1], targets[|targets| - 1];
      assert targets == front + [svc];
      InNeedOnly(s, front, changed, natives);
      BroughtUpMeans(s, front, changed, natives);
      assert svc in BroughtUp(s, front, changed, natives) ==> svc in s.up || svc in front;
    }
  }

  /** Each target ends up running, from a fresh start exactly when it was down or its unit changed. */
  lemma {:induction false} BroughtUpMeans(s: Snapshot, targets: seq<Service>, changed: set<UnitName>,
                                          natives: map<Service, Text>)
    ensures var up := BroughtUp(s, targets, changed, natives);
      && up.Keys == s.up.Keys + ServiceSet(targets)
      && forall svc :: svc in up ==>
           up[svc] == if svc in targets && (svc !in s.up || Container(svc) in changed)
                      then Definition(svc, s.loaded, natives) else s.up[svc]
  {
    hide Definition;
    if targets == [] {
    } else {
      var front, svc := targets[..|targets| - 1], targets[|targets| - 1];
      assert targets == front + [svc];
      BroughtUpMeans(s, front, changed, natives);
    }
  }

  lemma BroughtUpSnoc(s: Snapshot, targets: seq<Service>, i: nat, changed: set<UnitName>, natives: map<Service, Text>)
    requires i < |targets|
    ensures var up, svc := BroughtUp(s, targets[..i], changed, natives), targets[i];
      BroughtUp(s, targets[..i+1], changed, natives)
        == if svc in up && Container(svc) !in changed then up else up[svc := Definition(svc, s.loaded, natives)]
  {
    assert targets[..i+1][..i] == targets[..i];
  }

  function AfterUp(s: Snapshot, st: Stage, targets: seq<Service>): Snapshot {
    var p, t := PlanOf(st, s.disk), AfterApply(s, st);
    if p.changed == [] then t
    else t.(up := BroughtUp(t, targets, Names(p.changed), st.natives))
  }

  /** What a passing `up` starts or restarts. */
  function FiredByUp(s: Snapshot, st: Stage, targets: seq<Service>): seq<Service> {
    var p := PlanOf(st, s.disk);
    if p.changed == [] then [] else InNeed(AfterApply(s, st), targets, Names(p.changed), st.natives)
  }

  function Restarted(s: Snapshot, targets: seq<Service>, natives: map<Service, Text>): map<Service, Text> {
    if targets == [] then s.up
    else
      var front, svc := targets[..|targets| - 1], targets[|targets| - 1];
      Restarted(s, front, natives)[svc := Definition(svc, s.loaded, natives)]
  }

  lemma {:induction false} RestartedMeans(s: Snapshot, targets: seq<Service>, natives: map<Service, Text>)
    ensures var up := Restarted(s, targets, natives);
      && up.Keys == s.up.Keys + ServiceSet(targets)
      && forall svc :: svc in up ==> up[svc] == if svc in targets then Definition(svc, s.loaded, natives) else s.up[svc]
  {
    hide Definition;
    if targets == [] {
    } else {
      var front, svc := targets[..|targets| - 1], targets[|targets| - 1];
      assert targets == front + [svc];
      RestartedMeans(s, front, natives);
    }
  }

  lemma RestartedSnoc(s: Snapshot, targets: seq<Service>, i: nat, natives: map<Service, Text>)
    requires i < |targets|
    ensures Restarted(s, targets[..i+1], natives)
         == Restarted(s, targets[..i], natives)[targets[i] := Definition(targets[i], s.loaded, natives)]
  {
    assert targets[..i+1][..i] == targets[..i];
  }

  function AfterRestart(s: Snapshot, st: Stage, targets: seq<Service>): Snapshot {
    var t := AfterApply(s, st);
    t.(up := Restarted(t, targets, st.natives))
  }

  function AfterDown(s: Snapshot, targets: seq<Service>): Snapshot {
    s.(up := s.up - ServiceSet(targets))
  }

  // ------------------------------------------------------------------
  // The verbs
  // ------------------------------------------------------------------

  /** The stage a verb works on: the render of the config with a key of its own. */
  function StageOf(h: Stack, cfg: Config): Stage
    requires h.render(Healed(cfg, h.newSecret)).Rendered?
  {
    Stage(h.render(Healed(cfg, h.newSecret)).units, h.registry, h.natives)
  }

  ghost predicate Usable(h: Stack, cfg: Config) {
    h.render(Healed(cfg, h.newSecret)).Rendered?
  }

  lemma RemovedServicesAreStopped(p: Plan, up: map<Service, Text>, stopped: seq<Service>)
    requires AreTheRunning(stopped, p.removed, up)
    ensures up - ServiceSet(stopped) == up - RemovedServices(p)
  {
    forall svc ensures svc in RemovedServices(p) <==> Container(svc) in Names(p.removed) {
      if Container(svc) in Names(p.removed) {
        var u :| u in p.removed && u.name == Container(svc);
      }
    }
  }

  /** An apply that succeeds leaves what the stage says, and reads it if it wrote any of it. */
  lemma AppliedAsStaged(s: Snapshot, t: Snapshot, st: Stage, q: Plan, applied: Applied)
    requires q == PlanOf(st, s.disk) && Complete(applied, q, s.up)
    requires t.disk == After(s.disk, q) && t.up == s.up - ServiceSet(applied.stopped)
    requires t.loaded == if Empty(applied) then s.loaded else t.disk
    ensures t == AfterApply(s, st)
    ensures applied.changed == q.changed && applied.removed == q.removed
  {
    EmptyIffSettled(q, st.units, s.disk, st.registry);
    RemovedServicesAreStopped(q, s.up, applied.stopped);
    if NothingToDo(q) {
      assert RemovedServices(q) == {};
    }
  }

  /** Applies the config; the snapshot after a success is the spec's. */
  method ApplyStack(h: Stack, cfg: Config) returns (ok: bool, applied: Applied)
    requires h.Wired()
    modifies h`config, h`disk, h`loaded, h`up, h`calls
    ensures old(h.calls) <= h.calls && (ok <==> Usable(h, cfg) && h.Smooth(old(h.calls), h.calls))
    ensures ok ==> h.Snap() == AfterApply(old(h.Snap()), StageOf(h, cfg))
    ensures ok ==> applied.changed == PlanOf(StageOf(h, cfg), old(h.disk)).changed
    ensures ok ==> applied.removed == PlanOf(StageOf(h, cfg), old(h.disk)).removed
    ensures Usable(h, cfg) && NothingToDo(PlanOf(StageOf(h, cfg), old(h.disk))) ==> h.Snap() == old(h.Snap())
  {
    ghost var p;
    ok, applied, p := Apply(h, cfg);
    if ok {
      EmptyIffSettled(p, h.render(Healed(cfg, h.newSecret)).units, old(h.disk), h.registry);
      RemovedServicesAreStopped(p, old(h.up), applied.stopped);
      assert p == PlanOf(StageOf(h, cfg), old(h.disk));
    } else if Usable(h, cfg) && NothingToDo(PlanOf(StageOf(h, cfg), old(h.disk))) {
      assert p == PlanOf(StageOf(h, cfg), old(h.disk));
      assert Names(p.changed) == {} && Names(p.removed) == {};
      assert h.disk == old(h.disk) && ServiceSet(applied.stopped) == {};
    }
  }

  /** The render accepts the config, with its key and with one freshly made, and the target
      is one of its services. */
  ghost predicate Admits(h: Stack, cfg: Config, target: Target) {
    && Usable(h, cfg) && h.render(cfg).Rendered?
    && (target.One? ==> target.svc in Managed(h.render(cfg).units))
  }

  /** Once a stage that changed something is applied, systemd can start all it manages. */
  lemma ManagedCanStart(h: Stack, cfg: Config, target: Target, targets: seq<Service>, s: Snapshot)
    requires h.Wired() && Usable(h, cfg) && h.render(cfg).Rendered? && DASHBOARD in h.natives
    requires Targets(targets, target, h.render(cfg).units)
    requires h.Snap() == AfterApply(s, StageOf(h, cfg)) && PlanOf(StageOf(h, cfg), s.disk).changed != []
    ensures forall svc :: svc in targets ==> h.Startable(svc)
  {
    var st := StageOf(h, cfg);
    ApplySettles(PlanOf(st, s.disk), st.units, s.disk, st.registry);
    forall svc | svc in targets ensures h.Startable(svc) {
      if svc != DASHBOARD {
        assert Container(svc) in Names(h.render(cfg).units);
        assert Container(svc) in Names(st.units);
        var u :| u in st.units && u.name == Container(svc);
        assert OnDisk(h.disk, u);
      }
    }
  }

  method RunUp(h: Stack, dryRun: bool, target: Target)
    returns (r: Result, ghost cfg: Config, ghost targets: seq<Service>)
    requires h.Wired()
    modifies h`config, h`disk, h`loaded, h`up, h`calls, h`fired
    ensures cfg == old(h.config)
    ensures dryRun ==> h.Snap() == old(h.Snap()) && h.config == old(h.config)
    ensures r.Pass? && !dryRun ==>
      Usable(h, cfg) && h.render(cfg).Rendered? && Targets(targets, target, h.render(cfg).units)
    ensures r.Pass? && !dryRun ==> h.Snap() == AfterUp(old(h.Snap()), StageOf(h, cfg), targets)
    ensures r.Pass? && !dryRun ==> h.fired == old(h.fired) + FiredByUp(old(h.Snap()), StageOf(h, cfg), targets)
    ensures dryRun ==> h.fired == old(h.fired)
    // which ups pass
    ensures old(h.calls) <= h.calls
    ensures r.Pass? && !dryRun ==> Admits(h, cfg, target) && h.Smooth(old(h.calls), h.calls)
    ensures Admits(h, cfg, target) && h.Smooth(old(h.calls), h.calls) && DASHBOARD in h.natives ==> r.Pass?
    ensures r.Pass? && !dryRun && target.Whole? && h.natives.Keys == {DASHBOARD} ==>
      Proper(Up(StageOf(h, cfg), targets), h.natives) && h.Snap() == Do(old(h.Snap()), Up(StageOf(h, cfg), targets))
    ensures Usable(h, cfg) && NothingToDo(PlanOf(StageOf(h, cfg), old(h.disk))) ==>
      h.Snap() == old(h.Snap()) && h.fired == old(h.fired)
  {
    hide Stack.Wired, Stack.Smooth, AfterApply, Proper, PlanOf, Managed, Plannable;
    cfg, targets := h.config, [];
    var config := h.config;
    ghost var at := h.calls;
    SmoothOnce(h, at);
    var ok := h.Ask();
    if !ok { return Blocked, cfg, targets; }
    var rendered := h.render(config);
    if rendered.NotRendered? { return Blocked, cfg, targets; }
    var services := ManagedServices(rendered.units);
    var wanted;
    ok, wanted := ResolveTargets(target, services);
    targets := wanted;
    if !ok { return Blocked, cfg, targets; }
    if dryRun {
      var p;
      ok, p := MakePlan(h, config);
      SmoothTwice(h, at, at + 1, h.calls);
      return if ok then Pass else Blocked, cfg, targets;
    }
    var applied;
    ghost var s0 := h.Snap();
    ok, applied := ApplyStack(h, config);
    ghost var mid := h.calls;
    SmoothTwice(h, at, at + 1, mid);
    if !ok { return Blocked, cfg, targets; }
    if target.Whole? && h.natives.Keys == {DASHBOARD} { WholeStageIsProper(h, cfg, targets); }
    if applied.changed == [] { return Pass, cfg, targets; }
    if DASHBOARD in h.natives { ManagedCanStart(h, cfg, target, wanted, s0); }
    r := BringUp(h, wanted, applied.changed);
    SmoothTwice(h, at, mid, h.calls);
  }

  /** Starts or restarts each target, in order, until one fails. */
  method BringUp(h: Stack, targets: seq<Service>, changed: seq<Unit>) returns (r: Result)
    modifies h`up, h`calls, h`fired
    ensures old(h.calls) <= h.calls && (r.Pass? ==> h.Smooth(old(h.calls), h.calls))
    ensures h.Smooth(old(h.calls), h.calls) && (forall svc :: svc in targets ==> h.Startable(svc)) ==> r.Pass?
    ensures r.Pass? ==> h.up == BroughtUp(old(h.Snap()), targets, Names(changed), h.natives)
    ensures r.Pass? ==> h.fired == old(h.fired) + InNeed(old(h.Snap()), targets, Names(changed), h.natives)
  {
    ghost var before := h.Snap();
    var changedUnits: set<UnitName> := {};
    for i := 0 to |changed|
      invariant changedUnits == Names(changed[..i]) && h.Snap() == before && h.fired == old(h.fired)
      invariant h.calls == old(h.calls)
    {
      NamesSnoc(changed, i);
      changedUnits := changedUnits + {changed[i].name};
    }
    assert changed[..|changed|] == changed;
    assert targets[..0] == [];
    assert BroughtUp(before, [], Names(changed), h.natives) == h.up;
    assert h.fired == old(h.fired) + InNeed(before, [], Names(changed), h.natives);
    hide BroughtUp, Definition, InNeed;
    for i := 0 to |targets|
      invariant h.up == BroughtUp(before, targets[..i], Names(changed), h.natives)
      invariant h.fired == old(h.fired) + InNeed(before, targets[..i], Names(changed), h.natives)
      invariant old(h.calls) <= h.calls && h.Smooth(old(h.calls), h.calls)
    {
      var svc := targets[i];
      InNeedSnoc(before, targets, i, Names(changed), h.natives);
      BroughtUpSnoc(before, targets, i, Names(changed), h.natives);
      var ok := true;
      var word := h.IsActive(svc);
      if word.Unreadable? { return Blocked; }
      if IsUp(word) && Container(svc) in changedUnits {
        ok := h.Restart(svc);
      } else if !IsUp(word) {
        ok := h.Start(svc);
      }
      if !ok { return Blocked; }
    }
    assert targets[..|targets|] == targets;
    r := Pass;
  }

  method RunRestart(h: Stack, target: Target) returns (r: Result, ghost cfg: Config, ghost targets: seq<Service>)
    requires h.Wired()
    modifies h`config, h`disk, h`loaded, h`up, h`calls, h`fired
    ensures cfg == old(h.config)
    ensures Admits(h, cfg, target) && h.Smooth(old(h.calls), h.calls) ==> Targets(targets, target, h.render(cfg).units)
    ensures old(h.calls) <= h.calls
    ensures r.Pass? <==>
      Admits(h, cfg, target) && h.Smooth(old(h.calls), h.calls) && forall svc :: svc in targets ==> h.Startable(svc)
    ensures r.Pass? ==>
      h.Snap() == AfterRestart(old(h.Snap()), StageOf(h, cfg), targets) && h.fired == old(h.fired) + targets
    ensures r.Pass? && target.Whole? && h.natives.Keys == {DASHBOARD} ==>
      Proper(Restart(StageOf(h, cfg), targets), h.natives)
      && h.Snap() == Do(old(h.Snap()), Restart(StageOf(h, cfg), targets))
    ensures Usable(h, cfg) && NothingToDo(PlanOf(StageOf(h, cfg), old(h.disk))) ==>
      h.disk == old(h.disk) && h.loaded == old(h.loaded)
  {
    hide Stack.Wired, Stack.Smooth, AfterApply, Proper, PlanOf, Managed;
    cfg, targets := h.config, [];
    var config := h.config;
    ghost var at := h.calls;
    SmoothOnce(h, at);
    var ok := h.Ask();
    if !ok { return Blocked, cfg, targets; }
    var rendered := h.render(config);
    if rendered.NotRendered? { return Blocked, cfg, targets; }
    var services := ManagedServices(rendered.units);
    var wanted;
    ok, wanted := ResolveTargets(target, services);
    targets := wanted;
    if !ok { return Blocked, cfg, targets; }
    var applied;
    ok, applied := ApplyStack(h, config);
    ghost var mid := h.calls;
    SmoothTwice(h, at, at + 1, mid);
    if !ok { return Blocked, cfg, targets; }
    if target.Whole? && h.natives.Keys == {DASHBOARD} { WholeStageIsProper(h, cfg, targets); }
    r := RestartAll(h, wanted);
    SmoothTwice(h, at, mid, h.calls);
  }

  method RestartAll(h: Stack, targets: seq<Service>) returns (r: Result)
    modifies h`up, h`calls, h`fired
    ensures r.Pass? ==> h.up == Restarted(old(h.Snap()), targets, h.natives) && h.fired == old(h.fired) + targets
    ensures old(h.calls) <= h.calls
    ensures r.Pass? <==> h.Smooth(old(h.calls), h.calls) && forall svc :: svc in targets ==> h.Startable(svc)
  {
    ghost var before := h.Snap();
    assert targets[..0] == [];
    assert Restarted(before, [], h.natives) == h.up;
    hide Restarted, Definition;
    for i := 0 to |targets|
      invariant h.up == Restarted(before, targets[..i], h.natives) && h.fired == old(h.fired) + targets[..i]
      invariant forall j :: 0 <= j < i ==> h.Startable(targets[j])
      invariant old(h.calls) <= h.calls && h.Smooth(old(h.calls), h.calls)
    {
      RestartedSnoc(before, targets, i, h.natives);
      var ok := h.Restart(targets[i]);
      if !ok { return Blocked; }
    }
    assert targets[..|targets|] == targets;
    r := Pass;
  }

  /** Stops services and never touches a unit file. */
  method RunDown(h: Stack, target: Target) returns (r: Result, ghost targets: seq<Service>)
    modifies h`up, h`calls
    ensures old(h.calls) <= h.calls
    ensures r.Pass? <==>
      h.Smooth(old(h.calls), h.calls) && h.render(h.config).Rendered?
      && (target.One? ==> target.svc in Managed(h.render(h.config).units))
    ensures r.Pass? ==> Targets(targets, target, h.render(h.config).units)
    ensures r.Pass? ==> h.Snap() == AfterDown(old(h.Snap()), targets)
  {
    hide Stack.Smooth;
    targets := [];
    var config := h.config;
    ghost var at := h.calls;
    SmoothOnce(h, at);
    SmoothThenOne(h, at, at + 1);
    var ok := h.Ask();
    if !ok { return Blocked, targets; }
    ok := h.Ask();
    if !ok { return Blocked, targets; }
    var rendered := h.render(config);
    if rendered.NotRendered? { return Blocked, targets; }
    var services := ManagedServices(rendered.units);
    var wanted;
    ok, wanted := ResolveTargets(target, services);
    targets := wanted;
    if !ok { return Blocked, targets; }
    var stopped;
    ok, stopped := StopAll(h, wanted);
    SmoothTwice(h, at, at + 2, h.calls);
    r := if ok then Pass else Blocked;
  }

  // ------------------------------------------------------------------
  // What the verbs are for
  // ------------------------------------------------------------------

  ghost predicate WellStaged(st: Stage) {
    && Distinct(st.units) && DASHBOARD in st.natives
    && (forall svc :: svc in st.natives ==> Container(svc) !in st.registry && Container(svc) !in Names(st.units))
    && (forall svc :: svc in st.natives ==> svc == DASHBOARD)
  }

  lemma StagesAreWellStaged(h: Stack, cfg: Config)
    requires h.Wired() && Usable(h, cfg) && h.natives.Keys == {DASHBOARD}
    ensures WellStaged(StageOf(h, cfg))
  {
  }

  /** The targets of a whole-stack verb are the services of its stage: a key of its own gives
      a config no other unit files. */
  lemma WholeStageIsProper(h: Stack, cfg: Config, targets: seq<Service>)
    requires h.Wired() && Usable(h, cfg) && h.render(cfg).Rendered? && h.natives.Keys == {DASHBOARD}
    requires Targets(targets, Whole, h.render(cfg).units)
    ensures Proper(Up(StageOf(h, cfg), targets), h.natives) && Proper(Restart(StageOf(h, cfg), targets), h.natives)
  {
    StagesAreWellStaged(h, cfg);
    assert Names(h.render(Healed(cfg, h.newSecret)).units) == Names(h.render(cfg).units);
  }

  /** Applying settles the directory, and settling it again changes nothing at all. */
  lemma ApplyIsIdempotent(s: Snapshot, st: Stage)
    requires Distinct(st.units)
    ensures Settled(AfterApply(s, st).disk, st.units, st.registry)
    ensures NothingToDo(PlanOf(st, AfterApply(s, st).disk))
  {
    var p := PlanOf(st, s.disk);
    ApplySettles(p, st.units, s.disk, st.registry);
    EmptyIffSettled(p, st.units, s.disk, st.registry);
    EmptyIffSettled(PlanOf(st, AfterApply(s, st).disk), st.units, AfterApply(s, st).disk, st.registry);
  }

  /** A second `up` with the same config starts and restarts nothing, and so does an `up`
      after a `down`: what decides is the unit files, not what runs. */
  lemma UpAfterUpOrDownDoesNothing(s: Snapshot, st: Stage, first: seq<Service>, stopped: seq<Service>,
                                   second: seq<Service>)
    requires Distinct(st.units)
    ensures var t := AfterUp(s, st, first);
      && AfterUp(t, st, second) == t && FiredByUp(t, st, second) == []
      && AfterUp(AfterDown(t, stopped), st, second) == AfterDown(t, stopped)
      && FiredByUp(AfterDown(t, stopped), st, second) == []
      && AfterDown(t, stopped).up.Keys !! ServiceSet(stopped)
  {
    ApplyIsIdempotent(s, st);
    var t := AfterUp(s, st, first);
    assert t.disk == AfterApply(s, st).disk;
  }

  /** No running service outside the targets gets a new unit under its feet. */
  ghost predicate StrandsNobody(s: Snapshot, st: Stage, targets: seq<Service>) {
    forall svc :: svc in s.up && svc !in targets ==> Container(svc) !in Names(PlanOf(st, s.disk).changed)
  }

  /** These are the services of the whole stack, in whatever order. */
  ghost predicate WholeOf(targets: seq<Service>, st: Stage) {
    forall svc :: svc in targets <==> svc in Managed(st.units)
  }

  lemma WholeStackStrandsNobody(s: Snapshot, st: Stage, targets: seq<Service>)
    requires WholeOf(targets, st)
    ensures StrandsNobody(s, st, targets)
  {
    PlanMembers(PlanOf(st, s.disk), st.units, s.disk, st.registry);
    forall svc | Container(svc) in Names(PlanOf(st, s.disk).changed) ensures svc in Managed(st.units) {
      var u :| u in PlanOf(st, s.disk).changed && u.name == Container(svc);
      assert u in st.units;
    }
  }

  /** What an apply does to the files and services that matter to coherence. */
  lemma ApplyAt(s: Snapshot, st: Stage, svc: Service)
    requires WellStaged(st)
    ensures var p, t, n := PlanOf(st, s.disk), AfterApply(s, st), Container(svc);
      && (n in Names(st.units) ==> n in t.disk && (n in Names(p.changed) <==> n !in s.disk || s.disk[n] != t.disk[n]))
      && (n !in Names(st.units) ==> n !in Names(p.changed) && (n !in s.disk ==> n !in t.disk))
      && (svc in t.up <==> svc in s.up && !(n in s.disk && n in st.registry && n !in Names(st.units)))
      && (svc in t.up ==> t.up[svc] == s.up[svc])
      && (n !in Names(p.changed) && svc in t.up ==>
            (n in t.disk <==> n in s.disk) && (n in s.disk ==> t.disk[n] == s.disk[n]))
  {
    var p, n := PlanOf(st, s.disk), Container(svc);
    PlanMembers(p, st.units, s.disk, st.registry);
    ApplySettles(p, st.units, s.disk, st.registry);
    EmptyIffSettled(p, st.units, s.disk, st.registry);
    if n in Names(st.units) {
      var u :| u in st.units && u.name == n;
      if n in Names(p.changed) {
        var v :| v in p.changed && v.name == n;
        OneUnitEach(st.units, u, v);
      }
    }
    RemovedAt(p, s, st, svc);
  }

  lemma RemovedAt(p: Plan, s: Snapshot, st: Stage, svc: Service)
    requires p == PlanOf(st, s.disk)
    ensures var n := Container(svc);
      && (n in Names(p.removed) <==> n in s.disk && n in st.registry && n !in Names(st.units))
      && (svc in RemovedServices(p) <==> n in Names(p.removed))
  {
    var n := Container(svc);
    PlanMembers(p, st.units, s.disk, st.registry);
    if n in s.disk && n in st.registry && n !in Names(st.units) {
      assert Unit(n, s.disk[n]) in p.removed;
    }
    if n in Names(p.removed) {
      var u :| u in p.removed && u.name == n;
      assert u.name.service == svc;
    }
  }

  /** From a coherent stack, a passing `up` leaves a coherent one exactly when it strands
      nobody: always for the whole stack, and for one service when no other running
      service has a changed unit. Either way systemd has read what is on disk. */
  lemma UpKeepsCoherenceIff(s: Snapshot, st: Stage, targets: seq<Service>)
    requires WellStaged(st) && Coherent(s, st.natives) && Synced(s)
    requires forall svc :: svc in targets ==> svc in Managed(st.units)
    ensures Coherent(AfterUp(s, st, targets), st.natives) <==> StrandsNobody(s, st, targets)
    ensures Synced(AfterUp(s, st, targets))
  {
    var p, t, after := PlanOf(st, s.disk), AfterApply(s, st), AfterUp(s, st, targets);
    BroughtUpMeans(t, targets, Names(p.changed), st.natives);
    forall svc | svc in after.up
      ensures RunsItsUnit(after, svc, st.natives) <==> svc in targets || Container(svc) !in Names(p.changed) {
      RunsAfterUp(s, st, targets, svc);
    }
    forall svc | svc in s.up && svc !in targets && Container(svc) in Names(p.changed) ensures svc in after.up {
      ApplyAt(s, st, svc);
    }
    forall svc | svc in after.up && svc !in targets ensures svc in s.up {
      ApplyAt(s, st, svc);
    }
  }

  lemma RunsAfterUp(s: Snapshot, st: Stage, targets: seq<Service>, svc: Service)
    requires WellStaged(st) && Coherent(s, st.natives) && Synced(s)
    requires forall svc :: svc in targets ==> svc in Managed(st.units)
    requires svc in AfterUp(s, st, targets).up
    ensures RunsItsUnit(AfterUp(s, st, targets), svc, st.natives) <==>
            svc in targets || Container(svc) !in Names(PlanOf(st, s.disk).changed)
  {
    var p, t := PlanOf(st, s.disk), AfterApply(s, st);
    ApplyAt(s, st, svc);
    BroughtUpMeans(t, targets, Names(p.changed), st.natives);
    if p.changed != [] {
      assert t.loaded == t.disk;
    }
    if svc in s.up {
      assert RunsItsUnit(s, svc, st.natives);
    }
  }

  /** A service left behind by a targeted `up` is not helped by any later one. */
  lemma StrandedStaysStranded(s: Snapshot, st: Stage, targets: seq<Service>, later: seq<Service>)
    requires WellStaged(st) && Coherent(s, st.natives) && Synced(s) && !StrandsNobody(s, st, targets)
    requires forall svc :: svc in targets ==> svc in Managed(st.units)
    ensures !Coherent(AfterUp(AfterUp(s, st, targets), st, later), st.natives)
  {
    UpKeepsCoherenceIff(s, st, targets);
    UpAfterUpOrDownDoesNothing(s, st, targets, [], later);
  }

  /** systemd has read the files of these services as they are. */
  ghost predicate HasRead(s: Snapshot, units: seq<Unit>) {
    forall u :: u in units && u.name.Container? ==>
      u.name in s.loaded && u.name in s.disk && s.loaded[u.name] == s.disk[u.name]
  }

  /** From any state at all, a passing whole-stack `restart` leaves every managed service
      on its unit exactly when it had a file to write or remove, or systemd had read the
      directory already. A reload that failed earlier is never made up for. */
  lemma RestartCoheresIff(s: Snapshot, st: Stage, targets: seq<Service>)
    requires WellStaged(st) && WholeOf(targets, st)
    requires forall svc :: svc in Managed(st.units) ==> svc in st.natives || Container(svc) in AfterApply(s, st).loaded
    ensures var t := AfterRestart(s, st, targets);
      && (forall svc :: svc in Managed(st.units) ==> svc in t.up)
      && ((forall svc :: svc in Managed(st.units) ==> RunsItsUnit(t, svc, st.natives))
          <==> !NothingToDo(PlanOf(st, s.disk)) || HasRead(s, st.units))
  {
    var a, t := AfterApply(s, st), AfterRestart(s, st, targets);
    RestartedMeans(a, targets, st.natives);
    ApplyIsIdempotent(s, st);
    forall svc | svc in targets
      ensures svc in t.up
      ensures RunsItsUnit(t, svc, st.natives) <==>
        svc in st.natives || a.loaded[Container(svc)] == a.disk[Container(svc)] {
      if svc !in st.natives {
        var u :| u in st.units && u.name == Container(svc);
        assert OnDisk(a.disk, u);
      }
    }
    assert NothingToDo(PlanOf(st, s.disk)) ==> a == s;
    assert !NothingToDo(PlanOf(st, s.disk)) ==> a.loaded == a.disk;
    if NothingToDo(PlanOf(st, s.disk)) {
      FitsIffHasRead(s, st);
    }
  }

  lemma FitsIffHasRead(s: Snapshot, st: Stage)
    requires WellStaged(st) && Settled(s.disk, st.units, st.registry)
    requires forall svc :: svc in Managed(st.units) ==> svc in st.natives || Container(svc) in s.loaded
    ensures HasRead(s, st.units) <==>
      forall svc :: svc in Managed(st.units) && svc !in st.natives ==>
        s.loaded[Container(svc)] == s.disk[Container(svc)]
  {
    forall svc | svc in Managed(st.units) && svc !in st.natives ensures Container(svc) in s.disk {
      var u :| u in st.units && u.name == Container(svc);
      assert OnDisk(s.disk, u);
    }
    forall u | u in st.units && u.name.Container?
      ensures u.name.service in Managed(st.units) && u.name.service !in st.natives {
      assert u.name in Names(st.units) && Container(u.name.service) == u.name;
    }
    if HasRead(s, st.units) {
      forall svc | svc in Managed(st.units) && svc !in st.natives
        ensures s.loaded[Container(svc)] == s.disk[Container(svc)] {
        var u :| u in st.units && u.name == Container(svc);
      }
    }
  }

  // ------------------------------------------------------------------
  // Whole histories
  // ------------------------------------------------------------------

  /** A whole-stack verb that passed, on the stage of its day. Targets are resolved before
      the config has a key of its own, so they are the stage's services in an order of
      their own. */
  datatype Verb = Up(st: Stage, targets: seq<Service>) | Restart(st: Stage, targets: seq<Service>)
    | Down(targets: seq<Service>)

  function Do(s: Snapshot, v: Verb): Snapshot {
    match v
    case Up(st, targets) => AfterUp(s, st, targets)
    case Restart(st, targets) => AfterRestart(s, st, targets)
    case Down(targets) => AfterDown(s, targets)
  }

  function DoAll(s: Snapshot, vs: seq<Verb>): Snapshot {
    if vs == [] then s else Do(DoAll(s, vs[..|vs| - 1]), vs[|vs| - 1])
  }

  ghost predicate Proper(v: Verb, natives: map<Service, Text>) {
    v.Down? || (WellStaged(v.st) && v.st.natives == natives && WholeOf(v.targets, v.st))
  }

  /** Whatever the config becomes from one verb to the next, whole-stack verbs that pass
      never leave a running service on a unit that is not the one on disk. */
  lemma {:induction false} CoherenceIsForEver(s: Snapshot, vs: seq<Verb>, natives: map<Service, Text>)
    requires Coherent(s, natives) && Synced(s)
    requires forall i :: 0 <= i < |vs| ==> Proper(vs[i], natives)
    ensures Coherent(DoAll(s, vs), natives) && Synced(DoAll(s, vs))
    decreases |vs|
  {
    if vs == [] {
    } else {
      var front, v := vs[..|vs| - 1], vs[|vs| - 1];
      CoherenceIsForEver(s, front, natives);
      var t := DoAll(s, front);
      match v
      case Up(st, targets) =>
        WholeStackStrandsNobody(t, st, targets);
        UpKeepsCoherenceIff(t, st, targets);
      case Restart(st, targets) =>
        RestartKeepsCoherence(t, st, targets);
      case Down(targets) =>
        var d := AfterDown(t, targets);
        forall svc | svc in d.up ensures RunsItsUnit(d, svc, natives) {
          assert RunsItsUnit(t, svc, natives);
        }
    }
  }

  lemma RestartKeepsCoherence(s: Snapshot, st: Stage, targets: seq<Service>)
    requires WellStaged(st) && Coherent(s, st.natives) && Synced(s) && WholeOf(targets, st)
    ensures var t := AfterRestart(s, st, targets); Coherent(t, st.natives) && Synced(t)
  {
    var p, a, t := PlanOf(st, s.disk), AfterApply(s, st), AfterRestart(s, st, targets);
    RestartedMeans(a, targets, st.natives);
    WholeStackStrandsNobody(s, st, targets);
    forall svc | svc in t.up ensures RunsItsUnit(t, svc, st.natives) {
      ApplyAt(s, st, svc);
      if svc !in targets {
        assert svc in s.up && RunsItsUnit(s, svc, st.natives);
      }
    }
  }
}
