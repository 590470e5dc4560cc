/** The one frame every change to the running stack goes through: capture, persist, apply,
    restart, prove, and roll back when any of it fails. */
module SwapFrame {
  import opened StackHost
  import opened StackApply
  import opened Lifecycle

  /** The service the proof drives. */
  const PROVEN: Service := "villa-llama"

  /** What the verb decides from the locked config. */
  datatype Decision = Target(next: Config) | Stop

  datatype Outcome = NotLocked | NotLoaded | Stopped | Refused | NoOp | Switched | RolledBack(complete: bool)

  ghost predicate CapturedFrom(captured: map<UnitName, Text>, disk: map<UnitName, Text>) {
    forall n :: n in captured ==> n in disk && disk[n] == captured[n]
  }

  // ------------------------------------------------------------------
  // Capture
  // ------------------------------------------------------------------

  method ListUnits(h: Stack) returns (ok: bool, names: seq<UnitName>)
    modifies h`calls
    ensures h.calls == old(h.calls) + 1 && (ok <==> h.faults(old(h.calls)).Fine?)
    ensures ok ==> forall n :: n in names <==> n in h.disk && IsVilla(n)
  {
    ok := h.Ask();
    names := [];
    var rest := h.disk.Keys;
    while rest != {}
      invariant rest <= h.disk.Keys && h.disk == old(h.disk) && h.calls == old(h.calls) + 1
      invariant forall n :: n in names <==> n in h.disk && n !in rest && IsVilla(n)
      decreases rest
    {
      var n :| n in rest;
      if IsVilla(n) { names := names + [n]; }
      rest := rest - {n};
    }
  }

  /** The names whose bytes a swap away from a config keeps: what it renders and what the
      registry has on disk, or every villa file when it cannot be rendered or reconciled. */
  function CaptureNames(planned: bool, st: Stage, disk: map<UnitName, Text>): set<UnitName> {
    if planned then Names(st.units) + Names(PlanOf(st, disk).removed)
    else set n | n in disk && IsVilla(n)
  }

  /** What the prior config renders, when it renders. */
  function StageIf(planned: bool, h: Stack, cfg: Config): Stage
    requires planned ==> h.render(cfg).Rendered?
  {
    Stage(if planned then h.render(cfg).units else [], h.registry, h.natives)
  }

  method NamesToCapture(h: Stack, cfg: Config) returns (ok: bool, names: seq<UnitName>)
    modifies h`calls
    ensures old(h.calls) <= h.calls
    ensures h.Smooth(old(h.calls), h.calls) ==> ok
    ensures var planned := Plannable(h, cfg, old(h.calls));
      ok ==> forall n :: n in names <==> n in CaptureNames(planned, StageIf(planned, h, cfg), h.disk)
  {
    hide Stack.Wired, Stack.Smooth;
    var p;
    ok, p := MakePlan(h, cfg);
    SmoothThenOne(h, old(h.calls), h.calls);
    if ok {
      names := Filenames(p.changed) + Filenames(p.same) + Filenames(p.removed);
      FilenamesAre(p.changed);
      FilenamesAre(p.same);
      FilenamesAre(p.removed);
      RenderedAreChangedOrSame(p, h.render(cfg).units, h.disk, h.registry);
      PlansAreUnique(p, Stage(h.render(cfg).units, h.registry, h.natives), h.disk);
    } else {
      ok, names := ListUnits(h);
    }
  }

  /** Reads the named files that are there. */
  method ReadUnits(h: Stack, names: seq<UnitName>) returns (ok: bool, captured: map<UnitName, Text>)
    modifies h`calls
    ensures old(h.calls) <= h.calls && (ok <==> h.Smooth(old(h.calls), h.calls))
    ensures ok ==> CapturedFrom(captured, h.disk)
    ensures ok ==> forall n :: n in captured <==> n in names && n in h.disk
  {
    ok, captured := true, map[];
    for i := 0 to |names|
      invariant ok && CapturedFrom(captured, h.disk)
      invariant old(h.calls) <= h.calls && h.Smooth(old(h.calls), h.calls)
      invariant forall n :: n in captured <==> n in names[..i] && n in h.disk
    {
      assert names[..i+1] == names[..i] + [names[i]];
      var present, text;
      ok, present, text := h.ReadUnit(names[i]);
      if !ok { return; }
      if present { captured := captured[names[i] := text]; }
    }
    assert names[..|names|] == names;
  }

  /** Everything is read or the capture fails. Whether the prior config can be planned is
      settled by the call after the first. */
  method CaptureUnits(h: Stack, cfg: Config) returns (ok: bool, captured: map<UnitName, Text>)
    modifies h`calls
    ensures old(h.calls) <= h.calls && (h.Smooth(old(h.calls), h.calls) ==> ok)
    ensures ok ==> CapturedFrom(captured, h.disk)
    ensures var planned := Plannable(h, cfg, old(h.calls) + 1);
      ok ==> captured.Keys == CaptureNames(planned, StageIf(planned, h, cfg), h.disk) * h.disk.Keys
  {
    hide Stack.Smooth, CaptureNames, CapturedFrom;
    ghost var at := h.calls;
    SmoothOnce(h, at);
    captured := map[];
    ok := h.Ask();
    if !ok { return; }
    var list;
    ok, list := NamesToCapture(h, cfg);
    ghost var mid := h.calls;
    SmoothTwice(h, at, at + 1, mid);
    if !ok { return; }
    ok, captured := ReadUnits(h, list);
    SmoothTwice(h, at, mid, h.calls);
  }

  lemma RenderedAreChangedOrSame(p: Plan, units: seq<Unit>, disk: map<UnitName, Text>, registry: seq<UnitName>)
    requires IsPlan(p, units, disk, registry)
    ensures Names(p.changed) + Names(p.same) == Names(units)
  {
    PlanMembers(p, units, disk, registry);
    forall n | n in Names(units) ensures n in Names(p.changed) + Names(p.same) {
      var u :| u in units && u.name == n;
      assert u in p.changed || u in p.same;
    }
  }

  // ------------------------------------------------------------------
  // Restore
  // ------------------------------------------------------------------

  /** Writes captured bytes back, in any order, until one fails. It removes nothing. */
  method Restore(h: Stack, captured: map<UnitName, Text>) returns (ok: bool)
    modifies h`disk, h`calls
    ensures old(h.calls) <= h.calls && (ok <==> h.Smooth(old(h.calls), h.calls))
    ensures AgreeOff(old(h.disk), h.disk, captured.Keys)
    ensures ok ==> h.disk == old(h.disk) + captured
  {
    ok := true;
    if captured == map[] { return; }
    ok := h.Ask();
    if !ok { return; }
    var rest := captured.Keys;
    while rest != {}
      invariant ok && rest <= captured.Keys
      invariant old(h.calls) <= h.calls && h.Smooth(old(h.calls), h.calls)
      invariant AgreeOff(old(h.disk), h.disk, captured.Keys)
      invariant forall n :: n in captured && n !in rest ==> n in h.disk && h.disk[n] == captured[n]
      decreases rest
    {
      var n :| n in rest;
      ok := h.WriteUnit(n, captured[n]);
      if !ok { return; }
      rest := rest - {n};
    }
    assert h.disk == old(h.disk) + captured;
  }

  /** Restore gives the directory back byte for byte exactly when nothing outside the
      capture has been changed: a file the swap created stays. */
  lemma RestoreGivesBackIff(before: map<UnitName, Text>, captured: map<UnitName, Text>, now: map<UnitName, Text>)
    requires CapturedFrom(captured, before)
    ensures now + captured == before <==> AgreeOff(before, now, captured.Keys)
  {
    if AgreeOff(before, now, captured.Keys) {
      assert (now + captured).Keys == before.Keys;
    } else {
      var n :| n !in captured && !((n in before <==> n in now) && (n in before ==> before[n] == now[n]));
      assert n in now + captured <==> n in now;
    }
  }

  // ------------------------------------------------------------------
  // Cut over
  // ------------------------------------------------------------------

  /** What has been restarted so far of the changed services that run and of `always`. */
  ghost predicate Cycled(h: Stack, before: map<Service, Text>, restarted: seq<Service>, changed: seq<Unit>,
                         always: seq<Service>)
    reads h`up
  {
    && AgreeOff(before, h.up, ServiceSet(restarted))
    && forall svc :: svc in restarted ==> svc in always || (svc in before && Container(svc) in Names(changed))
  }

  /** Restarts the service of one changed unit, if it is up or is to be restarted in any case.
      A service whose state cannot be read counts as down. */
  method RestartUnit(h: Stack, u: Unit, always: seq<Service>) returns (ok: bool, tried: seq<Service>)
    modifies h`up, h`calls, h`fired
    ensures old(h.calls) <= h.calls
    ensures h.fired == old(h.fired) + tried && AgreeOff(old(h.up), h.up, ServiceSet(tried))
    ensures tried == [] || (u.name.Container? && tried == [u.name.service])
    ensures tried == [] ==> ok && h.up == old(h.up)
    ensures tried != [] ==>
      (u.name.service in always || u.name.service in old(h.up)) && (ok ==> Fresh(h, u.name.service))
    ensures h.Smooth(old(h.calls), h.calls) && (tried != [] ==> h.Startable(u.name.service)) ==> ok
    ensures h.Smooth(old(h.calls), h.calls) && u.name.Container? && u.name.service in old(h.up) ==> tried != []
  {
    ok, tried := true, [];
    if u.name.Container? {
      var svc := u.name.service;
      var running := svc in always;
      if !running {
        var word := h.IsActive(svc);
        running := IsUp(word);
      }
      if running {
        tried := [svc];
        ok := h.Restart(svc);
      }
    }
  }

  /** Each changed service that is up, or is to be restarted in any case, in render order. */
  method RestartRunning(h: Stack, changed: seq<Unit>, always: seq<Service>) returns (ok: bool, restarted: seq<Service>)
    modifies h`up, h`calls, h`fired
    ensures old(h.calls) <= h.calls
    ensures Cycled(h, old(h.up), restarted, changed, always) && h.fired == old(h.fired) + restarted
    ensures (ok ==> forall svc :: svc in restarted ==> Fresh(h, svc)) && (!ok ==> restarted != [])
    ensures h.Smooth(old(h.calls), h.calls) ==> ((forall svc :: svc in restarted ==> h.Startable(svc)) ==> ok)
    ensures ok && h.Smooth(old(h.calls), h.calls) ==> EachTried(old(h.up), changed, restarted)
  {
    hide Stack.Smooth;
    ok, restarted := true, [];
    SmoothOnce(h, h.calls);
    for i := 0 to |changed|
      invariant ok && Cycled(h, old(h.up), restarted, changed, always) && h.fired == old(h.fired) + restarted
      invariant forall svc :: svc in restarted ==> Fresh(h, svc)
      invariant old(h.calls) <= h.calls
      invariant h.Smooth(old(h.calls), h.calls) ==> EachTried(old(h.up), changed[..i], restarted)
    {
      NamesSnoc(changed, i);
      assert changed[i].name in Names(changed);
      var tried;
      ghost var was, at := restarted, h.calls;
      ok, tried := RestartUnit(h, changed[i], always);
      SmoothTwice(h, old(h.calls), at, h.calls);
      ServiceSetOfBoth(restarted, tried);
      restarted := restarted + tried;
      if !ok {
        assert tried != [] && tried[0] in restarted;
        return;
      }
    }
    assert changed[..|changed|] == changed;
  }

  /** Every service that was up and whose unit changed was restarted. */
  ghost predicate EachTried(up: map<Service, Text>, changed: seq<Unit>, restarted: seq<Service>) {
    forall svc :: svc in up && Container(svc) in Names(changed) ==> svc in restarted
  }

  /** Restarts each of `always` that is not among the restarted yet, whether it is up or not. */
  method RestartLeft(h: Stack, restarted: seq<Service>, always: seq<Service>) returns (ok: bool, more: seq<Service>)
    modifies h`up, h`calls, h`fired
    ensures old(h.calls) <= h.calls
    ensures AgreeOff(old(h.up), h.up, ServiceSet(more)) && h.fired == old(h.fired) + more
    ensures forall svc :: svc in more ==> svc in always && svc !in restarted
    ensures ok ==> forall svc :: svc in always ==> svc in restarted || svc in more
    ensures (ok ==> forall svc :: svc in more ==> Fresh(h, svc)) && (!ok ==> more != [])
    ensures h.Smooth(old(h.calls), h.calls) ==> ((forall svc :: svc in more ==> h.Startable(svc)) ==> ok)
  {
    ok, more := true, [];
    for i := 0 to |always|
      invariant ok && AgreeOff(old(h.up), h.up, ServiceSet(more)) && h.fired == old(h.fired) + more
      invariant forall svc :: svc in more ==> Fresh(h, svc) && svc in always && svc !in restarted
      invariant forall j :: 0 <= j < i ==> always[j] in restarted || always[j] in more
      invariant old(h.calls) <= h.calls
    {
      if always[i] !in restarted && always[i] !in more {
        RestartedMore(more, always[i]);
        more := more + [always[i]];
        ok := h.Restart(always[i]);
        if !ok {
          assert always[i] in more;
          return;
        }
      }
    }
  }

  /** Restarts every changed service that is up, in render order, and then each of `always`
      that is left, whether it is up or not; reports every one it restarted or tried to. */
  method RestartChanged(h: Stack, changed: seq<Unit>, always: seq<Service>) returns (ok: bool, restarted: seq<Service>)
    modifies h`up, h`calls, h`fired
    ensures old(h.calls) <= h.calls
    ensures AgreeOff(old(h.up), h.up, ServiceSet(restarted)) && h.fired == old(h.fired) + restarted
    ensures forall svc :: svc in restarted ==> svc in always || (svc in old(h.up) && Container(svc) in Names(changed))
    ensures always != [] ==> restarted != []
    ensures ok ==> forall svc :: svc in always ==> svc in restarted
    ensures ok ==> forall svc :: svc in restarted ==> Fresh(h, svc)
    ensures h.Smooth(old(h.calls), h.calls) ==> ((forall svc :: svc in restarted ==> h.Startable(svc)) ==> ok)
    ensures ok && h.Smooth(old(h.calls), h.calls) ==> EachTried(old(h.up), changed, restarted)
  {
    hide Stack.Smooth, EachTried;
    ok, restarted := RestartRunning(h, changed, always);
    if !ok { return; }
    ghost var first, up1, mid := restarted, h.up, h.calls;
    var more;
    ok, more := RestartLeft(h, restarted, always);
    SmoothTwice(h, old(h.calls), mid, h.calls);
    ServiceSetOfBoth(first, more);
    AgreeOffTwice(old(h.up), up1, h.up, ServiceSet(first), ServiceSet(more));
    restarted := restarted + more;
    assert always != [] ==> always[0] in always;
    TriedStill(old(h.up), changed, first, restarted);
    forall svc | svc in first && svc !in more ensures h.up[svc] == up1[svc] {
      assert svc !in ServiceSet(more);
    }
  }

  lemma TriedStill(up: map<Service, Text>, changed: seq<Unit>, first: seq<Service>, restarted: seq<Service>)
    requires first <= restarted
    ensures EachTried(up, changed, first) ==> EachTried(up, changed, restarted)
  {
    forall svc | svc in first ensures svc in restarted {
      var j :| 0 <= j < |first| && first[j] == svc;
      assert restarted[j] == svc;
    }
  }

  /** The service runs what systemd has loaded of its unit. */
  ghost predicate Fresh(h: Stack, svc: Service)
    reads h`up, h`loaded
  {
    svc in h.up && h.up[svc] == Definition(svc, h.loaded, h.natives) && h.Startable(svc)
  }

  lemma RestartedMore(restarted: seq<Service>, svc: Service)
    ensures ServiceSet(restarted + [svc]) == ServiceSet(restarted) + {svc}
  {
  }

  // ------------------------------------------------------------------
  // The transaction
  // ------------------------------------------------------------------

  /** What a rollback that reports complete has done to the host `mid` it found. */
  ghost predicate GivenBack(mid: Snapshot, t: Snapshot, captured: map<UnitName, Text>, restarted: seq<Service>,
                            natives: map<Service, Text>) {
    && t.disk == mid.disk + captured && Synced(t)
    && AgreeOff(mid.up, t.up, ServiceSet(restarted))
    && forall svc :: svc in restarted ==>
         svc in t.up && t.up[svc] == Definition(svc, t.loaded, natives)
         && (svc in natives || Container(svc) in t.loaded)
  }

  /** Restarts each service, carrying on past one that fails. */
  method RestartEach(h: Stack, svcs: seq<Service>) returns (ok: bool)
    modifies h`up, h`calls, h`fired
    ensures old(h.calls) <= h.calls && h.fired == old(h.fired) + svcs
    ensures ok <==> h.Smooth(old(h.calls), h.calls) && forall svc :: svc in svcs ==> h.Startable(svc)
    ensures AgreeOff(old(h.up), h.up, ServiceSet(svcs))
    ensures ok ==> forall svc :: svc in svcs ==> Fresh(h, svc)
  {
    hide Stack.Smooth;
    ghost var at := h.calls;
    SmoothOnce(h, at);
    ok := true;
    for i := 0 to |svcs|
      invariant old(h.calls) <= h.calls && h.fired == old(h.fired) + svcs[..i]
      invariant AgreeOff(old(h.up), h.up, ServiceSet(svcs))
      invariant ok <==> h.Smooth(at, h.calls) && forall j :: 0 <= j < i ==> h.Startable(svcs[j])
      invariant ok ==> forall j :: 0 <= j < i ==> Fresh(h, svcs[j])
    {
      SmoothThenOne(h, at, h.calls);
      var done := h.Restart(svcs[i]);
      ok := ok && done;
    }
    assert svcs[..|svcs|] == svcs;
  }

  /** Files, config, reload, restarts: each is tried whatever became of the one before. */
  method RollBack(h: Stack, prior: Config, captured: map<UnitName, Text>, restarted: seq<Service>)
    returns (complete: bool)
    modifies h`config, h`disk, h`loaded, h`up, h`calls, h`fired
    ensures complete ==> h.config == prior && GivenBack(old(h.Snap()), h.Snap(), captured, restarted, h.natives)
    ensures old(h.calls) <= h.calls && h.fired == old(h.fired) + restarted
    ensures h.Smooth(old(h.calls), h.calls) ==> h.loaded == old(h.disk) + captured
    ensures complete <==> h.Smooth(old(h.calls), h.calls) && forall svc :: svc in restarted ==> h.Startable(svc)
  {
    hide Stack.Smooth;
    ghost var at := h.calls;
    complete := Restore(h, captured);
    SmoothThenOne(h, at, h.calls);
    var ok := h.SaveConfig(prior);
    complete := complete && ok;
    SmoothThenOne(h, at, h.calls);
    ok := h.DaemonReload();
    complete := complete && ok;
    ghost var mid := h.calls;
    ok := RestartEach(h, restarted);
    SmoothTwice(h, at, mid, h.calls);
    complete := complete && ok;
  }

  /** systemd can start the proven service once the next config is applied. */
  ghost predicate ProvenStarts(h: Stack, next: Config) {
    Usable(h, next) && (PROVEN in h.natives || Container(PROVEN) in Names(StageOf(h, next).units))
  }

  /** Everything between the capture and the proof. `cutover` is what it restarts, or tries
      to, once the apply has gone through. */
  method CutOver(h: Stack, next: Config)
    returns (ok: bool, applied: Applied, restarted: seq<Service>, ghost cutover: seq<Service>)
    requires h.Wired()
    modifies h`config, h`disk, h`loaded, h`up, h`calls, h`fired
    ensures old(h.calls) <= h.calls && h.fired == old(h.fired) + cutover && restarted == applied.stopped + cutover
    ensures AgreeOff(old(h.disk), h.disk, Names(applied.changed) + Names(applied.removed))
    ensures old(h.disk).Keys - Names(applied.removed) <= h.disk.Keys
    ensures AgreeOff(old(h.up), h.up, ServiceSet(restarted))
    ensures forall svc :: svc in cutover ==> svc in old(h.up) || svc == PROVEN
    ensures forall svc :: svc in applied.stopped ==> svc in old(h.up) && Unrendered(h, next, svc)
    ensures forall n :: n in Names(applied.removed) ==> n in old(h.disk) && n in h.registry
    ensures Usable(h, next) ==>
      applied.changed == [] || applied.changed == PlanOf(StageOf(h, next), old(h.disk)).changed
    ensures !Usable(h, next) ==> applied == NOTHING
    ensures cutover != [] || ok ==> Usable(h, next) && h.disk == AfterApply(old(h.Snap()), StageOf(h, next)).disk
    ensures cutover != [] || ok ==> applied.changed == PlanOf(StageOf(h, next), old(h.disk)).changed
    ensures ok ==> h.config == Healed(next, h.newSecret)
    ensures ok ==> (cutover != [] <==> applied.changed != [])
    ensures ok && cutover != [] ==> Synced(h.Snap()) && PROVEN in h.up
    ensures ok && cutover != [] ==> CoheresIffCycled(h, old(h.Snap()), h.Snap(), next, cutover)
    ensures h.Smooth(old(h.calls), h.calls) && ProvenStarts(h, next) ==>
      ok && EachCycled(h, old(h.Snap()), next, cutover)
    ensures h.Smooth(old(h.calls), h.calls) && Usable(h, next) ==>
      ok || PlanOf(StageOf(h, next), old(h.disk)).changed != []
  {
    hide Stack.Smooth, EachTried, AgreeOff, AfterApply, PlanOf, Coherent, Stack.Wired;
    applied, restarted, cutover := NOTHING, [], [];
    ghost var at := h.calls;
    SmoothOnce(h, at);
    ok := h.SaveConfig(next);
    AgreeOffSelf(h.disk, h.up);
    if !ok { return; }
    ghost var s0 := h.Snap();
    ghost var q;
    ok, applied, q := Apply(h, next);
    SmoothTwice(h, at, at + 1, h.calls);
    restarted := applied.stopped;
    ReportStaysInPlan(h, next, applied, q, s0.disk);
    ReportMeans(applied, s0.disk, h.disk, s0.up, h.up);
    if !ok { return; }
    PlansAreUnique(q, StageOf(h, next), s0.disk);
    AppliedAsStaged(s0, h.Snap(), StageOf(h, next), q, applied);
    if applied.changed == [] {
      NothingToCycle(h, s0, next, []);
      return;
    }
    ghost var s1, mid := h.Snap(), h.calls;
    var cycled;
    ok, cycled := RestartChanged(h, applied.changed, [PROVEN]);
    cutover := cycled;
    SmoothTwice(h, at, mid, h.calls);
    ServiceSetOfBoth(applied.stopped, cutover);
    AgreeOffTwice(s0.up, s1.up, h.up, ServiceSet(applied.stopped), ServiceSet(cutover));
    restarted := restarted + cycled;
    assert PROVEN in [PROVEN];
    if ProvenStarts(h, next) { CycledCanStart(h, next, s0, s1, cutover); }
    if ok && Coherent(s0, h.natives) && Synced(s0) && WellStaged(StageOf(h, next)) {
      CutOverCoheresIff(s0, h.Snap(), StageOf(h, next), cutover);
    }
  }

  /** A service whose unit file is the registry's and not rendered. */
  ghost predicate Unrendered(h: Stack, next: Config, svc: Service) {
    Usable(h, next) && Container(svc) in h.registry && Container(svc) !in Names(StageOf(h, next).units)
  }

  /** Every service that was up and whose unit the apply changed was restarted. */
  ghost predicate EachCycled(h: Stack, s: Snapshot, next: Config, restarted: seq<Service>)
    requires Usable(h, next)
  {
    EachTried(AfterApply(s, StageOf(h, next)).up, PlanOf(StageOf(h, next), s.disk).changed, restarted)
  }

  /** From a coherent host the swap leaves a coherent one exactly when it restarted each
      service that ran on a unit it changed. */
  ghost predicate CoheresIffCycled(h: Stack, s: Snapshot, t: Snapshot, next: Config, cutover: seq<Service>)
    requires Usable(h, next)
  {
    WellStaged(StageOf(h, next)) && Coherent(s, h.natives) && Synced(s) ==>
      (Coherent(t, h.natives) <==> EachCycled(h, s, next, cutover))
  }

  lemma AgreeOffSelf(disk: map<UnitName, Text>, up: map<Service, Text>)
    ensures forall names :: AgreeOff(disk, disk, names)
    ensures forall svcs :: AgreeOff(up, up, svcs)
  {
  }

  lemma ReportMeans(a: Applied, disk: map<UnitName, Text>, disk': map<UnitName, Text>, up: map<Service, Text>,
                    up': map<Service, Text>)
    requires ReportCovers(a, disk, disk', up, up')
    ensures AgreeOff(disk, disk', Names(a.changed) + Names(a.removed)) && AgreeOff(up, up', ServiceSet(a.stopped))
  {
  }

  lemma NothingToCycle(h: Stack, s: Snapshot, next: Config, restarted: seq<Service>)
    requires Usable(h, next) && PlanOf(StageOf(h, next), s.disk).changed == []
    ensures EachCycled(h, s, next, restarted)
  {
  }

  /** The apply has read what it wrote, so whatever the cutover restarts can start. */
  lemma CycledCanStart(h: Stack, next: Config, s: Snapshot, mid: Snapshot, cutover: seq<Service>)
    requires h.Wired() && ProvenStarts(h, next) && mid == AfterApply(s, StageOf(h, next))
    requires PlanOf(StageOf(h, next), s.disk).changed != [] && h.loaded == mid.loaded
    requires forall svc :: svc in cutover ==>
      svc == PROVEN || Container(svc) in Names(PlanOf(StageOf(h, next), s.disk).changed)
    ensures forall svc :: svc in cutover ==> h.Startable(svc)
  {
    var st := StageOf(h, next);
    ApplySettles(PlanOf(st, s.disk), st.units, s.disk, st.registry);
    forall svc | svc in cutover ensures h.Startable(svc) {
      if svc !in h.natives {
        assert Container(svc) in Names(st.units);
        var u :| u in st.units && u.name == Container(svc);
        assert OnDisk(mid.disk, u);
      }
    }
  }

  lemma ReportStaysInPlan(h: Stack, next: Config, applied: Applied, q: Plan, disk: map<UnitName, Text>)
    requires Within(applied, q)
    requires var r := h.render(Healed(next, h.newSecret));
      if r.Rendered? then IsPlan(q, r.units, disk, h.registry) else applied == NOTHING
    ensures forall n :: n in Names(applied.removed) ==> n in disk && n in h.registry
    ensures forall svc :: svc in applied.stopped ==> Unrendered(h, next, svc)
    ensures Usable(h, next) ==> applied.changed == [] || applied.changed == PlanOf(StageOf(h, next), disk).changed
  {
    if Usable(h, next) {
      PlanMembers(q, h.render(Healed(next, h.newSecret)).units, disk, h.registry);
    }
  }

  /** From a coherent host every running service runs its unit exactly when each that ran on a
      unit the apply changed was restarted. */
  lemma CutOverCoheresIff(s: Snapshot, t: Snapshot, st: Stage, restarted: seq<Service>)
    requires WellStaged(st) && Coherent(s, st.natives) && Synced(s)
    requires t.disk == AfterApply(s, st).disk && t.loaded == t.disk
    requires AgreeOff(AfterApply(s, st).up, t.up, ServiceSet(restarted))
    requires forall svc :: svc in restarted ==>
      svc in t.up && t.up[svc] == Definition(svc, t.loaded, st.natives)
      && (svc in st.natives || Container(svc) in t.loaded)
    ensures Coherent(t, st.natives) <==> EachTried(AfterApply(s, st).up, PlanOf(st, s.disk).changed, restarted)
  {
    forall svc | svc in t.up
      ensures RunsItsUnit(t, svc, st.natives) <==>
        (svc in AfterApply(s, st).up && Container(svc) in Names(PlanOf(st, s.disk).changed) ==> svc in restarted) {
      if svc !in restarted {
        ApplyAt(s, st, svc);
        assert RunsItsUnit(s, svc, st.natives);
      }
    }
    forall svc | svc in AfterApply(s, st).up && svc !in restarted ensures svc in t.up {
      assert svc !in ServiceSet(restarted);
    }
  }

  /** A file is captured exactly when it is on disk and the prior config renders it or the
      registry declares it; or, when the prior config cannot be planned, is a villa file. */
  lemma CapturedIff(h: Stack, prior: Config, planned: bool, captured: map<UnitName, Text>, disk: map<UnitName,
                    Text>, n: UnitName)
    requires planned ==> h.render(prior).Rendered?
    requires captured.Keys == CaptureNames(planned, StageIf(planned, h, prior), disk) * disk.Keys
    ensures n in captured <==>
      n in disk && if planned then n in Names(h.render(prior).units) || n in h.registry else IsVilla(n)
  {
    var st := StageIf(planned, h, prior);
    PlanMembers(PlanOf(st, disk), st.units, disk, st.registry);
    if planned && n in disk && n in h.registry && n !in Names(st.units) {
      assert Unit(n, disk[n]) in PlanOf(st, disk).removed;
    }
    assert n in captured <==> n in captured.Keys;
  }

  lemma RemovedIsCaptured(h: Stack, cfg: Config, planned: bool, captured: map<UnitName, Text>,
                          disk: map<UnitName, Text>)
    requires h.Wired() && (planned ==> h.render(cfg).Rendered?)
    requires captured.Keys == CaptureNames(planned, StageIf(planned, h, cfg), disk) * disk.Keys
    ensures forall n :: n in disk && n in h.registry ==> n in captured
  {
    forall n | n in disk && n in h.registry ensures n in captured {
      CapturedIff(h, cfg, planned, captured, disk, n);
    }
  }

  /** Whether the swap may write a file it would not be able to give back. */
  ghost predicate AllCaptured(changed: seq<Unit>, captured: map<UnitName, Text>) {
    forall u :: u in changed ==> u.name in captured
  }

  /** Every file the swap would write over is one its capture keeps: it is there, and the
      prior config renders it or the registry declares it; or, when the prior config could
      not be planned, it is a villa file. */
  ghost predicate Covered(h: Stack, prior: Config, next: Config, disk: map<UnitName, Text>, planned: bool) {
    Usable(h, next) ==> forall u :: u in h.render(Healed(next, h.newSecret)).units && !OnDisk(disk, u) ==>
      u.name in disk
      && if planned then h.render(prior).Rendered? && (u.name in Names(h.render(prior).units) || u.name in h.registry)
         else IsVilla(u.name)
  }

  /** What the swap writes is all captured exactly when the two renders and the directory
      say so beforehand. */
  lemma CoveredIffCaptured(h: Stack, prior: Config, next: Config, planned: bool, captured: map<UnitName, Text>,
                           disk: map<UnitName, Text>)
    requires (planned ==> h.render(prior).Rendered?) && Usable(h, next)
    requires captured.Keys == CaptureNames(planned, StageIf(planned, h, prior), disk) * disk.Keys
    ensures Covered(h, prior, next, disk, planned) <==> AllCaptured(PlanOf(StageOf(h, next), disk).changed, captured)
  {
    var p, units := PlanOf(StageOf(h, next), disk), h.render(Healed(next, h.newSecret)).units;
    PlanMembers(p, units, disk, h.registry);
    forall u | u in units && !OnDisk(disk, u)
      ensures u in p.changed
      ensures u.name in captured <==>
        u.name in disk
        && if planned then u.name in Names(h.render(prior).units) || u.name in h.registry else IsVilla(u.name) {
      CapturedIff(h, prior, planned, captured, disk, u.name);
    }
  }

  /** So a rollback gives the directory back if they do, and after a full apply only if. */
  lemma GivenBackIffCovered(h: Stack, prior: Config, next: Config, planned: bool, s: Snapshot, mid: Snapshot,
                            captured: map<UnitName, Text>, applied: Applied, reached: bool)
    requires h.Wired() && (planned ==> h.render(prior).Rendered?) && CapturedFrom(captured, s.disk)
    requires captured.Keys == CaptureNames(planned, StageIf(planned, h, prior), s.disk) * s.disk.Keys
    requires AgreeOff(s.disk, mid.disk, Names(applied.changed) + Names(applied.removed))
    requires forall n :: n in Names(applied.removed) ==> n in s.disk && n in h.registry
    requires if Usable(h, next) then
               applied.changed == [] || applied.changed == PlanOf(StageOf(h, next), s.disk).changed
             else applied == NOTHING
    requires reached ==> Usable(h, next) && applied.changed == PlanOf(StageOf(h, next), s.disk).changed
    requires reached ==> forall u :: u in applied.changed ==> !OnDisk(s.disk, u) && OnDisk(mid.disk, u)
    ensures Covered(h, prior, next, s.disk, planned) ==> mid.disk + captured == s.disk
    ensures reached && mid.disk + captured == s.disk ==> Covered(h, prior, next, s.disk, planned)
  {
    hide Stack.Wired, PlanOf, CaptureNames, Covered, AllCaptured, AgreeOff;
    RemovedIsCaptured(h, prior, planned, captured, s.disk);
    GivenBackDiskIff(s, mid, captured, applied, reached);
    if Usable(h, next) {
      CoveredIffCaptured(h, prior, next, planned, captured, s.disk);
    }
    NothingIsAllCaptured(captured);
  }

  lemma NothingIsAllCaptured(captured: map<UnitName, Text>)
    ensures AllCaptured([], captured)
  {
  }

  lemma GivenBackDiskIff(s: Snapshot, mid: Snapshot, captured: map<UnitName, Text>, applied: Applied, reached: bool)
    requires CapturedFrom(captured, s.disk)
    requires AgreeOff(s.disk, mid.disk, Names(applied.changed) + Names(applied.removed))
    requires forall n :: n in Names(applied.removed) ==> n in captured
    requires reached ==>
      forall u :: u in applied.changed ==> !OnDisk(s.disk, u) && u.name in mid.disk && OnDisk(mid.disk, u)
    ensures AllCaptured(applied.changed, captured) ==> mid.disk + captured == s.disk
    ensures reached && mid.disk + captured == s.disk ==> AllCaptured(applied.changed, captured)
  {
    RestoreGivesBackIff(s.disk, captured, mid.disk);
    if AllCaptured(applied.changed, captured) {
      forall n | n in Names(applied.changed) ensures n in captured {
      }
      AgreeOffMore(s.disk, mid.disk, Names(applied.changed) + Names(applied.removed), captured.Keys);
    }
  }

  /** Running again what ran before, plus the proven service if the cutover reached it. */
  lemma GivenBackServices(s: Snapshot, mid: Snapshot, t: Snapshot, captured: map<UnitName, Text>,
                          restarted: seq<Service>, natives: map<Service, Text>)
    requires AgreeOff(s.up, mid.up, ServiceSet(restarted)) && GivenBack(mid, t, captured, restarted, natives)
    requires forall svc :: svc in restarted ==> svc in s.up || svc == PROVEN
    ensures t.up.Keys == s.up.Keys + (if PROVEN in restarted then {PROVEN} else {})
    ensures Coherent(s, natives) && t.disk == s.disk ==>
      Coherent(t, natives) && forall svc :: svc in s.up ==> t.up[svc] == s.up[svc]
  {
    AgreeOffTwice(s.up, mid.up, t.up, ServiceSet(restarted), ServiceSet(restarted));
    forall svc ensures svc in t.up <==> svc in s.up || (svc == PROVEN && PROVEN in restarted) {
      assert svc in restarted <==> svc in ServiceSet(restarted);
    }
    if Coherent(s, natives) && t.disk == s.disk {
      forall svc | svc in t.up ensures RunsItsUnit(t, svc, natives) && (svc in s.up ==> t.up[svc] == s.up[svc]) {
        assert svc in restarted <==> svc in ServiceSet(restarted);
        if svc in s.up { assert RunsItsUnit(s, svc, natives); }
      }
    }
  }

  lemma ChangedAreNew(s: Snapshot, mid: map<UnitName, Text>, st: Stage, changed: seq<Unit>)
    requires Distinct(st.units) && changed == PlanOf(st, s.disk).changed && mid == AfterApply(s, st).disk
    ensures forall u :: u in changed ==> !OnDisk(s.disk, u) && OnDisk(mid, u)
    ensures Settled(mid, st.units, st.registry)
  {
    PlanMembers(PlanOf(st, s.disk), st.units, s.disk, st.registry);
    ApplyIsIdempotent(s, st);
  }

  lemma StageIsDistinct(h: Stack, cfg: Config)
    requires h.Wired() && Usable(h, cfg)
    ensures Distinct(StageOf(h, cfg).units)
  {
  }

  /** No call failed but one at most, in the cutover; none at all, if a failed proof or a
      config that cannot be brought up is what undid the swap. */
  ghost predicate OneFailure(h: Stack, next: Config, provePasses: bool, from: nat, to: nat) {
    if provePasses && ProvenStarts(h, next) then h.OneFault(from, to) else h.Smooth(from, to)
  }

  /** On a coherent host systemd can start again whatever the cutover stopped or restarted,
      once the captured files are back. */
  lemma RestartedCanStart(h: Stack, next: Config, s: Snapshot, mid: Snapshot, captured: map<UnitName, Text>,
                          applied: Applied, cutover: seq<Service>)
    requires h.Wired() && Coherent(s, h.natives) && h.loaded == mid.disk + captured
    requires s.disk.Keys - Names(applied.removed) <= mid.disk.Keys
    requires forall n :: n in Names(applied.removed) ==> n in captured
    requires forall svc :: svc in cutover ==> svc in s.up || svc == PROVEN
    requires forall svc :: svc in applied.stopped ==> svc in s.up
    requires cutover != [] ==> ProvenStarts(h, next) && Settled(mid.disk, StageOf(h, next).units, h.registry)
    ensures forall svc :: svc in applied.stopped + cutover ==> h.Startable(svc)
  {
    hide Stack.Wired;
    forall svc | svc in applied.stopped + cutover ensures h.Startable(svc) {
      if svc in s.up {
        assert RunsItsUnit(s, svc, h.natives);
      } else if svc !in h.natives {
        var u :| u in StageOf(h, next).units && u.name == Container(svc);
        assert OnDisk(mid.disk, u);
      }
    }
  }

  /** A rollback in which no call failed is complete, if the host was coherent. */
  lemma RolledBackCleanly(h: Stack, next: Config, provePasses: bool, s: Snapshot, mid: Snapshot,
                          captured: map<UnitName, Text>, applied: Applied, cutover: seq<Service>, complete: bool,
                          at: nat, begun: nat, done: nat, ok: bool)
    requires h.Wired() && at <= begun <= done <= h.calls && OneFailure(h, next, provePasses, at, h.calls)
    requires Coherent(s, h.natives) && (Usable(h, next) ==> ProvenStarts(h, next))
    requires ok ==> !provePasses
    requires h.Smooth(begun, done) && ProvenStarts(h, next) ==> ok
    requires h.Smooth(done, h.calls) ==> h.loaded == mid.disk + captured
    requires complete <==>
      h.Smooth(done, h.calls) && forall svc :: svc in applied.stopped + cutover ==> h.Startable(svc)
    requires s.disk.Keys - Names(applied.removed) <= mid.disk.Keys
    requires forall n :: n in Names(applied.removed) ==> n in captured
    requires forall svc :: svc in cutover ==> svc in s.up || svc == PROVEN
    requires forall svc :: svc in applied.stopped ==> svc in s.up
    requires cutover != [] ==> ProvenStarts(h, next) && Settled(mid.disk, StageOf(h, next).units, h.registry)
    ensures complete
  {
    hide Stack.Smooth, Stack.OneFault, Stack.Wired, ProvenStarts, Settled, Coherent;
    if provePasses && ProvenStarts(h, next) {
      FaultIsHere(h, at, begun, done, h.calls);
    } else {
      SmoothTwice(h, at, done, h.calls);
    }
    RestartedCanStart(h, next, s, mid, captured, applied, cutover);
  }

  /** Change, prove, and roll back what was captured unless the proof passes. `at` is where
      the transaction began. */
  method SwapOver(h: Stack, prior: Config, next: Config, units: map<UnitName, Text>, provePasses: bool, ghost at: nat)
    returns (o: Outcome, ghost applied: Applied, ghost cutover: seq<Service>)
    requires h.Wired() && h.config == prior && at <= h.calls && CapturedFrom(units, h.disk)
    requires var planned := Plannable(h, prior, at + 3);
      units.Keys == CaptureNames(planned, StageIf(planned, h, prior), h.disk) * h.disk.Keys
    modifies h`config, h`disk, h`loaded, h`up, h`calls, h`fired
    ensures old(h.calls) <= h.calls && (o.NoOp? || o.Switched? || o.RolledBack?)
    ensures o.NoOp? || o.Switched? ==> Reached(h, next)
    ensures o.NoOp? ==> applied.changed == [] && h.fired == old(h.fired)
    ensures o.Switched? ==> applied.changed != [] && provePasses && Synced(h.Snap()) && PROVEN in h.up
    ensures o.Switched? ==>
      h.fired == old(h.fired) + cutover && CoheresIffCycled(h, old(h.Snap()), h.Snap(), next, cutover)
    ensures o.Switched? && h.Smooth(old(h.calls), h.calls) && ProvenStarts(h, next) ==>
      EachCycled(h, old(h.Snap()), next, cutover)
    ensures o.RolledBack? ==>
      h.fired == old(h.fired) + cutover + applied.stopped + cutover
      && forall svc :: svc in applied.stopped ==> svc in old(h.up) && Unrendered(h, next, svc)
    ensures o.RolledBack? && o.complete ==> GivenBackAll(h, prior, old(h.Snap()), next, at, applied, cutover)
    ensures h.Smooth(old(h.calls), h.calls) ==> Followed(h, o, next, old(h.disk), provePasses)
    ensures o.RolledBack? && Coherent(old(h.Snap()), h.natives) && (Usable(h, next) ==> ProvenStarts(h, next)) ==>
      OneFailure(h, next, provePasses, at, h.calls) ==> o.complete
  {
    hide AgreeOff, Stack.Wired, Stack.Smooth, Stack.OneFault, Coherent, Settled, AfterApply, PlanOf,
         CaptureNames, GivenBack, CapturedFrom, Covered, EachCycled, OneFailure, ProvenStarts, GivenBackAll,
         CoheresIffCycled, Unrendered;
    ghost var s0, begun := h.Snap(), h.calls;
    var ok, restarted, did;
    ghost var cycled;
    ok, did, restarted, cycled := CutOver(h, next);
    applied, cutover := did, cycled;
    ghost var s1, done := h.Snap(), h.calls;
    if cutover != [] || ok {
      StageIsDistinct(h, next);
      ChangedAreNew(s0, h.disk, StageOf(h, next), did.changed);
    }
    if ok && did.changed == [] { return NoOp, applied, cutover; }
    if ok && provePasses { return Switched, applied, cutover; }
    var complete := RollBack(h, prior, units, restarted);
    SmoothTwice(h, begun, done, h.calls);
    RemovedIsCaptured(h, prior, Plannable(h, prior, at + 3), units, s0.disk);
    if complete {
      GivenBackInFull(h, prior, s0, next, at, did, cutover, s1, units);
    }
    if Coherent(s0, h.natives) && (Usable(h, next) ==> ProvenStarts(h, next))
       && OneFailure(h, next, provePasses, at, h.calls) {
      RolledBackCleanly(h, next, provePasses, s0, s1, units, did, cutover, complete, at, begun, done, ok);
    }
    o := RolledBack(complete);
  }

  /** The next config is the one on record, and the directory holds its render. */
  ghost predicate Reached(h: Stack, next: Config)
    reads h`config, h`disk
  {
    Usable(h, next) && h.config == Healed(next, h.newSecret) && Settled(h.disk, h.render(h.config).units, h.registry)
  }

  /** Lock, load, decide, capture, change, prove; switch only on a pass. Without a failed call
      a passing proof switches; with one, a coherent host is left or given back. */
  method Transact(h: Stack, decide: Config -> Decision, provePasses: bool)
    returns (o: Outcome, ghost applied: Applied, ghost cutover: seq<Service>)
    requires h.Wired()
    modifies h`config, h`disk, h`loaded, h`up, h`calls, h`fired
    ensures old(h.calls) <= h.calls
    ensures o.NotLocked? || o.NotLoaded? || o.Refused? ==> !h.Smooth(old(h.calls), h.calls)
    ensures o.Stopped? ==> decide(old(h.config)).Stop?
    ensures o.NotLocked? || o.NotLoaded? || o.Stopped? || o.Refused? ==>
      h.Snap() == old(h.Snap()) && h.config == old(h.config)
    ensures o.NoOp? || o.Switched? || o.RolledBack? ==> decide(old(h.config)).Target?
    ensures o.NoOp? || o.Switched? ==> Reached(h, decide(old(h.config)).next)
    ensures o.NoOp? ==> applied.changed == [] && h.fired == old(h.fired)
    // a switch
    ensures o.Switched? ==> applied.changed != [] && provePasses && Synced(h.Snap()) && PROVEN in h.up
    ensures o.Switched? ==>
      h.fired == old(h.fired) + cutover
      && CoheresIffCycled(h, old(h.Snap()), h.Snap(), decide(old(h.config)).next, cutover)
    ensures o.Switched? && h.Smooth(old(h.calls), h.calls) && ProvenStarts(h, decide(old(h.config)).next) ==>
      EachCycled(h, old(h.Snap()), decide(old(h.config)).next, cutover)
    // a rollback
    ensures o.RolledBack? ==>
      h.fired == old(h.fired) + cutover + applied.stopped + cutover
      && forall svc :: svc in applied.stopped ==> svc in old(h.up) && Unrendered(h, decide(old(h.config)).next, svc)
    ensures o.RolledBack? && o.complete ==>
      GivenBackAll(h, old(h.config), old(h.Snap()), decide(old(h.config)).next, old(h.calls), applied, cutover)
    // which one it is
    ensures h.Smooth(old(h.calls), h.calls) && decide(old(h.config)).Target? ==>
      Followed(h, o, decide(old(h.config)).next, old(h.disk), provePasses)
    ensures o.RolledBack? && Coherent(old(h.Snap()), h.natives) ==>
      var next := decide(old(h.config)).next;
      (Usable(h, next) ==> ProvenStarts(h, next)) ==>
      OneFailure(h, next, provePasses, old(h.calls), h.calls) ==> o.complete
  {
    hide Stack.Wired, Stack.Smooth, Stack.OneFault, Coherent, Settled, PlanOf, CaptureNames, CapturedFrom, EachCycled,
         OneFailure, ProvenStarts, GivenBackAll, CoheresIffCycled, Unrendered, Plannable, Reached, Followed;
    applied, cutover := NOTHING, [];
    ghost var at := h.calls;
    SmoothOnce(h, at);
    SmoothThenOne(h, at, at + 1);
    var ok := h.Ask();
    if !ok { return NotLocked, applied, cutover; }
    ok := h.Ask();
    if !ok { return NotLoaded, applied, cutover; }
    var prior := h.config;
    var decision := decide(prior);
    if decision.Stop? { return Stopped, applied, cutover; }
    var units;
    ok, units := CaptureUnits(h, prior);
    ghost var begun := h.calls;
    SmoothTwice(h, at, at + 2, begun);
    if !ok { return Outcome.Refused, applied, cutover; }
    o, applied, cutover := SwapOver(h, prior, decision.next, units, provePasses, at);
    SmoothTwice(h, at, begun, h.calls);
  }

  /** Where a swap without a failed call ends. */
  ghost predicate Followed(h: Stack, o: Outcome, next: Config, disk: map<UnitName, Text>, provePasses: bool) {
    if !Usable(h, next) then o.RolledBack?
    else if PlanOf(StageOf(h, next), disk).changed == [] then o.NoOp?
    else
      && (o.Switched? || o.RolledBack?) && (!provePasses ==> o.RolledBack?)
      && (provePasses && ProvenStarts(h, next) ==> o.Switched?)
  }

  /** What a rollback that reports complete has given back: config and services, and the
      directory if all that was written over was captured, and after a full apply only then.
      Whether the prior config could be planned is the answer to the call after the third. */
  ghost predicate GivenBackAll(h: Stack, prior: Config, s: Snapshot, next: Config, at: nat, applied: Applied,
                               cutover: seq<Service>)
    reads h`config, h`disk, h`loaded, h`up
  {
    var covered := Covered(h, prior, next, s.disk, Plannable(h, prior, at + 3));
    && h.config == prior && Synced(h.Snap())
    && (covered ==> h.disk == s.disk) && (cutover != [] && h.disk == s.disk ==> covered)
    && h.up.Keys == s.up.Keys + (if PROVEN in applied.stopped + cutover then {PROVEN} else {})
    && (Coherent(s, h.natives) && h.disk == s.disk ==>
          Coherent(h.Snap(), h.natives) && forall svc :: svc in s.up ==> h.up[svc] == s.up[svc])
  }

  lemma GivenBackInFull(h: Stack, prior: Config, s: Snapshot, next: Config, at: nat, applied: Applied,
                        cutover: seq<Service>, mid: Snapshot, captured: map<UnitName, Text>)
    requires h.Wired() && CapturedFrom(captured, s.disk)
    requires var planned := Plannable(h, prior, at + 3);
      captured.Keys == CaptureNames(planned, StageIf(planned, h, prior), s.disk) * s.disk.Keys
    requires AgreeOff(s.disk, mid.disk, Names(applied.changed) + Names(applied.removed))
    requires forall n :: n in Names(applied.removed) ==> n in s.disk && n in h.registry
    requires if Usable(h, next) then
               applied.changed == [] || applied.changed == PlanOf(StageOf(h, next), s.disk).changed
             else applied == NOTHING
    requires cutover != [] ==> Usable(h, next) && applied.changed == PlanOf(StageOf(h, next), s.disk).changed
    requires cutover != [] ==> forall u :: u in applied.changed ==> !OnDisk(s.disk, u) && OnDisk(mid.disk, u)
    requires AgreeOff(s.up, mid.up, ServiceSet(applied.stopped + cutover))
    requires forall svc :: svc in applied.stopped + cutover ==> svc in s.up || svc == PROVEN
    requires h.config == prior && GivenBack(mid, h.Snap(), captured, applied.stopped + cutover, h.natives)
    ensures GivenBackAll(h, prior, s, next, at, applied, cutover)
  {
    hide AgreeOff, Stack.Wired, Stack.Smooth, Coherent, PlanOf, CaptureNames, CapturedFrom, Covered, GivenBack;
    GivenBackIffCovered(h, prior, next, Plannable(h, prior, at + 3), s, mid, captured, applied, cutover != []);
    GivenBackServices(s, mid, h.Snap(), captured, applied.stopped + cutover, h.natives);
    GivenBackMeans(mid, h.Snap(), captured, applied.stopped + cutover, h.natives);
  }

  lemma GivenBackMeans(mid: Snapshot, t: Snapshot, captured: map<UnitName, Text>, restarted: seq<Service>,
                       natives: map<Service, Text>)
    requires GivenBack(mid, t, captured, restarted, natives)
    ensures t.disk == mid.disk + captured && Synced(t)
  {
  }
}
