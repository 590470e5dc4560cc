/** Turning a config into the unit files on disk: render, reconcile against the unit
    directory, stop what is no longer rendered, write, remove, reload. */
module StackApply {
  import opened StackHost

  datatype Plan = Plan(changed: seq<Unit>, same: seq<Unit>, removed: seq<Unit>)

  /** What one apply did to the host, reported even when a later step failed. */
  datatype Applied = Applied(changed: seq<Unit>, removed: seq<Unit>, stopped: seq<Service>)

  const NOTHING := Applied([], [], [])

  predicate Empty(a: Applied) {
    a.changed == [] && a.removed == []
  }

  predicate OnDisk(disk: map<UnitName, Text>, u: Unit) {
    u.name in disk && disk[u.name] == u.text
  }

  /** The rendered units whose file is absent or reads differently, in render order. */
  function Differing(units: seq<Unit>, disk: map<UnitName, Text>, differ: bool): seq<Unit> {
    if units == [] then []
    else
      var rest, u := Differing(units[..|units| - 1], disk, differ), units[|units| - 1];
      if OnDisk(disk, u) != differ then rest + [u] else rest
  }

  /** The registry's files on disk that the render does not name. */
  function Orphans(names: seq<UnitName>, rendered: set<UnitName>, disk: map<UnitName, Text>): seq<Unit> {
    if names == [] then []
    else
      var rest, n := Orphans(names[..|names| - 1], rendered, disk), names[|names| - 1];
      if n !in rendered && n in disk then rest + [Unit(n, disk[n])] else rest
  }

  lemma {:induction false} DifferingMembers(units: seq<Unit>, disk: map<UnitName, Text>, differ: bool)
    ensures forall u :: u in Differing(units, disk, differ) <==> u in units && OnDisk(disk, u) != differ
    decreases |units|
  {
    if units == [] {
    } else {
      DifferingMembers(units[..|units| - 1], disk, differ);
      assert units == units[..|units| - 1] + [units[|units| - 1]];
    }
  }

  lemma {:induction false} OrphanMembers(names: seq<UnitName>, rendered: set<UnitName>, disk: map<UnitName, Text>)
    ensures forall u :: u in Orphans(names, rendered, disk) <==>
      u.name in names && u.name !in rendered && OnDisk(disk, u)
    decreases |names|
  {
    if names == [] {
    } else {
      OrphanMembers(names[..|names| - 1], rendered, disk);
      assert names == names[..|names| - 1] + [names[|names| - 1]];
    }
  }

  /** What a plan holds: of the rendered files those that differ and those that do not, and
      of the registry's files those on disk that are not rendered. */
  lemma PlanMembers(p: Plan, units: seq<Unit>, disk: map<UnitName, Text>, registry: seq<UnitName>)
    requires IsPlan(p, units, disk, registry)
    ensures forall u :: u in p.changed <==> u in units && !OnDisk(disk, u)
    ensures forall u :: u in p.same <==> u in units && OnDisk(disk, u)
    ensures forall u :: u in p.removed <==> u.name in registry && u.name !in Names(units) && OnDisk(disk, u)
  {
    DifferingMembers(units, disk, true);
    DifferingMembers(units, disk, false);
    OrphanMembers(registry, Names(units), disk);
  }

  ghost predicate IsPlan(p: Plan, units: seq<Unit>, disk: map<UnitName, Text>, registry: seq<UnitName>) {
    && p.changed == Differing(units, disk, true)
    && p.same == Differing(units, disk, false)
    && p.removed == Orphans(registry, Names(units), disk)
  }

  function Written(disk: map<UnitName, Text>, units: seq<Unit>): map<UnitName, Text> {
    if units == [] then disk
    else
      var front, u := units[..|units| - 1], units[|units| - 1];
      Written(disk, front)[u.name := u.text]
  }

  lemma {:induction false} WrittenFrame(disk: map<UnitName, Text>, units: seq<Unit>)
    ensures Written(disk, units).Keys == disk.Keys + Names(units)
    ensures AgreeOff(disk, Written(disk, units), Names(units))
    decreases |units|
  {
    if units == [] {
    } else {
      WrittenFrame(disk, units[..|units| - 1]);
      assert units == units[..|units| - 1] + [units[|units| - 1]];
    }
  }

  /** The unit directory once a plan has been carried out. */
  function After(disk: map<UnitName, Text>, p: Plan): map<UnitName, Text> {
    Written(disk, p.changed) - Names(p.removed)
  }

  /** The directory holds exactly this render, as far as villa may touch it. */
  ghost predicate Settled(disk: map<UnitName, Text>, units: seq<Unit>, registry: seq<UnitName>) {
    && (forall u :: u in units ==> OnDisk(disk, u))
    && (forall n :: n in registry && n !in Names(units) ==> n !in disk)
  }

  lemma {:induction false} WrittenHolds(disk: map<UnitName, Text>, units: seq<Unit>, u: Unit)
    requires u in units && forall v :: v in units && v.name == u.name ==> v == u
    ensures OnDisk(Written(disk, units), u)
    decreases |units|
  {
    var front, last := units[..|units| - 1], units[|units| - 1];
    assert units == front + [last];
    if last == u {
    } else {
      WrittenHolds(disk, front, u);
    }
  }

  lemma OneUnitEach(units: seq<Unit>, u: Unit, v: Unit)
    requires Distinct(units) && u in units && v in units && u.name == v.name
    ensures u == v
  {
    var i :| 0 <= i < |units| && units[i] == u;
    var j :| 0 <= j < |units| && units[j] == v;
    assert !(i < j) && !(j < i);
  }

  /** Carrying out a plan settles the directory on the render and touches nothing that is
      neither rendered nor declared by the registry. */
  lemma ApplySettles(p: Plan, units: seq<Unit>, disk: map<UnitName, Text>, registry: seq<UnitName>)
    requires Distinct(units) && IsPlan(p, units, disk, registry)
    ensures Settled(After(disk, p), units, registry)
    ensures AgreeOff(disk, After(disk, p), Names(p.changed) + Names(p.removed))
    ensures forall n :: n in Names(p.removed) ==> n in registry && n !in Names(units)
    ensures forall n :: n in Names(p.changed) ==> n in Names(units)
  {
    var after := After(disk, p);
    PlanMembers(p, units, disk, registry);
    WrittenFrame(disk, p.changed);
    forall u | u in units ensures OnDisk(after, u) {
      forall v | v in p.changed && v.name == u.name ensures v == u { OneUnitEach(units, u, v); }
      if u in p.changed {
        WrittenHolds(disk, p.changed, u);
      }
      assert u.name in Names(units);
    }
    forall n | n in registry && n !in Names(units) ensures n !in after {
      if n in disk { assert Unit(n, disk[n]) in p.removed; }
    }
  }

  /** A second look finds nothing to do exactly when the directory is settled. */
  lemma EmptyIffSettled(p: Plan, units: seq<Unit>, disk: map<UnitName, Text>, registry: seq<UnitName>)
    requires IsPlan(p, units, disk, registry)
    ensures p.changed == [] && p.removed == [] <==> Settled(disk, units, registry)
    ensures p.changed == [] && p.removed == [] ==> After(disk, p) == disk
  {
    PlanMembers(p, units, disk, registry);
    EmptyHasNoMember(p.changed);
    EmptyHasNoMember(p.removed);
    assert Settled(disk, units, registry) <==> (forall u :: u !in p.changed) && (forall u :: u !in p.removed) by {
      forall n | n in disk && n in registry && n !in Names(units) ensures Unit(n, disk[n]) in p.removed {
      }
    }
  }

  lemma EmptyHasNoMember(units: seq<Unit>)
    ensures units == [] <==> forall u :: u !in units
  {
    if units != [] { assert units[0] in units; }
  }

  // ------------------------------------------------------------------
  // Reconcile
  // ------------------------------------------------------------------

  /** How many of these files are not rendered: the ones reconciling looks for. */
  function Strays(names: seq<UnitName>, rendered: set<UnitName>): nat {
    if names == [] then 0
    else Strays(names[..|names| - 1], rendered) + (if names[|names| - 1] in rendered then 0 else 1)
  }

  lemma {:induction false} StraysGrow(names: seq<UnitName>, rendered: set<UnitName>, i: nat)
    requires i <= |names|
    ensures Strays(names[..i], rendered) <= Strays(names, rendered)
    decreases |names|
  {
    if i == |names| {
      assert names[..i] == names;
    } else {
      StraysGrow(names[..|names| - 1], rendered, i);
      assert names[..|names| - 1][..i] == names[..i];
    }
  }

  function ReadsToPlan(h: Stack, units: seq<Unit>): nat {
    Strays(h.registry, Names(units)) + |units|
  }

  /** A plan for this config, made from this call on, succeeds. */
  ghost predicate Plannable(h: Stack, cfg: Config, at: nat) {
    h.render(cfg).Rendered? && h.Smooth(at, at + 1 + ReadsToPlan(h, h.render(cfg).units))
  }

  method FindOrphans(h: Stack, units: seq<Unit>) returns (ok: bool, orphans: seq<Unit>)
    modifies h`calls
    ensures old(h.calls) <= h.calls && (ok <==> h.Smooth(old(h.calls), h.calls))
    ensures ok ==> h.calls == old(h.calls) + Strays(h.registry, Names(units))
    ensures h.calls <= old(h.calls) + Strays(h.registry, Names(units))
    ensures ok ==> orphans == Orphans(h.registry, Names(units), h.disk)
  {
    ok, orphans := true, [];
    var rendered: set<UnitName> := {};
    for i := 0 to |units|
      invariant rendered == Names(units[..i]) && h.calls == old(h.calls)
    {
      NamesSnoc(units, i);
      rendered := rendered + {units[i].name};
    }
    assert units[..|units|] == units;
    assert h.registry[..0] == [];
    for i := 0 to |h.registry|
      invariant ok && orphans == Orphans(h.registry[..i], rendered, h.disk)
      invariant h.calls == old(h.calls) + Strays(h.registry[..i], rendered) && h.Smooth(old(h.calls), h.calls)
    {
      StraysGrow(h.registry, rendered, i + 1);
      var name := h.registry[i];
      assert h.registry[..i+1][..i] == h.registry[..i];
      if name in rendered {
        continue;
      }
      var present, text;
      ok, present, text := h.ReadUnit(name);
      if !ok { return; }
      if present {
        orphans := orphans + [Unit(name, text)];
      }
    }
    assert h.registry[..|h.registry|] == h.registry;
  }

  method Reconcile(h: Stack, units: seq<Unit>) returns (ok: bool, p: Plan)
    modifies h`calls
    ensures old(h.calls) <= h.calls && (ok <==> h.Smooth(old(h.calls), h.calls))
    ensures ok ==> h.calls == old(h.calls) + ReadsToPlan(h, units)
    ensures h.calls <= old(h.calls) + ReadsToPlan(h, units)
    ensures ok ==> IsPlan(p, units, h.disk, h.registry)
  {
    p := Plan([], [], []);
    var removed;
    ok, removed := FindOrphans(h, units);
    if !ok { return; }
    var changed, same: seq<Unit> := [], [];
    for i := 0 to |units|
      invariant ok && h.calls == old(h.calls) + Strays(h.registry, Names(units)) + i
      invariant h.Smooth(old(h.calls), h.calls)
      invariant changed == Differing(units[..i], h.disk, true) && same == Differing(units[..i], h.disk, false)
    {
      assert units[..i+1][..i] == units[..i];
      var present, text;
      ok, present, text := h.ReadUnit(units[i].name);
      if !ok { return; }
      if present && text == units[i].text {
        same := same + [units[i]];
      } else {
        changed := changed + [units[i]];
      }
    }
    assert units[..|units|] == units;
    p := Plan(changed, same, removed);
  }

  /** Renders and reconciles, writing nothing. */
  method MakePlan(h: Stack, cfg: Config) returns (ok: bool, p: Plan)
    modifies h`calls
    ensures old(h.calls) <= h.calls && (ok <==> Plannable(h, cfg, old(h.calls)))
    ensures ok <==> h.render(cfg).Rendered? && h.Smooth(old(h.calls), h.calls)
    ensures ok ==> h.render(cfg).Rendered? && IsPlan(p, h.render(cfg).units, h.disk, h.registry)
  {
    var rendered := h.render(cfg);
    p := Plan([], [], []);
    if rendered.NotRendered? { return false, p; }
    ok := h.Ask();
    if !ok { return; }
    ok, p := Reconcile(h, rendered.units);
  }

  // ------------------------------------------------------------------
  // Apply
  // ------------------------------------------------------------------

  function ServiceSet(s: seq<Service>): set<Service> {
    set x | x in s
  }

  lemma ServiceSnoc(s: seq<Service>, i: nat)
    requires i < |s|
    ensures ServiceSet(s[..i+1]) == ServiceSet(s[..i]) + {s[i]}
  {
    assert s[..i+1] == s[..i] + [s[i]];
  }

  lemma ServiceSetOfBoth(a: seq<Service>, b: seq<Service>)
    ensures ServiceSet(a + b) == ServiceSet(a) + ServiceSet(b)
  {
  }

  function Filenames(units: seq<Unit>): seq<UnitName> {
    if units == [] then []
    else Filenames(units[..|units| - 1]) + [units[|units| - 1].name]
  }

  lemma {:induction false} FilenamesAre(units: seq<Unit>)
    ensures forall n :: n in Filenames(units) <==> n in Names(units)
    ensures Filenames(units) == [] <==> units == []
    decreases |units|
  {
    if units == [] {
    } else {
      var front, u := units[..|units| - 1], units[|units| - 1];
      assert units == front + [u];
      FilenamesAre(front);
      assert Names(units) == Names(front) + {u.name};
    }
  }

  /** The services among the removed units that are up. */
  ghost predicate AreTheRunning(svcs: seq<Service>, removed: seq<Unit>, up: map<Service, Text>) {
    forall svc :: svc in svcs <==> Container(svc) in Names(removed) && svc in up
  }

  method RunningRemoved(h: Stack, removed: seq<Unit>) returns (ok: bool, running: seq<Service>)
    modifies h`calls
    ensures old(h.calls) <= h.calls && (ok <==> h.Smooth(old(h.calls), h.calls))
    ensures ok ==> AreTheRunning(running, removed, h.up)
  {
    ok, running := true, [];
    for i := 0 to |removed|
      invariant ok && AreTheRunning(running, removed[..i], h.up)
      invariant old(h.calls) <= h.calls && h.Smooth(old(h.calls), h.calls)
    {
      NamesSnoc(removed, i);
      if removed[i].name.Container? {
        var svc := removed[i].name.service;
        var word := h.IsActive(svc);
        if word.Unreadable? { return false, running; }
        if IsUp(word) {
          running := running + [svc];
        }
      }
    }
    assert removed[..|removed|] == removed;
  }

  method StopAll(h: Stack, svcs: seq<Service>) returns (ok: bool, stopped: seq<Service>)
    modifies h`up, h`calls
    ensures old(h.calls) <= h.calls && (ok <==> h.Smooth(old(h.calls), h.calls))
    ensures stopped <= svcs && (ok ==> stopped == svcs && h.up == old(h.up) - ServiceSet(svcs))
    ensures AgreeOff(old(h.up), h.up, ServiceSet(stopped))
    ensures h.up.Keys <= old(h.up.Keys) && forall svc :: svc in h.up ==> h.up[svc] == old(h.up)[svc]
  {
    ok, stopped := true, [];
    assert ServiceSet(svcs[..0]) == {};
    for i := 0 to |svcs|
      invariant ok && stopped == svcs[..i] && h.up == old(h.up) - ServiceSet(svcs[..i])
      invariant old(h.calls) <= h.calls && h.Smooth(old(h.calls), h.calls)
    {
      ServiceSnoc(svcs, i);
      stopped := stopped + [svcs[i]];
      ok := h.Stop(svcs[i]);
      if !ok { return; }
    }
    assert svcs[..|svcs|] == svcs;
  }

  method WriteUnits(h: Stack, units: seq<Unit>) returns (ok: bool)
    modifies h`disk, h`calls
    ensures old(h.calls) <= h.calls && (ok <==> h.Smooth(old(h.calls), h.calls))
    ensures ok ==> h.disk == Written(old(h.disk), units)
    ensures AgreeOff(old(h.disk), h.disk, Names(units)) && old(h.disk).Keys <= h.disk.Keys
  {
    ok := true;
    assert Names(units[..0]) == {};
    for i := 0 to |units|
      invariant ok && h.disk == Written(old(h.disk), units[..i])
      invariant old(h.calls) <= h.calls && h.Smooth(old(h.calls), h.calls)
    {
      NamesSnoc(units, i);
      assert units[..i+1][..i] == units[..i];
      WrittenFrame(old(h.disk), units[..i]);
      ok := h.WriteUnit(units[i].name, units[i].text);
      if !ok { return; }
    }
    assert units[..|units|] == units;
    WrittenFrame(old(h.disk), units);
  }

  /** Every file that is there, off some, was there before and reads the same. */
  ghost predicate NothingNew(disk: map<UnitName, Text>, disk': map<UnitName, Text>, off: set<UnitName>) {
    forall n :: n in disk' && n !in off ==> n in disk && disk'[n] == disk[n]
  }

  method RemoveUnits(h: Stack, units: seq<Unit>) returns (ok: bool)
    modifies h`disk, h`calls
    ensures old(h.calls) <= h.calls && (ok <==> h.Smooth(old(h.calls), h.calls))
    ensures ok ==> h.disk == old(h.disk) - Names(units)
    ensures AgreeOff(old(h.disk), h.disk, Names(units)) && NothingNew(old(h.disk), h.disk, {})
  {
    ok := true;
    assert Names(units[..0]) == {};
    for i := 0 to |units|
      invariant ok && h.disk == old(h.disk) - Names(units[..i])
      invariant old(h.calls) <= h.calls && h.Smooth(old(h.calls), h.calls)
    {
      NamesSnoc(units, i);
      ok := h.RemoveUnit(units[i].name);
      if !ok { return; }
    }
    assert units[..|units|] == units;
  }

  /** What the report names covers everything the apply touched. */
  ghost predicate ReportCovers(a: Applied, disk: map<UnitName, Text>, disk': map<UnitName, Text>,
                               up: map<Service, Text>, up': map<Service, Text>) {
    && AgreeOff(disk, disk', Names(a.changed) + Names(a.removed))
    && AgreeOff(up, up', ServiceSet(a.stopped))
    && up'.Keys <= up.Keys && forall svc :: svc in up' ==> up'[svc] == up[svc]
  }

  /** A report never names more than the plan does. */
  ghost predicate Within(a: Applied, p: Plan) {
    && (a.changed == [] || a.changed == p.changed) && (a.removed == [] || a.removed == p.removed)
    && forall svc :: svc in a.stopped ==> Container(svc) in Names(p.removed)
  }

  ghost predicate Complete(a: Applied, p: Plan, up: map<Service, Text>) {
    a.changed == p.changed && a.removed == p.removed && AreTheRunning(a.stopped, p.removed, up)
  }

  /** Carries a plan out: stop, write, remove, reload once. */
  method CarryOut(h: Stack, p: Plan) returns (ok: bool, applied: Applied)
    modifies h`disk, h`loaded, h`up, h`calls
    ensures old(h.calls) <= h.calls && (ok <==> h.Smooth(old(h.calls), h.calls))
    ensures ReportCovers(applied, old(h.disk), h.disk, old(h.up), h.up) && Within(applied, p)
    ensures forall svc :: svc in applied.stopped ==> svc in old(h.up)
    ensures ok ==> Complete(applied, p, old(h.up)) && h.disk == After(old(h.disk), p)
    ensures ok ==> h.up == old(h.up) - ServiceSet(applied.stopped)
    ensures ok ==> h.loaded == if Empty(applied) then old(h.loaded) else h.disk
    ensures p.changed == [] && p.removed == [] ==> ok && applied == NOTHING && h.loaded == old(h.loaded)
    ensures h.loaded == old(h.loaded) || h.loaded == h.disk
    ensures Empty(applied) || forall svc :: Container(svc) in Names(p.removed) ==> svc !in h.up
    ensures NothingNew(old(h.disk), h.disk, Names(applied.changed))
    ensures old(h.disk).Keys - Names(applied.removed) <= h.disk.Keys
  {
    hide Stack.Smooth;
    ghost var at := h.calls;
    SmoothOnce(h, at);
    ok, applied := true, NOTHING;
    if p.changed == [] && p.removed == [] { return; }
    ok := h.Ask();
    if !ok { return; }
    var toStop, stopped;
    ghost var mid := h.calls;
    ok, toStop := RunningRemoved(h, p.removed);
    SmoothTwice(h, at, mid, h.calls);
    if !ok { return; }
    mid := h.calls;
    ok, stopped := StopAll(h, toStop);
    SmoothTwice(h, at, mid, h.calls);
    applied := applied.(stopped := stopped);
    if !ok { return; }
    if p.changed != [] {
      applied := applied.(changed := p.changed);
      mid := h.calls;
      ok := WriteUnits(h, p.changed);
      SmoothTwice(h, at, mid, h.calls);
      if !ok { return; }
    }
    ghost var written := h.disk;
    if p.removed != [] {
      applied := applied.(removed := p.removed);
      mid := h.calls;
      ok := RemoveUnits(h, p.removed);
      SmoothTwice(h, at, mid, h.calls);
      AgreeOffTwice(old(h.disk), written, h.disk, Names(applied.changed), Names(applied.removed));
      if !ok { return; }
    }
    SmoothThenOne(h, at, h.calls);
    ok := h.DaemonReload();
  }

  /** The config an apply renders: the target with a key of its own. */
  function Healed(cfg: Config, newSecret: string): Config {
    if cfg.secret == "" then cfg.(secret := newSecret) else cfg
  }

  /** Makes the unit files match a config. */
  method Apply(h: Stack, cfg: Config) returns (ok: bool, applied: Applied, ghost p: Plan)
    requires h.Wired()
    modifies h`config, h`disk, h`loaded, h`up, h`calls
    ensures old(h.calls) <= h.calls
    ensures ok <==> h.render(Healed(cfg, h.newSecret)).Rendered? && h.Smooth(old(h.calls), h.calls)
    ensures ReportCovers(applied, old(h.disk), h.disk, old(h.up), h.up) && Within(applied, p)
    ensures forall svc :: svc in applied.stopped ==> svc in old(h.up)
    ensures h.config == old(h.config) || (cfg.secret == "" && h.config == Healed(cfg, h.newSecret))
    ensures ok && cfg.secret == "" ==> h.config == Healed(cfg, h.newSecret)
    ensures var rendered := h.render(Healed(cfg, h.newSecret));
      if rendered.Rendered? then IsPlan(p, rendered.units, old(h.disk), h.registry) else !ok && applied == NOTHING
    ensures ok ==> Complete(applied, p, old(h.up)) && h.disk == After(old(h.disk), p)
    ensures ok ==> h.up == old(h.up) - ServiceSet(applied.stopped)
    ensures ok ==> h.loaded == if Empty(applied) then old(h.loaded) else h.disk
    ensures h.loaded == old(h.loaded) || h.loaded == h.disk
    ensures p.changed == [] && p.removed == [] ==> h.loaded == old(h.loaded)
    ensures Empty(applied) || forall svc :: Container(svc) in Names(p.removed) ==> svc !in h.up
    ensures NothingNew(old(h.disk), h.disk, Names(applied.changed))
    ensures old(h.disk).Keys - Names(applied.removed) <= h.disk.Keys
  {
    hide Stack.Smooth, Plannable;
    ghost var at := h.calls;
    SmoothOnce(h, at);
    applied := NOTHING;
    var healed := Healed(cfg, h.newSecret);
    var rendered := h.render(healed);
    p := if rendered.Rendered? then
           Plan(Differing(rendered.units, h.disk, true), Differing(rendered.units, h.disk, false),
                Orphans(h.registry, Names(rendered.units), h.disk))
         else Plan([], [], []);
    ok := true;
    if cfg.secret == "" {
      ok := h.SaveConfig(healed);
      if !ok { return; }
    }
    SmoothThenOne(h, at, h.calls);
    ok := h.Ask();
    if !ok { return; }
    SmoothThenOne(h, at, h.calls);
    ok := h.Ask();
    if !ok { return; }
    var plan;
    ghost var mid := h.calls;
    ok, plan := MakePlan(h, healed);
    SmoothTwice(h, at, mid, h.calls);
    if !ok { return; }
    mid := h.calls;
    ok, applied := CarryOut(h, plan);
    SmoothTwice(h, at, mid, h.calls);
  }
}
