/** The transaction `villa model resident add` and `rm` share: capture, persist, stop and
    remove the orphan, apply, start, and roll back on any failure. */
module ResidentChange {
  import opened Options
  import opened StackHost
  import opened StackApply
  import opened Lifecycle

  const LLAMA: Service := "villa-llama"
  const OPENWEBUI: Service := "villa-openwebui"

  /** The config to reach, the service to start for it, the service to retire for it. */
  datatype Change = Change(next: Config, start: Option<Service>, orphan: Option<Service>)

  datatype Prior = Prior(config: Config, units: map<UnitName, Text>, running: set<Service>)

  /** What was done so far, recorded so that exactly this can be undone. */
  datatype Mutations = Mutations(started: seq<Service>, wrote: seq<UnitName>)

  datatype Outcome = Changed | Unready | SaveFailed | RolledBack(complete: bool)

  function NameSet(names: seq<UnitName>): set<UnitName> {
    set n | n in names
  }

  // ------------------------------------------------------------------
  // Capture
  // ------------------------------------------------------------------

  /** Every file the change may write or remove. */
  function Touchable(p: Plan, ch: Change): set<UnitName> {
    Names(p.changed) + Names(p.same) + Names(p.removed) + (if ch.orphan.Some? then {Container(ch.orphan.value)} else {})
  }

  predicate Affected(svc: Service, p: Plan, ch: Change) {
    svc == LLAMA || svc == OPENWEBUI || Container(svc) in Touchable(p, ch)
  }

  /** The capture is the host as it was, as far as the change may reach. */
  ghost predicate FaithfulUnits(prior: Prior, names: set<UnitName>, disk: map<UnitName, Text>) {
    forall n :: n in names ==> (n in prior.units <==> n in disk) && (n in disk ==> prior.units[n] == disk[n])
  }

  method CaptureUnits(h: Stack, names: seq<UnitName>) returns (units: map<UnitName, Text>)
    modifies h`calls
    ensures old(h.calls) <= h.calls
    ensures forall n :: n in units ==> n in names && n in h.disk && units[n] == h.disk[n]
    ensures h.Smooth(old(h.calls), h.calls) ==> forall n :: n in names && n in h.disk ==> n in units
  {
    units := map[];
    for i := 0 to |names|
      invariant old(h.calls) <= h.calls
      invariant forall n :: n in units ==> n in names && n in h.disk && units[n] == h.disk[n]
      invariant h.Smooth(old(h.calls), h.calls) ==> forall j :: 0 <= j < i && names[j] in h.disk ==> names[j] in units
    {
      SmoothThenOne(h, old(h.calls), h.calls);
      var ok, present, text := h.ReadUnit(names[i]);
      if ok && present {
        units := units[names[i] := text];
      }
    }
  }

  /** Only a service that is plainly active counts as running. */
  method CaptureRunning(h: Stack, services: seq<Service>) returns (running: set<Service>)
    modifies h`calls
    ensures old(h.calls) <= h.calls
    ensures forall svc :: svc in running ==> svc in services && svc in h.up && svc !in h.warming
    ensures h.Smooth(old(h.calls), h.calls) ==>
      forall svc :: svc in services && svc in h.up && svc !in h.warming ==> svc in running
  {
    running := {};
    for i := 0 to |services|
      invariant old(h.calls) <= h.calls
      invariant forall svc :: svc in running ==> svc in services && svc in h.up && svc !in h.warming
      invariant h.Smooth(old(h.calls), h.calls) ==>
        forall j :: 0 <= j < i && services[j] in h.up && services[j] !in h.warming ==> services[j] in running
    {
      SmoothThenOne(h, old(h.calls), h.calls);
      var word := h.IsActive(services[i]);
      if word.Active? {
        running := running + {services[i]};
      }
    }
  }

  function ServicesOf(names: seq<UnitName>): (svcs: seq<Service>)
    ensures forall svc :: svc in svcs <==> Container(svc) in names
  {
    if names == [] then []
    else
      var front, n := names[..|names| - 1], names[|names| - 1];
      assert names == front + [n];
      if n.Container? then ServicesOf(front) + [n.service] else ServicesOf(front)
  }

  /** A file that cannot be read counts as absent, a service whose state cannot be read as
      down; without a failed call the capture is the host as it was. */
  method CapturePrior(h: Stack, p: Plan, ch: Change) returns (prior: Prior)
    modifies h`calls
    ensures old(h.calls) <= h.calls && prior.config == h.config
    ensures forall svc :: svc in prior.running ==> svc in h.up && svc !in h.warming
    ensures h.Smooth(old(h.calls), h.calls) ==> FaithfulUnits(prior, Touchable(p, ch), h.disk)
    ensures h.Smooth(old(h.calls), h.calls) ==>
      forall svc :: Affected(svc, p, ch) && svc in h.up && svc !in h.warming ==> svc in prior.running
  {
    var names := Filenames(p.changed) + Filenames(p.same) + Filenames(p.removed);
    if ch.orphan.Some? {
      names := names + [Container(ch.orphan.value)];
    }
    FilenamesAre(p.changed);
    FilenamesAre(p.same);
    FilenamesAre(p.removed);
    assert forall n :: n in names <==> n in NameSet(names);
    assert NameSet(names) == Touchable(p, ch);
    var units := CaptureUnits(h, names);
    ghost var mid := h.calls;
    var running := CaptureRunning(h, [LLAMA, OPENWEBUI] + ServicesOf(names));
    SmoothTwice(h, old(h.calls), mid, h.calls);
    prior := Prior(h.config, units, running);
    assert forall n :: n in names <==> n in Touchable(p, ch);
  }

  // ------------------------------------------------------------------
  // Rollback
  // ------------------------------------------------------------------

  method StopStarted(h: Stack, prior: Prior, started: seq<Service>) returns (ok: bool)
    modifies h`up, h`calls
    ensures old(h.calls) <= h.calls && (ok <==> h.Smooth(old(h.calls), h.calls))
    ensures AgreeOff(old(h.up), h.up, ServiceSet(started))
    ensures ok ==> forall svc :: svc in started && svc !in prior.running ==> svc !in h.up
  {
    ok := true;
    for i := |started| downto 0
      invariant old(h.calls) <= h.calls && (ok <==> h.Smooth(old(h.calls), h.calls))
      invariant AgreeOff(old(h.up), h.up, ServiceSet(started))
      invariant ok ==> forall j :: i <= j < |started| && started[j] !in prior.running ==> started[j] !in h.up
    {
      if started[i] !in prior.running {
        SmoothThenOne(h, old(h.calls), h.calls);
        var stopped := h.Stop(started[i]);
        ok := ok && stopped;
      }
    }
  }

  method RestoreUnits(h: Stack, prior: Prior, wrote: seq<UnitName>) returns (ok: bool, touched: bool)
    modifies h`disk, h`calls
    ensures old(h.calls) <= h.calls && (ok <==> h.Smooth(old(h.calls), h.calls))
    ensures AgreeOff(old(h.disk), h.disk, NameSet(wrote))
    ensures ok ==> FaithfulUnits(prior, NameSet(wrote), h.disk)
    ensures ok ==> touched == (wrote != [])
    ensures !touched && ok ==> h.disk == old(h.disk)
  {
    ok, touched := true, false;
    for i := 0 to |wrote|
      invariant old(h.calls) <= h.calls && (ok <==> h.Smooth(old(h.calls), h.calls))
      invariant AgreeOff(old(h.disk), h.disk, NameSet(wrote))
      invariant ok ==> FaithfulUnits(prior, NameSet(wrote[..i]), h.disk)
      invariant ok ==> touched == (i > 0)
      invariant i == 0 ==> h.disk == old(h.disk)
    {
      assert wrote[..i+1] == wrote[..i] + [wrote[i]];
      SmoothThenOne(h, old(h.calls), h.calls);
      var n, done := wrote[i], true;
      if n in prior.units {
        done := h.WriteUnit(n, prior.units[n]);
      } else {
        done := h.RemoveUnit(n);
      }
      ok, touched := ok && done, touched || done;
    }
    assert wrote[..|wrote|] == wrote;
  }

  method RestartRunning(h: Stack, prior: Prior, started: seq<Service>) returns (ok: bool)
    modifies h`up, h`calls, h`fired
    ensures old(h.calls) <= h.calls
    ensures ok <==>
      h.Smooth(old(h.calls), h.calls) && forall svc :: svc in started && svc in prior.running ==> h.Startable(svc)
    ensures AgreeOff(old(h.up), h.up, ServiceSet(started) * prior.running)
    ensures ok ==> forall svc :: svc in started && svc in prior.running ==>
              svc in h.up && h.up[svc] == Definition(svc, h.loaded, h.natives)
  {
    ok := true;
    for i := 0 to |started|
      invariant old(h.calls) <= h.calls
      invariant ok <==> h.Smooth(old(h.calls), h.calls)
                        && forall j :: 0 <= j < i && started[j] in prior.running ==> h.Startable(started[j])
      invariant AgreeOff(old(h.up), h.up, ServiceSet(started) * prior.running)
      invariant ok ==> forall j :: 0 <= j < i && started[j] in prior.running ==>
        started[j] in h.up && h.up[started[j]] == Definition(started[j], h.loaded, h.natives)
    {
      if started[i] in prior.running {
        SmoothThenOne(h, old(h.calls), h.calls);
        var done := h.Restart(started[i]);
        ok := ok && done;
      }
    }
  }

  /** Undoes what was recorded, carrying on past a failed step and reporting it. It reports
      complete exactly when no call failed and systemd knows what it is to start again. */
  method Rollback(h: Stack, prior: Prior, m: Mutations) returns (complete: bool)
    modifies h`config, h`disk, h`loaded, h`up, h`calls, h`fired
    ensures AgreeOff(old(h.disk), h.disk, NameSet(m.wrote)) && AgreeOff(old(h.up), h.up, ServiceSet(m.started))
    ensures h.config == prior.config || h.config == old(h.config)
    ensures complete ==> h.config == prior.config
    ensures h.Smooth(old(h.calls), h.calls) ==> FaithfulUnits(prior, NameSet(m.wrote), h.disk)
    ensures h.Smooth(old(h.calls), h.calls) ==> h.loaded == if m.wrote == [] then old(h.loaded) else h.disk
    ensures complete ==> forall svc :: svc in m.started && svc !in prior.running ==> svc !in h.up
    ensures complete ==> forall svc :: svc in m.started && svc in prior.running ==>
              svc in h.up && h.up[svc] == Definition(svc, h.loaded, h.natives)
    ensures old(h.calls) <= h.calls
    ensures complete <==>
      h.Smooth(old(h.calls), h.calls) && forall svc :: svc in m.started && svc in prior.running ==> h.Startable(svc)
  {
    hide Stack.Smooth;
    ghost var at := h.calls;
    complete := StopStarted(h, prior, m.started);
    ghost var mid := h.calls;
    var ok, touched := RestoreUnits(h, prior, m.wrote);
    SmoothTwice(h, at, mid, h.calls);
    complete := complete && ok;
    if touched {
      SmoothThenOne(h, at, h.calls);
      ok := h.DaemonReload();
      complete := complete && ok;
    }
    mid := h.calls;
    ok := RestartRunning(h, prior, m.started);
    SmoothTwice(h, at, mid, h.calls);
    complete := complete && ok;
    SmoothThenOne(h, at, h.calls);
    ok := h.SaveConfig(prior.config);
    complete := complete && ok;
  }

  // ------------------------------------------------------------------
  // The change itself
  // ------------------------------------------------------------------

  /** The unit of the slot to start is rendered by the config that names the slot. */
  ghost predicate FitsRender(h: Stack, ch: Change) {
    ch.start.Some? && h.render(ch.next).Rendered? ==> Container(ch.start.value) in Names(h.render(ch.next).units)
  }

  /** The services a change may stop or start: the slot that comes, the slot that goes, the
      chat UI, and those of registry units the stage no longer renders. */
  ghost predicate MayTouch(svc: Service, p: Plan, ch: Change) {
    svc == OPENWEBUI || ch.start == Some(svc) || ch.orphan == Some(svc) || Container(svc) in Names(p.removed)
  }

  /** Everything recorded lies within what was captured. */
  ghost predicate Recorded(m: Mutations, p: Plan, ch: Change) {
    && NameSet(m.wrote) <= Touchable(p, ch)
    && forall svc :: svc in m.started ==> Affected(svc, p, ch) && MayTouch(svc, p, ch)
  }

  /** The host after an orphan, if any, has been stopped and its file removed. */
  function Retired(disk: map<UnitName, Text>, ch: Change): map<UnitName, Text> {
    if ch.orphan.Some? then disk - {Container(ch.orphan.value)} else disk
  }

  /** The apply renders the config with a key of its own, from a directory the orphan has
      left; the capture planned without either. Yet it can only touch captured files. */
  lemma ApplyStaysWithinCapture(h: Stack, ch: Change, disk: map<UnitName, Text>, p: Plan, q: Plan)
    requires h.Wired() && h.render(ch.next).Rendered? && IsPlan(p, h.render(ch.next).units, disk, h.registry)
    requires var r := h.render(Healed(ch.next, h.newSecret));
      r.Rendered? && IsPlan(q, r.units, Retired(disk, ch), h.registry)
    ensures Names(q.changed) + Names(q.removed) <= Touchable(p, ch) && Names(q.removed) <= Names(p.removed)
  {
    var units, units' := h.render(ch.next).units, h.render(Healed(ch.next, h.newSecret)).units;
    assert Names(units') == Names(units);
    PlanMembers(p, units, disk, h.registry);
    PlanMembers(q, units', Retired(disk, ch), h.registry);
    forall n | n in Names(q.changed) ensures n in Names(p.changed) + Names(p.same) {
      var u :| u in q.changed && u.name == n;
      assert u in units' && n in Names(units);
      var v :| v in units && v.name == n;
      assert v in p.changed || v in p.same;
    }
    forall n | n in Names(q.removed) ensures n in Names(p.removed) {
      var u :| u in q.removed && u.name == n;
      assert Unit(n, disk[n]) in p.removed;
    }
  }

  /** The retired slot goes first: its service, then its file. */
  method RetireOrphan(h: Stack, ch: Change) returns (ok: bool, m: Mutations)
    modifies h`disk, h`up, h`calls
    ensures old(h.calls) <= h.calls && (ok <==> h.Smooth(old(h.calls), h.calls))
    ensures m.wrote == [] || (ch.orphan.Some? && m.wrote == [Container(ch.orphan.value)])
    ensures m.started == if ch.orphan.Some? then [ch.orphan.value] else []
    ensures AgreeOff(old(h.up), h.up, ServiceSet(m.started))
    ensures h.disk == if m.wrote == [] then old(h.disk) else Retired(old(h.disk), ch)
    ensures ok ==> h.disk == Retired(old(h.disk), ch) && h.up == old(h.up) - ServiceSet(m.started)
    ensures ok ==> (m.wrote == [] <==> ch.orphan.None?)
  {
    ok, m := true, Mutations([], []);
    if ch.orphan.Some? {
      m := m.(started := [ch.orphan.value]);
      ok := h.Stop(ch.orphan.value);
      if !ok { return; }
      ok := h.RemoveUnit(Container(ch.orphan.value));
      if !ok { return; }
      m := m.(wrote := [Container(ch.orphan.value)]);
    }
  }

  /** The host a change that passes leaves: the orphan retired, the stage applied and read,
      the new slot up, and the chat UI back on its new unit if it was active. */
  function AfterChange(s: Snapshot, ch: Change, st: Stage, chatActive: bool): Snapshot {
    var s1 := AfterRetiring(s, ch);
    var t := AfterApply(s1, st);
    var refreshed := chatActive && Container(OPENWEBUI) in Names(PlanOf(st, s1.disk).changed);
    Snapshot(t.disk, t.disk, Refreshed(t.up, ch, t.disk, st.natives, refreshed))
  }

  /** The new slot up, and the chat UI started anew if its unit changed and it was active. */
  function Refreshed(up: map<Service, Text>, ch: Change, loaded: map<UnitName, Text>, natives: map<Service, Text>,
                     chat: bool): map<Service, Text> {
    var started := if ch.start.Some? && ch.start.value !in up
                   then up[ch.start.value := Definition(ch.start.value, loaded, natives)] else up;
    if chat then started[OPENWEBUI := Definition(OPENWEBUI, loaded, natives)] else started
  }

  ghost predicate RecordCovers(m: Mutations, a: Snapshot, b: Snapshot) {
    && AgreeOff(a.disk, b.disk, NameSet(m.wrote)) && AgreeOff(a.up, b.up, ServiceSet(m.started))
    && (m.wrote == [] && Synced(a) ==> Synced(b))
  }

  lemma NameSetOfBoth(a: seq<UnitName>, b: seq<UnitName>)
    ensures NameSet(a + b) == NameSet(a) + NameSet(b)
  {
  }

  function Joined(m: Mutations, applied: Applied): Mutations {
    Mutations(m.started + applied.stopped, m.wrote + (Filenames(applied.changed) + Filenames(applied.removed)))
  }

  /** Recording an apply on top of what was recorded before covers both. */
  lemma RecordsJoin(a: Snapshot, b: Snapshot, c: Snapshot, m: Mutations, applied: Applied, p: Plan, q: Plan, ch: Change)
    requires RecordCovers(m, a, b) && Recorded(m, p, ch) && b.loaded == a.loaded
    requires ReportCovers(applied, b.disk, c.disk, b.up, c.up) && Within(applied, q)
    requires c.loaded == b.loaded || c.loaded == c.disk
    requires applied == NOTHING
          || (Names(q.changed) + Names(q.removed) <= Touchable(p, ch) && Names(q.removed) <= Names(p.removed))
    ensures RecordCovers(Joined(m, applied), a, c) && Recorded(Joined(m, applied), p, ch)
  {
    var wrote := Filenames(applied.changed) + Filenames(applied.removed);
    FilenamesAre(applied.changed);
    FilenamesAre(applied.removed);
    assert NameSet(Filenames(applied.changed)) == Names(applied.changed);
    assert NameSet(Filenames(applied.removed)) == Names(applied.removed);
    NameSetOfBoth(Filenames(applied.changed), Filenames(applied.removed));
    NameSetOfBoth(m.wrote, wrote);
    ServiceSetOfBoth(m.started, applied.stopped);
    AgreeOffTwice(a.disk, b.disk, c.disk, NameSet(m.wrote), NameSet(wrote));
    AgreeOffTwice(a.up, b.up, c.up, ServiceSet(m.started), ServiceSet(applied.stopped));
    if Joined(m, applied).wrote == [] {
      assert NameSet(m.wrote) == {} && NameSet(wrote) == {};
      AgreeOffNothing(a.disk, b.disk);
      AgreeOffNothing(b.disk, c.disk);
    }
  }

  /** The host when only the orphan has gone. */
  function AfterRetiring(s: Snapshot, ch: Change): Snapshot {
    Snapshot(Retired(s.disk, ch), s.loaded, if ch.orphan.Some? then s.up - {ch.orphan.value} else s.up)
  }

  /** Orphan, then apply: what was recorded covers what was touched. */
  method RetireAndApply(h: Stack, ch: Change, ghost p: Plan) returns (ok: bool, m: Mutations, applied: Applied)
    requires h.Wired() && h.render(ch.next).Rendered? && IsPlan(p, h.render(ch.next).units, h.disk, h.registry)
    modifies h`config, h`disk, h`loaded, h`up, h`calls
    ensures old(h.calls) <= h.calls && (ok <==> Usable(h, ch.next) && h.Smooth(old(h.calls), h.calls))
    ensures RecordCovers(m, old(h.Snap()), h.Snap()) && Recorded(m, p, ch)
    ensures h.config == old(h.config) || h.config == Healed(ch.next, h.newSecret)
    ensures ok && old(h.config) == ch.next ==> h.config == Healed(ch.next, h.newSecret)
    ensures ok ==> h.Snap() == AfterApply(AfterRetiring(old(h.Snap()), ch), StageOf(h, ch.next))
    ensures ok ==> applied.changed == PlanOf(StageOf(h, ch.next), Retired(old(h.disk), ch)).changed
    ensures ok && !Empty(applied) ==> h.loaded == h.disk
  {
    hide AgreeOff, ReportCovers, Within, Complete, AfterApply, After, Recorded, RecordCovers, Touchable, Stack.Wired,
         IsPlan, PlanOf, Stack.Smooth;
    ghost var s0, at := h.Snap(), h.calls;
    applied := NOTHING;
    ok, m := RetireOrphan(h, ch);
    ghost var s1, m1 := h.Snap(), m;
    OrphanIsRecorded(s0, s1, m1, p, ch);
    if !ok { return; }
    ghost var q, mid := Plan([], [], []), h.calls;
    ok, applied, q := Apply(h, ch.next);
    SmoothTwice(h, at, mid, h.calls);
    if Usable(h, ch.next) {
      ApplyStaysWithinCapture(h, ch, s0.disk, p, q);
    }
    m := Joined(m, applied);
    RecordsJoin(s0, s1, h.Snap(), m1, applied, p, q, ch);
    if ok {
      assert s1 == AfterRetiring(s0, ch);
      PlansAreUnique(q, StageOf(h, ch.next), s1.disk);
      AppliedAsStaged(s1, h.Snap(), StageOf(h, ch.next), q, applied);
      assert applied.changed == q.changed;
    }
  }

  lemma OrphanIsRecorded(a: Snapshot, b: Snapshot, m: Mutations, p: Plan, ch: Change)
    requires m.wrote == [] || (ch.orphan.Some? && m.wrote == [Container(ch.orphan.value)])
    requires m.started == if ch.orphan.Some? then [ch.orphan.value] else []
    requires AgreeOff(a.up, b.up, ServiceSet(m.started)) && a.loaded == b.loaded
    requires b.disk == if m.wrote == [] then a.disk else Retired(a.disk, ch)
    ensures RecordCovers(m, a, b) && Recorded(m, p, ch)
  {
  }

  /** Every effect after the config is saved, recorded as it goes; stops at the first failure. */
  method Mutate(h: Stack, ch: Change, prior: Prior, ghost p: Plan) returns (ok: bool, m: Mutations)
    requires h.Wired() && FitsRender(h, ch)
    requires h.render(ch.next).Rendered? && IsPlan(p, h.render(ch.next).units, h.disk, h.registry)
    modifies h`config, h`disk, h`loaded, h`up, h`calls, h`fired
    ensures RecordCovers(m, old(h.Snap()), h.Snap()) && Recorded(m, p, ch)
    ensures h.config == old(h.config) || h.config == Healed(ch.next, h.newSecret)
    ensures ok && old(h.config) == ch.next ==> h.config == Healed(ch.next, h.newSecret)
    ensures old(h.calls) <= h.calls && (ok <==> Usable(h, ch.next) && h.Smooth(old(h.calls), h.calls))
    ensures ok ==> h.Snap() == AfterChange(old(h.Snap()), ch, StageOf(h, ch.next), OPENWEBUI in prior.running)
  {
    hide AgreeOff, Stack.Wired, IsPlan, PlanOf, AfterApply, Recorded, RecordCovers, Touchable, FitsRender,
         Stack.Smooth;
    ghost var s0, at := h.Snap(), h.calls;
    var applied;
    ok, m, applied := RetireAndApply(h, ch, p);
    ghost var s1, m1 := h.Snap(), m;
    if !ok { return; }
    if Empty(applied) {
      SmoothThenOne(h, at, h.calls);
      ok := h.DaemonReload();
      ReloadIsCovered(m1, s0, s1, h.Snap());
      if !ok { return; }
    }
    ghost var mid := h.calls;
    NewUnitsCanStart(h, ch, AfterRetiring(s0, ch));
    var chatChanged := exists u :: u in applied.changed && u.name == Container(OPENWEBUI);
    assert chatChanged <==> Container(OPENWEBUI) in Names(applied.changed);
    ok, m := StartAndRefresh(h, ch, m, chatChanged && OPENWEBUI in prior.running, s0, p);
    SmoothTwice(h, at, mid, h.calls);
  }

  /** The services, once the files are as they are to be: the new slot, and the chat UI. */
  method StartAndRefresh(h: Stack, ch: Change, before: Mutations, chat: bool, ghost s0: Snapshot, ghost p: Plan)
    returns (ok: bool, m: Mutations)
    requires FitsRender(h, ch) && h.render(ch.next).Rendered? && h.loaded == h.disk
    requires IsPlan(p, h.render(ch.next).units, s0.disk, h.registry)
    requires RecordCovers(before, s0, h.Snap()) && Recorded(before, p, ch)
    requires (ch.start.Some? ==> h.Startable(ch.start.value)) && (chat ==> h.Startable(OPENWEBUI))
    modifies h`up, h`calls, h`fired
    ensures RecordCovers(m, s0, h.Snap()) && Recorded(m, p, ch)
    ensures old(h.calls) <= h.calls && (ok <==> h.Smooth(old(h.calls), h.calls))
    ensures ok ==> h.up == Refreshed(old(h.up), ch, h.loaded, h.natives, chat)
  {
    hide AgreeOff, IsPlan, Recorded, RecordCovers, FitsRender, Stack.Smooth, Affected, MayTouch;
    ghost var s2, at := h.Snap(), h.calls;
    SmoothOnce(h, at);
    ok, m := true, before;
    if ch.start.Some? {
      m := m.(started := m.started + [ch.start.value]);
      ok := h.Start(ch.start.value);
      StartIsCovered(h, ch, before, s0, s2, h.Snap(), p) by { StartedApart(s2.up, h.up, ch.start.value); }
      if !ok { return; }
    }
    ghost var s3, m3 := h.Snap(), m;
    if chat {
      ChatIsAffected(p, ch);
      m := m.(started := m.started + [OPENWEBUI]);
      SmoothThenOne(h, at, h.calls);
      ok := h.Restart(OPENWEBUI);
      ServiceIsCovered(m3, s0, s3, h.Snap(), OPENWEBUI, p, ch);
    }
  }

  lemma StartedApart(a: map<Service, Text>, b: map<Service, Text>, svc: Service)
    requires b == a || (svc in b && b == a[svc := b[svc]])
    ensures AgreeOff(a, b, {svc})
  {
  }

  /** What the stage renders is on disk and read: the new slot and a chat UI on a new unit
      can start. */
  lemma NewUnitsCanStart(h: Stack, ch: Change, s: Snapshot)
    requires h.Wired() && FitsRender(h, ch) && h.render(ch.next).Rendered? && Usable(h, ch.next)
    requires h.disk == AfterApply(s, StageOf(h, ch.next)).disk && h.loaded == h.disk
    ensures ch.start.Some? ==> h.Startable(ch.start.value)
    ensures Container(OPENWEBUI) in Names(PlanOf(StageOf(h, ch.next), s.disk).changed) ==> h.Startable(OPENWEBUI)
  {
    var st := StageOf(h, ch.next);
    ApplyIsIdempotent(s, st);
    forall svc | Container(svc) in Names(st.units) ensures h.Startable(svc) {
      var u :| u in st.units && u.name == Container(svc);
      assert OnDisk(h.disk, u);
    }
    PlanMembers(PlanOf(st, s.disk), st.units, s.disk, st.registry);
  }

  lemma ReloadIsCovered(m: Mutations, a: Snapshot, b: Snapshot, c: Snapshot)
    requires RecordCovers(m, a, b) && c.disk == b.disk && c.up == b.up && (c.loaded == b.loaded || c.loaded == b.disk)
    ensures RecordCovers(m, a, c)
  {
  }

  /** One more service touched, and recorded before it was. */
  lemma ServiceIsCovered(m: Mutations, a: Snapshot, b: Snapshot, c: Snapshot, svc: Service, p: Plan, ch: Change)
    requires RecordCovers(m, a, b) && Recorded(m, p, ch) && Affected(svc, p, ch) && MayTouch(svc, p, ch)
    requires c.disk == b.disk && c.loaded == b.loaded && AgreeOff(c.up, b.up, {svc})
    ensures var m' := m.(started := m.started + [svc]); RecordCovers(m', a, c) && Recorded(m', p, ch)
  {
    ServiceSetOfBoth(m.started, [svc]);
    assert ServiceSet([svc]) == {svc};
    AgreeOffTwice(a.up, b.up, c.up, ServiceSet(m.started), {svc});
  }

  lemma StartIsCovered(h: Stack, ch: Change, m: Mutations, a: Snapshot, b: Snapshot, c: Snapshot, p: Plan)
    requires FitsRender(h, ch) && h.render(ch.next).Rendered? && IsPlan(p, h.render(ch.next).units, a.disk, h.registry)
    requires RecordCovers(m, a, b) && Recorded(m, p, ch) && ch.start.Some?
    requires c.disk == b.disk && c.loaded == b.loaded && AgreeOff(b.up, c.up, {ch.start.value})
    ensures var m' := m.(started := m.started + [ch.start.value]); RecordCovers(m', a, c) && Recorded(m', p, ch)
  {
    PlanMembers(p, h.render(ch.next).units, a.disk, h.registry);
    var u :| u in h.render(ch.next).units && u.name == Container(ch.start.value);
    assert u in p.changed || u in p.same;
    ServiceIsCovered(m, a, b, c, ch.start.value, p, ch);
  }

  /** The recorded files read as captured, and systemd has read them. */
  ghost predicate FilesUndone(prior: Prior, m: Mutations, a: Snapshot, b: Snapshot) {
    && AgreeOff(a.disk, b.disk, NameSet(m.wrote)) && FaithfulUnits(prior, NameSet(m.wrote), b.disk)
    && b.loaded == (if m.wrote == [] then a.loaded else b.disk)
  }

  /** What a rollback that reports complete has done. */
  ghost predicate Undone(prior: Prior, m: Mutations, a: Snapshot, b: Snapshot, natives: map<Service, Text>) {
    && FilesUndone(prior, m, a, b) && AgreeOff(a.up, b.up, ServiceSet(m.started))
    && (forall svc :: svc in m.started ==>
          if svc in prior.running
          then svc in b.up && b.up[svc] == Definition(svc, b.loaded, natives)
             && (svc in natives || Container(svc) in b.loaded)
          else svc !in b.up)
  }

  ghost predicate Captured(prior: Prior, p: Plan, ch: Change, s: Snapshot, warming: set<Service>) {
    && FaithfulUnits(prior, Touchable(p, ch), s.disk)
    && forall svc :: Affected(svc, p, ch) ==> (svc in prior.running <==> svc in s.up && svc !in warming)
  }

  lemma UndoneDisk(prior: Prior, p: Plan, ch: Change, m: Mutations, s: Snapshot, t: Snapshot, b: Snapshot,
                   warming: set<Service>)
    requires Captured(prior, p, ch, s, warming) && RecordCovers(m, s, t) && Recorded(m, p, ch)
    requires FilesUndone(prior, m, t, b)
    ensures b.disk == s.disk && (Synced(s) ==> Synced(b))
  {
    AgreeOffTwice(s.disk, t.disk, b.disk, NameSet(m.wrote), NameSet(m.wrote));
    assert AgreeOff(s.disk, b.disk, {});
    AgreeOffNothing(s.disk, b.disk);
    if m.wrote == [] {
      assert NameSet(m.wrote) == {};
      AgreeOffNothing(t.disk, b.disk);
    }
  }

  /** A complete rollback over a faithful capture gives the host back to the letter, but for
      the services it had touched that were up without being plainly active: those it stops. */
  lemma UndoneExactly(prior: Prior, p: Plan, ch: Change, m: Mutations, s: Snapshot, t: Snapshot, b: Snapshot,
                      natives: map<Service, Text>, warming: set<Service>)
    requires Captured(prior, p, ch, s, warming) && RecordCovers(m, s, t) && Recorded(m, p, ch)
    requires Undone(prior, m, t, b, natives)
    ensures b.up.Keys == s.up.Keys - (ServiceSet(m.started) * warming)
    ensures Coherent(s, natives) && Synced(s) ==> b.up == s.up - (ServiceSet(m.started) * warming)
  {
    AgreeOffTwice(s.up, t.up, b.up, ServiceSet(m.started), ServiceSet(m.started));
    forall svc ensures svc in b.up <==> svc in s.up - (ServiceSet(m.started) * warming) {
      assert svc in m.started <==> svc in ServiceSet(m.started);
    }
    if Coherent(s, natives) && Synced(s) {
      UndoneDisk(prior, p, ch, m, s, t, b, warming);
      forall svc | svc in b.up ensures b.up[svc] == s.up[svc] {
        assert RunsItsUnit(s, svc, natives);
        assert svc in m.started <==> svc in ServiceSet(m.started);
      }
    }
  }

  /** On a coherent host whatever ran can be started again once its files are back. */
  lemma RunningCanRestart(prior: Prior, p: Plan, ch: Change, m: Mutations, s: Snapshot, t: Snapshot, b: Snapshot,
                          natives: map<Service, Text>, warming: set<Service>)
    requires Captured(prior, p, ch, s, warming) && RecordCovers(m, s, t) && Recorded(m, p, ch)
    requires FilesUndone(prior, m, t, b) && Coherent(s, natives) && Synced(s)
    ensures forall svc :: svc in m.started && svc in prior.running ==> svc in natives || Container(svc) in b.loaded
  {
    UndoneDisk(prior, p, ch, m, s, t, b, warming);
    forall svc | svc in m.started && svc in prior.running ensures svc in natives || Container(svc) in b.loaded {
      assert RunsItsUnit(s, svc, natives);
    }
  }

  /** No call failed but one at most, on which the change stopped; none at all, if what
      stopped it was a render that refuses the config with a key of its own. */
  ghost predicate OneFailure(h: Stack, ch: Change, from: nat, to: nat) {
    if Usable(h, ch.next) then h.OneFault(from, to) else h.Smooth(from, to)
  }

  /** The host is as it was, but that touched services which were up without being plainly
      active are down. */
  ghost predicate BackAsItWas(s: Snapshot, t: Snapshot, stopped: set<Service>, natives: map<Service, Text>) {
    && t.disk == s.disk && (Synced(s) ==> Synced(t))
    && t.up.Keys == s.up.Keys - stopped
    && (Coherent(s, natives) && Synced(s) ==> t.up == s.up - stopped)
  }

  /** A rollback in which no call failed, over a capture in which none did. */
  lemma RolledBackCleanly(h: Stack, ch: Change, prior: Prior, p: Plan, m: Mutations, s: Snapshot, t: Snapshot,
                          complete: bool, at: nat, captured: nat, mutated: nat)
    requires at <= captured <= mutated <= h.calls && OneFailure(h, ch, at, h.calls)
    requires !(Usable(h, ch.next) && h.Smooth(captured, mutated))
    requires h.Smooth(at, captured) ==> Captured(prior, p, ch, s, h.warming)
    requires RecordCovers(m, s, t) && Recorded(m, p, ch)
    requires h.Smooth(mutated, h.calls) ==> FilesUndone(prior, m, t, h.Snap())
    requires complete <==>
      h.Smooth(mutated, h.calls) && forall svc :: svc in m.started && svc in prior.running ==> h.Startable(svc)
    requires complete ==> Undone(prior, m, t, h.Snap(), h.natives)
    ensures complete ==> BackAsItWas(s, h.Snap(), ServiceSet(m.started) * h.warming, h.natives)
    ensures Coherent(s, h.natives) && Synced(s) ==> complete
  {
    hide Stack.Smooth, Stack.OneFault, Captured, RecordCovers, Recorded, FilesUndone, Undone, Coherent;
    if Usable(h, ch.next) {
      FaultIsHere(h, at, captured, mutated, h.calls);
    } else {
      SmoothTwice(h, at, captured, h.calls);
      SmoothTwice(h, captured, mutated, h.calls);
    }
    if complete {
      UndoneDisk(prior, p, ch, m, s, t, h.Snap(), h.warming);
      UndoneExactly(prior, p, ch, m, s, t, h.Snap(), h.natives, h.warming);
    }
    if Coherent(s, h.natives) && Synced(s) {
      RunningCanRestart(prior, p, ch, m, s, t, h.Snap(), h.natives, h.warming);
    }
  }

  /** Capture, persist, change; on any failure after the save, roll back. Without a failed
      call the change is made; with one, the host is left or given back as it was. */
  method ApplyResidentChange(h: Stack, ch: Change)
    returns (o: Outcome, ghost touched: set<Service>, ghost chatActive: bool)
    requires h.Wired() && FitsRender(h, ch)
    modifies h`config, h`disk, h`loaded, h`up, h`calls, h`fired
    ensures old(h.calls) <= h.calls
    ensures !o.Unready? ==> h.render(ch.next).Rendered?
    ensures h.Smooth(old(h.calls), h.calls) ==>
      o == if h.render(ch.next).NotRendered? then Unready else if Usable(h, ch.next) then Changed
           else RolledBack(o.RolledBack? && o.complete)
    ensures h.config == old(h.config) || h.config == ch.next || h.config == Healed(ch.next, h.newSecret)
    ensures o.Unready? ==> h.Snap() == old(h.Snap()) && h.config == old(h.config)
    ensures o.SaveFailed? ==> h.Snap() == old(h.Snap()) && (h.config == old(h.config) || h.config == ch.next)
    ensures o.Changed? ==> Usable(h, ch.next) && h.config == Healed(ch.next, h.newSecret)
    ensures o.Changed? ==> h.Snap() == AfterChange(old(h.Snap()), ch, StageOf(h, ch.next), chatActive)
    ensures chatActive ==> OPENWEBUI in old(h.up) && OPENWEBUI !in h.warming
    ensures o.Changed? && h.Smooth(old(h.calls), h.calls) ==>
      (chatActive <==> OPENWEBUI in old(h.up) && OPENWEBUI !in h.warming)
    ensures forall svc :: svc in touched ==>
      svc == OPENWEBUI || ch.start == Some(svc) || ch.orphan == Some(svc) || Container(svc) in h.registry
    ensures o.RolledBack? && o.complete ==> h.config == old(h.config)
    ensures o.RolledBack? && OneFailure(h, ch, old(h.calls), h.calls) ==>
      && (o.complete ==> BackAsItWas(old(h.Snap()), h.Snap(), touched * h.warming, h.natives))
      && (Coherent(old(h.Snap()), h.natives) && Synced(old(h.Snap())) ==> o.complete)
  {
    hide AgreeOff, Stack.Wired, Stack.Smooth, Stack.OneFault, IsPlan, Plannable, Recorded, RecordCovers, Touchable,
         FitsRender, AfterChange, FaithfulUnits, Coherent, OneFailure, BackAsItWas;
    touched, chatActive := {}, false;
    ghost var s0, at := h.Snap(), h.calls;
    SmoothOnce(h, at);
    var ok := h.Ask();
    if !ok { return Unready, touched, chatActive; }
    var p;
    ok, p := MakePlan(h, ch.next);
    SmoothTwice(h, at, at + 1, h.calls);
    if !ok { return Unready, touched, chatActive; }
    ghost var planned := h.calls;
    var prior := CapturePrior(h, p, ch);
    SmoothTwice(h, at, planned, h.calls);
    chatActive := OPENWEBUI in prior.running;
    ChatIsAffected(p, ch);
    SmoothThenOne(h, at, h.calls);
    ok := h.SaveConfig(ch.next);
    if !ok { return SaveFailed, touched, chatActive; }
    ghost var captured := h.calls;
    var m;
    ok, m := Mutate(h, ch, prior, p);
    ghost var s1, mutated := h.Snap(), h.calls;
    SmoothTwice(h, at, captured, mutated);
    if ok { return Changed, touched, chatActive; }
    touched := ServiceSet(m.started);
    OnlyTheseAreTouched(m, p, ch, h.render(ch.next).units, s0.disk, h.registry);
    var complete := Rollback(h, prior, m);
    SmoothTwice(h, at, mutated, h.calls);
    if OneFailure(h, ch, at, h.calls) {
      RolledBackCleanly(h, ch, prior, p, m, s0, s1, complete, at, captured, mutated);
    }
    o := RolledBack(complete);
  }

  lemma ChatIsAffected(p: Plan, ch: Change)
    ensures Affected(OPENWEBUI, p, ch) && MayTouch(OPENWEBUI, p, ch)
  {
  }

  lemma OnlyTheseAreTouched(m: Mutations, p: Plan, ch: Change, units: seq<Unit>, disk: map<UnitName, Text>,
                            registry: seq<UnitName>)
    requires Recorded(m, p, ch) && IsPlan(p, units, disk, registry)
    ensures forall svc :: svc in ServiceSet(m.started) ==>
      svc == OPENWEBUI || ch.start == Some(svc) || ch.orphan == Some(svc) || Container(svc) in registry
  {
    PlanMembers(p, units, disk, registry);
  }

  // ------------------------------------------------------------------
  // What a change that passes is worth
  // ------------------------------------------------------------------

  /** A running service whose unit the change rewrote and nobody restarts. */
  ghost predicate LeftStale(s: Snapshot, ch: Change, st: Stage, chatActive: bool, svc: Service) {
    var s1 := AfterRetiring(s, ch);
    && svc in AfterApply(s1, st).up && Container(svc) in Names(PlanOf(st, s1.disk).changed)
    && !(svc == OPENWEBUI && chatActive)
  }

  /** From a coherent stack, a change that passes has its slot up and its orphan gone, and
      leaves a coherent stack exactly when it rewrote no running service's unit but that of
      a plainly active chat UI: a chat UI still activating keeps the old connection list. */
  lemma ChangeKeepsCoherenceIff(s: Snapshot, ch: Change, st: Stage, chatActive: bool)
    requires WellStaged(st) && Coherent(s, st.natives) && Synced(s) && (chatActive ==> OPENWEBUI in s.up)
    requires ch.start.Some? ==> Container(ch.start.value) in Names(st.units)
    requires ch.orphan.Some? ==> Container(ch.orphan.value) !in Names(st.units)
    ensures var t := AfterChange(s, ch, st, chatActive);
      && Synced(t) && Settled(t.disk, st.units, st.registry)
      && (ch.start.Some? ==> ch.start.value in t.up)
      && (ch.orphan.Some? ==> ch.orphan.value !in t.up && Container(ch.orphan.value) !in t.disk)
      && (Coherent(t, st.natives) <==> forall svc :: !LeftStale(s, ch, st, chatActive, svc))
  {
    var s1, t := AfterRetiring(s, ch), AfterChange(s, ch, st, chatActive);
    ApplyIsIdempotent(s1, st);
    if ch.orphan.Some? {
      ApplyAt(s1, st, ch.orphan.value);
    }
    forall svc | svc in t.up
      ensures RunsItsUnit(t, svc, st.natives) <==> !LeftStale(s, ch, st, chatActive, svc) {
      RunsAfterChange(s, ch, st, chatActive, svc);
    }
  }

  lemma RunsAfterChange(s: Snapshot, ch: Change, st: Stage, chatActive: bool, svc: Service)
    requires WellStaged(st) && Coherent(s, st.natives) && Synced(s) && (chatActive ==> OPENWEBUI in s.up)
    requires ch.start.Some? ==> Container(ch.start.value) in Names(st.units)
    requires svc in AfterChange(s, ch, st, chatActive).up
    ensures RunsItsUnit(AfterChange(s, ch, st, chatActive), svc, st.natives) <==> !LeftStale(s, ch, st, chatActive, svc)
  {
    var s1, n := AfterRetiring(s, ch), Container(svc);
    ApplyAt(s1, st, svc);
    if svc in s1.up {
      assert RunsItsUnit(s, svc, st.natives);
    }
    if n in Names(st.units) {
      assert n in AfterApply(s1, st).disk;
    }
  }
}
