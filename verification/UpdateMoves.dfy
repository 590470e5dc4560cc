/** The steps an update of one subsystem is made of: the mutation, the capture of the
    rollback point, the rollback, and what a rollback that is complete has put back. */
module UpdateMoves {
  import opened Options
  import opened StackHost
  import opened StackApply
  import opened Lifecycle
  import opened UpdateHost
  import opened Snapshots
  import SwapFrame

  /** The rollback point, taken strictly before any mutation. `prior` is the snapshot the
      tuple on record points at: the one a commit will displace. */
  datatype Capture = Capture(refs: map<Component, Ref>, units: map<UnitName, Text>, data: Snap, prior: Snap)

  function PriorSnap(w: World, k: Kind): Snap {
    if k in w.previous then w.previous[k].data else NotTaken
  }

  // ------------------------------------------------------------------
  // What is seen of a run on its way
  // ------------------------------------------------------------------

  /** The world, the worlds recorded so far, every start and restart asked for so far, and
      every service that may have opened its data. */
  datatype Point = Point(w: World, trace: seq<World>, fired: seq<Service>, openings: seq<Opening>)

  ghost function At(h: Host): Point
    reads h`w, h`trace, h`openings, h.stack`fired
  {
    Point(h.w, h.trace, h.stack.fired, h.openings)
  }

  /** A service that opens this subsystem's data was asked to start or restart since. */
  ghost predicate Reopened(h: Host, fired: seq<Service>, from: nat, j: Kind) {
    exists i :: from <= i < |fired| && h.opens(fired[i]) == Some(j)
  }

  /** Every one of these services was asked to start or restart since. */
  ghost predicate Asked(fired: seq<Service>, from: nat, svcs: seq<Service>) {
    forall svc :: svc in svcs ==> exists i :: from <= i < |fired| && fired[i] == svc
  }

  /** A service of this subsystem was started since from a unit this data does not suit. */
  ghost predicate Misfit(h: Host, openings: seq<Opening>, from: nat, j: Kind, v: Volume) {
    exists i :: from <= i < |openings| && h.opens(openings[i].svc) == Some(j) && h.Opened(openings[i].text, v) != v
  }

  /** Another subsystem's data changes only when its own service was restarted, and from a
      unit that the data does not suit. */
  ghost predicate OthersData(h: Host, k: Kind, a: Point, b: Point) {
    && a.fired <= b.fired && a.openings <= b.openings
    && forall j :: j != k && VolumeOf(b.w, j) != VolumeOf(a.w, j) ==>
         Reopened(h, b.fired, |a.fired|, j) && Misfit(h, b.openings, |a.openings|, j, VolumeOf(a.w, j))
  }

  /** Tuples and retained snapshots are as they were, at the end and in between, and so is
      other subsystems' data that no service reopened. */
  ghost predicate Aside(h: Host, k: Kind, a: Point, b: Point) {
    && b.w.files == a.w.files && b.w.previous == a.w.previous
    && a.trace <= b.trace && AllKeepFinished(a.w, b.trace, |a.trace|)
    && OthersData(h, k, a, b)
  }

  lemma ReopenedStill(h: Host, f1: seq<Service>, f2: seq<Service>, from: nat, j: Kind)
    requires f1 <= f2 && Reopened(h, f1, from, j)
    ensures Reopened(h, f2, from, j)
  {
    var i :| from <= i < |f1| && h.opens(f1[i]) == Some(j);
    assert f2[i] == f1[i];
  }

  lemma MisfitStill(h: Host, o1: seq<Opening>, o2: seq<Opening>, from: nat, j: Kind, v: Volume)
    requires o1 <= o2 && Misfit(h, o1, from, j, v)
    ensures Misfit(h, o2, from, j, v)
  {
    var i :| from <= i < |o1| && h.opens(o1[i].svc) == Some(j) && h.Opened(o1[i].text, v) != v;
    assert o2[i] == o1[i];
  }

  lemma OthersDataTwice(h: Host, k: Kind, a: Point, b: Point, c: Point)
    requires OthersData(h, k, a, b) && OthersData(h, k, b, c)
    ensures OthersData(h, k, a, c)
  {
    forall j | j != k && VolumeOf(c.w, j) != VolumeOf(a.w, j)
      ensures Reopened(h, c.fired, |a.fired|, j) && Misfit(h, c.openings, |a.openings|, j, VolumeOf(a.w, j)) {
      if VolumeOf(b.w, j) != VolumeOf(a.w, j) {
        ReopenedStill(h, b.fired, c.fired, |a.fired|, j);
        MisfitStill(h, b.openings, c.openings, |a.openings|, j, VolumeOf(a.w, j));
      } else {
        var i :| |b.fired| <= i < |c.fired| && h.opens(c.fired[i]) == Some(j);
        assert Misfit(h, c.openings, |b.openings|, j, VolumeOf(a.w, j));
      }
    }
  }

  lemma AsideTwice(h: Host, k: Kind, a: Point, b: Point, c: Point)
    requires Aside(h, k, a, b) && Aside(h, k, b, c)
    ensures Aside(h, k, a, c)
  {
    TrailTwice(a.w, b.w, b.trace, c.trace, |a.trace|);
    OthersDataTwice(h, k, a, b, c);
  }

  lemma NothingAside(h: Host, k: Kind, a: Point)
    ensures Aside(h, k, a, a)
  {
  }

  /** A stretch that changed at most this subsystem's own data. */
  lemma OwnDataAside(h: Host, k: Kind, a: Point, b: Point)
    requires b.w == a.w.(volumes := b.w.volumes) && forall j :: j != k ==> VolumeOf(b.w, j) == VolumeOf(a.w, j)
    requires a.trace <= b.trace && AllKeepFinished(a.w, b.trace, |a.trace|) && a.fired <= b.fired
    requires a.openings <= b.openings
    ensures Aside(h, k, a, b)
  {
  }

  lemma AsideKeepsSafe(h: Host, k: Kind, a: Point, b: Point)
    requires Aside(h, k, a, b)
    ensures Safe(a.w) ==> Safe(b.w) && AllSafe(b.trace, |a.trace|)
  {
    if Safe(a.w) {
      KeptFinishedSafely(a.w, b.trace, |a.trace|);
      KeepsFinishedKeepsSafe(a.w, b.w);
    }
  }

  /** The recorded pins of this subsystem, and a key the config did not have, may differ. */
  ghost predicate RecordMoved(h: Host, k: Kind, a: Config, b: Config) {
    && b == a.(pins := b.pins, secret := b.secret) && AgreeOff(a.pins, b.pins, h.components(k))
    && (a.secret != "" ==> b.secret == a.secret)
  }

  lemma RecordMovedTwice(h: Host, k: Kind, a: Config, b: Config, c: Config)
    requires RecordMoved(h, k, a, b) && RecordMoved(h, k, b, c)
    ensures RecordMoved(h, k, a, c)
  {
  }

  /** The unit files a config renders. */
  function RenderNames(h: Host, c: Config): set<UnitName> {
    if h.stack.render(c).Rendered? then Names(h.stack.render(c).units) else {}
  }

  lemma SameNames(h: Host, k: Kind, a: Config, b: Config)
    requires h.Wired() && RecordMoved(h, k, a, b) && h.stack.render(a).Rendered? && h.stack.render(b).Rendered?
    ensures RenderNames(h, b) == RenderNames(h, a)
  {
    hide Stack.Wired;
    assert b == a.(pins := b.pins, secret := b.secret);
  }

  // ------------------------------------------------------------------
  // Restarts that open data
  // ------------------------------------------------------------------

  /** Data may have been opened by one service more, which was among those asked. */
  lemma OpenedOneMore(h: Host, k: Kind, a: Point, b: Point, c: World, i: nat, text: Text)
    requires Aside(h, k, a, b) && |a.fired| <= i < |b.fired|
    requires c == b.w.(volumes := c.volumes)
    requires var svc := b.fired[i];
      c.volumes == b.w.volumes ||
      (h.opens(svc).Some?
       && c.volumes == b.w.volumes[h.opens(svc).value := h.Opened(text, VolumeOf(b.w, h.opens(svc).value))])
    ensures Aside(h, k, a, Point(c, b.trace + [c], b.fired, b.openings + [Opening(b.fired[i], text)]))
  {
    hide Host.Opened;
    var t, o := b.trace + [c], b.openings + [Opening(b.fired[i], text)];
    forall n | |a.trace| <= n < |t| ensures KeepsFinished(a.w, t[n]) {
      if n < |b.trace| { assert t[n] == b.trace[n]; }
    }
    forall j | j != k && VolumeOf(c, j) != VolumeOf(a.w, j)
      ensures Reopened(h, b.fired, |a.fired|, j) && Misfit(h, o, |a.openings|, j, VolumeOf(a.w, j)) {
      if VolumeOf(b.w, j) != VolumeOf(a.w, j) {
        MisfitStill(h, b.openings, o, |a.openings|, j, VolumeOf(a.w, j));
      } else {
        assert h.opens(b.fired[i]) == Some(j);
        assert o[|b.openings|] == Opening(b.fired[i], text);
      }
    }
  }

  /** The services just asked to restart open their data, the last of them perhaps. */
  method OpenAll(h: Host, k: Kind, svcs: seq<Service>, certain: bool, ghost asked: seq<Service>)
    requires h.Wired() && h.stack.fired == asked + svcs
    modifies h`w, h`calls, h`trace, h`openings
    ensures old(h.calls) <= h.calls
    ensures Aside(h, k, Point(old(h.w), old(h.trace), asked, old(h.openings)), At(h))
    ensures h.Suits(k, VolumeOf(old(h.w), k), h.stack.loaded) ==> VolumeOf(h.w, k) == VolumeOf(old(h.w), k)
  {
    ghost var a := Point(h.w, h.trace, asked, h.openings);
    assert OthersData(h, k, a, At(h));
    for i := 0 to |svcs|
      invariant old(h.calls) <= h.calls && Aside(h, k, a, At(h))
      invariant h.Suits(k, VolumeOf(a.w, k), h.stack.loaded) ==> VolumeOf(h.w, k) == VolumeOf(a.w, k)
    {
      hide Aside, OthersData;
      ghost var b := At(h);
      assert b.fired[|asked| + i] == svcs[i];
      h.OpenData(svcs[i], certain || i + 1 < |svcs|);
      OpenedOneMore(h, k, a, b, h.w, |asked| + i, Definition(svcs[i], h.stack.loaded, h.stack.natives));
      if h.opens(svcs[i]).Some? { OpenerIsItsOwn(h, h.opens(svcs[i]).value, svcs[i]); }
    }
  }

  /** Restarts services in order, until one fails. */
  method RestartAgain(h: Host, k: Kind, svcs: seq<Service>) returns (ok: bool)
    requires h.Wired()
    modifies h`w, h`calls, h`trace, h`openings, h.stack`up, h.stack`calls, h.stack`fired
    ensures old(h.calls) <= h.calls && Aside(h, k, old(At(h)), At(h))
    ensures old(h.stack.calls) <= h.stack.calls
    ensures ok <==>
      h.stack.Smooth(old(h.stack.calls), h.stack.calls) && forall svc :: svc in svcs ==> h.stack.Startable(svc)
    ensures AgreeOff(old(h.stack.up), h.stack.up, ServiceSet(svcs))
    ensures ok ==> forall svc :: svc in svcs ==> SwapFrame.Fresh(h.stack, svc)
    ensures h.Suits(k, VolumeOf(old(h.w), k), h.stack.loaded) ==> VolumeOf(h.w, k) == VolumeOf(old(h.w), k)
  {
    hide Stack.Smooth;
    ghost var asked, up := h.stack.fired, h.stack.up;
    var tried: seq<Service> := [];
    ok := true;
    SmoothOnce(h.stack, h.stack.calls);
    for i := 0 to |svcs|
      invariant ok && tried == svcs[..i] && h.stack.fired == asked + tried
      invariant h.w == old(h.w) && h.trace == old(h.trace) && h.calls == old(h.calls) && h.openings == old(h.openings)
      invariant AgreeOff(up, h.stack.up, ServiceSet(svcs))
      invariant old(h.stack.calls) <= h.stack.calls && h.stack.Smooth(old(h.stack.calls), h.stack.calls)
      invariant forall svc :: svc in tried ==> SwapFrame.Fresh(h.stack, svc)
    {
      tried := tried + [svcs[i]];
      assert svcs[i] in ServiceSet(svcs);
      SmoothThenOne(h.stack, old(h.stack.calls), h.stack.calls);
      ok := h.stack.Restart(svcs[i]);
      if !ok { break; }
    }
    assert svcs[..|svcs|] == svcs;
    OpenAll(h, k, tried, ok, asked);
  }

  // ------------------------------------------------------------------
  // The mutation
  // ------------------------------------------------------------------

  /** The apply on record would take this service's unit file away. */
  ghost predicate Retired(h: Host, c: Config, svc: Service) {
    Container(svc) in h.stack.registry && Container(svc) !in RenderNames(h, c)
  }

  /** Where a mutation may have left a stack that began as `s`: files the config renders may
      have changed or come, registry files it does not render may have gone; services in
      `again` may be in any state, and of the others only retired ones may have stopped. */
  ghost predicate Midway(h: Host, c: Config, s: Snapshot, t: Snapshot, again: set<Service>, k: Kind) {
    && NothingNew(s.disk, t.disk, RenderNames(h, c))
    && (forall n :: n in s.disk && n !in RenderNames(h, c) && n !in h.stack.registry ==> n in t.disk)
    && (forall svc :: svc in t.up && svc !in again ==>
          svc in s.up && t.up[svc] == s.up[svc]
          && (Retired(h, c, svc) && Container(svc) in s.disk ==> Container(svc) in t.disk))
    && (forall svc :: svc in s.up && svc !in again && !Retired(h, c, svc) ==> svc in t.up)
    && (forall svc :: svc in again ==> svc in h.services(k) || (svc in s.up && Container(svc) in RenderNames(h, c)))
  }

  lemma HealedNames(h: Host, k: Kind, c: Config, c1: Config)
    requires h.Wired() && RecordMoved(h, k, c, c1) && h.stack.render(c).Rendered? && Usable(h.stack, c1)
    ensures Names(h.stack.render(Healed(c1, h.stack.newSecret)).units) == RenderNames(h, c)
  {
    hide Host.Wired;
    var c2 := Healed(c1, h.stack.newSecret);
    assert RecordMoved(h, k, c1, c2);
    RecordMovedTwice(h, k, c, c1, c2);
    SameNames(h, k, c, c2);
  }

  /** What an apply reports lies where the config on record lets it. */
  ghost predicate Placed(h: Host, c: Config, did: Applied, p: Plan) {
    && Within(did, p) && Names(did.changed) <= RenderNames(h, c)
    && (did == NOTHING || forall n :: n in Names(p.removed) ==> n in h.stack.registry && n !in RenderNames(h, c))
  }

  lemma ApplyIsPlaced(h: Host, k: Kind, c: Config, c1: Config, s: Snapshot, did: Applied, p: Plan)
    requires h.Wired() && RecordMoved(h, k, c, c1) && h.stack.render(c).Rendered? && Within(did, p)
    requires var r := h.stack.render(Healed(c1, h.stack.newSecret));
      if r.Rendered? then IsPlan(p, r.units, s.disk, h.stack.registry) else did == NOTHING
    ensures Placed(h, c, did, p)
  {
    if Usable(h.stack, c1) {
      HealedNames(h, k, c, c1);
      PlanMembers(p, h.stack.render(Healed(c1, h.stack.newSecret)).units, s.disk, h.stack.registry);
    }
  }

  lemma ApplyIsMidway(h: Host, k: Kind, c: Config, s: Snapshot, t: Snapshot, did: Applied, p: Plan)
    requires Placed(h, c, did, p)
    requires ReportCovers(did, s.disk, t.disk, s.up, t.up) && NothingNew(s.disk, t.disk, Names(did.changed))
    requires Empty(did) || forall svc :: Container(svc) in Names(p.removed) ==> svc !in t.up
    ensures Midway(h, c, s, t, {}, k)
  {
    hide RenderNames;
    forall svc | svc in s.up && !Retired(h, c, svc) ensures svc in t.up {
      assert svc !in ServiceSet(did.stopped);
    }
  }

  lemma RestartsAreMidway(h: Host, k: Kind, c: Config, s: Snapshot, mid: Snapshot, t: Snapshot, changed: seq<Unit>,
                          restarted: seq<Service>)
    requires Midway(h, c, s, mid, {}, k) && t == mid.(up := t.up) && Names(changed) <= RenderNames(h, c)
    requires AgreeOff(mid.up, t.up, ServiceSet(restarted))
    requires forall svc :: svc in restarted ==>
      svc in h.services(k) || (svc in mid.up && Container(svc) in Names(changed))
    ensures Midway(h, c, s, t, ServiceSet(restarted), k)
  {
  }

  /** The stopped window around a mutation. */
  lemma WindowIsMidway(h: Host, k: Kind, c: Config, s: Snapshot, a: Snapshot, b: Snapshot, t: Snapshot,
                       restarted: seq<Service>)
    requires a == s.(up := a.up) && Thinned(s.up, a.up, h.services(k))
    requires Midway(h, c, a, b, ServiceSet(restarted), k)
    requires t == b.(up := t.up) && Filled(h.stack, b.up, t.up, h.services(k))
    ensures Midway(h, c, s, t, ServiceSet(restarted + h.services(k)), k)
  {
    ServiceSetOfBoth(restarted, h.services(k));
  }

  /** The new pins are on record, the directory holds their render, and the subsystem runs
      what systemd has loaded of it. `a` is where the transaction began. */
  ghost predicate Advanced(h: Host, k: Kind, c: Config, a: Snapshot, pins: map<Component, Ref>)
    reads h.stack`config, h.stack`disk, h.stack`loaded, h.stack`up
  {
    var next := c.(pins := c.pins + pins);
    && Usable(h.stack, next) && h.stack.config == Healed(next, h.stack.newSecret)
    && h.stack.disk == AfterApply(a, StageOf(h.stack, next)).disk
    && h.stack.loaded == AfterApply(a, StageOf(h.stack, next)).loaded
    && forall svc :: svc in h.services(k) ==> SwapFrame.Fresh(h.stack, svc)
  }

  /** systemd has read the disk, and can read the subsystem's units once the apply is through. */
  ghost predicate Ready(h: Host, k: Kind, c: Config, next: Config, s: Snapshot) {
    Usable(h.stack, next) && Synced(s) && forall svc :: svc in h.services(k) ==> Container(svc) in RenderNames(h, c)
  }

  /** Records the pins, applies the whole stack, restarts the subsystem's services and every
      running service whose unit the apply changed. */
  method Mutate(h: Host, k: Kind, pins: map<Component, Ref>) returns (ok: bool, restarted: seq<Service>)
    requires h.Wired() && h.stack.render(h.stack.config).Rendered? && pins.Keys <= h.components(k)
    modifies h`w, h`calls, h`trace, h.stack`config, h.stack`disk, h.stack`loaded, h.stack`up, h.stack`calls
    modifies h.stack`fired, h`openings
    ensures old(h.calls) <= h.calls && old(h.stack.calls) <= h.stack.calls && Aside(h, k, old(At(h)), At(h))
    ensures RecordMoved(h, k, old(h.stack.config), h.stack.config)
    ensures Midway(h, old(h.stack.config), old(h.stack.Snap()), h.stack.Snap(), ServiceSet(restarted), k)
    ensures ok ==> Advanced(h, k, old(h.stack.config), old(h.stack.Snap()), pins)
    ensures ok ==> forall svc :: svc in restarted ==> svc in h.stack.up
    ensures ok && h.stack.Smooth(old(h.stack.calls), h.stack.calls) ==>
      KeepsCoherence(h, old(h.stack.config).(pins := old(h.stack.config).pins + pins),
                     old(h.stack.Snap()), h.stack.Snap())
    ensures SmoothSince(h, old(h.calls), old(h.stack.calls)) ==>
      var c := old(h.stack.config);
      Ready(h, k, c, c.(pins := c.pins + pins), old(h.stack.Snap())) ==> ok
  {
    hide Host.Wired, Host.Smooth, Stack.Smooth, Aside, AfterApply, Midway, KeepsCoherence;
    ghost var c, at := h.stack.config, h.calls;
    restarted := [];
    NothingAside(h, k, At(h));
    NothingIsMidway(h, k, c, h.stack.Snap());
    HostSmoothThenOne(h, at, at);
    HostSmoothThenOne(h, at, at + 1);
    ok := true;
    if k.Agent? {
      // The binary it replaces is set aside first.
      ok := h.Ask();
    }
    if ok { ok := h.WritePins(pins); }
    if ok {
      ghost var mid := h.calls;
      ok, restarted := ApplyAndRestart(h, k, c);
      HostSmoothTwice(h, at, mid, h.calls);
      RecordMovedTwice(h, k, c, c.(pins := c.pins + pins), h.stack.config);
    }
  }

  method ApplyAndRestart(h: Host, k: Kind, ghost c: Config) returns (ok: bool, restarted: seq<Service>)
    requires h.Wired() && h.stack.render(c).Rendered? && RecordMoved(h, k, c, h.stack.config)
    modifies h`w, h`calls, h`trace, h.stack`config, h.stack`disk, h.stack`loaded, h.stack`up, h.stack`calls
    modifies h.stack`fired, h`openings
    ensures old(h.calls) <= h.calls && old(h.stack.calls) <= h.stack.calls && Aside(h, k, old(At(h)), At(h))
    ensures RecordMoved(h, k, old(h.stack.config), h.stack.config)
    ensures Midway(h, c, old(h.stack.Snap()), h.stack.Snap(), ServiceSet(restarted), k)
    ensures ok ==>
      Usable(h.stack, old(h.stack.config)) && h.stack.config == Healed(old(h.stack.config), h.stack.newSecret)
    ensures ok ==>
      h.stack.Snap() == AfterApply(old(h.stack.Snap()), StageOf(h.stack, old(h.stack.config))).(up := h.stack.up)
    ensures ok ==> forall svc :: svc in restarted || svc in h.services(k) ==> SwapFrame.Fresh(h.stack, svc)
    ensures h.stack.Smooth(old(h.stack.calls), h.stack.calls) ==>
      (ok ==> KeepsCoherence(h, old(h.stack.config), old(h.stack.Snap()), h.stack.Snap()))
      && (Ready(h, k, c, old(h.stack.config), old(h.stack.Snap())) ==> ok)
  {
    hide Host.Wired, Stack.Wired, Stack.Smooth, Aside, AfterApply, Midway, KeepsCoherence, Ready, AgreeOff,
         SwapFrame.EachTried, Placed, ReportCovers, Within, PlanOf, IsPlan, Complete, After, NothingNew;
    ghost var a, s, c1 := At(h), h.stack.Snap(), h.stack.config;
    restarted := [];
    NothingAside(h, k, a);
    var did;
    ghost var p;
    WiredStack(h);
    ok, did, p := Apply(h.stack, h.stack.config);
    ghost var mid, midway := h.stack.Snap(), h.stack.calls;
    ApplyIsPlaced(h, k, c, c1, s, did, p);
    ApplyIsMidway(h, k, c, s, mid, did, p);
    HealingMovesNoPin(h, k, c1);
    if !ok {
      assert ServiceSet([]) == {};
      ReadyIsUsable(h, k, c, c1, s);
      return;
    }
    PlansAreUnique(p, StageOf(h.stack, c1), s.disk);
    AppliedAsStaged(s, mid, StageOf(h.stack, c1), p, did);
    ok, restarted := SwapFrame.RestartChanged(h.stack, did.changed, h.services(k));
    SmoothTwice(h.stack, old(h.stack.calls), midway, h.stack.calls);
    RestartsAreMidway(h, k, c, s, mid, h.stack.Snap(), did.changed, restarted);
    if h.stack.Smooth(old(h.stack.calls), h.stack.calls) {
      if Ready(h, k, c, c1, s) { RestartedCanStart(h, k, c, c1, s, mid, restarted); }
      if ok { RestartsCohere(h, c1, s, h.stack.Snap(), restarted); }
    }
    OpenAll(h, k, restarted, ok, a.fired);
  }

  lemma HealingMovesNoPin(h: Host, k: Kind, c: Config)
    ensures RecordMoved(h, k, c, c) && RecordMoved(h, k, c, Healed(c, h.stack.newSecret))
  {
  }

  lemma ReadyIsUsable(h: Host, k: Kind, c: Config, next: Config, s: Snapshot)
    ensures Ready(h, k, c, next, s) ==> Usable(h.stack, next)
  {
  }

  /** What the apply changed it has read, and what it left alone was read before. */
  lemma RestartedCanStart(h: Host, k: Kind, c: Config, next: Config, s: Snapshot, mid: Snapshot,
                          restarted: seq<Service>)
    requires h.Wired() && RecordMoved(h, k, c, next) && h.stack.render(c).Rendered? && Ready(h, k, c, next, s)
    requires mid == AfterApply(s, StageOf(h.stack, next)) && h.stack.loaded == mid.loaded
    requires forall svc :: svc in restarted ==>
      svc in h.services(k) || Container(svc) in Names(PlanOf(StageOf(h.stack, next), s.disk).changed)
    ensures forall svc :: svc in restarted ==> h.stack.Startable(svc)
  {
    var st := StageOf(h.stack, next);
    HealedNames(h, k, c, next);
    WiredStack(h);
    ApplySettles(PlanOf(st, s.disk), st.units, s.disk, st.registry);
    EmptyIffSettled(PlanOf(st, s.disk), st.units, s.disk, st.registry);
    forall svc | svc in restarted ensures h.stack.Startable(svc) {
      assert Container(svc) in Names(st.units);
      var u :| u in st.units && u.name == Container(svc);
      assert OnDisk(mid.disk, u);
    }
  }

  /** Between two moments of a stack whose files are those of a stage: if every running
      service ran its unit and systemd had read them, so it is still. */
  ghost predicate KeepsCoherence(h: Host, next: Config, s: Snapshot, t: Snapshot) {
    Usable(h.stack, next) && WellStaged(StageOf(h.stack, next)) && Coherent(s, h.stack.natives) && Synced(s) ==>
      Coherent(t, h.stack.natives) && Synced(t)
  }

  lemma RestartsCohere(h: Host, next: Config, s: Snapshot, t: Snapshot, restarted: seq<Service>)
    requires Usable(h.stack, next) && t == AfterApply(s, StageOf(h.stack, next)).(up := t.up)
    requires AgreeOff(AfterApply(s, StageOf(h.stack, next)).up, t.up, ServiceSet(restarted))
    requires forall svc :: svc in restarted ==>
      svc in t.up && t.up[svc] == Definition(svc, t.loaded, h.stack.natives)
      && (svc in h.stack.natives || Container(svc) in t.loaded)
    requires var st := StageOf(h.stack, next);
      SwapFrame.EachTried(AfterApply(s, st).up, PlanOf(st, s.disk).changed, restarted)
    ensures KeepsCoherence(h, next, s, t)
  {
    if WellStaged(StageOf(h.stack, next)) && Coherent(s, h.stack.natives) && Synced(s) {
      SwapFrame.CutOverCoheresIff(s, t, StageOf(h.stack, next), restarted);
    }
  }

  lemma WiredStack(h: Host)
    requires h.Wired()
    ensures h.stack.Wired()
  {
  }

  lemma NothingIsMidway(h: Host, k: Kind, c: Config, s: Snapshot)
    ensures Midway(h, c, s, s, ServiceSet([]), k)
  {
  }

  // ------------------------------------------------------------------
  // Capture and rollback
  // ------------------------------------------------------------------

  /** The moment a transaction begins. */
  datatype Moment = Moment(config: Config, s: Snapshot, w: World)

  ghost function Now(h: Host): Moment
    reads h`w, h.stack`config, h.stack`disk, h.stack`loaded, h.stack`up
  {
    Moment(h.stack.config, h.stack.Snap(), h.w)
  }

  /** The pins and tuples a read of the record yields: none when it fails. */
  function SeenPins(c: Config, seen: bool): map<Component, Ref> {
    if seen then c.pins else map[]
  }

  /** The rollback point: pins, the tuple to displace, and every rendered file as it reads. */
  ghost predicate Captures(h: Host, k: Kind, c: Capture, b: Moment, seen: bool) {
    && h.stack.render(b.config).Rendered?
    && c.refs == h.RefsOf(SeenPins(b.config, seen), k)
    && c.prior == (if seen then PriorSnap(b.w, k) else NotTaken)
    && SwapFrame.CapturedFrom(c.units, b.s.disk) && c.units.Keys == RenderNames(h, b.config) * b.s.disk.Keys
  }

  /** Reads the rollback point. A record that cannot be read, the second call, is taken for an
      empty one. */
  method CaptureState(h: Host, k: Kind) returns (ok: bool, c: Capture)
    modifies h`calls, h.stack`calls
    ensures old(h.calls) <= h.calls && old(h.stack.calls) <= h.stack.calls
    ensures ok ==> Captures(h, k, c, Now(h), h.faults(old(h.calls) + 1).Fine?) && c.data.NotTaken?
    ensures h.Smooth(old(h.calls), h.calls) && h.stack.Smooth(old(h.stack.calls), h.stack.calls) ==>
      h.stack.render(h.stack.config).Rendered? ==> ok
  {
    hide Stack.Smooth, Plannable;
    c := Capture(map[], map[], NotTaken, NotTaken);
    ok := h.Ask();
    if !ok { return; }
    var read := h.Ask();
    var pins := if read then h.stack.config.pins else map[];
    var prior := if read then PriorSnap(h.w, k) else NotTaken;
    var plan, units;
    ok, plan := MakePlan(h.stack, h.stack.config);
    if !ok { return; }
    ghost var mid := h.stack.calls;
    ghost var rendered := h.stack.render(h.stack.config).units;
    ok, units := SwapFrame.ReadUnits(h.stack, Filenames(plan.changed) + Filenames(plan.same));
    SmoothTwice(h.stack, old(h.stack.calls), mid, h.stack.calls);
    if !ok { return; }
    FilenamesAre(plan.changed);
    FilenamesAre(plan.same);
    SwapFrame.RenderedAreChangedOrSame(plan, rendered, h.stack.disk, h.stack.registry);
    c := Capture(h.RefsOf(pins, k), units, NotTaken, prior);
    forall n ensures n in units <==> n in Names(rendered) && n in h.stack.disk {
      assert n in Names(rendered) <==> n in Names(plan.changed) || n in Names(plan.same);
    }
    assert units.Keys == Names(rendered) * h.stack.disk.Keys;
  }

  /** No call to host or stack failed since these. */
  ghost predicate SmoothSince(h: Host, at: nat, stackAt: nat)
    reads h`calls, h.stack`calls
  {
    h.Smooth(at, h.calls) && h.stack.Smooth(stackAt, h.stack.calls)
  }

  /** Every service a rollback gives a fresh start: those the mutation restarted, and with
      the data captured the whole subsystem. */
  function Again(h: Host, k: Kind, c: Capture, restarted: seq<Service>): seq<Service> {
    if c.data.Taken? then restarted + h.services(k) else restarted
  }

  /** Records the captured pins, writes the captured files, reloads, and restarts what the
      mutation restarted. */
  method PutTupleBack(h: Host, k: Kind, c: Capture, restarted: seq<Service>) returns (ok: bool)
    requires h.Wired() && c.refs.Keys <= h.components(k)
    modifies h`w, h`calls, h`trace, h.stack`config, h.stack`disk, h.stack`loaded, h.stack`up, h.stack`calls
    modifies h.stack`fired, h`openings
    ensures old(h.calls) <= h.calls && old(h.stack.calls) <= h.stack.calls && Aside(h, k, old(At(h)), At(h))
    ensures RecordMoved(h, k, old(h.stack.config), h.stack.config)
    ensures SmoothSince(h, old(h.calls), old(h.stack.calls)) ==>
      h.stack.loaded == old(h.stack.disk) + c.units
      && ((forall svc :: svc in restarted ==> h.stack.Startable(svc)) ==> ok)
    ensures ok ==> h.stack.config.pins == old(h.stack.config).pins + c.refs
    ensures ok ==> SwapFrame.GivenBack(old(h.stack.Snap()), h.stack.Snap(), c.units, restarted, h.stack.natives)
    ensures ok && h.Suits(k, VolumeOf(old(h.w), k), h.stack.disk) ==> VolumeOf(h.w, k) == VolumeOf(old(h.w), k)
  {
    hide Host.Wired, Host.Suits, Stack.Smooth, Host.Smooth;
    ghost var at, stackAt := h.calls, h.stack.calls;
    NothingAside(h, k, At(h));
    HostSmoothThenOne(h, at, at);
    SmoothOnce(h.stack, stackAt);
    ok := h.WritePins(c.refs);
    if !ok { return; }
    ok := SwapFrame.Restore(h.stack, c.units);
    SmoothThenOne(h.stack, stackAt, h.stack.calls);
    if !ok { return; }
    ok := h.stack.DaemonReload();
    if !ok { return; }
    ghost var mid := h.stack.calls;
    ok := RestartAgain(h, k, restarted);
    SmoothTwice(h.stack, stackAt, mid, h.stack.calls);
    HostSmoothTwice(h, at, at + 1, h.calls);
  }

  /** With the subsystem stopped: the data, then the tuple, and on every path the start. */
  method PutBackInWindow(h: Host, k: Kind, c: Capture, restarted: seq<Service>) returns (ok: bool)
    requires h.Wired() && c.refs.Keys <= h.components(k) && h.Stopped(k)
    requires c.data.Taken? && c.data.volume == k && Held(h.w, c.data)
    modifies h`w, h`calls, h`trace, h.stack`config, h.stack`disk, h.stack`loaded, h.stack`up, h.stack`calls
    modifies h.stack`fired, h`openings
    ensures old(h.calls) <= h.calls && old(h.stack.calls) <= h.stack.calls && Aside(h, k, old(At(h)), At(h))
    ensures SmoothSince(h, old(h.calls), old(h.stack.calls)) ==>
      h.stack.loaded == old(h.stack.disk) + c.units
      && ((forall svc :: svc in Again(h, k, c, restarted) ==> h.stack.Startable(svc)) ==> ok)
    ensures RecordMoved(h, k, old(h.stack.config), h.stack.config)
    ensures Asked(h.stack.fired, |old(h.stack.fired)|, h.services(k))
    ensures ok ==> h.stack.config.pins == old(h.stack.config).pins + c.refs
    ensures ok ==>
      SwapFrame.GivenBack(old(h.stack.Snap()), h.stack.Snap(), c.units, Again(h, k, c, restarted), h.stack.natives)
    ensures ok && h.Suits(k, Present(c.data.contents), h.stack.disk) ==> VolumeOf(h.w, k) == Present(c.data.contents)
  {
    hide Host.Suits, Host.Wired, Host.Smooth, Stack.Smooth, Aside, RecordMoved, Held, Filled, OnlyData,
         SwapFrame.GivenBack;
    ghost var a, s, at, stackAt := At(h), h.stack.Snap(), h.calls, h.stack.calls;
    RecordStays(h, k, h.stack.config);
    HeldMeans(h.w, c.data);
    ok := RestoreData(h, c.data);
    ghost var a1, at1 := At(h), h.calls;
    OwnDataAside(h, k, a, a1);
    SmoothOnce(h.stack, stackAt);
    if ok {
      ok := PutTupleBack(h, k, c, restarted);
      HostSmoothTwice(h, at, at1, h.calls);
      AsideTwice(h, k, a, a1, At(h));
      if ok { GivenBackSynced(s, h.stack.Snap(), c.units, restarted, h.stack.natives); }
    }
    ghost var mid, a2, at2, stackAt2 := h.stack.Snap(), At(h), h.calls, h.stack.calls;
    var started := SubsystemStart(h, k);
    HostSmoothTwice(h, at, at1, h.calls);
    HostSmoothTwice(h, at1, at2, h.calls);
    HostSmoothTwice(h, at, at2, h.calls);
    SmoothTwice(h.stack, stackAt, stackAt2, h.stack.calls);
    AgainMembers(h, k, c, restarted);
    AsideGrows(h, k, a, a2);
    StartedIsAsked(a.fired, a2.fired, h.stack.fired, h.services(k));
    StartedAside(h, k, a2, At(h));
    AsideTwice(h, k, a, a2, At(h));
    if ok && started {
      GivenBackInWindow(h, k, s, mid, h.stack.Snap(), c, restarted);
    }
    ok := ok && started;
  }

  lemma AgainMembers(h: Host, k: Kind, c: Capture, restarted: seq<Service>)
    ensures forall svc :: svc in Again(h, k, c, restarted) <==>
      svc in restarted || (c.data.Taken? && svc in h.services(k))
  {
  }

  lemma HeldMeans(w: World, snap: Snap)
    requires snap.Taken? && Held(w, snap)
    ensures snap.path in w.files && w.files[snap.path].bytes > 0 && w.files[snap.path].contents == snap.contents
  {
  }

  lemma GivenBackSynced(s: Snapshot, t: Snapshot, captured: map<UnitName, Text>, restarted: seq<Service>,
                        natives: map<Service, Text>)
    requires SwapFrame.GivenBack(s, t, captured, restarted, natives)
    ensures t.loaded == t.disk
  {
  }

  /** Stops, restores the data, puts the tuple back, starts, and proves again. A rollback
      that is complete has put everything back; any other says so. With data captured,
      every service of the subsystem is asked to start exactly when each of them could be
      stopped. One in which no call failed puts everything back that systemd can start, and
      is complete if the proof passes. */
  method Rollback(h: Host, k: Kind, c: Capture, restarted: seq<Service>) returns (incomplete: bool)
    requires h.Wired() && c.refs.Keys <= h.components(k)
    requires c.data.Taken? ==> Stateful(k) && c.data.volume == k && Held(h.w, c.data)
    modifies h`w, h`calls, h`trace, h.stack`config, h.stack`disk, h.stack`loaded, h.stack`up, h.stack`calls
    modifies h.stack`fired, h`openings
    ensures old(h.calls) <= h.calls && old(h.stack.calls) <= h.stack.calls && Aside(h, k, old(At(h)), At(h))
    ensures RecordMoved(h, k, old(h.stack.config), h.stack.config)
    ensures !incomplete ==> h.stack.config.pins == old(h.stack.config).pins + c.refs && h.Running(k)
    ensures !incomplete ==>
      SwapFrame.GivenBack(old(h.stack.Snap()), h.stack.Snap(), c.units, Again(h, k, c, restarted), h.stack.natives)
    ensures !incomplete && c.data.Taken? && h.Suits(k, Present(c.data.contents), h.stack.disk) ==>
      VolumeOf(h.w, k) == Present(c.data.contents)
    // every path but that of a stop that failed starts the subsystem
    ensures c.data.Taken? ==>
      (StopsAt(h, k, old(h.calls), old(h.stack.calls)) <==> Asked(h.stack.fired, |old(h.stack.fired)|, h.services(k)))
    ensures c.data.Taken? && !StopsAt(h, k, old(h.calls), old(h.stack.calls)) ==>
      incomplete && h.stack.fired == old(h.stack.fired) && h.w == old(h.w)
      && h.stack.config == old(h.stack.config) && h.stack.disk == old(h.stack.disk)
    ensures c.data.Taken? && h.faults(old(h.calls)).Fine? && h.stack.faults(old(h.stack.calls)).Landed? ==>
      h.services(k)[0] !in h.stack.up
    // which rollbacks are complete
    ensures SmoothSince(h, old(h.calls), old(h.stack.calls)) ==>
      h.stack.loaded == old(h.stack.disk) + c.units
      && ((forall svc :: svc in Again(h, k, c, restarted) ==> h.stack.Startable(svc)) ==>
            SwapFrame.GivenBack(old(h.stack.Snap()), h.stack.Snap(), c.units, Again(h, k, c, restarted),
                                h.stack.natives)
            && (h.Proves(old(h.calls), h.calls) && h.Running(k) ==> !incomplete))
  {
    hide Host.Suits, Host.Smooth, Host.Proves, Stack.Smooth, Aside, RecordMoved, Held, Thinned, SwapFrame.GivenBack;
    ghost var s, at, stackAt := h.stack.Snap(), h.calls, h.stack.calls;
    incomplete := true;
    NothingAside(h, k, At(h));
    RecordStays(h, k, h.stack.config);
    HostSmoothThenOne(h, at, at);
    var ok;
    if c.data.Taken? {
      ok := SubsystemStop(h, k);
      ghost var at1, stackAt1 := h.calls, h.stack.calls;
      if !ok {
        assert h.services(k)[0] in h.services(k);
        return;
      }
      ghost var thin := h.stack.Snap();
      ok := PutBackInWindow(h, k, c, restarted);
      HostSmoothTwice(h, at, at1, h.calls);
      SmoothTwice(h.stack, stackAt, stackAt1, h.stack.calls);
      if ok { GivenBackFromThin(h, k, s, thin, h.stack.Snap(), c, restarted); }
    } else {
      ok := PutTupleBack(h, k, c, restarted);
    }
    HostSmoothThenOne(h, at, h.calls);
    if !ok { return; }
    var p := h.Prove(k);
    incomplete := !p.Pass?;
  }

  lemma RecordStays(h: Host, k: Kind, c: Config)
    ensures RecordMoved(h, k, c, c)
  {
  }

  lemma AsideGrows(h: Host, k: Kind, a: Point, b: Point)
    requires Aside(h, k, a, b)
    ensures a.fired <= b.fired && a.trace <= b.trace && a.openings <= b.openings
    ensures b.w.files == a.w.files && b.w.previous == a.w.previous
  {
  }

  lemma StartedIsAsked(f0: seq<Service>, f1: seq<Service>, f2: seq<Service>, svcs: seq<Service>)
    requires f0 <= f1 && f2 == f1 + svcs
    ensures Asked(f2, |f0|, svcs)
  {
    forall svc | svc in svcs ensures exists i :: |f0| <= i < |f2| && f2[i] == svc {
      var j :| 0 <= j < |svcs| && svcs[j] == svc;
      assert f2[|f1| + j] == svc;
    }
  }

  lemma StartedAside(h: Host, k: Kind, a: Point, b: Point)
    requires OnlyData(a.w, b.w, k) && a.trace <= b.trace && AllKeepFinished(a.w, b.trace, |a.trace|)
    requires a.fired <= b.fired && a.openings <= b.openings
    ensures Aside(h, k, a, b)
  {
    OwnDataAside(h, k, a, b);
  }

  /** Stopped before and started after, the whole subsystem has had a fresh start. */
  lemma GivenBackInWindow(h: Host, k: Kind, s: Snapshot, mid: Snapshot, t: Snapshot, c: Capture,
                          restarted: seq<Service>)
    requires c.data.Taken? && forall svc :: svc in h.services(k) ==> svc !in s.up
    requires SwapFrame.GivenBack(s, mid, c.units, restarted, h.stack.natives)
    requires t == mid.(up := t.up) && t.loaded == h.stack.loaded && Filled(h.stack, mid.up, t.up, h.services(k))
    requires forall svc :: svc in h.services(k) ==> svc in t.up
    ensures SwapFrame.GivenBack(s, t, c.units, Again(h, k, c, restarted), h.stack.natives)
  {
    ServiceSetOfBoth(restarted, h.services(k));
    forall svc | svc in h.services(k)
      ensures t.up[svc] == Definition(svc, t.loaded, h.stack.natives)
      ensures (svc in h.stack.natives || Container(svc) in t.loaded) {
      if svc in mid.up {
        assert svc in restarted by {
          assert svc in ServiceSet(restarted) || (svc in mid.up <==> svc in s.up);
        }
      }
    }
  }

  lemma GivenBackFromThin(h: Host, k: Kind, s: Snapshot, thin: Snapshot, t: Snapshot, c: Capture,
                          restarted: seq<Service>)
    requires c.data.Taken? && thin == s.(up := thin.up) && Thinned(s.up, thin.up, h.services(k))
    requires SwapFrame.GivenBack(thin, t, c.units, Again(h, k, c, restarted), h.stack.natives)
    ensures SwapFrame.GivenBack(s, t, c.units, Again(h, k, c, restarted), h.stack.natives)
  {
    ServiceSetOfBoth(restarted, h.services(k));
  }

  // ------------------------------------------------------------------
  // What a rollback that is complete has put back
  // ------------------------------------------------------------------

  /** Every captured file reads as it did and only rendered files have come; every service
      that ran and is not retired runs, on the unit it ran on, and no other does. */
  ghost predicate StackPutBack(h: Host, c: Config, s: Snapshot, t: Snapshot) {
    && (forall n :: n in s.disk && (n in RenderNames(h, c) || n !in h.stack.registry) ==>
          n in t.disk && t.disk[n] == s.disk[n])
    && NothingNew(s.disk, t.disk, RenderNames(h, c) - s.disk.Keys)
    && Synced(t) && t.up.Keys <= s.up.Keys
    && (forall svc :: svc in s.up && !Retired(h, c, svc) ==> svc in t.up)
    && (Coherent(s, h.stack.natives) ==>
          Coherent(t, h.stack.natives) && forall svc :: svc in t.up ==> t.up[svc] == s.up[svc])
  }

  lemma FilesPutBack(h: Host, c: Config, s: Snapshot, mid: Snapshot, t: Snapshot, captured: map<UnitName, Text>,
                     again: set<Service>, k: Kind)
    requires Midway(h, c, s, mid, again, k) && t.disk == mid.disk + captured
    requires SwapFrame.CapturedFrom(captured, s.disk) && captured.Keys == RenderNames(h, c) * s.disk.Keys
    ensures forall n :: n in s.disk && (n in RenderNames(h, c) || n !in h.stack.registry) ==>
      n in t.disk && t.disk[n] == s.disk[n]
    ensures NothingNew(s.disk, t.disk, RenderNames(h, c) - s.disk.Keys)
  {
    hide RenderNames;
    forall n | n in s.disk && n in RenderNames(h, c) ensures n in captured {
      assert n in captured.Keys;
    }
    forall n | n in t.disk && n !in RenderNames(h, c) - s.disk.Keys ensures n in s.disk && t.disk[n] == s.disk[n] {
      assert n in captured <==> n in captured.Keys;
    }
  }

  lemma ServicesPutBack(h: Host, c: Config, s: Snapshot, mid: Snapshot, t: Snapshot, captured: map<UnitName, Text>,
                        again: seq<Service>, k: Kind)
    requires Midway(h, c, s, mid, ServiceSet(again), k) && SwapFrame.GivenBack(mid, t, captured, again, h.stack.natives)
    requires forall svc :: svc in h.services(k) ==> svc in s.up
    ensures t.up.Keys <= s.up.Keys && forall svc :: svc in s.up && !Retired(h, c, svc) ==> svc in t.up
    ensures forall svc :: svc in t.up ==>
      if svc in again then t.up[svc] == Definition(svc, t.disk, h.stack.natives)
         && (svc in h.stack.natives || Container(svc) in t.disk)
      else t.up[svc] == s.up[svc] && (Retired(h, c, svc) && Container(svc) in s.disk ==> Container(svc) in mid.disk)
  {
    hide RenderNames, Definition;
    forall svc ensures svc in again <==> svc in ServiceSet(again) {
    }
  }

  lemma CompleteRollback(h: Host, k: Kind, c: Config, s: Snapshot, mid: Snapshot, t: Snapshot,
                         captured: map<UnitName, Text>, again: seq<Service>)
    requires Midway(h, c, s, mid, ServiceSet(again), k) && SwapFrame.GivenBack(mid, t, captured, again, h.stack.natives)
    requires SwapFrame.CapturedFrom(captured, s.disk) && captured.Keys == RenderNames(h, c) * s.disk.Keys
    requires forall svc :: svc in h.services(k) ==> svc in s.up && Container(svc) in RenderNames(h, c)
    ensures StackPutBack(h, c, s, t)
  {
    hide RenderNames;
    FilesPutBack(h, c, s, mid, t, captured, ServiceSet(again), k);
    ServicesPutBack(h, c, s, mid, t, captured, again, k);
    if Coherent(s, h.stack.natives) {
      forall svc | svc in t.up ensures RunsItsUnit(t, svc, h.stack.natives) && t.up[svc] == s.up[svc] {
        assert RunsItsUnit(s, svc, h.stack.natives);
        if svc in again {
          assert svc in ServiceSet(again);
        } else if Retired(h, c, svc) {
          assert Container(svc) !in captured.Keys;
        }
      }
    }
  }

  /** No component runs another pin than it did. */
  ghost predicate SameEffective(h: Host, p: map<Component, Ref>, q: map<Component, Ref>) {
    forall c :: h.Effective(p, c) == h.Effective(q, c)
  }

  /** The record could be read, or there was nothing on it that mattered. */
  ghost predicate PinsKnown(h: Host, k: Kind, pins: map<Component, Ref>, seen: bool) {
    seen || forall c :: c in h.components(k) ==> h.Effective(pins, c) == h.vetted(c)
  }

  /** Every pin is what it was exactly when the capture could read the record. */
  lemma PinsPutBackIff(h: Host, k: Kind, before: map<Component, Ref>, mid: map<Component, Ref>, seen: bool)
    requires AgreeOff(before, mid, h.components(k))
    ensures SameEffective(h, before, mid + h.RefsOf(if seen then before else map[], k)) <==>
      PinsKnown(h, k, before, seen)
  {
    var after := mid + h.RefsOf(if seen then before else map[], k);
    forall c
      ensures h.Effective(after, c) == if c in h.components(k) && !seen then h.vetted(c) else h.Effective(before, c) {
    }
    if SameEffective(h, before, after) && !seen {
      forall c | c in h.components(k) ensures h.Effective(before, c) == h.vetted(c) {
        assert h.Effective(after, c) == h.vetted(c);
      }
    }
  }

  /** Files, services, tuples, data that fitted its unit, and pins that could be read. */
  ghost predicate PutBack(h: Host, k: Kind, b: Moment, n: Moment, seen: bool) {
    && StackPutBack(h, b.config, b.s, n.s) && n.w.previous == b.w.previous
    && (SameEffective(h, b.config.pins, n.config.pins) <==> PinsKnown(h, k, b.config.pins, seen))
    && (Stateful(k) && Coherent(b.s, h.stack.natives) && h.Suits(k, VolumeOf(b.w, k), b.s.disk) ==>
          VolumeOf(n.w, k) == VolumeOf(b.w, k))
  }

  /** A transaction that began at `b` and may still be undone. */
  ghost predicate Underway(h: Host, k: Kind, c: Capture, restarted: seq<Service>, b: Moment, seen: bool)
    reads h`w, h.stack`config, h.stack`disk, h.stack`loaded, h.stack`up
  {
    && Captures(h, k, c, b, seen) && RecordMoved(h, k, b.config, h.stack.config)
    && Midway(h, b.config, b.s, h.stack.Snap(), ServiceSet(Again(h, k, c, restarted)), k)
    && (Stateful(k) <==> c.data.Taken?)
    && (c.data.Taken? ==> c.data.volume == k && Held(h.w, c.data) && VolumeOf(b.w, k) == Present(c.data.contents))
    && h.w.previous == b.w.previous
    && h.Declared(b.config) && forall svc :: svc in h.services(k) ==> svc in b.s.up
  }

  /** What a subsystem runs on its own unit still suits its data. */
  lemma SuitsStill(h: Host, k: Kind, b: Moment, t: Snapshot)
    requires h.Wired() && StackPutBack(h, b.config, b.s, t) && h.Declared(b.config)
    requires h.stack.render(b.config).Rendered?
    requires forall svc :: svc in h.services(k) ==> svc in b.s.up
    ensures Coherent(b.s, h.stack.natives) && h.Suits(k, VolumeOf(b.w, k), b.s.disk) ==>
      h.Suits(k, VolumeOf(b.w, k), t.disk)
  {
    hide Stack.Wired;
    if Coherent(b.s, h.stack.natives) {
      forall svc | h.opens(svc) == Some(k)
        ensures Container(svc) in b.s.disk && Container(svc) in RenderNames(h, b.config) {
        assert svc in h.services(k) && RunsItsUnit(b.s, svc, h.stack.natives);
      }
    }
  }

  /** No service of any subsystem that ran before is down. */
  ghost predicate ServicesStay(h: Host, a: map<Service, Text>, b: map<Service, Text>) {
    forall j, svc :: svc in h.services(j) && svc in a ==> svc in b
  }

  /** On a coherent host systemd can start again all that a rollback restarts. */
  lemma AgainCanStart(h: Host, k: Kind, c: Capture, restarted: seq<Service>, b: Moment, mid: Snapshot, seen: bool)
    requires h.Wired() && Captures(h, k, c, b, seen) && h.Declared(b.config) && Coherent(b.s, h.stack.natives)
    requires Midway(h, b.config, b.s, mid, ServiceSet(Again(h, k, c, restarted)), k)
    requires forall svc :: svc in h.services(k) ==> svc in b.s.up
    requires h.stack.loaded == mid.disk + c.units
    ensures forall svc :: svc in Again(h, k, c, restarted) ==> h.stack.Startable(svc)
  {
    DeclaredFiles(h, b.config);
    forall svc | svc in Again(h, k, c, restarted) ensures h.stack.Startable(svc) {
      assert svc in ServiceSet(Again(h, k, c, restarted));
      assert svc in b.s.up && Container(svc) in RenderNames(h, b.config);
      assert RunsItsUnit(b.s, svc, h.stack.natives);
      if svc !in h.stack.natives {
        assert Container(svc) in RenderNames(h, b.config) * b.s.disk.Keys;
        assert Container(svc) in c.units;
      }
    }
  }

  /** Undoes what is under way. */
  method Undo(h: Host, k: Kind, c: Capture, restarted: seq<Service>, ghost b: Moment, ghost seen: bool)
    returns (incomplete: bool)
    requires h.Wired() && Underway(h, k, c, restarted, b, seen)
    modifies h`w, h`calls, h`trace, h.stack`config, h.stack`disk, h.stack`loaded, h.stack`up, h.stack`calls
    modifies h.stack`fired, h`openings
    ensures old(h.calls) <= h.calls && old(h.stack.calls) <= h.stack.calls && Aside(h, k, old(At(h)), At(h))
    ensures RecordMoved(h, k, b.config, h.stack.config)
    ensures !incomplete ==> PutBack(h, k, b, Now(h), seen) && h.Running(k) && ServicesStay(h, b.s.up, h.stack.up)
    ensures SmoothSince(h, old(h.calls), old(h.stack.calls)) && h.Proves(old(h.calls), h.calls) ==>
      Coherent(b.s, h.stack.natives) ==> !incomplete
  {
    hide Aside, RecordMoved, Midway, Held, StackPutBack, SwapFrame.GivenBack, SameEffective, PinsKnown, Host.Wired,
         Host.Suits, Captures, Coherent;
    ghost var mid, c1, a, at, stackAt := h.stack.Snap(), h.stack.config, At(h), h.calls, h.stack.calls;
    RefsAreOwn(h, k, c, b, seen);
    CapturesFiles(h, k, c, b, seen);
    incomplete := Rollback(h, k, c, restarted);
    RecordMovedTwice(h, k, b.config, c1, h.stack.config);
    AsideGrows(h, k, a, At(h));
    DeclaredFiles(h, b.config);
    if SmoothSince(h, at, stackAt) && Coherent(b.s, h.stack.natives) {
      AgainCanStart(h, k, c, restarted, b, mid, seen);
      CompleteRollback(h, k, b.config, b.s, mid, h.stack.Snap(), c.units, Again(h, k, c, restarted));
      StayingServices(h, b.config, b.s, h.stack.Snap());
    }
    if !incomplete {
      CompleteRollback(h, k, b.config, b.s, mid, h.stack.Snap(), c.units, Again(h, k, c, restarted));
      PinsMoved(h, k, b.config, c1);
      PinsPutBackIff(h, k, b.config.pins, c1.pins, seen);
      SuitsStill(h, k, b, h.stack.Snap());
      StayingServices(h, b.config, b.s, h.stack.Snap());
    }
  }

  lemma CapturesFiles(h: Host, k: Kind, c: Capture, b: Moment, seen: bool)
    requires Captures(h, k, c, b, seen)
    ensures h.stack.render(b.config).Rendered? && SwapFrame.CapturedFrom(c.units, b.s.disk)
    ensures c.units.Keys == RenderNames(h, b.config) * b.s.disk.Keys
    ensures c.refs == h.RefsOf(SeenPins(b.config, seen), k)
  {
  }

  lemma RefsAreOwn(h: Host, k: Kind, c: Capture, b: Moment, seen: bool)
    requires Captures(h, k, c, b, seen)
    ensures c.refs.Keys <= h.components(k)
  {
  }

  lemma PinsMoved(h: Host, k: Kind, a: Config, b: Config)
    requires RecordMoved(h, k, a, b)
    ensures AgreeOff(a.pins, b.pins, h.components(k))
  {
  }

  lemma DeclaredFiles(h: Host, c: Config)
    requires h.Declared(c) && h.stack.render(c).Rendered?
    ensures forall k, svc :: svc in h.services(k) ==> Container(svc) in RenderNames(h, c)
  {
  }

  lemma StayingServices(h: Host, c: Config, s: Snapshot, t: Snapshot)
    requires StackPutBack(h, c, s, t) && forall k, svc :: svc in h.services(k) ==> Container(svc) in RenderNames(h, c)
    ensures ServicesStay(h, s.up, t.up)
  {
  }
}
