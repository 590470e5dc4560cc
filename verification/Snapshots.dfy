/** Taking a data snapshot inside the stopped window, and putting one back. */
module Snapshots {
  import opened Options
  import opened StackHost
  import opened StackApply
  import opened UpdateHost

  /** Retaining an export keeps every rollback target safe exactly when no target recorded
      under the same name held anything else: names must not repeat. */
  lemma RetainKeepsSafeIff(w: World, tmp: Path, out: Path)
    requires Safe(w) && tmp.partial && !out.partial && tmp in w.files && w.files[tmp].bytes > 0
    ensures Safe(w.(files := (w.files - {tmp})[out := w.files[tmp]])) <==>
      forall k :: k in w.previous && w.previous[k].data.Taken? && w.previous[k].data.path == out ==>
        w.previous[k].data.contents == w.files[tmp].contents
  {
    var w' := w.(files := (w.files - {tmp})[out := w.files[tmp]]);
    forall k | k in w.previous && w.previous[k].data.Taken?
      ensures Held(w', w.previous[k].data) <==> w.previous[k].data.path == out ==>
        w.previous[k].data.contents == w.files[tmp].contents {
      assert Held(w, w.previous[k].data);
    }
  }

  /** Finished snapshots stay as they are; tuples stay as they are. */
  ghost predicate KeepsFinished(a: World, b: World) {
    && b.previous == a.previous
    && forall p :: p in a.files && !p.partial ==> p in b.files && b.files[p] == a.files[p]
  }

  lemma KeepsFinishedKeepsSafe(a: World, b: World)
    requires Safe(a) && KeepsFinished(a, b)
    ensures Safe(b)
  {
    forall k | k in b.previous && b.previous[k].data.Taken? ensures Held(b, b.previous[k].data) {
      assert Held(a, a.previous[k].data);
    }
  }

  ghost predicate AllKeepFinished(a: World, trace: seq<World>, from: nat) {
    forall i :: from <= i < |trace| ==> KeepsFinished(a, trace[i])
  }

  lemma KeptFinishedSafely(a: World, trace: seq<World>, from: nat)
    requires Safe(a) && AllKeepFinished(a, trace, from)
    ensures AllSafe(trace, from)
  {
    forall i | from <= i < |trace| ensures Safe(trace[i]) {
      KeepsFinishedKeepsSafe(a, trace[i]);
    }
  }

  /** Some of these services may have gone; nothing else about what runs has changed. */
  ghost predicate Thinned(a: map<Service, Text>, b: map<Service, Text>, svcs: seq<Service>) {
    b.Keys <= a.Keys && AgreeOff(a, b, ServiceSet(svcs)) && forall svc :: svc in b ==> b[svc] == a[svc]
  }

  /** What ran still runs as it did; of these services some have come up beside it, from
      what systemd has loaded. */
  ghost predicate Filled(h: Stack, a: map<Service, Text>, b: map<Service, Text>, svcs: seq<Service>)
    reads h`loaded
  {
    && (forall svc :: svc in a ==> svc in b && b[svc] == a[svc])
    && (forall svc :: svc in b && svc !in a ==>
          svc in svcs && b[svc] == Definition(svc, h.loaded, h.natives) && h.Startable(svc))
  }

  /** Nothing but the volume of one subsystem may have changed. */
  ghost predicate OnlyData(a: World, b: World, k: Kind) {
    b == a.(volumes := b.volumes) && forall j :: j != k ==> VolumeOf(b, j) == VolumeOf(a, j)
  }

  /** Stopping this subsystem, begun with these calls, succeeds: each service takes one call
      of the host and one of the stack. */
  ghost predicate StopsAt(h: Host, k: Kind, at: nat, stackAt: nat) {
    h.Smooth(at, at + |h.services(k)|) && h.stack.Smooth(stackAt, stackAt + |h.services(k)|)
  }

  /** Stops a subsystem's services, one after the other. */
  method SubsystemStop(h: Host, k: Kind) returns (ok: bool)
    modifies h`calls, h.stack`up, h.stack`calls
    ensures old(h.calls) <= h.calls && Thinned(old(h.stack.up), h.stack.up, h.services(k))
    ensures old(h.stack.calls) <= h.stack.calls
    ensures ok <==> StopsAt(h, k, old(h.calls), old(h.stack.calls))
    ensures ok <==> h.Smooth(old(h.calls), h.calls) && h.stack.Smooth(old(h.stack.calls), h.stack.calls)
    ensures ok ==> h.Stopped(k)
    ensures h.services(k) != [] && h.faults(old(h.calls)).Fine? && h.stack.faults(old(h.stack.calls)).Landed? ==>
      !ok && h.services(k)[0] !in h.stack.up
  {
    ok := true;
    for i := 0 to |h.services(k)|
      invariant ok && old(h.calls) <= h.calls && Thinned(old(h.stack.up), h.stack.up, h.services(k))
      invariant forall j :: 0 <= j < i ==> h.services(k)[j] !in h.stack.up
      invariant h.calls == old(h.calls) + i && h.stack.calls == old(h.stack.calls) + i
      invariant h.Smooth(old(h.calls), h.calls) && h.stack.Smooth(old(h.stack.calls), h.stack.calls)
    {
      // An interrupted run stops nothing more.
      ok := h.Ask();
      if !ok { return; }
      ok := h.stack.Stop(h.services(k)[i]);
      if !ok { return; }
    }
  }

  /** Starts one service, which opens its data when it comes up. */
  method StartOne(h: Host, k: Kind, svc: Service) returns (ok: bool)
    requires h.Wired() && svc in h.services(k)
    modifies h`w, h`calls, h`trace, h`openings, h.stack`up, h.stack`calls, h.stack`fired
    ensures old(h.calls) <= h.calls && h.stack.fired == old(h.stack.fired) + [svc]
    ensures Starting(h, k, old(h.stack.up), h.stack.up, old(h.w), h.w, old(h.trace), h.trace, [svc])
    ensures h.stack.calls == old(h.stack.calls) + 1 && old(h.openings) <= h.openings
    ensures ok <==> h.stack.faults(old(h.stack.calls)).Fine? && (svc in old(h.stack.up) || h.stack.Startable(svc))
    ensures ok ==> svc in h.stack.up
  {
    OpenerIsItsOwn(h, k, svc);
    hide Host.Wired, Host.Suits, Starting;
    ghost var up, w, trace := h.stack.up, h.w, h.trace;
    var was := svc in h.stack.up;
    ok := h.stack.Start(svc);
    if was {
      StartedNothing(h, k, svc, up, w, trace);
    } else {
      h.OpenData(svc, ok);
      StartedOne(h, k, svc, up, h.stack.up, w, h.w, trace, h.trace);
    }
  }

  lemma StartedNothing(h: Host, k: Kind, svc: Service, up: map<Service, Text>, w: World, trace: seq<World>)
    ensures Starting(h, k, up, up, w, w, trace, trace, [svc])
  {
  }

  lemma StartedOne(h: Host, k: Kind, svc: Service, up: map<Service, Text>, up': map<Service, Text>, w: World, w': World,
                   trace: seq<World>, trace': seq<World>)
    requires svc !in up && trace' == trace + [w'] && w' == w.(volumes := w'.volumes)
    requires h.opens(svc).Some? ==> h.opens(svc).value == k && svc !in h.stack.natives
    requires up' == up
          || (h.stack.Startable(svc) && up' == up[svc := Definition(svc, h.stack.loaded, h.stack.natives)])
    requires w'.volumes == w.volumes
          || (h.opens(svc).Some? && h.stack.Startable(svc)
              && w'.volumes == w.volumes[k := h.Opened(Definition(svc, h.stack.loaded, h.stack.natives),
                                                       VolumeOf(w, k))])
    ensures Starting(h, k, up, up', w, w', trace, trace', [svc])
  {
    hide Host.Opened;
    assert forall j :: j != k ==> VolumeOf(w', j) == VolumeOf(w, j);
    if h.Suits(k, VolumeOf(w, k), h.stack.loaded) && w'.volumes != w.volumes {
      assert Container(svc) in h.stack.loaded;
    }
  }

  /** Two stretches of a run, the second from a world with the same files and tuples. */
  lemma TrailTwice(a: World, b: World, t1: seq<World>, t2: seq<World>, n: nat)
    requires n <= |t1| && t1 <= t2 && AllKeepFinished(a, t1, n) && AllKeepFinished(b, t2, |t1|)
    requires b.files == a.files && b.previous == a.previous
    ensures AllKeepFinished(a, t2, n)
  {
    forall i | n <= i < |t2| ensures KeepsFinished(a, t2[i]) {
      if i < |t1| { assert t2[i] == t1[i]; }
    }
  }

  /** What asking some of a subsystem's services to start has done so far. */
  ghost predicate Starting(h: Host, k: Kind, up: map<Service, Text>, up': map<Service, Text>, w: World, w': World,
                           trace: seq<World>, trace': seq<World>, svcs: seq<Service>)
    reads h.stack`loaded
  {
    && Filled(h.stack, up, up', svcs) && OnlyData(w, w', k)
    && (h.Suits(k, VolumeOf(w, k), h.stack.loaded) ==> VolumeOf(w', k) == VolumeOf(w, k))
    && trace <= trace' && AllKeepFinished(w, trace', |trace|)
  }

  lemma NoneStarted(h: Host, k: Kind, up: map<Service, Text>, w: World, trace: seq<World>)
    ensures Starting(h, k, up, up, w, w, trace, trace, [])
  {
  }

  lemma OneMoreStarted(h: Host, k: Kind, up0: map<Service, Text>, up1: map<Service, Text>, up2: map<Service, Text>,
                       w0: World, w1: World, w2: World, t0: seq<World>, t1: seq<World>, t2: seq<World>,
                       svcs: seq<Service>, svc: Service)
    requires Starting(h, k, up0, up1, w0, w1, t0, t1, svcs) && Starting(h, k, up1, up2, w1, w2, t1, t2, [svc])
    ensures Starting(h, k, up0, up2, w0, w2, t0, t2, svcs + [svc]) && forall other :: other in up1 ==> other in up2
  {
    hide Host.Suits;
    TrailTwice(w0, w1, t1, t2, |t0|);
    PrefixTwice(t0, t1, t2);
  }

  /** Asks every one of a subsystem's services to start, whichever of them fail. */
  method SubsystemStart(h: Host, k: Kind) returns (ok: bool)
    requires h.Wired()
    modifies h`w, h`calls, h`trace, h`openings, h.stack`up, h.stack`calls, h.stack`fired
    ensures old(h.calls) <= h.calls && h.stack.fired == old(h.stack.fired) + h.services(k)
    ensures old(h.stack.calls) <= h.stack.calls && old(h.openings) <= h.openings
    ensures ok <==>
      h.stack.Smooth(old(h.stack.calls), h.stack.calls)
      && forall svc :: svc in h.services(k) ==> svc in old(h.stack.up) || h.stack.Startable(svc)
    ensures Filled(h.stack, old(h.stack.up), h.stack.up, h.services(k))
    ensures ok ==> h.Running(k)
    ensures OnlyData(old(h.w), h.w, k)
    ensures h.Suits(k, VolumeOf(old(h.w), k), h.stack.loaded) ==> VolumeOf(h.w, k) == VolumeOf(old(h.w), k)
    ensures old(h.trace) <= h.trace && AllKeepFinished(old(h.w), h.trace, |old(h.trace)|)
  {
    hide Host.Wired, Host.Suits, Stack.Smooth, AllKeepFinished, OnlyData, Filled;
    ok := true;
    SmoothOnce(h.stack, h.stack.calls);
    var svcs := h.services(k);
    NoneStarted(h, k, h.stack.up, h.w, h.trace);
    for i := 0 to |svcs|
      invariant old(h.calls) <= h.calls && h.stack.fired == old(h.stack.fired) + svcs[..i]
      invariant ok ==> forall j :: 0 <= j < i ==> svcs[j] in h.stack.up
      invariant old(h.stack.calls) <= h.stack.calls && old(h.openings) <= h.openings
      invariant ok <==>
        h.stack.Smooth(old(h.stack.calls), h.stack.calls)
        && forall j :: 0 <= j < i ==> svcs[j] in old(h.stack.up) || h.stack.Startable(svcs[j])
      invariant Starting(h, k, old(h.stack.up), h.stack.up, old(h.w), h.w, old(h.trace), h.trace, svcs[..i])
    {
      hide Starting;
      ghost var w1, up1, t1 := h.w, h.stack.up, h.trace;
      SmoothThenOne(h.stack, old(h.stack.calls), h.stack.calls);
      StartsAnyway(h.stack, old(h.stack.up), up1, svcs[..i], svcs[i]) by {
        StartingMeans(h, k, old(h.stack.up), up1, old(h.w), w1, old(h.trace), t1, svcs[..i]);
      }
      var started := StartOne(h, k, svcs[i]);
      assert svcs[..i+1] == svcs[..i] + [svcs[i]];
      OneMoreStarted(h, k, old(h.stack.up), up1, h.stack.up, old(h.w), w1, h.w, old(h.trace), t1, h.trace, svcs[..i],
                     svcs[i]);
      ok := ok && started;
    }
    assert svcs[..|svcs|] == svcs;
  }

  lemma StartingMeans(h: Host, k: Kind, up: map<Service, Text>, up': map<Service, Text>, w: World, w': World,
                      trace: seq<World>, trace': seq<World>, svcs: seq<Service>)
    requires Starting(h, k, up, up', w, w', trace, trace', svcs)
    ensures Filled(h.stack, up, up', svcs)
  {
  }

  /** Whether a service can start does not depend on those started before it. */
  lemma StartsAnyway(h: Stack, a: map<Service, Text>, b: map<Service, Text>, svcs: seq<Service>, svc: Service)
    requires Filled(h, a, b, svcs)
    ensures svc in b || h.Startable(svc) <==> svc in a || h.Startable(svc)
  {
  }

  lemma OpenerIsItsOwn(h: Host, k: Kind, svc: Service)
    requires h.Wired() && svc in h.services(k)
    ensures h.opens(svc).Some? ==> h.opens(svc).value == k && svc !in h.stack.natives
  {
  }

  lemma PartialMayChange(w0: World, a: World, b: World, tmp: Path)
    requires KeepsFinished(w0, a) && tmp.partial && b.previous == a.previous && b.files - {tmp} == a.files - {tmp}
    ensures KeepsFinished(w0, b)
  {
    forall p | p in w0.files && !p.partial ensures p in b.files && b.files[p] == w0.files[p] {
      assert p in a.files - {tmp} && (a.files - {tmp})[p] == a.files[p];
      assert p in b.files - {tmp} && (b.files - {tmp})[p] == b.files[p];
    }
  }

  lemma NewNameKeepsFinished(w0: World, a: World, tmp: Path, out: Path)
    requires KeepsFinished(w0, a) && tmp.partial && tmp in a.files && out !in a.files
    ensures KeepsFinished(w0, a.(files := (a.files - {tmp})[out := a.files[tmp]]))
  {
  }

  /** The end of a capture: an export that is not empty takes its name, any other goes. */
  method RetainExport(h: Host, tmp: Path, out: Path, exported: bool, ghost w0: World) returns (ok: bool)
    requires tmp.partial && !out.partial && (exported ==> tmp in h.w.files)
    modifies h`w, h`calls, h`trace, h`collided
    ensures old(h.calls) <= h.calls && h.w == old(h.w).(files := h.w.files)
    ensures old(h.trace) <= h.trace
    ensures h.Smooth(old(h.calls), h.calls) && exported && old(h.w.files)[tmp].bytes > 0 ==> ok
    ensures ok ==> exported && out in h.w.files && h.w.files[out] == old(h.w.files)[tmp] && h.w.files[out].bytes > 0
    ensures ok && !h.collided ==> out !in old(h.w.files)
    ensures old(h.collided) ==> h.collided
    ensures out !in old(h.w.files) ==> h.collided == old(h.collided)
    ensures h.w.files.Keys <= old(h.w.files.Keys) + {out}
    ensures !h.collided && KeepsFinished(w0, old(h.w)) ==>
      KeepsFinished(w0, h.w) && AllKeepFinished(w0, h.trace, |old(h.trace)|)
  {
    hide KeepsFinished;
    ghost var w2 := h.w;
    ok := false;
    if exported {
      var fine := h.Ask();
      if fine && h.w.files[tmp].bytes > 0 {
        ok := h.Retain(tmp, out);
        if out !in w2.files && KeepsFinished(w0, w2) { NewNameKeepsFinished(w0, w2, tmp, out); }
        if ok { return; }
      }
    }
    ghost var w3, was := h.w, h.collided;
    var _ := h.RemoveFile(tmp);
    if !was && KeepsFinished(w0, w2) { PartialMayChange(w0, w3, h.w, tmp); }
  }

  /** Exports a stopped subsystem's volume into a partial file, in place of whatever an earlier
      attempt left there. */
  method ExportBeside(h: Host, k: Kind, tmp: Path) returns (ok: bool)
    requires h.Stopped(k) && tmp.partial
    modifies h`w, h`calls, h`trace
    ensures h.calls == old(h.calls) + 2 && h.w == old(h.w).(files := h.w.files)
    ensures old(h.trace) <= h.trace && h.w.files.Keys <= old(h.w.files.Keys) + {tmp}
    ensures KeepsFinished(old(h.w), h.w) && AllKeepFinished(old(h.w), h.trace, |old(h.trace)|)
    ensures h.Smooth(old(h.calls), h.calls) ==> (ok <==> VolumeOf(h.w, k).Present?)
    ensures ok ==>
      VolumeOf(h.w, k).Present? && tmp in h.w.files && h.w.files[tmp].contents == VolumeOf(h.w, k).contents
      && h.w.files[tmp].bytes == h.exportBytes(h.calls)
  {
    hide KeepsFinished;
    ghost var w0, t0 := h.w, h.trace;
    KeepsFinishedSelf(w0);
    ok := h.RemoveFile(tmp);
    PartialMayChange(w0, w0, h.w, tmp);
    ghost var w1 := h.w;
    ok := h.VolumeExport(k, tmp);
    PartialMayChange(w0, w1, h.w, tmp);
    OnlyTheExportIsNew(w1, h.w, tmp);
    TrailThrough(w0, w1, h.w, t0, h.trace);
  }

  /** Exports a stopped subsystem's volume beside where it is to be retained, under a stamp of
      its own, and retains it only once it is complete. */
  method Export(h: Host, k: Kind) returns (ok: bool, snap: Snap)
    requires h.Stopped(k)
    modifies h`w, h`calls, h`trace, h`collided
    ensures old(h.calls) <= h.calls && h.w == old(h.w).(files := h.w.files) && old(h.trace) <= h.trace
    ensures (ok <==> snap.Taken?) && (old(h.collided) ==> h.collided)
    ensures h.Smooth(old(h.calls), h.calls) && (forall n :: h.exportBytes(n) > 0) ==>
      (ok <==> VolumeOf(old(h.w), k).Present?)
    ensures ok ==> snap.volume == k && VolumeOf(h.w, k) == Present(snap.contents) && Held(h.w, snap)
    ensures ok && !h.collided ==> snap.path !in old(h.w.files)
    ensures h.FreshFor(old(h.w.files.Keys), old(h.calls)) ==>
      h.FreshFor(h.w.files.Keys, h.calls) && h.collided == old(h.collided)
    ensures !h.collided ==> KeepsFinished(old(h.w), h.w) && AllKeepFinished(old(h.w), h.trace, |old(h.trace)|)
  {
    hide KeepsFinished, AllKeepFinished, Host.Smooth, Host.FreshFor;
    ghost var w0, at, t0 := h.w, h.calls, h.trace;
    snap := NotTaken;
    var stamp := h.clock(h.calls);
    var out, tmp := Path(k, stamp, false), Path(k, stamp, true);
    var fine := ExportBeside(h, k, tmp);
    ghost var w2, t2 := h.w, h.trace;
    if h.FreshFor(w0.files.Keys, at) { StampIsNew(h, w0.files.Keys, w2.files.Keys, at, at, out, tmp); }
    ok := RetainExport(h, tmp, out, fine, w0);
    HostSmoothTwice(h, at, at + 2, h.calls);
    TrailOn(w0, t0, t2, h.trace);
    if h.FreshFor(w0.files.Keys, at) { StampIsSpent(h, w0.files.Keys, h.w.files.Keys, at, at, h.calls, out, tmp); }
    if ok {
      NewPathIsNew(w0, w2, out);
      snap := Taken(k, out, VolumeOf(h.w, k).contents);
    }
  }

  lemma TrailOn(a: World, t0: seq<World>, t1: seq<World>, t: seq<World>)
    requires t0 <= t1 <= t && AllKeepFinished(a, t1, |t0|)
    ensures t0 <= t && (AllKeepFinished(a, t, |t1|) ==> AllKeepFinished(a, t, |t0|))
  {
    forall i | |t0| <= i < |t1| ensures t[i] == t1[i] {
    }
  }

  /** Exports the stopped subsystem's volume, and retains it only once it is complete. */
  method SnapshotData(h: Host, k: Kind) returns (ok: bool, snap: Snap)
    requires h.Stopped(k)
    modifies h`w, h`calls, h`trace, h`collided
    ensures old(h.calls) <= h.calls && h.w == old(h.w).(files := h.w.files)
    ensures old(h.trace) <= h.trace
    ensures ok <==> snap.Taken?
    ensures h.Smooth(old(h.calls), h.calls) && (forall n :: h.exportBytes(n) > 0) ==>
      (ok <==> Stateful(k) && VolumeOf(old(h.w), k).Present?)
    ensures ok ==> snap.volume == k && VolumeOf(h.w, k) == Present(snap.contents) && Held(h.w, snap)
    ensures ok && !h.collided ==> snap.path !in old(h.w.files)
    ensures old(h.collided) ==> h.collided
    ensures old(h.FreshStamps()) ==> h.FreshStamps() && h.collided == old(h.collided)
    ensures !h.collided ==> KeepsFinished(old(h.w), h.w) && AllKeepFinished(old(h.w), h.trace, |old(h.trace)|)
  {
    hide KeepsFinished, Host.Smooth, Host.FreshFor, Held;
    ghost var at := h.calls;
    HostSmoothThenOne(h, at, at);
    HostSmoothThenOne(h, at, at + 1);
    ok, snap := false, NotTaken;
    KeepsFinishedSelf(h.w);
    FreshLater(h, h.w.files.Keys, at, at + 1);
    FreshLater(h, h.w.files.Keys, at, at + 2);
    var fine := h.Ask();
    if !fine || !Stateful(k) { return; }
    fine := h.Ask();
    if !fine { return; }
    ok, snap := Export(h, k);
    HostSmoothTwice(h, at, at + 2, h.calls);
  }

  lemma FreshLater(h: Host, paths: set<Path>, from: nat, to: nat)
    requires from <= to
    ensures h.FreshFor(paths, from) ==> h.FreshFor(paths, to)
  {
  }

  /** The stamp of a capture is one no file carries. */
  lemma StampIsNew(h: Host, a: set<Path>, b: set<Path>, from: nat, n: nat, out: Path, tmp: Path)
    requires h.FreshFor(a, from) && n >= from && out.stamp == h.clock(n) && out != tmp && b <= a + {tmp}
    ensures out !in b
  {
  }

  lemma StampIsSpent(h: Host, a: set<Path>, b: set<Path>, from: nat, n: nat, to: nat, out: Path, tmp: Path)
    requires h.FreshFor(a, from) && from <= n < to && out.stamp == tmp.stamp == h.clock(n) && b <= a + {tmp, out}
    ensures h.FreshFor(b, to)
  {
  }

  lemma OnlyTheExportIsNew(a: World, b: World, tmp: Path)
    requires b.files - {tmp} == a.files - {tmp}
    ensures b.files.Keys <= a.files.Keys + {tmp}
  {
    forall p | p in b.files ensures p in a.files.Keys + {tmp} {
      assert p in b.files - {tmp} <==> p != tmp;
    }
  }

  lemma KeepsFinishedSelf(w: World)
    ensures KeepsFinished(w, w)
  {
  }

  lemma NewPathIsNew(w0: World, w: World, out: Path)
    requires KeepsFinished(w0, w) && !out.partial
    ensures out !in w.files ==> out !in w0.files
  {
  }

  // ------------------------------------------------------------------
  // Putting one back
  // ------------------------------------------------------------------

  /** A snapshot that cannot stand for the data: never taken, gone from disk, or empty. */
  predicate Unusable(w: World, snap: Snap) {
    snap.NotTaken? || snap.path !in w.files || w.files[snap.path].bytes == 0
  }

  /** Removes the volume, if it is there, and makes it anew. */
  method MakeAnew(h: Host, k: Kind) returns (ok: bool)
    modifies h`w, h`calls, h`trace
    ensures h.calls <= old(h.calls) + 2 && old(h.calls) <= h.calls && h.w == old(h.w).(volumes := h.w.volumes)
    ensures ok ==> h.Smooth(old(h.calls), h.calls) && VolumeOf(h.w, k) == Present(map[])
    ensures h.Smooth(old(h.calls), h.calls) && h.Stopped(k) ==> ok
    ensures forall j :: j != k ==> VolumeOf(h.w, j) == VolumeOf(old(h.w), j)
    ensures old(h.trace) <= h.trace && AllKeepFinished(old(h.w), h.trace, |old(h.trace)|)
  {
    hide KeepsFinished, AllKeepFinished;
    ghost var w0, n := h.w, |h.trace|;
    ok := false;
    TrailStarts(w0, h.trace);
    var gone, notFound := h.VolumeRm(k);
    TrailMore(w0, h.w, h.trace[..|h.trace| - 1], n);
    if !gone && !notFound { return; }
    var made, there := h.VolumeCreate(k);
    TrailMore(w0, h.w, h.trace[..|h.trace| - 1], n);
    ok := made || there;
  }

  /** Removes the volume, makes it anew, and imports: a replace, though import merges. From
      whatever an earlier attempt left, a success leaves exactly what the file holds. */
  method ReplaceVolume(h: Host, k: Kind, p: Path) returns (ok: bool)
    requires p in h.w.files
    modifies h`w, h`calls, h`trace
    ensures old(h.calls) <= h.calls && h.w == old(h.w).(volumes := h.w.volumes)
    ensures ok ==> h.Smooth(old(h.calls), h.calls) && VolumeOf(h.w, k) == Present(old(h.w).files[p].contents)
    ensures h.Smooth(old(h.calls), h.calls) && h.Stopped(k) ==> ok
    ensures forall j :: j != k ==> VolumeOf(h.w, j) == VolumeOf(old(h.w), j)
    ensures old(h.trace) <= h.trace && AllKeepFinished(old(h.w), h.trace, |old(h.trace)|)
  {
    hide KeepsFinished, AllKeepFinished, Host.Smooth;
    ghost var w0, n, at := h.w, |h.trace|, h.calls;
    ok := MakeAnew(h, k);
    if !ok { return; }
    ghost var empty := h.w;
    HostSmoothThenOne(h, at, h.calls);
    ok := h.VolumeImport(k, p);
    TrailMore(w0, h.w, h.trace[..|h.trace| - 1], n);
    OthersUntouched(empty, h.w, k);
    assert ok ==> map[] + h.w.files[p].contents == h.w.files[p].contents;
  }

  /** Puts a snapshot's data back in place of whatever is there, or refuses one that cannot
      stand for the data. */
  method RestoreData(h: Host, snap: Snap) returns (ok: bool)
    modifies h`w, h`calls, h`trace
    ensures old(h.calls) <= h.calls && h.w == old(h.w).(volumes := h.w.volumes)
    ensures old(h.trace) <= h.trace
    ensures Unusable(old(h.w), snap) ==> !ok && h.w == old(h.w)
    ensures !Unusable(old(h.w), snap) && h.Stopped(snap.volume) ==> (ok <==> h.Smooth(old(h.calls), h.calls))
    ensures ok ==> snap.Taken? && VolumeOf(h.w, snap.volume) == Present(old(h.w).files[snap.path].contents)
    ensures snap.Taken? ==> forall j :: j != snap.volume ==> VolumeOf(h.w, j) == VolumeOf(old(h.w), j)
    ensures AllKeepFinished(old(h.w), h.trace, |old(h.trace)|)
  {
    hide Host.Smooth;
    ghost var at := h.calls;
    HostSmoothThenOne(h, at, at);
    HostSmoothThenOne(h, at, at + 1);
    ok := false;
    if snap.NotTaken? { return; }
    var fine := h.Ask();
    if !fine || snap.path !in h.w.files || h.w.files[snap.path].bytes == 0 { return; }
    fine := h.Ask();
    if !fine { return; }
    ok := ReplaceVolume(h, snap.volume, snap.path);
    HostSmoothTwice(h, at, at + 2, h.calls);
  }

  lemma TrailStarts(w: World, t: seq<World>)
    ensures AllKeepFinished(w, t, |t|)
  {
  }

  /** One more world in which nothing but volumes has moved. */
  lemma TrailMore(a: World, b: World, t: seq<World>, n: nat)
    requires n <= |t| && AllKeepFinished(a, t, n) && b == a.(volumes := b.volumes)
    ensures AllKeepFinished(a, t + [b], n)
  {
  }

  /** A stretch of two worlds, and the rest. */
  lemma TrailThrough(a: World, b: World, c: World, t0: seq<World>, t: seq<World>)
    requires KeepsFinished(a, b) && KeepsFinished(a, c) && t0 + [b, c] <= t
    ensures AllKeepFinished(a, t, |t0| + 2) ==> AllKeepFinished(a, t, |t0|)
  {
    assert t[|t0|] == (t0 + [b, c])[|t0|] && t[|t0| + 1] == (t0 + [b, c])[|t0| + 1];
  }

  lemma OthersUntouched(a: World, b: World, k: Kind)
    requires b.volumes - {k} == a.volumes - {k}
    ensures forall j :: j != k ==> VolumeOf(b, j) == VolumeOf(a, j)
  {
    forall j | j != k ensures VolumeOf(b, j) == VolumeOf(a, j) {
      assert j in a.volumes <==> j in a.volumes - {k};
      assert j in b.volumes <==> j in b.volumes - {k};
      if j in a.volumes { assert (a.volumes - {k})[j] == (b.volumes - {k})[j]; }
    }
  }
}
