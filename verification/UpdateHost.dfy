/** The host an update moves: a stack with its recorded pins, and beside it the rollback
    tuples, the data volumes and the retained snapshots. Every call may fail, and a failed
    call may have taken effect all the same. */
module UpdateHost {
  import opened Options
  import opened StackHost

  type Ref = string
  type Component = string
  type Contents = map<string, string>

  datatype Kind = Inference | Chat | Memory | Search | Agent

  /** The subsystems whose state lives in a volume rather than in an image. */
  predicate Stateful(k: Kind) {
    k.Chat? || k.Memory?
  }

  datatype Path = Path(kind: Kind, stamp: nat, partial: bool)

  datatype File = File(bytes: nat, contents: Contents)

  datatype Volume = Absent | Present(contents: Contents)

  /** A recorded data snapshot: the volume it came from and where it was retained.
      `contents` is history, not record: what the volume held at that moment. */
  datatype Snap = NotTaken | Taken(volume: Kind, path: Path, contents: Contents)

  /** The known-good state a subsystem can be rolled back to. */
  datatype Previous = Previous(refs: map<Component, Ref>, units: map<UnitName, Text>, data: Snap)

  datatype World = World(previous: map<Kind, Previous>, volumes: map<Kind, Volume>, files: map<Path, File>)

  datatype Proof = Pass | Fail | Reject

  datatype Opening = Opening(svc: Service, text: Text)

  function VolumeOf(w: World, k: Kind): Volume {
    if k in w.volumes then w.volumes[k] else Absent
  }

  /** The snapshot is on disk, complete, not empty, and holds what the volume held. */
  ghost predicate Held(w: World, s: Snap)
    requires s.Taken?
  {
    !s.path.partial && s.path in w.files && w.files[s.path].bytes > 0 && w.files[s.path].contents == s.contents
  }

  /** Every recorded rollback target can be rolled back to. */
  ghost predicate Safe(w: World) {
    forall k :: k in w.previous && w.previous[k].data.Taken? ==> Held(w, w.previous[k].data)
  }

  /** Every world recorded since position `from` was safe. */
  ghost predicate AllSafe(trace: seq<World>, from: nat) {
    forall i :: from <= i < |trace| ==> Safe(trace[i])
  }

  lemma PrefixTwice<T>(a: seq<T>, b: seq<T>, c: seq<T>)
    requires a <= b <= c
    ensures a <= c
  {
  }

  lemma AllSafeTwice(trace: seq<World>, n: nat, mid: nat)
    requires n <= mid <= |trace| && AllSafe(trace[..mid], n) && AllSafe(trace, mid)
    ensures AllSafe(trace, n)
  {
    forall i | n <= i < |trace| ensures Safe(trace[i]) {
      if i < mid { assert trace[..mid][i] == trace[i]; }
    }
  }

  class Host {
    const stack: Stack
    var w: World
    ghost var trace: seq<World>
    var calls: nat
    /** A snapshot was retained under a name that was already taken. */
    ghost var collided: bool
    /** Every service that may have opened its data, with the unit text it was started from. */
    ghost var openings: seq<Opening>

    const services: Kind -> seq<Service>
    const components: Kind -> set<Component>
    /** The pin a component runs when none is on record. */
    const vetted: Component -> Ref
    /** The subsystem whose data a service opens when it starts. */
    const opens: Service -> Option<Kind>
    /** What a service started from a unit makes of the data it opens. */
    const migrate: (Text, Contents) -> Contents
    const faults: nat -> Fault
    const proofs: nat -> Proof
    const clock: nat -> nat
    const exportBytes: nat -> nat
    const garbage: nat -> Contents

    constructor (stack: Stack, w: World, services: Kind -> seq<Service>, components: Kind -> set<Component>,
                 vetted: Component -> Ref, opens: Service -> Option<Kind>, migrate: (Text, Contents) -> Contents,
                 faults: nat -> Fault, proofs: nat -> Proof, clock: nat -> nat, exportBytes: nat -> nat,
                 garbage: nat -> Contents)
      ensures this.stack == stack && this.w == w && trace == [] && calls == 0 && !collided && openings == []
      ensures this.services == services && this.components == components && this.vetted == vetted
      ensures this.opens == opens && this.migrate == migrate && this.faults == faults && this.clock == clock
    {
      this.stack, this.w, this.trace, this.calls, this.collided, this.openings := stack, w, [], 0, false, [];
      this.services, this.components, this.vetted := services, components, vetted;
      this.opens, this.migrate, this.faults, this.proofs := opens, migrate, faults, proofs;
      this.clock, this.exportBytes, this.garbage := clock, exportBytes, garbage;
    }

    /** No service and no component belongs to two subsystems, data is opened by services of
        its own subsystem, and a pin changes the text of unit files but not which there are. */
    ghost predicate Wired() {
      && stack.Wired()
      && (forall j, k, svc :: j != k && svc in services(j) ==> svc !in services(k))
      && (forall j, k :: j != k ==> components(j) !! components(k))
      && (forall svc :: opens(svc).Some? ==>
            Stateful(opens(svc).value) && svc in services(opens(svc).value) && svc !in stack.natives)
      && (forall k :: Stateful(k) ==> services(k) != [])
      && (forall c, p, s :: stack.render(c).Rendered? && stack.render(c.(pins := p, secret := s)).Rendered? ==>
            Names(stack.render(c.(pins := p, secret := s)).units) == Names(stack.render(c).units))
    }

    /** Every service a subsystem is said to have is a unit the config renders. */
    ghost predicate Declared(c: Config) {
      stack.render(c).Rendered? ==>
        forall k, svc :: svc in services(k) ==> Container(svc) in Names(stack.render(c).units)
    }

    /** The clock gives every capture to come a stamp of its own. */
    ghost predicate FreshStamps()
      reads `w, `calls
    {
      FreshFor(w.files.Keys, calls)
    }

    ghost predicate FreshFor(paths: set<Path>, from: nat) {
      && (forall n, p :: n >= from && p in paths ==> p.stamp != clock(n))
      && (forall m, n :: from <= m < n ==> clock(m) != clock(n))
    }

    /** None of the calls from `from` up to `to` failed. */
    ghost predicate Smooth(from: nat, to: nat) {
      forall n :: from <= n < to ==> faults(n).Fine?
    }

    /** No proof asked for in these calls fails on a subsystem that is up. */
    ghost predicate Proves(from: nat, to: nat) {
      forall n :: from <= n < to ==> proofs(n).Pass?
    }

    ghost predicate Stopped(k: Kind)
      reads stack`up
    {
      forall svc :: svc in services(k) ==> svc !in stack.up
    }

    ghost predicate Running(k: Kind)
      reads stack`up
    {
      forall svc :: svc in services(k) ==> svc in stack.up
    }

    /** The pin a component runs. */
    function Effective(pins: map<Component, Ref>, c: Component): Ref {
      if c in pins then pins[c] else vetted(c)
    }

    function RefsOf(pins: map<Component, Ref>, k: Kind): map<Component, Ref> {
      map c | c in components(k) :: Effective(pins, c)
    }

    /** The data after a service has opened it; a volume that is not there is made. */
    function Opened(text: Text, v: Volume): Volume {
      Present(migrate(text, if v.Present? then v.contents else map[]))
    }

    /** Opening this data from these unit files changes nothing about it. */
    ghost predicate Suits(k: Kind, v: Volume, units: map<UnitName, Text>) {
      forall svc :: opens(svc) == Some(k) && Container(svc) in units ==> Opened(units[Container(svc)], v) == v
    }

    method Next() returns (fault: Fault)
      modifies `calls
      ensures fault == faults(old(calls)) && calls == old(calls) + 1
    {
      fault := faults(calls);
      calls := calls + 1;
    }

    /** A call that changes nothing: a pull, a store read, a budget not yet spent. */
    method Ask() returns (ok: bool)
      modifies `calls
      ensures ok == faults(old(calls)).Fine? && calls == old(calls) + 1
    {
      var fault := Next();
      ok := fault.Fine?;
    }

    /** The subsystem's own proof. A proof cannot pass on a stopped service. */
    method Prove(k: Kind) returns (p: Proof)
      modifies `calls
      ensures calls == old(calls) + 1
      ensures p.Pass? <==> proofs(old(calls)).Pass? && Running(k)
    {
      var verdict := proofs(calls);
      var _ := Next();
      var up := true;
      for i := 0 to |services(k)|
        invariant up <==> forall j :: 0 <= j < i ==> services(k)[j] in stack.up
      {
        up := up && services(k)[i] in stack.up;
      }
      p := if verdict.Pass? && !up then Reject else verdict;
    }

    /** What a start or restart does to the data: a service that came up has opened it, and
        one that failed to may have. */
    method OpenData(svc: Service, certain: bool)
      modifies `w, `calls, `trace, `openings
      ensures calls == old(calls) + 1 && trace == old(trace) + [w]
      ensures openings == old(openings) + [Opening(svc, Definition(svc, stack.loaded, stack.natives))]
      ensures w == old(w).(volumes := w.volumes)
      ensures w.volumes == old(w).volumes ||
              (opens(svc).Some? && stack.Startable(svc)
               && w.volumes == old(w).volumes[opens(svc).value :=
                                              Opened(Definition(svc, stack.loaded, stack.natives),
                                                     VolumeOf(old(w), opens(svc).value))])
    {
      var fault := Next();
      if opens(svc).Some? && stack.Startable(svc) && (certain || !fault.Refused?) {
        var k := opens(svc).value;
        var text := Definition(svc, stack.loaded, stack.natives);
        w := w.(volumes := w.volumes[k := Opened(text, VolumeOf(w, k))]);
      }
      openings := openings + [Opening(svc, Definition(svc, stack.loaded, stack.natives))];
      trace := trace + [w];
    }

    /** `podman volume export` to a file. A volume in use exports a torn copy. */
    method VolumeExport(k: Kind, p: Path) returns (ok: bool)
      modifies `w, `calls, `trace
      ensures calls == old(calls) + 1
      ensures w == old(w).(files := w.files) && trace == old(trace) + [w]
      ensures w.files - {p} == old(w).files - {p}
      ensures ok <==> faults(old(calls)).Fine? && VolumeOf(w, k).Present?
      ensures ok ==> p in w.files && w.files[p].bytes == exportBytes(calls)
      ensures ok && Stopped(k) ==> w.files[p].contents == VolumeOf(w, k).contents
    {
      var fault := Next();
      var torn := exists svc :: svc in services(k) && svc in stack.up;
      ok := fault.Fine? && VolumeOf(w, k).Present?;
      if ok {
        w := w.(files := w.files[p := File(exportBytes(calls),
                                               if torn then garbage(calls) else VolumeOf(w, k).contents)]);
      } else if fault.Landed? {
        w := w.(files := w.files[p := File(exportBytes(calls), garbage(calls))]);
      }
      trace := trace + [w];
      assert w.files - {p} == old(w).files - {p};
    }

    method RemoveFile(p: Path) returns (ok: bool)
      modifies `w, `calls, `trace
      ensures ok <==> faults(old(calls)).Fine?
      ensures calls == old(calls) + 1
      ensures w == old(w).(files := w.files) && trace == old(trace) + [w]
      ensures w.files == old(w).files - {p} || (!ok && w.files == old(w).files)
    {
      var fault := Next();
      ok := fault.Fine?;
      if !fault.Refused? { w := w.(files := w.files - {p}); }
      trace := trace + [w];
    }

    /** Renames a finished export into its retained place. */
    method Retain(tmp: Path, out: Path) returns (ok: bool)
      requires tmp in w.files && tmp != out
      modifies `w, `calls, `trace, `collided
      ensures ok <==> faults(old(calls)).Fine?
      ensures calls == old(calls) + 1 && trace == old(trace) + [w]
      ensures collided == (old(collided) || (w != old(w) && out in old(w).files))
      ensures (!ok && w == old(w)) || w == old(w).(files := (old(w).files - {tmp})[out := old(w).files[tmp]])
    {
      var fault := Next();
      ok := fault.Fine?;
      if !fault.Refused? {
        collided := collided || out in w.files;
        w := w.(files := (w.files - {tmp})[out := w.files[tmp]]);
        assert tmp !in w.files;
      }
      trace := trace + [w];
    }

    /** `podman volume rm`: refused while a service holds the volume. */
    method VolumeRm(k: Kind) returns (ok: bool, notFound: bool)
      modifies `w, `calls, `trace
      ensures ok || notFound <==> faults(old(calls)).Fine? && (VolumeOf(old(w), k).Absent? || Stopped(k))
      ensures calls == old(calls) + 1
      ensures w == old(w).(volumes := w.volumes) && trace == old(trace) + [w]
      ensures w.volumes == old(w).volumes || w.volumes == old(w).volumes[k := Absent]
      ensures ok || notFound ==> VolumeOf(w, k) == Absent
    {
      var fault := Next();
      var held := exists svc :: svc in services(k) && svc in stack.up;
      notFound := fault.Fine? && VolumeOf(w, k).Absent?;
      ok := fault.Fine? && !held && !notFound;
      if ok || (fault.Landed? && !held) {
        w := w.(volumes := w.volumes[k := Absent]);
      }
      trace := trace + [w];
    }

    method VolumeCreate(k: Kind) returns (ok: bool, exists_: bool)
      modifies `w, `calls, `trace
      ensures ok || exists_ <==> faults(old(calls)).Fine?
      ensures calls == old(calls) + 1
      ensures w == old(w).(volumes := w.volumes) && trace == old(trace) + [w]
      ensures w.volumes == old(w).volumes
           || (VolumeOf(old(w), k).Absent? && w.volumes == old(w).volumes[k := Present(map[])])
      ensures ok ==> VolumeOf(w, k) == Present(map[])
      ensures exists_ ==> VolumeOf(w, k).Present? && w.volumes == old(w).volumes
    {
      var fault := Next();
      exists_ := fault.Fine? && VolumeOf(w, k).Present?;
      ok := fault.Fine? && VolumeOf(w, k).Absent?;
      if ok || (fault.Landed? && VolumeOf(w, k).Absent?) {
        w := w.(volumes := w.volumes[k := Present(map[])]);
      }
      trace := trace + [w];
    }

    /** `podman volume import` MERGES into what the volume holds, and creates no volume. */
    method VolumeImport(k: Kind, p: Path) returns (ok: bool)
      requires p in w.files
      modifies `w, `calls, `trace
      ensures ok <==> faults(old(calls)).Fine? && VolumeOf(old(w), k).Present?
      ensures calls == old(calls) + 1
      ensures w == old(w).(volumes := w.volumes) && trace == old(trace) + [w]
      ensures w.volumes - {k} == old(w).volumes - {k}
      ensures ok ==>
        VolumeOf(old(w), k).Present? && VolumeOf(w, k) == Present(VolumeOf(old(w), k).contents + w.files[p].contents)
      ensures VolumeOf(old(w), k).Absent? ==> w == old(w)
    {
      var fault := Next();
      ok := fault.Fine? && VolumeOf(w, k).Present?;
      if ok {
        w := w.(volumes := w.volumes[k := Present(w.volumes[k].contents + w.files[p].contents)]);
      } else if fault.Landed? && VolumeOf(w, k).Present? {
        w := w.(volumes := w.volumes[k := Present(w.volumes[k].contents + garbage(calls))]);
      }
      trace := trace + [w];
      assert w.volumes - {k} == old(w).volumes - {k};
    }

    /** Records the pins a subsystem is to run. */
    method WritePins(refs: map<Component, Ref>) returns (ok: bool)
      modifies `calls, stack`config
      ensures ok <==> faults(old(calls)).Fine?
      ensures calls == old(calls) + 1
      ensures stack.config == old(stack.config).(pins := old(stack.config).pins + refs)
           || (!ok && stack.config == old(stack.config))
    {
      var fault := Next();
      ok := fault.Fine?;
      if !fault.Refused? { stack.config := stack.config.(pins := stack.config.pins + refs); }
    }

    /** Records the pins and, in the same write, the tuple to roll back to. */
    method WriteCommit(k: Kind, refs: map<Component, Ref>, previous: Previous) returns (ok: bool)
      modifies `w, `calls, `trace, stack`config
      ensures ok <==> faults(old(calls)).Fine?
      ensures calls == old(calls) + 1 && trace == old(trace) + [w]
      ensures (stack.config == old(stack.config).(pins := old(stack.config).pins + refs)
               && w == old(w).(previous := old(w).previous[k := previous]))
           || (!ok && w == old(w) && stack.config == old(stack.config))
    {
      var fault := Next();
      ok := fault.Fine?;
      if !fault.Refused? {
        stack.config := stack.config.(pins := stack.config.pins + refs);
        w := w.(previous := w.previous[k := previous]);
      }
      trace := trace + [w];
    }
  }

  lemma HostSmoothTwice(h: Host, a: nat, b: nat, c: nat)
    requires a <= b <= c
    ensures h.Smooth(a, c) <==> h.Smooth(a, b) && h.Smooth(b, c)
    ensures h.Proves(a, c) <==> h.Proves(a, b) && h.Proves(b, c)
  {
  }

  lemma HostSmoothThenOne(h: Host, a: nat, b: nat)
    requires a <= b
    ensures h.Smooth(a, a) && h.Proves(a, a)
    ensures h.Smooth(a, b + 1) <==> h.Smooth(a, b) && h.faults(b).Fine?
    ensures h.Proves(a, b + 1) <==> h.Proves(a, b) && h.proofs(b).Pass?
  {
  }
}
