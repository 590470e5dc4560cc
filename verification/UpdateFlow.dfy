/** The transaction that moves one subsystem's pins and either commits or puts everything
    back, and the run over several subsystems that halts at the first failure. */
module UpdateFlow {
  import opened Options
  import opened StackHost
  import opened StackApply
  import opened Lifecycle
  import opened UpdateHost
  import opened Snapshots
  import opened UpdateMoves
  import SwapFrame

  datatype Outcome = Committed | RefusedUnhealthy | RolledBackFail | RolledBackReject | NotTried | NothingToDo

  predicate Halts(o: Outcome) {
    o.RefusedUnhealthy? || o.RolledBackFail? || o.RolledBackReject?
  }

  predicate RolledBack(o: Outcome) {
    o.RolledBackFail? || o.RolledBackReject?
  }

  datatype Target = Target(kind: Kind, pins: map<Component, Ref>)

  datatype SubResult = SubResult(kind: Kind, outcome: Outcome, snapshot: Snap, superseded: Snap, incomplete: bool,
            recorded: bool)

  function Bare(k: Kind, o: Outcome): SubResult {
    SubResult(k, o, NotTaken, NotTaken, false, false)
  }

  // ------------------------------------------------------------------
  // One subsystem
  // ------------------------------------------------------------------

  /** Safe at the end and in between, if it was safe before. */
  ghost predicate Safely(a: Point, b: Point) {
    a.trace <= b.trace && (Safe(a.w) ==> Safe(b.w) && AllSafe(b.trace, |a.trace|))
  }

  lemma SafelyTwice(a: Point, b: Point, c: Point)
    requires Safely(a, b) && Safely(b, c)
    ensures Safely(a, c)
  {
    if Safe(a.w) {
      assert c.trace[..|b.trace|] == b.trace;
      AllSafeTwice(c.trace, |a.trace|, |b.trace|);
    }
  }

  lemma AsideIsSafe(h: Host, k: Kind, a: Point, b: Point)
    requires Aside(h, k, a, b)
    ensures Safely(a, b) && OthersData(h, k, a, b)
  {
    AsideKeepsSafe(h, k, a, b);
  }

  /** Recording a tuple keeps every target safe, its own snapshot being held. */
  lemma CommitKeepsSafe(a: World, b: World, k: Kind, previous: Previous)
    requires Safe(a) && (previous.data.Taken? ==> Held(a, previous.data))
    requires b == a.(previous := a.previous[k := previous]) || b == a
    ensures Safe(b)
  {
    forall j | j in b.previous && b.previous[j].data.Taken? ensures Held(b, b.previous[j].data) {
      if j != k || b == a { assert Held(a, a.previous[j].data); }
    }
  }

  /** The pins and tuples of every other subsystem are as they were. */
  ghost predicate OthersAlone(h: Host, k: Kind, b: Moment, n: Moment) {
    && RecordMoved(h, k, b.config, n.config)
    && forall j :: j != k ==>
          (j in n.w.previous <==> j in b.w.previous) && (j in b.w.previous ==> n.w.previous[j] == b.w.previous[j])
  }

  /** Records the new pins with the tuple they displaced. */
  method Commit(h: Host, k: Kind, pins: map<Component, Ref>, previous: Previous) returns (ok: bool)
    requires previous.data.Taken? ==> Held(h.w, previous.data)
    requires h.stack.config.pins + pins == h.stack.config.pins
    modifies h`w, h`calls, h`trace, h.stack`config
    ensures old(h.calls) <= h.calls && h.stack.config == old(h.stack.config)
    ensures ok <==> h.Smooth(old(h.calls), h.calls)
    ensures h.w == old(h.w).(previous := old(h.w).previous[k := previous]) || (!ok && h.w == old(h.w))
    ensures Safely(old(At(h)), At(h)) && OthersData(h, k, old(At(h)), At(h))
  {
    hide Safe, Held, Host.Smooth;
    ghost var w0 := h.w;
    HostSmoothThenOne(h, h.calls, h.calls);
    HostSmoothThenOne(h, h.calls, h.calls + 1);
    ok := h.Ask();
    if !ok { return; }
    ok := h.WriteCommit(k, pins, previous);
    if Safe(w0) { CommitKeepsSafe(w0, h.w, k, previous); }
  }

  /** What is left when an update has gone through: the stack has advanced, and the tuple on
      record is the one that was captured. */
  ghost predicate Done(h: Host, k: Kind, b: Moment, pins: map<Component, Ref>, seen: bool, r: SubResult)
    reads h`w, h.stack`config, h.stack`disk, h.stack`loaded, h.stack`up
  {
    && Advanced(h, k, b.config, b.s, pins) && !r.incomplete
    && (if Stateful(k) then
          r.snapshot.Taken? && VolumeOf(b.w, k) == Present(r.snapshot.contents) else r.snapshot.NotTaken?)
    && (r.recorded ==> k in h.w.previous && Recorded(h, k, b, seen, r, h.w.previous[k]))
    && r.superseded == if r.recorded && seen then PriorSnap(b.w, k) else NotTaken
  }

  /** The tuple holds what was captured. */
  ghost predicate Recorded(h: Host, k: Kind, b: Moment, seen: bool, r: SubResult, p: Previous) {
    && p.refs == h.RefsOf(SeenPins(b.config, seen), k) && p.data == r.snapshot
    && SwapFrame.CapturedFrom(p.units, b.s.disk) && p.units.Keys == RenderNames(h, b.config) * b.s.disk.Keys
  }

  /** The pins an advanced stack has recorded, recorded again. */
  lemma RecordedTwice(h: Host, k: Kind, c: Config, a: Snapshot, pins: map<Component, Ref>)
    requires Advanced(h, k, c, a, pins)
    ensures h.stack.config.pins + pins == h.stack.config.pins
  {
    assert (c.pins + pins) + pins == c.pins + pins;
  }

  lemma MidwayStays(h: Host, k: Kind, c: Config, s: Snapshot, t: Snapshot, again: seq<Service>)
    requires Midway(h, c, s, t, ServiceSet(again), k) && h.Declared(c) && h.stack.render(c).Rendered?
    requires forall svc :: svc in again ==> svc in t.up
    ensures ServicesStay(h, s.up, t.up)
  {
    DeclaredFiles(h, c);
    hide RenderNames, Host.Declared;
    forall j, svc | svc in h.services(j) && svc in s.up ensures svc in t.up {
      assert svc in again <==> svc in ServiceSet(again);
    }
  }

  /** How one transaction on `k`, begun at `b`, ends when a mutation was tried. */
  ghost predicate Settles(h: Host, k: Kind, b: Moment, pins: map<Component, Ref>, seen: bool, r: SubResult)
    reads h`w, h.stack`config, h.stack`disk, h.stack`loaded, h.stack`up
  {
    && r.kind == k && (r.outcome.Committed? || RolledBack(r.outcome))
    && (r.outcome.Committed? ==> Done(h, k, b, pins, seen, r))
    && (RolledBack(r.outcome) ==> h.w.previous == b.w.previous && r.superseded.NotTaken?)
    && (RolledBack(r.outcome) && !r.incomplete ==> PutBack(h, k, b, Now(h), seen))
    && (!r.incomplete ==> h.Running(k) && ServicesStay(h, b.s.up, h.stack.up))
    && OthersAlone(h, k, b, Now(h)) && TupleFrom(b.w, h.w, r)
  }

  /** No tuple is on record but those that were and one for this snapshot. */
  ghost predicate TupleFrom(a: World, b: World, r: SubResult) {
    forall j :: j in b.previous ==>
      (j in a.previous && b.previous[j] == a.previous[j]) || b.previous[j].data == r.snapshot
  }

  lemma SettlesMeans(h: Host, k: Kind, b: Moment, pins: map<Component, Ref>, seen: bool, r: SubResult)
    requires Settles(h, k, b, pins, seen, r)
    ensures r.kind == k && (r.outcome.Committed? || RolledBack(r.outcome)) && OthersAlone(h, k, b, Now(h))
    ensures r.outcome.Committed? ==> Done(h, k, b, pins, seen, r)
    ensures RolledBack(r.outcome) ==> h.w.previous == b.w.previous && r.superseded.NotTaken?
    ensures TupleFrom(b.w, h.w, r)
    ensures RolledBack(r.outcome) && !r.incomplete ==> PutBack(h, k, b, Now(h), seen)
    ensures !r.incomplete ==> h.Running(k) && ServicesStay(h, b.s.up, h.stack.up)
  {
  }

  lemma UnrecordedLeavesOthers(h: Host, k: Kind, b: Moment, n: Moment)
    requires RecordMoved(h, k, b.config, n.config) && n.w.previous == b.w.previous
    ensures OthersAlone(h, k, b, n)
  {
  }

  /** No call has failed since these, and no proof. */
  ghost predicate Untroubled(h: Host, at: nat, stackAt: nat)
    reads h`calls, h.stack`calls
  {
    SmoothSince(h, at, stackAt) && h.Proves(at, h.calls)
  }

  /** Two stretches of a run, one after the other. */
  lemma UntroubledTwice(h: Host, at: nat, stackAt: nat, at1: nat, stackAt1: nat)
    requires at <= at1 <= h.calls && stackAt <= stackAt1 <= h.stack.calls
    ensures Untroubled(h, at, stackAt) <==>
      h.Smooth(at, at1) && h.stack.Smooth(stackAt, stackAt1) && h.Proves(at, at1) && Untroubled(h, at1, stackAt1)
    ensures h.stack.Smooth(stackAt, h.stack.calls) <==>
      h.stack.Smooth(stackAt, stackAt1) && h.stack.Smooth(stackAt1, h.stack.calls)
  {
    HostSmoothTwice(h, at, at1, h.calls);
    SmoothTwice(h.stack, stackAt, stackAt1, h.stack.calls);
  }

  /** Undoes a mutation that failed, inside or outside the window. */
  method Abandon(h: Host, k: Kind, c: Capture, restarted: seq<Service>, pins: map<Component, Ref>, o: Outcome,
                 ghost b: Moment, ghost seen: bool)
    returns (r: SubResult)
    requires h.Wired() && Underway(h, k, c, restarted, b, seen) && RolledBack(o)
    modifies h`w, h`calls, h`trace, h.stack`config, h.stack`disk, h.stack`loaded, h.stack`up, h.stack`calls
    modifies h.stack`fired, h`openings
    ensures old(h.calls) <= h.calls && old(h.stack.calls) <= h.stack.calls && Settles(h, k, b, pins, seen, r)
    ensures r == Bare(k, o).(snapshot := c.data, incomplete := r.incomplete)
    ensures Untroubled(h, old(h.calls), old(h.stack.calls)) && Coherent(b.s, h.stack.natives) ==> !r.incomplete
    ensures Safely(old(At(h)), At(h)) && OthersData(h, k, old(At(h)), At(h)) && h.w.files == old(h.w.files)
  {
    hide Aside, RecordMoved, PutBack, ServicesStay, Done, Host.Wired, Safely, OthersData, Captures, Midway;
    ghost var a := At(h);
    var incomplete := Undo(h, k, c, restarted, b, seen);
    AsideIsSafe(h, k, a, At(h));
    AsideGrows(h, k, a, At(h));
    UnrecordedLeavesOthers(h, k, b, Now(h));
    r := Bare(k, o).(snapshot := c.data, incomplete := incomplete);
  }

  /** What a commit leaves, landed or not. */
  lemma CommittedIsDone(h: Host, k: Kind, c: Capture, b: Moment, pins: map<Component, Ref>, seen: bool, r: SubResult)
    requires Advanced(h, k, b.config, b.s, pins) && Captures(h, k, c, b, seen) && (Stateful(k) <==> c.data.Taken?)
    requires c.data.Taken? ==> VolumeOf(b.w, k) == Present(c.data.contents)
    requires r == Bare(k, Committed).(snapshot := c.data, recorded := r.recorded,
                                                superseded := if r.recorded then c.prior else NotTaken)
    requires r.recorded ==> k in h.w.previous && h.w.previous[k] == Previous(c.refs, c.units, c.data)
    ensures Done(h, k, b, pins, seen, r)
  {
    hide Advanced, RenderNames, SwapFrame.CapturedFrom;
  }

  lemma CommitLeavesOthers(h: Host, k: Kind, b: Moment, n: Moment, previous: Previous, r: SubResult)
    requires RecordMoved(h, k, b.config, n.config)
    requires n.w.previous == b.w.previous || n.w.previous == b.w.previous[k := previous]
    requires r.snapshot == previous.data
    ensures OthersAlone(h, k, b, n) && TupleFrom(b.w, n.w, r)
  {
  }

  lemma UnderwayMeans(h: Host, k: Kind, c: Capture, restarted: seq<Service>, b: Moment, seen: bool)
    requires Underway(h, k, c, restarted, b, seen)
    ensures Captures(h, k, c, b, seen) && RecordMoved(h, k, b.config, h.stack.config) && h.w.previous == b.w.previous
    ensures Midway(h, b.config, b.s, h.stack.Snap(), ServiceSet(Again(h, k, c, restarted)), k)
    ensures h.stack.render(b.config).Rendered? && h.Declared(b.config) && (Stateful(k) <==> c.data.Taken?)
    ensures c.data.Taken? ==> c.data.volume == k && Held(h.w, c.data) && VolumeOf(b.w, k) == Present(c.data.contents)
  {
  }

  lemma CommitSettles(h: Host, k: Kind, b: Moment, pins: map<Component, Ref>, seen: bool, r: SubResult)
    requires r.kind == k && r.outcome.Committed? && Done(h, k, b, pins, seen, r) && OthersAlone(h, k, b, Now(h))
    requires TupleFrom(b.w, h.w, r)
    requires h.Running(k) && ServicesStay(h, b.s.up, h.stack.up)
    ensures Settles(h, k, b, pins, seen, r)
  {
  }

  /** Proves the new state, and commits on a pass alone. */
  method FinishAfterMutation(h: Host, k: Kind, c: Capture, restarted: seq<Service>, pins: map<Component, Ref>,
                             ghost b: Moment, ghost seen: bool)
    returns (r: SubResult)
    requires h.Wired() && Underway(h, k, c, restarted, b, seen) && Advanced(h, k, b.config, b.s, pins)
    requires forall svc :: svc in Again(h, k, c, restarted) ==> svc in h.stack.up
    modifies h`w, h`calls, h`trace, h.stack`config, h.stack`disk, h.stack`loaded, h.stack`up, h.stack`calls
    modifies h.stack`fired, h`openings
    ensures old(h.calls) <= h.calls && old(h.stack.calls) <= h.stack.calls
    ensures Settles(h, k, b, pins, seen, r) && r.snapshot == c.data
    ensures r.outcome.Committed? ==> h.stack.Snap() == old(h.stack.Snap())
    ensures Untroubled(h, old(h.calls), old(h.stack.calls)) ==> r.outcome.Committed? && r.recorded
    ensures Safely(old(At(h)), At(h)) && OthersData(h, k, old(At(h)), At(h)) && h.w.files == old(h.w.files)
  {
    hide Underway, Settles, Host.Wired, Host.Smooth, Host.Proves, Safely, OthersData;
    ghost var at := h.calls;
    assert h.Running(k);
    hide Advanced;
    HostSmoothThenOne(h, at, at);
    var p := h.Prove(k);
    ghost var at1 := h.calls;
    if p.Pass? {
      r := CommitProven(h, k, c, restarted, pins, b, seen);
      HostSmoothTwice(h, at, at1, h.calls);
    } else {
      r := Abandon(h, k, c, restarted, pins, if p.Fail? then RolledBackFail else RolledBackReject, b, seen);
      HostSmoothTwice(h, at, at1, h.calls);
    }
  }

  /** A commit that fails leaves what runs, and reports that it is not on record. */
  method CommitProven(h: Host, k: Kind, c: Capture, restarted: seq<Service>, pins: map<Component, Ref>,
                      ghost b: Moment, ghost seen: bool)
    returns (r: SubResult)
    requires Underway(h, k, c, restarted, b, seen) && Advanced(h, k, b.config, b.s, pins) && h.Running(k)
    requires forall svc :: svc in Again(h, k, c, restarted) ==> svc in h.stack.up
    modifies h`w, h`calls, h`trace, h.stack`config
    ensures r.recorded <==> h.Smooth(old(h.calls), h.calls)
    ensures old(h.calls) <= h.calls && Settles(h, k, b, pins, seen, r) && r.snapshot == c.data && r.outcome.Committed?
    ensures Safely(old(At(h)), At(h)) && OthersData(h, k, old(At(h)), At(h)) && h.w.files == old(h.w.files)
  {
    hide Underway, Advanced, Captures, Done, Settles, TupleFrom, RecordMoved, ServicesStay, Safely, OthersData,
         Midway, Held, OthersAlone;
    UnderwayMeans(h, k, c, restarted, b, seen);
    RecordedTwice(h, k, b.config, b.s, pins);
    MidwayStays(h, k, b.config, b.s, h.stack.Snap(), Again(h, k, c, restarted));
    var ok := Commit(h, k, pins, Previous(c.refs, c.units, c.data));
    r := Bare(k, Committed).(snapshot := c.data, recorded := ok, superseded := if ok then c.prior else NotTaken);
    CommittedIsDone(h, k, c, b, pins, seen, r);
    CommitLeavesOthers(h, k, b, Now(h), Previous(c.refs, c.units, c.data), r);
    CommitSettles(h, k, b, pins, seen, r);
  }

  /** What a transaction knows when it is about to mutate: the capture, and what ran. */
  ghost predicate Poised(h: Host, k: Kind, c: Capture, b: Moment, pins: map<Component, Ref>, seen: bool) {
    && Captures(h, k, c, b, seen) && pins.Keys <= h.components(k)
    && h.Declared(b.config) && forall svc :: svc in h.services(k) ==> svc in b.s.up
  }

  /** A stateless subsystem keeps its one restart: no window, no snapshot. */
  method MutateAtOnce(h: Host, k: Kind, c: Capture, pins: map<Component, Ref>, ghost b: Moment, ghost seen: bool)
    returns (r: SubResult)
    requires h.Wired() && !Stateful(k) && Poised(h, k, c, b, pins, seen) && c.data.NotTaken? && b == Now(h)
    modifies h`w, h`calls, h`trace, h.stack`config, h.stack`disk, h.stack`loaded, h.stack`up, h.stack`calls
    modifies h.stack`fired, h`openings
    ensures old(h.calls) <= h.calls && old(h.stack.calls) <= h.stack.calls
    ensures Settles(h, k, b, pins, seen, r) && r.snapshot.NotTaken?
    ensures r.kind == k && (r.outcome.Committed? || RolledBack(r.outcome))
    ensures Untroubled(h, old(h.calls), old(h.stack.calls)) ==>
      Ready(h, k, b.config, b.config.(pins := b.config.pins + pins), b.s) ==> r.outcome.Committed? && r.recorded
    ensures r.outcome.Committed? && h.stack.Smooth(old(h.stack.calls), h.stack.calls) ==>
      KeepsCoherence(h, b.config.(pins := b.config.pins + pins), b.s, h.stack.Snap())
    ensures Safely(old(At(h)), At(h)) && OthersData(h, k, old(At(h)), At(h)) && h.w.files == old(h.w.files)
  {
    hide Aside, Advanced, RecordMoved, Host.Wired, Safely, OthersData, Midway, KeepsCoherence, Settles, RenderNames,
         SwapFrame.CapturedFrom, Host.Declared, Ready, Untroubled, Stack.Smooth;
    ghost var a, at, stackAt := At(h), h.calls, h.stack.calls;
    var ok, restarted;
    ok, restarted := Mutate(h, k, pins);
    ghost var a1, at1, stackAt1 := At(h), h.calls, h.stack.calls;
    AsideIsSafe(h, k, a, a1);
    AsideGrows(h, k, a, a1);
    if ok {
      r := FinishAfterMutation(h, k, c, restarted, pins, b, seen);
    } else {
      r := Abandon(h, k, c, restarted, pins, RolledBackReject, b, seen);
    }
    UntroubledTwice(h, at, stackAt, at1, stackAt1);
    SettlesMeans(h, k, b, pins, seen, r);
    SafelyTwice(a, a1, At(h));
    OthersDataTwice(h, k, a, a1, At(h));
  }

  /** An apply does not ask what runs to decide what the files become. */
  lemma WindowAdvances(h: Host, k: Kind, c: Config, s: Snapshot, thin: Snapshot, pins: map<Component, Ref>)
    requires thin == s.(up := thin.up) && Advanced(h, k, c, thin, pins)
    ensures Advanced(h, k, c, s, pins)
  {
  }

  lemma WindowCoheres(h: Host, next: Config, s: Snapshot, thin: Snapshot, t: Snapshot, svcs: seq<Service>)
    requires thin == s.(up := thin.up) && Thinned(s.up, thin.up, svcs) && KeepsCoherence(h, next, thin, t)
    ensures KeepsCoherence(h, next, s, t)
  {
    if Coherent(s, h.stack.natives) {
      forall svc | svc in thin.up ensures RunsItsUnit(thin, svc, h.stack.natives) {
        assert RunsItsUnit(s, svc, h.stack.natives);
      }
    }
  }

  /** Starting what runs changes nothing. */
  lemma StartOfRunning(h: Host, k: Kind, a: map<Service, Text>, b: map<Service, Text>)
    requires Filled(h.stack, a, b, h.services(k)) && forall svc :: svc in h.services(k) ==> svc in a
    ensures b == a
  {
    assert b.Keys == a.Keys;
  }

  lemma NothingFilled(h: Stack, a: map<Service, Text>, svcs: seq<Service>)
    ensures Filled(h, a, a, svcs)
  {
  }

  lemma AdvancedRuns(h: Host, k: Kind, c: Config, a: Snapshot, pins: map<Component, Ref>)
    requires Advanced(h, k, c, a, pins)
    ensures forall svc :: svc in h.services(k) ==> svc in h.stack.up
  {
  }

  /** Starts a subsystem that is up already: `systemctl start` leaves it alone. */
  method StartRunning(h: Host, k: Kind) returns (ok: bool)
    requires h.Wired() && forall svc :: svc in h.services(k) ==> svc in h.stack.up
    modifies h`w, h`calls, h`trace, h`openings, h.stack`up, h.stack`calls, h.stack`fired
    ensures old(h.calls) <= h.calls && old(h.stack.calls) <= h.stack.calls && Aside(h, k, old(At(h)), At(h))
    ensures h.stack.up == old(h.stack.up) && (ok <==> h.stack.Smooth(old(h.stack.calls), h.stack.calls))
  {
    hide Aside, Host.Wired, OnlyData, Filled, AllKeepFinished, Stack.Smooth;
    ghost var a := At(h);
    ok := SubsystemStart(h, k);
    StartOfRunning(h, k, old(h.stack.up), h.stack.up);
    StartedAside(h, k, a, At(h));
  }

  /** With the subsystem stopped: the mutation, and then the start. */
  method MutateAndStart(h: Host, k: Kind, pins: map<Component, Ref>, ghost b: Moment)
    returns (ok: bool, restarted: seq<Service>)
    requires h.Wired() && pins.Keys <= h.components(k) && h.stack.render(b.config).Rendered?
    requires h.stack.config == b.config
    requires h.stack.Snap() == b.s.(up := h.stack.up) && Thinned(b.s.up, h.stack.up, h.services(k))
    modifies h`w, h`calls, h`trace, h.stack`config, h.stack`disk, h.stack`loaded, h.stack`up, h.stack`calls
    modifies h.stack`fired, h`openings
    ensures old(h.calls) <= h.calls && old(h.stack.calls) <= h.stack.calls && Aside(h, k, old(At(h)), At(h))
    ensures RecordMoved(h, k, b.config, h.stack.config)
    ensures Midway(h, b.config, b.s, h.stack.Snap(), ServiceSet(restarted + h.services(k)), k)
    ensures ok ==> Advanced(h, k, b.config, b.s, pins)
    ensures ok ==> forall svc :: svc in restarted + h.services(k) ==> svc in h.stack.up
    ensures ok && h.stack.Smooth(old(h.stack.calls), h.stack.calls) ==>
      KeepsCoherence(h, b.config.(pins := b.config.pins + pins), b.s, h.stack.Snap())
    ensures SmoothSince(h, old(h.calls), old(h.stack.calls)) ==>
      Ready(h, k, b.config, b.config.(pins := b.config.pins + pins), b.s) ==> ok
  {
    hide Aside, Advanced, RecordMoved, Host.Wired, Midway, KeepsCoherence, RenderNames, Thinned, Filled, OnlyData,
         Ready, Stack.Smooth, Host.Smooth, AllKeepFinished, Host.Suits, ServiceSet, Stack.Startable, Host.Running;
    ghost var a, thin, at, stackAt := At(h), h.stack.Snap(), h.calls, h.stack.calls;
    ReadyInWindow(h, k, b.config, b.config.(pins := b.config.pins + pins), b.s, thin);
    ok, restarted := Mutate(h, k, pins);
    ghost var a1, s2, at1, stackAt1 := At(h), h.stack.Snap(), h.calls, h.stack.calls;
    NothingFilled(h.stack, s2.up, h.services(k));
    if ok {
      AdvancedRuns(h, k, b.config, thin, pins);
      ok := StartRunning(h, k);
      AsideTwice(h, k, a, a1, At(h));
      WindowAdvances(h, k, b.config, b.s, thin, pins);
      if h.stack.Smooth(stackAt, stackAt1) {
        WindowCoheres(h, b.config.(pins := b.config.pins + pins), b.s, thin, s2, h.services(k));
      }
    }
    MovedSmoothly(h, at, stackAt, at1, stackAt1, h.calls, h.stack.calls);
    WindowIsMidway(h, k, b.config, b.s, thin, s2, h.stack.Snap(), restarted);
  }

  /** Mutate, start, prove, commit, with the data captured: from here on a failure rolls back. */
  method MutateInWindow(h: Host, k: Kind, c: Capture, pins: map<Component, Ref>, ghost b: Moment, ghost seen: bool)
    returns (r: SubResult)
    requires h.Wired() && Stateful(k) && Poised(h, k, c, b, pins, seen)
    requires c.data.Taken? && c.data.volume == k && Held(h.w, c.data) && VolumeOf(b.w, k) == Present(c.data.contents)
    requires h.stack.config == b.config && h.w.previous == b.w.previous
    requires h.stack.Snap() == b.s.(up := h.stack.up) && Thinned(b.s.up, h.stack.up, h.services(k))
    modifies h`w, h`calls, h`trace, h.stack`config, h.stack`disk, h.stack`loaded, h.stack`up, h.stack`calls
    modifies h.stack`fired, h`openings
    ensures old(h.calls) <= h.calls && old(h.stack.calls) <= h.stack.calls && Settles(h, k, b, pins, seen, r)
    ensures r.kind == k && (r.outcome.Committed? || RolledBack(r.outcome)) && r.snapshot == c.data
    ensures Untroubled(h, old(h.calls), old(h.stack.calls)) ==>
      Ready(h, k, b.config, b.config.(pins := b.config.pins + pins), b.s) ==> r.outcome.Committed? && r.recorded
    ensures r.outcome.Committed? && h.stack.Smooth(old(h.stack.calls), h.stack.calls) ==>
      KeepsCoherence(h, b.config.(pins := b.config.pins + pins), b.s, h.stack.Snap())
    ensures Safely(old(At(h)), At(h)) && OthersData(h, k, old(At(h)), At(h)) && h.w.files == old(h.w.files)
  {
    hide Aside, Advanced, RecordMoved, Host.Wired, Safely, OthersData, Midway, KeepsCoherence, Settles, RenderNames,
         Captures, Host.Declared, Thinned, Held, Ready, Untroubled, Stack.Smooth, Underway;
    ghost var a, at, stackAt := At(h), h.calls, h.stack.calls;
    CapturesRendered(h, k, c, b, seen);
    var ok, restarted := MutateAndStart(h, k, pins, b);
    ghost var a2, at2, stackAt2 := At(h), h.calls, h.stack.calls;
    AsideIsSafe(h, k, a, a2);
    AsideGrows(h, k, a, a2);
    StillHeld(a.w, h.w, c.data);
    NowUnderway(h, k, c, restarted, b, pins, seen);
    if ok {
      r := FinishAfterMutation(h, k, c, restarted, pins, b, seen);
    } else {
      r := Abandon(h, k, c, restarted, pins, RolledBackReject, b, seen);
    }
    UntroubledTwice(h, at, stackAt, at2, stackAt2);
    SettlesMeans(h, k, b, pins, seen, r);
    SafelyTwice(a, a2, At(h));
    OthersDataTwice(h, k, a, a2, At(h));
  }

  lemma NowUnderway(h: Host, k: Kind, c: Capture, restarted: seq<Service>, b: Moment, pins: map<Component, Ref>,
                    seen: bool)
    requires Poised(h, k, c, b, pins, seen) && RecordMoved(h, k, b.config, h.stack.config)
    requires Stateful(k) && c.data.Taken? && c.data.volume == k && Held(h.w, c.data)
    requires VolumeOf(b.w, k) == Present(c.data.contents) && h.w.previous == b.w.previous
    requires Midway(h, b.config, b.s, h.stack.Snap(), ServiceSet(restarted + h.services(k)), k)
    ensures Underway(h, k, c, restarted, b, seen)
  {
  }

  /** Three points of a run, one after the other. */
  lemma MovedSmoothly(h: Host, at: nat, stackAt: nat, at1: nat, stackAt1: nat, at2: nat, stackAt2: nat)
    requires at <= at1 <= at2 && stackAt <= stackAt1 <= stackAt2
    ensures h.Smooth(at, at2) <==> h.Smooth(at, at1) && h.Smooth(at1, at2)
    ensures h.stack.Smooth(stackAt, stackAt2) <==>
      h.stack.Smooth(stackAt, stackAt1) && h.stack.Smooth(stackAt1, stackAt2)
  {
  }

  lemma ReadyInWindow(h: Host, k: Kind, c: Config, next: Config, s: Snapshot, thin: Snapshot)
    requires thin == s.(up := thin.up)
    ensures Ready(h, k, c, next, s) <==> Ready(h, k, c, next, thin)
  {
  }

  lemma CapturesRendered(h: Host, k: Kind, c: Capture, b: Moment, seen: bool)
    requires Captures(h, k, c, b, seen)
    ensures h.stack.render(b.config).Rendered?
  {
  }

  lemma StillHeld(a: World, b: World, s: Snap)
    requires s.Taken? && Held(a, s) && a.files == b.files
    ensures Held(b, s)
  {
  }

  /** Finished snapshots stay as they are. */
  ghost predicate FilesKept(a: World, b: World) {
    forall p :: p in a.files && !p.partial ==> p in b.files && b.files[p] == a.files[p]
  }

  lemma SameFilesKept(a: World, b: World)
    requires a.files == b.files
    ensures FilesKept(a, b)
  {
  }

  lemma FilesKeptTwice(a: World, b: World, c: World)
    requires FilesKept(a, b) && FilesKept(b, c)
    ensures FilesKept(a, c)
  {
  }

  /** Nothing was mutated: record, unit files and tuples are as they were; what was stopped
      runs again unless the refusal says otherwise. */
  ghost predicate Declined(h: Host, k: Kind, b: Moment, r: SubResult)
    reads h`w, h.stack`config, h.stack`disk, h.stack`loaded, h.stack`up
  {
    && r == Bare(k, RefusedUnhealthy).(incomplete := r.incomplete)
    && Now(h) == b.(s := b.s.(up := h.stack.up), w := b.w.(volumes := h.w.volumes, files := h.w.files))
    && (h.Suits(k, VolumeOf(b.w, k), b.s.loaded) ==> VolumeOf(h.w, k) == VolumeOf(b.w, k))
    && AgreeOff(b.s.up, h.stack.up, ServiceSet(h.services(k)))
    && (!r.incomplete ==> h.stack.up.Keys == b.s.up.Keys)
    && (!r.incomplete && Coherent(b.s, h.stack.natives) && Synced(b.s) ==> h.stack.up == b.s.up)
  }

  /** Stopped and started again without anything in between. */
  lemma WindowClosed(h: Host, k: Kind, s: Snapshot, thin: map<Service, Text>, t: Snapshot)
    requires Thinned(s.up, thin, h.services(k)) && t == s.(up := t.up) && t.loaded == h.stack.loaded
    requires Filled(h.stack, thin, t.up, h.services(k)) && forall svc :: svc in h.services(k) ==> svc in s.up
    ensures AgreeOff(s.up, t.up, ServiceSet(h.services(k)))
    ensures (forall svc :: svc in h.services(k) ==> svc in t.up) ==>
      t.up.Keys == s.up.Keys && (Coherent(s, h.stack.natives) && Synced(s) ==> t.up == s.up)
  {
    forall svc ensures svc in h.services(k) <==> svc in ServiceSet(h.services(k)) {
    }
    if Coherent(s, h.stack.natives) && Synced(s) && forall svc :: svc in h.services(k) ==> svc in t.up {
      assert t.up.Keys == s.up.Keys;
      forall svc | svc in t.up ensures t.up[svc] == s.up[svc] {
        assert RunsItsUnit(s, svc, h.stack.natives);
      }
    }
  }

  /** Starts a subsystem again that could not be readied for its mutation. */
  method Reopen(h: Host, k: Kind, ghost b: Moment, ghost a: Point) returns (r: SubResult)
    requires h.Wired() && forall svc :: svc in h.services(k) ==> svc in b.s.up
    requires Now(h) == b.(s := b.s.(up := h.stack.up), w := b.w.(files := h.w.files))
    requires Thinned(b.s.up, h.stack.up, h.services(k))
    requires h.stack.fired == a.fired && h.openings == a.openings && b.w == a.w
    modifies h`w, h`calls, h`trace, h`openings, h.stack`up, h.stack`calls, h.stack`fired
    ensures old(h.calls) <= h.calls && old(h.stack.calls) <= h.stack.calls
    ensures Declined(h, k, b, r) && Asked(h.stack.fired, |a.fired|, h.services(k))
    ensures Aside(h, k, old(At(h)), At(h)) && OthersData(h, k, a, At(h))
    ensures r == Bare(k, RefusedUnhealthy).(incomplete := r.incomplete)
  {
    hide Host.Suits, Host.Wired, Thinned, Filled, OnlyData, Coherent;
    ghost var thin, a1 := h.stack.up, At(h);
    var ok := SubsystemStart(h, k);
    StartedIsAsked(a.fired, a.fired, h.stack.fired, h.services(k));
    StartedAside(h, k, a1, At(h));
    WindowClosed(h, k, b.s, thin, h.stack.Snap());
    OnlyDataMeans(a1.w, h.w, k);
    r := Bare(k, RefusedUnhealthy).(incomplete := !ok);
  }

  lemma OnlyDataMeans(a: World, b: World, k: Kind)
    requires OnlyData(a, b, k)
    ensures b == a.(volumes := b.volumes) && forall j :: j != k ==> VolumeOf(b, j) == VolumeOf(a, j)
  {
  }

  /** The stopped window: stop, snapshot, mutate, start. A failure before the mutation
      refuses, with every service asked to start again; one after it rolls back. */
  method RunStatefulMutation(h: Host, k: Kind, capture: Capture, pins: map<Component, Ref>, ghost b: Moment,
                             ghost seen: bool)
    returns (r: SubResult)
    requires h.Wired() && Stateful(k) && Poised(h, k, capture, b, pins, seen) && b == Now(h)
    modifies h`w, h`calls, h`trace, h`collided, h.stack`config, h.stack`disk, h.stack`loaded, h.stack`up, h.stack`calls
    modifies h.stack`fired, h`openings
    ensures old(h.calls) <= h.calls && old(h.stack.calls) <= h.stack.calls
    ensures if r.outcome.RefusedUnhealthy? then
              Declined(h, k, b, r) && Asked(h.stack.fired, |old(h.stack.fired)|, h.services(k))
            else Settles(h, k, b, pins, seen, r)
    ensures Untroubled(h, old(h.calls), old(h.stack.calls)) && Exportable(h, k, b.w) ==>
      Ready(h, k, b.config, b.config.(pins := b.config.pins + pins), b.s) ==> r.outcome.Committed? && r.recorded
    ensures r.outcome.Committed? && h.stack.Smooth(old(h.stack.calls), h.stack.calls) ==>
      KeepsCoherence(h, b.config.(pins := b.config.pins + pins), b.s, h.stack.Snap())
    ensures r.snapshot.Taken? ==> Held(h.w, r.snapshot) && (!h.collided ==> r.snapshot.path !in old(h.w.files))
    ensures old(h.collided) ==> h.collided
    ensures old(h.FreshStamps()) ==> h.FreshStamps() && h.collided == old(h.collided)
    ensures !h.collided ==> Safely(old(At(h)), At(h)) && FilesKept(old(h.w), h.w)
    ensures OthersData(h, k, old(At(h)), At(h))
  {
    hide Aside, Host.Wired, Safely, OthersData, KeepsCoherence, Settles, Captures, Host.Declared, Thinned, Declined,
         Held,
         FilesKept, Asked, Ready, Untroubled, Exportable, StopsAt, Stack.Smooth, Host.Smooth, Host.Proves;
    ghost var a, at, stackAt := At(h), h.calls, h.stack.calls;
    var ok := SubsystemStop(h, k);
    ghost var at1, stackAt1 := h.calls, h.stack.calls;
    ghost var w1 := h.w;
    SameFilesKept(a.w, w1);
    if !ok {
      r := Reopen(h, k, b, a);
      AsideIsSafe(h, k, a, At(h));
      AsideGrows(h, k, a, At(h));
      SameFilesKept(a.w, h.w);
      UntroubledTwice(h, at, stackAt, at1, stackAt1);
      return;
    }
    var snap;
    ok, snap := SnapshotData(h, k);
    ghost var a2, at2 := At(h), h.calls;
    ExportableMeans(h, k, b.w, w1);
    SnapshotIsSafe(h, k, a, a2);
    if !ok {
      r := Reopen(h, k, b, a);
      AsideIsSafe(h, k, a2, At(h));
      AsideGrows(h, k, a2, At(h));
      if !h.collided { SafelyTwice(a, a2, At(h)); }
      SameFilesKept(a2.w, h.w);
    } else {
      var c := capture.(data := snap);
      PoisedStill(h, k, capture, c, b, pins, seen);
      r := MutateInWindow(h, k, c, pins, b, seen);
      if !h.collided { SafelyTwice(a, a2, At(h)); }
      OthersDataTwice(h, k, a, a2, At(h));
      SameFilesKept(a2.w, h.w);
      StillHeld(a2.w, h.w, snap);
    }
    UntroubledTwice(h, at, stackAt, at1, stackAt1);
    UntroubledTwice(h, at1, stackAt1, at2, stackAt1);
    if !h.collided { FilesKeptTwice(a.w, a2.w, h.w); }
  }

  /** There is data to export, and no export comes out empty. */
  ghost predicate Exportable(h: Host, k: Kind, w: World) {
    Stateful(k) && VolumeOf(w, k).Present? && forall n :: h.exportBytes(n) > 0
  }

  lemma ExportableMeans(h: Host, k: Kind, a: World, b: World)
    requires b.volumes == a.volumes
    ensures Exportable(h, k, a) <==> Stateful(k) && VolumeOf(b, k).Present? && forall n :: h.exportBytes(n) > 0
  {
  }

  lemma PoisedStill(h: Host, k: Kind, c: Capture, d: Capture, b: Moment, pins: map<Component, Ref>, seen: bool)
    requires Poised(h, k, c, b, pins, seen) && d == c.(data := d.data)
    ensures Poised(h, k, d, b, pins, seen)
  {
  }

  /** Taking a snapshot under a name of its own leaves everything safe. */
  lemma SnapshotIsSafe(h: Host, k: Kind, a: Point, b: Point)
    requires b.w == a.w.(files := b.w.files) && a.trace <= b.trace && a.fired == b.fired && a.openings == b.openings
    ensures OthersData(h, k, a, b)
    ensures KeepsFinished(a.w, b.w) && AllKeepFinished(a.w, b.trace, |a.trace|) ==> Safely(a, b) && FilesKept(a.w, b.w)
  {
    if Safe(a.w) && KeepsFinished(a.w, b.w) && AllKeepFinished(a.w, b.trace, |a.trace|) {
      KeptFinishedSafely(a.w, b.trace, |a.trace|);
      KeepsFinishedKeepsSafe(a.w, b.w);
    }
  }

  /** The capture of a transaction begun with this call could read the record. */
  ghost predicate Sees(h: Host, at: nat) {
    h.faults(at + 2).Fine?
  }

  /** Proves the current state, captures the rollback point, pulls: none of it a mutation. */
  method Prepare(h: Host, t: Target) returns (ready: bool, c: Capture)
    requires h.Declared(h.stack.config) && t.pins.Keys <= h.components(t.kind)
    modifies h`calls, h.stack`calls
    ensures old(h.calls) <= h.calls && old(h.stack.calls) <= h.stack.calls
    ensures ready ==> Poised(h, t.kind, c, Now(h), t.pins, Sees(h, old(h.calls))) && c.data.NotTaken?
    ensures Untroubled(h, old(h.calls), old(h.stack.calls)) && h.Running(t.kind) ==>
      h.stack.render(h.stack.config).Rendered? ==> ready
  {
    hide Captures, Host.Smooth, Host.Proves, Stack.Smooth;
    ghost var at := h.calls;
    HostSmoothThenOne(h, at, at);
    c := Capture(map[], map[], NotTaken, NotTaken);
    var p := h.Prove(t.kind);
    SmoothOnce(h.stack, h.stack.calls);
    if !p.Pass? { return false, c; }
    ready, c := CaptureState(h, t.kind);
    HostSmoothTwice(h, at, at + 1, h.calls);
    if !ready { return; }
    HostSmoothThenOne(h, at, h.calls);
    ready := h.Ask();
  }

  /** Everything an update of this subsystem needs is there: it runs, systemd has read the
      disk, the render accepts the config with its present and its new pins, and data that
      is to be exported is there. */
  ghost predicate Going(h: Host, t: Target, b: Moment) {
    && t.pins != map[] && h.stack.render(b.config).Rendered?
    && (forall svc :: svc in h.services(t.kind) ==> svc in b.s.up)
    && Ready(h, t.kind, b.config, b.config.(pins := b.config.pins + t.pins), b.s)
    && (Stateful(t.kind) ==> Exportable(h, t.kind, b.w))
  }

  /** The transaction for one subsystem: prove, capture, pull, mutate, prove, commit. Where
      nothing fails it commits. */
  method RunOne(h: Host, t: Target) returns (r: SubResult)
    requires h.Wired() && h.Declared(h.stack.config) && t.pins.Keys <= h.components(t.kind)
    modifies h`w, h`calls, h`trace, h`collided, h.stack`config, h.stack`disk, h.stack`loaded, h.stack`up, h.stack`calls
    modifies h.stack`fired, h`openings
    ensures old(h.calls) <= h.calls && old(h.stack.calls) <= h.stack.calls && r.kind == t.kind
    ensures match r.outcome
      case NotTried => false
      case NothingToDo => t.pins == map[] && Now(h) == old(Now(h)) && r == Bare(t.kind, NothingToDo)
      case RefusedUnhealthy => t.pins != map[] && Declined(h, t.kind, old(Now(h)), r)
      case _ => t.pins != map[] && Settles(h, t.kind, old(Now(h)), t.pins, Sees(h, old(h.calls)), r)
    ensures Untroubled(h, old(h.calls), old(h.stack.calls)) && Going(h, t, old(Now(h))) ==>
      r.outcome.Committed? && r.recorded
    ensures r.outcome.Committed? && h.stack.Smooth(old(h.stack.calls), h.stack.calls) ==>
      KeepsCoherence(h, old(h.stack.config).(pins := old(h.stack.config).pins + t.pins), old(h.stack.Snap()),
                     h.stack.Snap())
    ensures r.snapshot.Taken? ==> Held(h.w, r.snapshot) && (!h.collided ==> r.snapshot.path !in old(h.w.files))
    ensures !h.collided ==> Safely(old(At(h)), At(h)) && FilesKept(old(h.w), h.w)
    ensures OthersData(h, t.kind, old(At(h)), At(h)) && OthersAlone(h, t.kind, old(Now(h)), Now(h))
    ensures !r.incomplete ==> ServicesStay(h, old(h.stack.up), h.stack.up)
    ensures TupleFrom(old(h.w), h.w, r)
    ensures h.Declared(h.stack.config) && (old(h.collided) ==> h.collided)
    ensures old(h.FreshStamps()) ==> h.FreshStamps() && h.collided == old(h.collided)
  {
    hide Host.Wired, Safely, OthersData, KeepsCoherence, Settles, Captures, Host.Declared, Held, FilesKept,
         ServicesStay, OthersAlone, Ready, Untroubled, Exportable, Stack.Smooth, Host.Smooth, Host.Proves, Sees,
         Host.FreshFor;
    var k := t.kind;
    ghost var b, a, at, stackAt := Now(h), At(h), h.calls, h.stack.calls;
    r := Bare(k, NothingToDo);
    NothingChanges(h, k, b, a);
    if t.pins == map[] { return; }
    r := Bare(k, RefusedUnhealthy);
    var ready, capture;
    ready, capture := Prepare(h, t);
    ghost var at1, stackAt1 := h.calls, h.stack.calls;
    FreshLater(h, h.w.files.Keys, at, at1);
    if !ready { return; }
    if Stateful(k) {
      r := RunStatefulMutation(h, k, capture, t.pins, b, Sees(h, at));
    } else {
      r := MutateAtOnce(h, k, capture, t.pins, b, Sees(h, at));
      SameFilesKept(a.w, h.w);
      FreshLater(h, h.w.files.Keys, at1, h.calls);
    }
    UntroubledTwice(h, at, stackAt, at1, stackAt1);
    if r.outcome.RefusedUnhealthy? {
      DeclinedMeans(h, k, b, r);
    } else {
      SettlesMeans(h, k, b, t.pins, Sees(h, at), r);
      CapturesRendered(h, k, capture, b, Sees(h, at));
      DeclaredStill(h, k, b, Now(h));
    }
  }

  lemma NothingChanges(h: Host, k: Kind, b: Moment, a: Point)
    ensures Safely(a, a) && FilesKept(a.w, a.w) && OthersData(h, k, a, a) && OthersAlone(h, k, b, b)
    ensures ServicesStay(h, b.s.up, b.s.up)
    ensures forall r :: TupleFrom(b.w, b.w, r)
  {
  }

  lemma DeclinedMeans(h: Host, k: Kind, b: Moment, r: SubResult)
    requires Declined(h, k, b, r)
    ensures r == Bare(k, RefusedUnhealthy).(incomplete := r.incomplete) && h.stack.config == b.config
    ensures TupleFrom(b.w, h.w, r)
    ensures OthersAlone(h, k, b, Now(h)) && (!r.incomplete ==> ServicesStay(h, b.s.up, h.stack.up))
  {
  }

  lemma DeclaredStill(h: Host, k: Kind, b: Moment, n: Moment)
    requires h.Wired() && h.Declared(b.config) && h.stack.render(b.config).Rendered? && OthersAlone(h, k, b, n)
    ensures h.Declared(n.config)
  {
    hide Stack.Wired;
    if h.stack.render(n.config).Rendered? {
      SameNames(h, k, b.config, n.config);
    }
  }

  // ------------------------------------------------------------------
  // The run
  // ------------------------------------------------------------------

  ghost predicate DistinctKinds(targets: seq<Target>) {
    forall i, j :: 0 <= i < j < |targets| ==> targets[i].kind != targets[j].kind
  }

  /** Every target moves components of its own subsystem. */
  ghost predicate Aimed(h: Host, targets: seq<Target>) {
    forall t :: t in targets ==> t.pins.Keys <= h.components(t.kind)
  }

  /** One result per target, in order; the first that halts is the last that was tried. */
  ghost predicate HaltsInOrder(targets: seq<Target>, rs: seq<SubResult>) {
    && |rs| <= |targets|
    && (forall i :: 0 <= i < |rs| ==> rs[i].kind == targets[i].kind)
    && (forall i, j :: 0 <= i < j < |rs| && (Halts(rs[i].outcome) || rs[i].outcome.NotTried?) ==>
          rs[j].outcome.NotTried?)
    && (forall i :: 0 <= i < |rs| && rs[i].outcome.NotTried? ==> exists j :: 0 <= j < i && Halts(rs[j].outcome))
  }

  ghost predicate AllComplete(rs: seq<SubResult>) {
    forall r :: r in rs ==> !r.incomplete
  }

  /** What was committed is still on record, with its rollback target. */
  ghost predicate StaysCommitted(n: Moment, t: Target, r: SubResult) {
    r.outcome.Committed? ==>
      && (forall c :: c in t.pins ==> c in n.config.pins && n.config.pins[c] == t.pins[c])
      && (r.recorded ==> t.kind in n.w.previous && n.w.previous[t.kind].data == r.snapshot)
  }

  /** What was committed still runs, unless something after it was left incomplete. */
  ghost predicate StillRuns(h: Host, up: map<Service, Text>, targets: seq<Target>, rs: seq<SubResult>)
    requires |rs| <= |targets|
  {
    forall i :: 0 <= i < |rs| && rs[i].outcome.Committed? && AllComplete(rs[i+1..]) ==>
      forall svc :: svc in h.services(targets[i].kind) ==> svc in up
  }

  /** What a result displaced is what the tuple on record pointed at when the run began. */
  ghost predicate Displaces(a: World, r: SubResult) {
    r.superseded.Taken? ==> r.outcome.Committed? && r.superseded == PriorSnap(a, r.kind)
  }

  lemma StillCommitted(h: Host, b: Moment, n: Moment, t: Target, r: SubResult, k: Kind)
    requires h.Wired() && StaysCommitted(b, t, r) && OthersAlone(h, k, b, n) && t.kind != k
    requires t.pins.Keys <= h.components(t.kind)
    ensures StaysCommitted(n, t, r)
  {
    hide Stack.Wired;
  }

  lemma DoneStays(h: Host, t: Target, b: Moment, seen: bool, r: SubResult)
    requires Done(h, t.kind, b, t.pins, seen, r)
    ensures StaysCommitted(Now(h), t, r) && Displaces(b.w, r.(kind := t.kind, outcome := Committed))
  {
  }

  lemma OthersKeepTheirTuple(h: Host, b: Moment, n: Moment, k: Kind, j: Kind)
    requires OthersAlone(h, k, b, n) && j != k
    ensures PriorSnap(n.w, j) == PriorSnap(b.w, j)
  {
  }

  lemma StillRunning(h: Host, up: map<Service, Text>, up': map<Service, Text>, targets: seq<Target>,
                     rs: seq<SubResult>, r: SubResult)
    requires |rs| < |targets| && StillRuns(h, up, targets, rs) && (!r.incomplete ==> ServicesStay(h, up, up'))
    requires r.outcome.Committed? ==> forall svc :: svc in h.services(targets[|rs|].kind) ==> svc in up'
    ensures StillRuns(h, up', targets, rs + [r])
  {
    var more := rs + [r];
    forall i, svc | 0 <= i < |more| && more[i].outcome.Committed? && AllComplete(more[i+1..])
                       && svc in h.services(targets[i].kind)
      ensures svc in up' {
      if i < |rs| {
        assert more[i+1..] == rs[i+1..] + [r];
        assert r in more[i+1..];
        forall q | q in rs[i+1..] ensures !q.incomplete {
          assert q in more[i+1..];
        }
      }
    }
  }

  // ------------------------------------------------------------------
  // Snapshots nothing points at
  // ------------------------------------------------------------------

  /** A retained snapshot that no tuple on record points at. */
  ghost predicate Forgotten(w: World, p: Path) {
    && p in w.files && !p.partial
    && forall j :: j in w.previous && w.previous[j].data.Taken? ==> w.previous[j].data.path != p
  }

  ghost predicate ForgottenKept(a: World, b: World) {
    forall p :: Forgotten(a, p) ==> Forgotten(b, p) && b.files[p] == a.files[p]
  }

  /** A transaction takes its snapshot under a new name, so it points at no old one. */
  lemma TransactionForgets(a: World, b: World, r: SubResult)
    requires FilesKept(a, b) && TupleFrom(a, b, r) && (r.snapshot.Taken? ==> r.snapshot.path !in a.files)
    ensures ForgottenKept(a, b)
  {
    forall p | Forgotten(a, p) ensures Forgotten(b, p) && b.files[p] == a.files[p] {
      forall j | j in b.previous && b.previous[j].data.Taken? ensures b.previous[j].data.path != p {
      }
    }
  }

  /** What a transaction that rolled back had captured is pointed at by nothing. */
  lemma RollbackForgets(a: World, b: World, r: SubResult)
    requires Safe(a) && b.previous == a.previous && r.snapshot.Taken? && Held(b, r.snapshot)
    requires r.snapshot.path !in a.files
    ensures Forgotten(b, r.snapshot.path)
  {
    forall j | j in b.previous && b.previous[j].data.Taken? ensures b.previous[j].data.path != r.snapshot.path {
      assert Held(a, a.previous[j].data);
    }
  }

  lemma ForgottenKeptTwice(a: World, b: World, c: World)
    requires ForgottenKept(a, b) && ForgottenKept(b, c)
    ensures ForgottenKept(a, c)
  {
    forall p | Forgotten(a, p) ensures Forgotten(c, p) && c.files[p] == a.files[p] {
      assert Forgotten(b, p);
    }
  }

  /** A snapshot of this run is on disk under a name of its own; that of a transaction that
      rolled back is pointed at by nothing. */
  ghost predicate NewlyHeld(a: World, b: World, r: SubResult) {
    r.snapshot.Taken? ==>
      Held(b, r.snapshot) && r.snapshot.path !in a.files
      && (RolledBack(r.outcome) && Safe(a) ==> Forgotten(b, r.snapshot.path))
  }

  lemma NewlyHeldStays(a: World, b: World, c: World, rs: seq<SubResult>)
    requires forall r :: r in rs ==> NewlyHeld(a, b, r)
    requires FilesKept(b, c) && ForgottenKept(b, c)
    ensures forall r :: r in rs ==> NewlyHeld(a, c, r)
  {
    forall r | r in rs ensures NewlyHeld(a, c, r) {
      assert NewlyHeld(a, b, r);
      if r.snapshot.Taken? && Forgotten(b, r.snapshot.path) {
        assert Forgotten(c, r.snapshot.path);
      }
    }
  }

  lemma LastIsNewlyHeld(a: World, b: World, c: World, r: SubResult)
    requires FilesKept(a, b) && (Safe(a) ==> Safe(b)) && (RolledBack(r.outcome) ==> c.previous == b.previous)
    requires r.snapshot.Taken? ==> Held(c, r.snapshot) && r.snapshot.path !in b.files
    ensures NewlyHeld(a, c, r)
  {
    if r.snapshot.Taken? && RolledBack(r.outcome) && Safe(a) {
      RollbackForgets(b, c, r);
    }
  }

  // ------------------------------------------------------------------
  // Subsystem after subsystem
  // ------------------------------------------------------------------

  /** What a run that began at `b` has done to record and services, one result at a time. */
  ghost predicate SoFar(h: Host, targets: seq<Target>, rs: seq<SubResult>, b: Moment, n: Moment) {
    && |rs| <= |targets| && (forall i :: 0 <= i < |rs| ==> StaysCommitted(n, targets[i], rs[i]))
    && StillRuns(h, n.s.up, targets, rs)
    && (forall i :: |rs| <= i < |targets| ==> PriorSnap(n.w, targets[i].kind) == PriorSnap(b.w, targets[i].kind))
    && (forall r :: r in rs ==> Displaces(b.w, r))
    && (AllComplete(rs) ==> ServicesStay(h, b.s.up, n.s.up))
  }

  /** What one result says of the step that gave it. */
  ghost predicate OneStep(h: Host, t: Target, r: SubResult, m: Moment, n: Moment) {
    && r.kind == t.kind && OthersAlone(h, t.kind, m, n) && (!r.incomplete ==> ServicesStay(h, m.s.up, n.s.up))
    && StaysCommitted(n, t, r) && Displaces(m.w, r)
    && (r.outcome.Committed? ==> forall svc :: svc in h.services(t.kind) ==> svc in n.s.up)
  }

  lemma SoFarMore(h: Host, targets: seq<Target>, rs: seq<SubResult>, b: Moment, m: Moment, n: Moment, r: SubResult)
    requires h.Wired() && DistinctKinds(targets) && Aimed(h, targets)
    requires SoFar(h, targets, rs, b, m) && |rs| < |targets| && OneStep(h, targets[|rs|], r, m, n)
    ensures SoFar(h, targets, rs + [r], b, n)
  {
    hide Host.Wired, OthersAlone, StillRuns, ServicesStay, StaysCommitted;
    var t, more := targets[|rs|], rs + [r];
    StillRunning(h, m.s.up, n.s.up, targets, rs, r);
    forall i | 0 <= i < |more| ensures StaysCommitted(n, targets[i], more[i]) {
      if i < |rs| {
        StillCommitted(h, m, n, targets[i], rs[i], t.kind);
      }
    }
    forall i | |more| <= i < |targets| ensures PriorSnap(n.w, targets[i].kind) == PriorSnap(b.w, targets[i].kind) {
      OthersKeepTheirTuple(h, m, n, t.kind, targets[i].kind);
    }
    if AllComplete(more) {
      forall q | q in rs ensures !q.incomplete { assert q in more; }
      assert r in more;
      StaysTwice(h, b.s.up, m.s.up, n.s.up);
    }
  }

  lemma StaysTwice(h: Host, a: map<Service, Text>, b: map<Service, Text>, c: map<Service, Text>)
    requires ServicesStay(h, a, b) && ServicesStay(h, b, c)
    ensures ServicesStay(h, a, c)
  {
  }

  /** What a run has done to tuples and retained snapshots. */
  ghost predicate FilesSoFar(rs: seq<SubResult>, a: Point, p: Point) {
    && Safely(a, p) && FilesKept(a.w, p.w) && ForgottenKept(a.w, p.w)
    && forall r :: r in rs ==> NewlyHeld(a.w, p.w, r)
  }

  lemma FilesMore(rs: seq<SubResult>, a: Point, m: Point, p: Point, r: SubResult)
    requires FilesSoFar(rs, a, m) && Safely(m, p) && FilesKept(m.w, p.w) && TupleFrom(m.w, p.w, r)
    requires RolledBack(r.outcome) ==> p.w.previous == m.w.previous
    requires r.snapshot.Taken? ==> Held(p.w, r.snapshot) && r.snapshot.path !in m.w.files
    ensures FilesSoFar(rs + [r], a, p)
  {
    hide FilesKept, TupleFrom, Held, Forgotten;
    SafelyTwice(a, m, p);
    FilesKeptTwice(a.w, m.w, p.w);
    TransactionForgets(m.w, p.w, r);
    ForgottenKeptTwice(a.w, m.w, p.w);
    NewlyHeldStays(a.w, m.w, p.w, rs);
    LastIsNewlyHeld(a.w, m.w, p.w, r);
  }

  /** A step that is not left incomplete keeps every running service on its unit. */
  lemma OneCoheres(h: Host, t: Target, b: Moment, seen: bool, r: SubResult)
    requires h.Wired() && h.stack.natives.Keys == {DASHBOARD} && !r.incomplete
    requires match r.outcome
      case NotTried => false
      case NothingToDo => Now(h) == b
      case RefusedUnhealthy => Declined(h, t.kind, b, r)
      case _ => Settles(h, t.kind, b, t.pins, seen, r)
    requires r.outcome.Committed? ==> KeepsCoherence(h, b.config.(pins := b.config.pins + t.pins), b.s, h.stack.Snap())
    requires Coherent(b.s, h.stack.natives) && Synced(b.s)
    ensures Coherent(h.stack.Snap(), h.stack.natives) && Synced(h.stack.Snap())
  {
    hide Stack.Wired;
    WiredStack(h);
    if r.outcome.Committed? {
      StagesAreWellStaged(h.stack, b.config.(pins := b.config.pins + t.pins));
    }
  }

  lemma OneStepOf(h: Host, t: Target, b: Moment, seen: bool, r: SubResult)
    requires r.kind == t.kind && OthersAlone(h, t.kind, b, Now(h))
    requires (!r.incomplete ==> ServicesStay(h, b.s.up, h.stack.up))
    requires match r.outcome
      case NotTried => false
      case NothingToDo => r == Bare(t.kind, NothingToDo) && Now(h) == b
      case RefusedUnhealthy => Declined(h, t.kind, b, r)
      case _ => Settles(h, t.kind, b, t.pins, seen, r)
    ensures OneStep(h, t, r, b, Now(h)) && (RolledBack(r.outcome) ==> h.w.previous == b.w.previous)
  {
    hide OthersAlone, ServicesStay, PutBack;
    if r.outcome.Committed? { DoneStays(h, t, b, seen, r); }
  }

  /** One transaction, as the run sees it. */
  method TryOne(h: Host, t: Target) returns (r: SubResult)
    requires h.Wired() && h.Declared(h.stack.config) && t.pins.Keys <= h.components(t.kind)
    modifies h`w, h`calls, h`trace, h`collided, h.stack`config, h.stack`disk, h.stack`loaded, h.stack`up, h.stack`calls
    modifies h.stack`fired, h`openings
    ensures old(h.calls) <= h.calls && old(h.stack.calls) <= h.stack.calls && h.Declared(h.stack.config)
    ensures OneStep(h, t, r, old(Now(h)), Now(h)) && !r.outcome.NotTried?
    ensures !r.incomplete && h.stack.natives.Keys == {DASHBOARD} && old(OnItsUnits(h)) ==>
      (r.outcome.Committed? ==> h.stack.Smooth(old(h.stack.calls), h.stack.calls)) ==> OnItsUnits(h)
    ensures !h.collided ==> Safely(old(At(h)), At(h)) && FilesKept(old(h.w), h.w) && TupleFrom(old(h.w), h.w, r)
    ensures RolledBack(r.outcome) ==> h.w.previous == old(h.w.previous)
    ensures r.snapshot.Taken? ==> Held(h.w, r.snapshot) && (!h.collided ==> r.snapshot.path !in old(h.w.files))
    ensures old(h.collided) ==> h.collided
    ensures old(h.FreshStamps()) ==> h.FreshStamps() && h.collided == old(h.collided)
  {
    hide Host.Wired, Host.Declared, Host.FreshStamps, Safely, OthersData, OthersAlone, KeepsCoherence, Settles,
         Declined, Stack.Smooth, Untroubled, Going,
         Held, FilesKept, ServicesStay, TupleFrom, Coherent;
    ghost var m, seen, stackAt := Now(h), Sees(h, h.calls), h.stack.calls;
    r := RunOne(h, t);
    OneStepOf(h, t, m, seen, r);
    if !r.incomplete && (r.outcome.Committed? ==> h.stack.Smooth(stackAt, h.stack.calls))
       && h.stack.natives.Keys == {DASHBOARD} && Coherent(m.s, h.stack.natives) && Synced(m.s) {
      OneCoheres(h, t, m, seen, r);
    }
  }

  /** Where the calls to the stack of each transaction begin, and where the last one ends. */
  ghost predicate Marks(marks: seq<nat>, rs: seq<SubResult>, from: nat, to: nat) {
    && |marks| == |rs| + 1 && marks[0] == from && marks[|rs|] == to
    && forall i :: 0 <= i < |rs| ==> marks[i] <= marks[i+1]
  }

  /** No call to the stack failed in a transaction that committed: the state of every service
      could be read. */
  ghost predicate CommittedSmoothly(h: Host, rs: seq<SubResult>, marks: seq<nat>)
    requires |marks| == |rs| + 1
  {
    forall i :: 0 <= i < |rs| && rs[i].outcome.Committed? ==> h.stack.Smooth(marks[i], marks[i+1])
  }

  lemma {:induction false} SmoothEachTime(h: Host, rs: seq<SubResult>, marks: seq<nat>, from: nat, to: nat)
    requires Marks(marks, rs, from, to)
    ensures from <= to && (h.stack.Smooth(from, to) ==> CommittedSmoothly(h, rs, marks))
    decreases |rs|
  {
    if rs == [] {
    } else {
      var n := |rs| - 1;
      SmoothEachTime(h, rs[..n], marks[..n+1], from, marks[n]);
      SmoothTwice(h.stack, from, marks[n], to);
    }
  }

  lemma SmoothSoFar(h: Host, rs: seq<SubResult>, marks: seq<nat>, r: SubResult, to: nat)
    requires |marks| == |rs| + 1 && CommittedSmoothly(h, rs + [r], marks + [to])
    ensures CommittedSmoothly(h, rs, marks) && (r.outcome.Committed? ==> h.stack.Smooth(marks[|rs|], to))
  {
    hide Stack.Smooth;
    var more, on := rs + [r], marks + [to];
    assert more[|rs|] == r && on[|rs|] == marks[|rs|] && on[|rs| + 1] == to;
    forall i | 0 <= i < |rs| && rs[i].outcome.Committed? ensures h.stack.Smooth(marks[i], marks[i+1]) {
      assert more[i] == rs[i] && on[i] == marks[i] && on[i+1] == marks[i+1];
    }
  }

  /** Subsystem after subsystem; everything after a halt is reported as not tried. */
  method Run(h: Host, targets: seq<Target>) returns (rs: seq<SubResult>, ghost marks: seq<nat>)
    requires h.Wired() && h.Declared(h.stack.config) && DistinctKinds(targets) && Aimed(h, targets)
    modifies h`w, h`calls, h`trace, h`collided, h.stack`config, h.stack`disk, h.stack`loaded, h.stack`up, h.stack`calls
    modifies h.stack`fired, h`openings
    ensures old(h.calls) <= h.calls && |rs| == |targets| && HaltsInOrder(targets, rs) && h.Declared(h.stack.config)
    ensures SoFar(h, targets, rs, old(Now(h)), Now(h))
    ensures Marks(marks, rs, old(h.stack.calls), h.stack.calls)
    ensures h.stack.Smooth(old(h.stack.calls), h.stack.calls) ==> CommittedSmoothly(h, rs, marks)
    ensures AllComplete(rs) && CommittedSmoothly(h, rs, marks) && h.stack.natives.Keys == {DASHBOARD} ==>
      old(OnItsUnits(h)) ==> OnItsUnits(h)
    ensures !h.collided ==> FilesSoFar(rs, old(At(h)), At(h))
    ensures old(h.collided) ==> h.collided
    ensures old(h.FreshStamps()) ==> h.FreshStamps() && h.collided == old(h.collided)
  {
    hide Host.Wired, Host.Declared, Host.FreshStamps, SoFar, OneStep, FilesSoFar, Safely, Held, FilesKept, TupleFrom,
         OnItsUnits, Stack.Smooth, CommittedSmoothly, Marks, AllComplete, HaltsInOrder,
         DistinctKinds, Aimed;
    ghost var b, a := Now(h), At(h);
    var halted := false;
    rs, marks := [], [h.stack.calls];
    NothingTried(targets, h.stack.calls);
    NothingSoFar(h, targets, b, a);
    for i := 0 to |targets|
      invariant |rs| == i && old(h.calls) <= h.calls && HaltsInOrder(targets, rs)
      invariant halted <==> exists j :: 0 <= j < i && Halts(rs[j].outcome)
      invariant h.Declared(h.stack.config) && SoFar(h, targets, rs, b, Now(h))
      invariant !h.collided ==> FilesSoFar(rs, a, At(h))
      invariant |marks| == |rs| + 1 && marks[|rs|] == h.stack.calls
      invariant Marks(marks, rs, old(h.stack.calls), h.stack.calls)
      invariant AllComplete(rs) && CommittedSmoothly(h, rs, marks) && h.stack.natives.Keys == {DASHBOARD} ==>
        old(OnItsUnits(h)) ==> OnItsUnits(h)
      invariant old(h.collided) ==> h.collided
      invariant old(h.FreshStamps()) ==> h.FreshStamps() && h.collided == old(h.collided)
    {
      ghost var m, p, was, halted0, stackAt := Now(h), At(h), rs, halted, h.stack.calls;
      var r;
      if halted {
        r := Bare(targets[i].kind, NotTried);
        NotTriedStep(h, targets[i], m, p);
      } else {
        IsAimed(h, targets, i);
        r := TryOne(h, targets[i]);
        halted := Halts(r.outcome);
      }
      StepKind(h, targets[i], r, m, Now(h));
      ghost var begun := marks;
      OneMoreTried(targets, rs, halted0, marks, old(h.stack.calls), stackAt, h.stack.calls, r);
      rs, marks := rs + [r], marks + [h.stack.calls];
      if CommittedSmoothly(h, rs, marks) { SmoothSoFar(h, was, begun, r, h.stack.calls); }
      SoFarMore(h, targets, was, b, m, Now(h), r);
      if !h.collided { FilesMore(was, a, p, At(h), r); }
    }
    SmoothEachTime(h, rs, marks, old(h.stack.calls), h.stack.calls);
  }

  lemma NothingTried(targets: seq<Target>, at: nat)
    ensures HaltsInOrder(targets, []) && Marks([at], [], at, at) && AllComplete([])
  {
  }

  lemma OneMoreTried(targets: seq<Target>, rs: seq<SubResult>, halted: bool, marks: seq<nat>, from: nat, to: nat,
                     to': nat, r: SubResult)
    requires HaltsInOrder(targets, rs) && |rs| < |targets| && r.kind == targets[|rs|].kind
    requires halted <==> exists j :: 0 <= j < |rs| && Halts(rs[j].outcome)
    requires halted <==> r.outcome.NotTried?
    requires Marks(marks, rs, from, to) && to <= to'
    ensures HaltsInOrder(targets, rs + [r]) && Marks(marks + [to'], rs + [r], from, to')
    ensures (halted || Halts(r.outcome)) <==> exists j :: 0 <= j < |rs + [r]| && Halts((rs + [r])[j].outcome)
    ensures AllComplete(rs + [r]) <==> AllComplete(rs) && !r.incomplete
  {
    var more := rs + [r];
    assert r in more && forall q :: q in rs ==> q in more;
    forall i, j | 0 <= i < j < |more| && (Halts(more[i].outcome) || more[i].outcome.NotTried?)
      ensures more[j].outcome.NotTried? {
      assert more[i] == rs[i];
    }
    if halted {
      var j :| 0 <= j < |rs| && Halts(rs[j].outcome);
      assert more[j] == rs[j];
    } else if Halts(r.outcome) {
      assert more[|rs|] == r;
    }
  }

  lemma StepKind(h: Host, t: Target, r: SubResult, m: Moment, n: Moment)
    requires OneStep(h, t, r, m, n)
    ensures r.kind == t.kind
  {
  }

  /** Every running service runs the unit on disk, and systemd has read the disk. */
  ghost predicate OnItsUnits(h: Host)
    reads h.stack`disk, h.stack`loaded, h.stack`up
  {
    Coherent(h.stack.Snap(), h.stack.natives) && Synced(h.stack.Snap())
  }

  lemma IsAimed(h: Host, targets: seq<Target>, i: nat)
    requires Aimed(h, targets) && i < |targets|
    ensures targets[i].pins.Keys <= h.components(targets[i].kind)
  {
    assert targets[i] in targets;
  }

  lemma NothingSoFar(h: Host, targets: seq<Target>, b: Moment, a: Point)
    ensures SoFar(h, targets, [], b, b) && FilesSoFar([], a, a)
  {
  }

  lemma NotTriedStep(h: Host, t: Target, m: Moment, p: Point)
    ensures OneStep(h, t, Bare(t.kind, NotTried), m, m)
    ensures Safely(p, p) && FilesKept(p.w, p.w) && TupleFrom(p.w, p.w, Bare(t.kind, NotTried))
  {
  }

  // ------------------------------------------------------------------
  // Releasing displaced snapshots
  // ------------------------------------------------------------------

  /** The paths the whole store points at: the live rollback targets. */
  function LivePaths(previous: map<Kind, Previous>): set<Path> {
    set k | k in previous && previous[k].data.Taken? :: previous[k].data.path
  }

  predicate Cleanable(r: SubResult) {
    r.outcome.Committed? && !r.incomplete
  }

  /** Whether a displaced snapshot may go: nothing on record points at it. */
  predicate MayRelease(previous: map<Kind, Previous>, r: SubResult) {
    Cleanable(r) && r.superseded.Taken? && r.superseded.path !in LivePaths(previous)
  }

  /** A removal keeps every target safe exactly when no tuple points at the file. */
  lemma ReleaseKeepsSafeIff(w: World, p: Path)
    requires Safe(w)
    ensures Safe(w.(files := w.files - {p})) <==> p !in LivePaths(w.previous)
  {
    var w' := w.(files := w.files - {p});
    forall k | k in w.previous && w.previous[k].data.Taken?
      ensures Held(w', w.previous[k].data) <==> w.previous[k].data.path != p {
      assert Held(w, w.previous[k].data);
    }
  }

  /** What a cleanup has taken away was displaced by one of these results. */
  ghost predicate Released(a: World, b: World, rs: seq<SubResult>) {
    && b == a.(files := b.files) && NothingNewFiles(a, b)
    && forall p :: p in a.files && p !in b.files ==>
          exists r :: r in rs && MayRelease(a.previous, r) && r.superseded.path == p
  }

  ghost predicate NothingNewFiles(a: World, b: World) {
    forall p :: p in b.files ==> p in a.files && b.files[p] == a.files[p]
  }

  /** Releases what committed subsystems displaced; a failed removal is only a warning. */
  method Cleanup(h: Host, rs: seq<SubResult>)
    modifies h`w, h`calls, h`trace
    ensures old(h.calls) <= h.calls && Released(old(h.w), h.w, rs)
    ensures Safely(old(At(h)), At(h))
  {
    hide Safe, Held, LivePaths;
    ghost var a, n := h.w, |h.trace|;
    var known := h.Ask();
    var previous := h.w.previous;
    if !known { return; }
    for i := 0 to |rs|
      invariant old(h.calls) <= h.calls && Released(a, h.w, rs)
      invariant old(h.trace) <= h.trace && (Safe(a) ==> Safe(h.w) && AllSafe(h.trace, n))
    {
      if MayRelease(previous, rs[i]) {
        if Safe(a) { ReleaseKeepsSafeIff(h.w, rs[i].superseded.path); }
        assert rs[i] in rs;
        var _ := h.RemoveFile(rs[i].superseded.path);
      }
    }
  }

  /** A snapshot that was not a rollback target when the run began is none the run displaced,
      so a cleanup after it leaves it alone. */
  lemma UndisplacedSurvives(a: World, b: World, c: World, rs: seq<SubResult>, p: Path)
    requires forall r :: r in rs ==> Displaces(a, r)
    requires Released(b, c, rs) && p in b.files
    requires forall k :: k in a.previous && a.previous[k].data.Taken? ==> a.previous[k].data.path != p
    ensures p in c.files && c.files[p] == b.files[p]
  {
    forall r | r in rs && r.superseded.Taken? ensures r.superseded.path != p {
      assert Displaces(a, r);
    }
  }

  /** Nothing forgotten when the run began has gone with the cleanup after it. */
  lemma ForgottenSurvives(a: World, b: World, c: World, rs: seq<SubResult>)
    requires ForgottenKept(a, b) && Released(b, c, rs) && forall r :: r in rs ==> Displaces(a, r)
    ensures ForgottenKept(a, c)
  {
    forall p | Forgotten(a, p) ensures Forgotten(c, p) && c.files[p] == a.files[p] {
      assert Forgotten(b, p);
      UndisplacedSurvives(a, b, c, rs, p);
    }
  }

  /** After a run and its cleanup every snapshot the run took is still there, that of a
      subsystem that rolled back included, and no tuple points at that one. */
  lemma RunSnapshotSurvives(a: World, b: World, c: World, rs: seq<SubResult>, r: SubResult)
    requires Safe(a) && r in rs && r.snapshot.Taken? && NewlyHeld(a, b, r) && Released(b, c, rs)
    requires forall s :: s in rs ==> Displaces(a, s)
    ensures Held(c, r.snapshot) && (RolledBack(r.outcome) ==> Forgotten(c, r.snapshot.path))
  {
    forall k | k in a.previous && a.previous[k].data.Taken? ensures a.previous[k].data.path != r.snapshot.path {
      assert Held(a, a.previous[k].data);
    }
    UndisplacedSurvives(a, b, c, rs, r.snapshot.path);
  }

  /** The run and the cleanup behind it; an interrupted run is not cleaned up after. With a
      clock that stamps every capture anew, every rollback target is there at every moment. */
  method Update(h: Host, targets: seq<Target>, interrupted: bool) returns (rs: seq<SubResult>, ghost marks: seq<nat>)
    requires h.Wired() && h.Declared(h.stack.config) && DistinctKinds(targets) && Aimed(h, targets)
    modifies h`w, h`calls, h`trace, h`collided, h.stack`config, h.stack`disk, h.stack`loaded, h.stack`up, h.stack`calls
    modifies h.stack`fired, h`openings
    ensures old(h.calls) <= h.calls && |rs| == |targets| && HaltsInOrder(targets, rs) && h.Declared(h.stack.config)
    ensures SoFar(h, targets, rs, old(Now(h)), Now(h))
    ensures Marks(marks, rs, old(h.stack.calls), h.stack.calls)
    ensures h.stack.Smooth(old(h.stack.calls), h.stack.calls) ==> CommittedSmoothly(h, rs, marks)
    ensures AllComplete(rs) && CommittedSmoothly(h, rs, marks) && h.stack.natives.Keys == {DASHBOARD} ==>
      old(OnItsUnits(h)) ==> OnItsUnits(h)
    ensures old(h.FreshStamps()) ==> h.FreshStamps() && h.collided == old(h.collided)
    ensures old(h.FreshStamps()) && !old(h.collided) ==> Safely(old(At(h)), At(h)) && ForgottenKept(old(h.w), h.w)
    ensures old(h.FreshStamps()) && !old(h.collided) && Safe(old(h.w)) ==>
      forall r :: r in rs && r.snapshot.Taken? ==>
        Held(h.w, r.snapshot) && (RolledBack(r.outcome) ==> Forgotten(h.w, r.snapshot.path))
  {
    hide Host.Wired, Host.Declared, SoFar, FilesSoFar, Safely, Held, FilesKept, HaltsInOrder, Released, Forgotten,
         ForgottenKept,
         Coherent, DistinctKinds, Aimed, NewlyHeld, Displaces, CommittedSmoothly, Marks, Stack.Smooth;
    ghost var a, b := At(h), Now(h);
    rs, marks := Run(h, targets);
    ghost var m, n := At(h), Now(h);
    if !interrupted { Cleanup(h, rs); } else { NothingReleased(m, rs); }
    ReleasedMeans(m.w, h.w, rs);
    SoFarOn(h, targets, rs, b, n, Now(h));
    if old(h.FreshStamps()) && !old(h.collided) {
      FilesSoFarMeans(rs, a, m);
      SafelyTwice(a, m, At(h));
      ForgottenSurvives(a.w, m.w, h.w, rs);
      if Safe(a.w) {
        forall r | r in rs && r.snapshot.Taken?
          ensures Held(h.w, r.snapshot) && (RolledBack(r.outcome) ==> Forgotten(h.w, r.snapshot.path)) {
          RunSnapshotSurvives(a.w, m.w, h.w, rs, r);
        }
      }
    }
  }

  lemma NothingReleased(m: Point, rs: seq<SubResult>)
    ensures Released(m.w, m.w, rs) && Safely(m, m)
  {
  }

  lemma ReleasedMeans(a: World, b: World, rs: seq<SubResult>)
    requires Released(a, b, rs)
    ensures b == a.(files := b.files) && b.files.Keys <= a.files.Keys
  {
  }

  lemma SoFarOn(h: Host, targets: seq<Target>, rs: seq<SubResult>, b: Moment, m: Moment, n: Moment)
    requires SoFar(h, targets, rs, b, m) && n == m.(w := n.w) && n.w.previous == m.w.previous
    ensures SoFar(h, targets, rs, b, n) && forall r :: r in rs ==> Displaces(b.w, r)
  {
  }

  lemma FilesSoFarMeans(rs: seq<SubResult>, a: Point, p: Point)
    requires FilesSoFar(rs, a, p)
    ensures Safely(a, p) && ForgottenKept(a.w, p.w) && forall r :: r in rs ==> NewlyHeld(a.w, p.w, r)
  {
  }

  // ------------------------------------------------------------------
  // Whole histories
  // ------------------------------------------------------------------

  /** From one world of a host's history to the next: an update with its cleanup, or anything
      that leaves tuples and retained snapshots alone. */
  ghost predicate Later(a: World, b: World) {
    KeepsFinished(a, b) || ForgottenKept(a, b)
  }

  /** A snapshot no tuple points at, that of a rolled back update for one, is never pointed
      at again and never removed, whatever updates follow. */
  lemma {:induction false} ForgottenForEver(ws: seq<World>, i: nat, j: nat, p: Path)
    requires i <= j < |ws| && Forgotten(ws[i], p)
    requires forall m, n :: 0 <= m && n == m + 1 && n < |ws| ==> Later(ws[m], ws[n])
    ensures Forgotten(ws[j], p) && ws[j].files[p] == ws[i].files[p]
    decreases j - i
  {
    if i == j {
    } else {
      ForgottenForEver(ws, i, j - 1, p);
      assert Later(ws[j-1], ws[j]);
    }
  }

  /** A stack of one chat service that is up, and whose stops report failures. */
  method SmallStack() returns (stack: Stack)
    ensures fresh(stack) && stack.Wired() && stack.up == map["villa-openwebui" := "unit"] && stack.fired == []
    ensures stack.natives == map[]
    ensures forall n :: stack.faults(n).Landed?
    ensures forall c :: stack.render(c) == Rendered([])
  {
    var cfg := Config("model", "quant", 0, [], "key", map[], "");
    var disk := map[Container("villa-openwebui") := "unit"];
    stack := new Stack(cfg, disk, disk, map["villa-openwebui" := "unit"], (c: Config) => Rendered([]), [], map[], {},
                       (n: nat) => Landed, "new");
  }

  /** That stack with a snapshot of its chat data. */
  method SmallHost() returns (h: Host, ghost stack: Stack, snap: Snap)
    ensures fresh(h) && fresh(stack) && h.stack == stack && h.Wired() && h.services(Chat) == ["villa-openwebui"]
    ensures h.stack.up == map["villa-openwebui" := "unit"] && h.stack.fired == []
    ensures snap.Taken? && snap.volume == Chat && Held(h.w, snap)
    ensures (forall n :: h.faults(n).Fine?) && forall n :: stack.faults(n).Landed?
  {
    var path := Path(Chat, 0, false);
    var w := World(map[], map[Chat := Present(map[])], map[path := File(1, map[])]);
    var small := SmallStack();
    stack := small;
    h := new Host(small, w,
                  k => if k == Chat then ["villa-openwebui"] else if k == Memory then ["villa-qdrant"] else [],
                  k => {}, c => "", svc => None, (text, contents) => contents, n => Fine, n => Proof.Pass, n => n + 1,
                                                  n => 1, n => map[]);
    snap := Taken(Chat, path, map[]);
  }

  /** A rollback whose stop fails can leave the subsystem down: here its one service goes
      down, the stop reports a failure, and nothing is asked to start. */
  method FailedStopLeavesDown() returns (h: Host, incomplete: bool)
    ensures h.services(Chat) == ["villa-openwebui"] && incomplete
    ensures h.stack.fired == [] && "villa-openwebui" !in h.stack.up
  {
    hide Host.Wired, Held, Aside, RecordMoved, SwapFrame.GivenBack, Host.Suits;
    var snap;
    ghost var stack;
    h, stack, snap := SmallHost();
    incomplete := Rollback(h, Chat, Capture(map[], map[], snap, NotTaken), []);
  }
}
