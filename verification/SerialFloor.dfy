/** `villa update`: what it records about the manifests it has seen, and what may reach the
    apply flow. */
module SerialFloor {
  import opened Options

  /** The pin state on record. Pins and retained tuples are carried, not looked into. */
  datatype State = State(serial: nat, checkedAt: nat, pins: map<string, string>, previous: map<string, string>)

  const ZERO := State(0, 0, map[], map[])

  /** A foreign store holds a record this villa cannot read: damaged, or of a later schema. */
  datatype Store = Missing | Foreign(state: State) | Kept(state: State)

  /** A signed manifest as far as its gates go. */
  datatype Manifest = Manifest(serial: nat, genuine: bool, expired: bool, allowed: bool)

  datatype Flags = Flags(check: bool, dryRun: bool)

  datatype Outcome = CouldNotCheck | Reported | NothingToUpdate | Previewed | StackStopped | Applied

  /** What is on record. */
  function Recorded(s: Store): State {
    if s.Missing? then ZERO else s.state
  }

  /** What reading it yields, when reading does not fail: a foreign store reads as nothing. */
  function Read(s: Store): State {
    if s.Kept? then s.state else ZERO
  }

  function Max(a: nat, b: nat): nat {
    if a > b then a else b
  }

  /** The gates a manifest must pass, in the source's order. */
  predicate Accepted(m: Manifest, floor: nat) {
    m.genuine && m.serial >= floor && !m.expired && m.allowed
  }

  class Verb {
    var store: Store
    /** The serials of the manifests whose targets reached the apply flow. */
    ghost var applied: seq<nat>

    /** The serial of the pin table compiled in. */
    const vetted: nat

    constructor (store: Store, vetted: nat)
      ensures this.store == store && this.vetted == vetted && applied == []
    {
      this.store, this.vetted, this.applied := store, vetted, [];
    }

    /** Reads the record: an absent or foreign store reads as nothing, with no error. */
    method Load(readable: bool) returns (ok: bool, state: State)
      ensures ok == readable && state == if readable then Read(store) else ZERO
    {
      ok, state := readable, if readable && store.Kept? then store.state else ZERO;
    }

    /** Writes the record; a failed write may have landed. */
    method Save(state: State, goesWell: bool, lands: bool) returns (ok: bool)
      modifies this`store
      ensures ok == goesWell && store == if goesWell || lands then Kept(state) else old(store)
    {
      ok := goesWell;
      if goesWell || lands { store := Kept(state); }
    }

    /** One read-modify-write of the record by the apply flow: refused over a record that
        cannot be read, so what is not edited survives. */
    method WritePinState(x: Write) returns (ok: bool)
      modifies `store
      ensures store == AfterWrite(old(store), x)
      ensures ok <==> x.readable && !old(store).Foreign? && x.saves
    {
      ok := x.readable && !store.Foreign?;
      if ok {
        ok := Save(Edited(Recorded(store), x.edit), x.saves, x.lands);
      }
    }

    /** Every write of one apply flow, whichever of them fail. */
    method ApplyFlow(writes: seq<Write>)
      modifies `store
      ensures store == AfterWrites(old(store), writes)
    {
      for i := 0 to |writes|
        invariant store == AfterWrites(old(store), writes[..i])
      {
        assert writes[..i+1][..i] == writes[..i];
        var _ := WritePinState(writes[i]);
      }
      assert writes[..|writes|] == writes;
    }

    /** Check, record a conclusion, and only then consider applying. */
    method RunUpdate(flags: Flags, readable: bool, fetched: Option<Manifest>, now: nat, saves: bool, lands: bool,
                     targets: nat, running: bool, writes: seq<Write>)
      returns (o: Outcome, ghost recorded: Store)
      modifies this
      ensures var floor := Max(if readable then Read(old(store)).serial else 0, vetted);
        var concluded := fetched.Some? && Accepted(fetched.value, floor);
        && (o.Applied? <==> concluded && !flags.check && !flags.dryRun && targets > 0 && running)
        && applied == (if o.Applied? then old(applied) + [fetched.value.serial] else old(applied))
        && recorded == (if concluded && (saves || lands) then
                          Kept(AfterCheck(readable, old(store), fetched.value.serial, now))
                        else old(store))
      ensures store == if o.Applied? then AfterWrites(recorded, writes) else recorded
      ensures readable && !old(store).Foreign? ==>
        Lawful(Step(old(store), recorded, store, fetched, now,
                    if o.Applied? then Some(fetched.value.serial) else None), vetted)
    {
      recorded := store;
      var ok, state := Load(readable);
      if !ok {
        // Taken for a fresh install.
        state := ZERO;
      }
      if fetched.None? { return CouldNotCheck, recorded; }
      var concluded := Accepted(fetched.value, Max(state.serial, vetted));
      if concluded {
        state := state.(checkedAt := now);
        if fetched.value.serial > state.serial {
          state := state.(serial := fetched.value.serial);
        }
        var _ := Save(state, saves, lands);
        recorded := store;
      }
      if flags.check { return if concluded then Reported else CouldNotCheck, recorded; }
      if !concluded { return CouldNotCheck, recorded; }
      if targets == 0 { return NothingToUpdate, recorded; }
      if flags.dryRun { return Previewed, recorded; }
      if !running { return StackStopped, recorded; }
      applied := applied + [fetched.value.serial];
      ApplyFlow(writes);
      WritesKeepTheFloor(recorded, writes);
      o := Applied;
    }
  }

  // ------------------------------------------------------------------
  // What the apply flow writes to the same record
  // ------------------------------------------------------------------

  /** The pins a subsystem is to run, or those together with the tuple they displaced. */
  datatype Edit = Effective(refs: map<string, string>) | Commit(kind: string, refs: map<string, string>, tuple: string)

  /** One such write, with what becomes of its read and its save. */
  datatype Write = Write(edit: Edit, readable: bool, saves: bool, lands: bool)

  function Edited(s: State, e: Edit): State {
    match e
    case Effective(refs) => s.(pins := s.pins + refs)
    case Commit(kind, refs, tuple) => s.(pins := s.pins + refs, previous := s.previous[kind := tuple])
  }

  function AfterWrite(s: Store, x: Write): Store {
    if x.readable && !s.Foreign? && (x.saves || x.lands) then Kept(Edited(Recorded(s), x.edit)) else s
  }

  function AfterWrites(s: Store, writes: seq<Write>): Store {
    if writes == [] then s else AfterWrite(AfterWrites(s, writes[..|writes| - 1]), writes[|writes| - 1])
  }

  /** Whatever pins and tuples it holds now, it holds the serial and the time of check it held. */
  ghost predicate OnTheSameFloor(a: Store, b: Store) {
    && (a.Foreign? ==> b == a)
    && (!a.Foreign? ==> !b.Foreign?)
    && Recorded(b).serial == Recorded(a).serial && Recorded(b).checkedAt == Recorded(a).checkedAt
  }

  /** No apply flow moves the floor, and none writes over a record it cannot read. */
  lemma {:induction false} WritesKeepTheFloor(s: Store, writes: seq<Write>)
    ensures OnTheSameFloor(s, AfterWrites(s, writes))
    decreases |writes|
  {
    if writes == [] {
    } else {
      WritesKeepTheFloor(s, writes[..|writes| - 1]);
    }
  }

  /** What a concluded check records. */
  function AfterCheck(readable: bool, store: Store, serial: nat, now: nat): State {
    var s := if readable then Read(store) else ZERO;
    s.(checkedAt := now, serial := Max(s.serial, serial))
  }

  /** The record was there and the run could not see it. */
  predicate Blind(readable: bool, store: Store) {
    !store.Missing? && (!readable || store.Foreign?)
  }

  /** The recorded serial goes back exactly when a run that could not see it concluded on an
      older manifest: the floor that let it in was only the compiled-in one. */
  lemma SerialDropsIff(readable: bool, store: Store, serial: nat, now: nat)
    ensures AfterCheck(readable, store, serial, now).serial < Recorded(store).serial <==>
            Blind(readable, store) && serial < Recorded(store).serial
  {
  }

  /** A concluded check keeps the pins and rollback targets on record exactly when it saw
      them or there were none. */
  lemma TuplesSurviveIff(readable: bool, store: Store, serial: nat, now: nat)
    ensures AfterCheck(readable, store, serial, now).previous == Recorded(store).previous <==>
            !Blind(readable, store) || Recorded(store).previous == map[]
    ensures AfterCheck(readable, store, serial, now).pins == Recorded(store).pins <==>
            !Blind(readable, store) || Recorded(store).pins == map[]
  {
  }

  // ------------------------------------------------------------------
  // Histories
  // ------------------------------------------------------------------

  /** One run whose record could be read: what it found, what its check left, what the
      whole run left, and what it applied. */
  datatype Step = Step(before: Store, recorded: Store, after: Store, manifest: Option<Manifest>, now: nat,
            applied: Option<nat>)

  ghost predicate Concluded(s: Step, vetted: nat) {
    s.manifest.Some? && Accepted(s.manifest.value, Max(Recorded(s.before).serial, vetted))
  }

  /** The check records its conclusion or fails to; only an applied run changes more, and
      what it changes are pins and tuples. */
  ghost predicate Lawful(s: Step, vetted: nat) {
    && !Blind(true, s.before)
    && (s.recorded == s.before
        || (Concluded(s, vetted) && s.recorded == Kept(AfterCheck(true, s.before, s.manifest.value.serial, s.now))))
    && (s.applied.Some? ==> Concluded(s, vetted) && s.applied.value == s.manifest.value.serial)
    && (if s.applied.Some? then OnTheSameFloor(s.recorded, s.after) else s.after == s.recorded)
  }

  ghost predicate History(steps: seq<Step>, vetted: nat) {
    && (forall i :: 0 <= i < |steps| ==> Lawful(steps[i], vetted))
    && (forall i, j :: 0 <= i && j == i + 1 && j < |steps| ==> Follows(steps[i], steps[j]))
  }

  ghost predicate Follows(a: Step, b: Step) {
    b.before == a.after
  }

  /** The recorded serial never goes back, nothing older than what was ever on record
      reaches the apply flow, and the time of check moves only when a check concluded,
      however the runs are ordered, whatever they apply and wherever their writes fail. */
  lemma {:induction false} FloorNeverDrops(steps: seq<Step>, vetted: nat, i: nat, j: nat)
    requires History(steps, vetted) && i <= j < |steps|
    ensures Recorded(steps[i].before).serial <= Recorded(steps[j].before).serial <= Recorded(steps[j].after).serial
    ensures steps[j].applied.Some? ==> steps[j].applied.value >= Max(Recorded(steps[i].before).serial, vetted)
    ensures Recorded(steps[j].after).checkedAt != Recorded(steps[i].before).checkedAt ==>
      exists m :: i <= m <= j && Concluded(steps[m], vetted)
    decreases j - i
  {
    assert Lawful(steps[j], vetted);
    if i == j {
    } else {
      FloorNeverDrops(steps, vetted, i, j - 1);
      assert Follows(steps[j-1], steps[j]);
    }
  }

  /** An applied run that moves a pin is one of these steps. */
  lemma AppliedRunsAreSteps(before: State, m: Manifest, now: nat, vetted: nat, refs: map<string, string>)
    requires Accepted(m, Max(before.serial, vetted))
    ensures var recorded := Kept(AfterCheck(true, Kept(before), m.serial, now));
      var after := AfterWrites(recorded, [Write(Effective(refs), true, true, true)]);
      Lawful(Step(Kept(before), recorded, after, Some(m), now, Some(m.serial)), vetted)
      && Recorded(after).pins == before.pins + refs
  {
    var recorded := Kept(AfterCheck(true, Kept(before), m.serial, now));
    WritesKeepTheFloor(recorded, [Write(Effective(refs), true, true, true)]);
    assert AfterWrites(recorded, []) == recorded;
  }
}
