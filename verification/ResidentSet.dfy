/** Which models may be resident at once: the port allocator, the admission decision, and
    the two verbs that change the set. */
module ResidentSet {
  import opened StackHost
  import opened StackApply
  import opened ResidentChange
  import opened Options

  const PORT_BASE := 8081
  const PORT_CEILING := 65535
  /** The source counts bytes in unsigned 64-bit words. */
  const WORD: nat := 0x1_0000_0000_0000_0000

  // ------------------------------------------------------------------
  // Ports
  // ------------------------------------------------------------------

  function Taken(primary: int, slots: seq<Resident>): set<int> {
    {primary} + set r | r in slots :: r.port
  }

  predicate InRange(p: int) {
    PORT_BASE <= p <= PORT_CEILING
  }

  /** The least free port, and 0 exactly when the range is full. */
  ghost predicate IsLeastFree(p: int, taken: set<int>) {
    if p == 0 then forall q :: InRange(q) ==> q in taken
    else InRange(p) && p !in taken && forall q :: PORT_BASE <= q < p ==> q in taken
  }

  method AllocPort(primary: int, slots: seq<Resident>) returns (p: int)
    ensures IsLeastFree(p, Taken(primary, slots))
  {
    var taken: set<int> := {primary};
    for i := 0 to |slots|
      invariant taken == Taken(primary, slots[..i])
    {
      assert slots[..i+1] == slots[..i] + [slots[i]];
      taken := taken + {slots[i].port};
    }
    assert slots[..|slots|] == slots;
    p := PORT_BASE;
    while p <= PORT_CEILING
      invariant PORT_BASE <= p <= PORT_CEILING + 1
      invariant forall q :: PORT_BASE <= q < p ==> q in taken
    {
      if p !in taken { return; }
      p := p + 1;
    }
    p := 0;
  }

  // ------------------------------------------------------------------
  // Admission
  // ------------------------------------------------------------------

  datatype Slot = Slot(model: string, quant: string, ctx: int, port: int, unit: string, bytes: nat)

  datatype Verdict = AlreadyResident | Add | Collision | ExceedsEnvelope | NoRoom

  predicate SameWorkload(a: Slot, b: Slot) {
    a.model == b.model && a.quant == b.quant && a.ctx == b.ctx
  }

  /** No two slots share a port or a unit. */
  ghost predicate NoCollision(slots: seq<Slot>) {
    forall i, j :: 0 <= i < j < |slots| ==> slots[i].port != slots[j].port && slots[i].unit != slots[j].unit
  }

  function TotalBytes(slots: seq<Slot>): nat {
    if slots == [] then 0 else TotalBytes(slots[..|slots| - 1]) + slots[|slots| - 1].bytes
  }

  function SaturatingSub(a: nat, b: nat): nat {
    if b >= a then 0 else a - b
  }

  /** Adds footprints the way the source does, in a 64-bit word. */
  method UsedBytes(slots: seq<Slot>) returns (total: nat)
    ensures total == TotalBytes(slots) % WORD
  {
    total := 0;
    for i := 0 to |slots|
      invariant total == TotalBytes(slots[..i]) % WORD
    {
      assert slots[..i+1][..i] == slots[..i];
      total := (total + slots[i].bytes) % WORD;
    }
    assert slots[..|slots|] == slots;
  }

  method FindCollision(slots: seq<Slot>) returns (collided: bool)
    ensures collided <==> !NoCollision(slots)
  {
    var ports: set<int>, units: set<string> := {}, {};
    for i := 0 to |slots|
      invariant NoCollision(slots[..i])
      invariant ports == (set s | s in slots[..i] :: s.port) && units == (set s | s in slots[..i] :: s.unit)
    {
      assert slots[..i+1] == slots[..i] + [slots[i]];
      if slots[i].port in ports || slots[i].unit in units {
        var s :| s in slots[..i] && (s.port == slots[i].port || s.unit == slots[i].unit);
        var j :| 0 <= j < i && slots[j] == s;
        assert j < i < |slots|;
        return true;
      }
      ports, units := ports + {slots[i].port}, units + {slots[i].unit};
    }
    assert slots[..|slots|] == slots;
    collided := false;
  }

  /** What admission says, with the sum taken in a 64-bit word. */
  ghost function Decide(envelope: nat, headroom: nat, slots: seq<Slot>, candidate: Slot): Verdict {
    if exists s :: s in slots && SameWorkload(s, candidate) then AlreadyResident
    else if !NoCollision(slots + [candidate]) then Collision
    else if candidate.bytes > envelope then ExceedsEnvelope
    else if (TotalBytes(slots) + candidate.bytes) % WORD <= SaturatingSub(envelope, headroom) then Add
    else NoRoom
  }

  /** The admission decision, with eviction not offered. */
  method Admit(envelope: nat, headroom: nat, slots: seq<Slot>, candidate: Slot) returns (v: Verdict)
    ensures v == Decide(envelope, headroom, slots, candidate)
  {
    for i := 0 to |slots|
      invariant forall j :: 0 <= j < i ==> !SameWorkload(slots[j], candidate)
    {
      if SameWorkload(slots[i], candidate) {
        assert slots[i] in slots;
        return AlreadyResident;
      }
    }
    var collided := FindCollision(slots + [candidate]);
    if collided { return Collision; }
    if candidate.bytes > envelope { return ExceedsEnvelope; }
    var used := UsedBytes(slots);
    WordAdd(TotalBytes(slots), candidate.bytes);
    if (used + candidate.bytes) % WORD <= SaturatingSub(envelope, headroom) { return Add; }
    v := NoRoom;
  }

  lemma WordAdd(a: nat, b: nat)
    ensures (a % WORD + b) % WORD == (a + b) % WORD
  {
    var q := a / WORD;
    assert a == q * WORD + a % WORD;
    ModOfSum(a % WORD + b, q);
  }

  lemma {:induction false} ModOfSum(x: nat, q: nat)
    ensures (x + q * WORD) % WORD == x % WORD
    decreases q
  {
    if q == 0 {
    } else {
      ModOfSum(x + WORD, q - 1);
    }
  }

  /** An admitted candidate really fits the envelope with its headroom exactly when the sum
      of the footprints fits the word it is taken in. */
  lemma AddIsHonestIff(envelope: nat, headroom: nat, slots: seq<Slot>, candidate: Slot)
    requires envelope < WORD && Decide(envelope, headroom, slots, candidate) == Add
    ensures TotalBytes(slots) + candidate.bytes <= SaturatingSub(envelope, headroom) <==>
            TotalBytes(slots) + candidate.bytes < WORD
  {
  }

  /** A set that fits an envelope below 2^63 bytes can never overflow the word. */
  lemma SmallEnvelopeNeverWraps(envelope: nat, headroom: nat, slots: seq<Slot>, candidate: Slot)
    requires 2 * envelope < WORD && TotalBytes(slots) <= SaturatingSub(envelope, headroom)
    requires Decide(envelope, headroom, slots, candidate) == Add
    ensures TotalBytes(slots + [candidate]) <= SaturatingSub(envelope, headroom)
  {
    AddIsHonestIff(envelope, headroom, slots, candidate);
    assert (slots + [candidate])[..|slots|] == slots;
  }

  // ------------------------------------------------------------------
  // The set a config describes
  // ------------------------------------------------------------------

  datatype Model = Model(id: string, quant: string)

  /** What a model costs at a context length (0 asks for the catalog's own). */
  datatype Fit = Fit(ctx: int, bytes: nat)

  /** The catalog, the fit math and the memory envelope, all fixed while verbs come and go. */
  datatype Environment = Environment(
    catalog: string -> Option<Model>, fit: (string, int) -> Option<Fit>, unitName: string -> Option<string>,
    primaryPort: int, envelope: nat, headroom: nat)

  /** A resident's unit name carries no dot and is never the primary's own, and sizing a slot
      again at its own length gives the same. */
  ghost predicate Sane(env: Environment) {
    && 2 * env.envelope < WORD
    && (forall m :: env.unitName(m).Some? ==> '.' !in env.unitName(m).value && env.unitName(m).value != PRIMARY_UNIT)
    && (forall id :: env.catalog(id).Some? ==> env.catalog(env.catalog(id).value.id) == env.catalog(id))
    && (forall m :: env.fit(m, 0).Some? ==> env.fit(m, env.fit(m, 0).value.ctx) == env.fit(m, 0))
  }

  const PRIMARY_UNIT := "villa-llama"
  const PRIMARY_SERVICE := PRIMARY_UNIT + ".service"

  function ServiceName(env: Environment, model: string, primary: bool): Option<string> {
    if primary then Some(PRIMARY_SERVICE)
    else match env.unitName(model) case None => None case Some(u) => Some(u + ".service")
  }

  /** The slot a configured model occupies, if it can be sized. */
  function SlotOf(env: Environment, r: Resident, primary: bool): Option<Slot> {
    match env.catalog(r.model)
    case None => None
    case Some(m) =>
      match env.fit(m.id, r.ctx)
      case None => None
      case Some(f) =>
        match ServiceName(env, r.model, primary)
        case None => None
        case Some(unit) => Some(Slot(r.model, r.quant, r.ctx, r.port, unit, f.bytes))
  }

  function PrimaryOf(env: Environment, cfg: Config): Resident {
    Resident(cfg.model, cfg.quant, cfg.ctx, env.primaryPort)
  }

  /** The slots of a list of configured models, or nothing when one cannot be sized. */
  function SlotsOf(env: Environment, rs: seq<Resident>): Option<seq<Slot>> {
    if rs == [] then Some([])
    else
      var front, last := SlotsOf(env, rs[..|rs| - 1]), SlotOf(env, rs[|rs| - 1], false);
      if front.Some? && last.Some? then Some(front.value + [last.value]) else None
  }

  /** Everything resident: the primary first, then every configured slot. */
  function SetOf(env: Environment, cfg: Config): Option<seq<Slot>> {
    if cfg.model == "" then None
    else
      var primary, rest := SlotOf(env, PrimaryOf(env, cfg), true), SlotsOf(env, cfg.resident);
      if primary.Some? && rest.Some? then Some([primary.value] + rest.value) else None
  }

  method ResidentSlots(env: Environment, cfg: Config) returns (slots: Option<seq<Slot>>)
    ensures slots == SetOf(env, cfg)
  {
    if cfg.model == "" { return None; }
    var primary := SlotOf(env, PrimaryOf(env, cfg), true);
    var out: seq<Slot> := [];
    for i := 0 to |cfg.resident|
      invariant SlotsOf(env, cfg.resident[..i]) == Some(out)
    {
      assert cfg.resident[..i+1][..i] == cfg.resident[..i];
      var slot := SlotOf(env, cfg.resident[i], false);
      if slot.None? {
        SlotsOfPrefix(env, cfg.resident, i + 1);
        return None;
      }
      out := out + [slot.value];
    }
    assert cfg.resident[..|cfg.resident|] == cfg.resident;
    slots := if primary.None? then None else Some([primary.value] + out);
  }

  lemma {:induction false} SlotsOfPrefix(env: Environment, rs: seq<Resident>, i: nat)
    requires i <= |rs|
    ensures SlotsOf(env, rs[..i]).None? ==> SlotsOf(env, rs).None?
    decreases |rs| - i
  {
    if i == |rs| {
      assert rs[..i] == rs;
    } else {
      assert rs[..i+1][..i] == rs[..i];
      SlotsOfPrefix(env, rs, i + 1);
    }
  }

  // ------------------------------------------------------------------
  // The verbs
  // ------------------------------------------------------------------

  datatype AddResult = AddBlocked | NothingToDo | Added(slot: Slot)

  /** What the admitted slot is. */
  ghost predicate Admitted(env: Environment, cfg: Config, slot: Slot) {
    && SetOf(env, cfg).Some?
    && Decide(env.envelope, env.headroom, SetOf(env, cfg).value, slot) == Add
    && slot.port != 0 && IsLeastFree(slot.port, Taken(env.primaryPort, cfg.resident))
    && env.catalog(slot.model).Some? && env.catalog(slot.model).value.id == slot.model
    && env.unitName(slot.model) == Some(slot.unit)
    && env.fit(slot.model, 0) == Some(Fit(slot.ctx, slot.bytes))
  }

  /** The slot this model would have is admitted. */
  ghost predicate Candidate(env: Environment, cfg: Config, id: string, slot: Slot) {
    && Admitted(env, cfg, slot) && env.catalog(id).Some?
    && slot.model == env.catalog(id).value.id && slot.quant == env.catalog(id).value.quant
  }

  function WithSlot(cfg: Config, slot: Slot): Config {
    cfg.(resident := cfg.resident + [Resident(slot.model, slot.quant, slot.ctx, slot.port)])
  }

  function Without(rs: seq<Resident>, id: string): seq<Resident> {
    if rs == [] then []
    else
      var front, last := Without(rs[..|rs| - 1], id), rs[|rs| - 1];
      if last.model == id then front else front + [last]
  }

  function WithoutModel(cfg: Config, id: string): Config {
    cfg.(resident := Without(cfg.resident, id))
  }

  /** A render that goes through gives every slot its own unit: two models that would claim
      one unit are refused there, not by admission. */
  ghost predicate RendersSlots(h: Stack, env: Environment) {
    forall c :: h.render(c).Rendered? ==>
      && UnitsApart(env, c)
      && forall r :: r in c.resident && env.unitName(r.model).Some? ==>
           Container(env.unitName(r.model).value) in Names(h.render(c).units)
  }

  ghost predicate UnitsApart(env: Environment, c: Config) {
    forall i, j :: 0 <= i < j < |c.resident| ==> env.unitName(c.resident[i].model) != env.unitName(c.resident[j].model)
  }

  method AdmitResident(h: Stack, env: Environment, cfg: Config, id: string)
    returns (verdict: Verdict, ok: bool, slot: Slot)
    requires Sane(env)
    ensures ok && verdict.Add? ==>
      Admitted(env, cfg, slot) && env.catalog(id).Some? && slot.model == env.catalog(id).value.id
    ensures ok ==> verdict.Add? || verdict.AlreadyResident?
    ensures forall s :: Candidate(env, cfg, id, s) ==> ok && verdict.Add? && slot == s
  {
    verdict, ok, slot := NoRoom, false, Slot("", "", 0, 0, "", 0);
    var m := env.catalog(id);
    if m.None? { return; }
    var fit := env.fit(m.value.id, 0);
    if fit.None? { return; }
    var slots := ResidentSlots(env, cfg);
    if slots.None? { return; }
    var port := AllocPort(env.primaryPort, cfg.resident);
    if port == 0 { return; }
    var unit := env.unitName(m.value.id);
    if unit.None? { return; }
    slot := Slot(m.value.id, m.value.quant, fit.value.ctx, port, unit.value, fit.value.bytes);
    verdict := Admit(env.envelope, env.headroom, slots.value, slot);
    ok := verdict.Add? || verdict.AlreadyResident?;
  }

  /** The render accepts the config as it is and with a key of its own. */
  ghost predicate Renders(h: Stack, cfg: Config) {
    h.render(cfg).Rendered? && Lifecycle.Usable(h, cfg)
  }

  method RunResidentAdd(h: Stack, env: Environment, id: string) returns (r: AddResult)
    requires h.Wired() && Sane(env) && RendersSlots(h, env)
    modifies h`config, h`disk, h`loaded, h`up, h`calls, h`fired
    ensures AddStep(env, old(h.config), h.config)
    ensures r.NothingToDo? ==> h.config == old(h.config) && h.Snap() == old(h.Snap())
    ensures r.Added? ==>
      Admitted(env, old(h.config), r.slot) && h.config.resident == WithSlot(old(h.config), r.slot).resident
    ensures r.Added? ==> r.slot.unit in h.up
    ensures h.Smooth(old(h.calls), h.calls) ==>
      forall s :: Candidate(env, old(h.config), id, s) && Renders(h, WithSlot(old(h.config), s)) ==> r == Added(s)
  {
    hide Stack.Wired, Stack.Smooth, RendersSlots, AddStep, UnitsApart, FitsRender, AfterChange, Admitted;
    ghost var at := h.calls;
    SmoothOnce(h, at);
    SmoothThenOne(h, at, at + 1);
    NoAddStep(env, h.config);
    var ok := h.Ask();
    if !ok { return AddBlocked; }
    var cfg := h.config;
    var verdict, slot;
    verdict, ok, slot := AdmitResident(h, env, cfg, id);
    if !ok { return AddBlocked; }
    if verdict.AlreadyResident? { return NothingToDo; }
    // Weights that are not on disk are pulled first.
    ok := h.Ask();
    if !ok { return AddBlocked; }
    var ch := Change(WithSlot(cfg, slot), Some(slot.unit), None);
    StartIsRendered(h, env, cfg, slot);
    ghost var s0 := h.Snap();
    var o;
    ghost var begun := h.calls;
    ghost var touched, chatActive;
    o, touched, chatActive := ApplyResidentChange(h, ch);
    SmoothTwice(h, at, begun, h.calls);
    if h.render(ch.next).Rendered? {
      NextRendersApart(h, env, ch.next);
      AddStepped(env, cfg, h.config, slot, h.newSecret);
    }
    if o.Changed? {
      StartedIsUp(s0, ch, Lifecycle.StageOf(h, ch.next), chatActive);
    }
    r := if o.Changed? then Added(slot) else AddBlocked;
  }

  lemma AddStepped(env: Environment, a: Config, b: Config, slot: Slot, newSecret: string)
    requires Admitted(env, a, slot) && UnitsApart(env, WithSlot(a, slot))
    requires b == a || b == WithSlot(a, slot) || b == Healed(WithSlot(a, slot), newSecret)
    ensures AddStep(env, a, b)
  {
    if b != a {
      assert b.resident == WithSlot(a, slot).resident;
      assert AddedSlot(env, a, b, slot);
    }
  }

  lemma NoAddStep(env: Environment, a: Config)
    ensures AddStep(env, a, a)
  {
  }

  lemma NoRmStep(a: Config)
    ensures RmStep(a, a)
  {
  }

  lemma RmStepped(a: Config, b: Config, id: string, newSecret: string)
    requires id != a.model || a.model == ""
    requires b == a || b == WithoutModel(a, id) || b == Healed(WithoutModel(a, id), newSecret)
    ensures RmStep(a, b)
  {
    if b != a {
      assert b.resident == Without(a.resident, id);
    }
  }

  lemma StartIsRendered(h: Stack, env: Environment, cfg: Config, slot: Slot)
    requires RendersSlots(h, env) && env.unitName(slot.model) == Some(slot.unit)
    ensures FitsRender(h, Change(WithSlot(cfg, slot), Some(slot.unit), None))
  {
    var r := Resident(slot.model, slot.quant, slot.ctx, slot.port);
    assert r in WithSlot(cfg, slot).resident;
  }

  lemma NextRendersApart(h: Stack, env: Environment, next: Config)
    requires RendersSlots(h, env) && h.render(next).Rendered?
    ensures UnitsApart(env, next)
  {
  }

  lemma StartedIsUp(s: Snapshot, ch: Change, st: Lifecycle.Stage, chatActive: bool)
    requires ch.start.Some?
    ensures ch.start.value in AfterChange(s, ch, st, chatActive).up
  {
  }

  /** What an add may leave in config.toml, whether it passed, failed, rolled back, or
      failed to roll back. */
  ghost predicate AddStep(env: Environment, a: Config, b: Config) {
    && b.model == a.model && b.quant == a.quant && b.ctx == a.ctx
    && (b.resident == a.resident || exists slot :: AddedSlot(env, a, b, slot))
  }

  ghost predicate AddedSlot(env: Environment, a: Config, b: Config, slot: Slot) {
    Admitted(env, a, slot) && b.resident == WithSlot(a, slot).resident && UnitsApart(env, b)
  }

  datatype RmResult = RmBlocked | Removed

  method DropSlot(slots: seq<Resident>, id: string) returns (kept: seq<Resident>, found: bool)
    ensures kept == Without(slots, id) && (found <==> exists r :: r in slots && r.model == id)
  {
    kept, found := [], false;
    for i := 0 to |slots|
      invariant kept == Without(slots[..i], id)
      invariant found <==> exists j :: 0 <= j < i && slots[j].model == id
    {
      assert slots[..i+1][..i] == slots[..i];
      if slots[i].model == id {
        found := true;
      } else {
        kept := kept + [slots[i]];
      }
    }
    assert slots[..|slots|] == slots;
  }

  method RunResidentRm(h: Stack, env: Environment, id: string) returns (r: RmResult)
    requires h.Wired()
    modifies h`config, h`disk, h`loaded, h`up, h`calls, h`fired
    ensures RmStep(old(h.config), h.config)
    ensures r.Removed? ==> h.config.resident == Without(old(h.config).resident, id)
    ensures r.Removed? ==> exists slot :: slot in old(h.config).resident && slot.model == id
    ensures old(h.config).model != "" && id == old(h.config).model ==>
      r.RmBlocked? && h.config == old(h.config) && h.Snap() == old(h.Snap())
    ensures h.Smooth(old(h.calls), h.calls) && Renders(h, WithoutModel(old(h.config), id)) ==>
      (old(h.config).model == "" || id != old(h.config).model) && env.unitName(id).Some? ==>
      (exists slot :: slot in old(h.config).resident && slot.model == id) ==>
      r.Removed?
  {
    hide Stack.Wired, Stack.Smooth, RmStep, AfterChange, Without;
    ghost var at := h.calls;
    SmoothOnce(h, at);
    NoRmStep(h.config);
    var ok := h.Ask();
    if !ok { return RmBlocked; }
    var cfg := h.config;
    if cfg.model != "" && id == cfg.model { return RmBlocked; }
    var kept, found := DropSlot(cfg.resident, id);
    if !found { return RmBlocked; }
    var unit := env.unitName(id);
    if unit.None? { return RmBlocked; }
    var o;
    ghost var touched, chatActive;
    o, touched, chatActive := ApplyResidentChange(h, Change(cfg.(resident := kept), None, Some(unit.value)));
    SmoothTwice(h, at, at + 1, h.calls);
    assert cfg.(resident := kept) == WithoutModel(cfg, id);
    RmStepped(cfg, h.config, id, h.newSecret);
    r := if o.Changed? then Removed else RmBlocked;
  }

  ghost predicate RmStep(a: Config, b: Config) {
    && b.model == a.model && b.quant == a.quant && b.ctx == a.ctx
    && (b.resident == a.resident
        || exists id :: (id != a.model || a.model == "") && b.resident == Without(a.resident, id))
  }

  // ------------------------------------------------------------------
  // Every history of adds and removals
  // ------------------------------------------------------------------

  ghost predicate PortsApart(rs: seq<Resident>) {
    forall i, j :: 0 <= i < j < |rs| ==> rs[i].port != rs[j].port
  }

  ghost predicate ModelsApart(rs: seq<Resident>) {
    forall i, j :: 0 <= i < j < |rs| ==> rs[i].model != rs[j].model
  }

  /** The resident set is sound: everything sized, every port its own, in range and not the
      primary's, every unit its own, and all of it within the envelope less one headroom. */
  ghost predicate SoundSet(env: Environment, cfg: Config) {
    && SetOf(env, cfg).Some?
    && PortsApart(cfg.resident) && UnitsApart(env, cfg)
    && (forall r :: r in cfg.resident ==> InRange(r.port) && r.port != env.primaryPort)
    && TotalBytes(SetOf(env, cfg).value) <= SaturatingSub(env.envelope, env.headroom)
  }

  lemma SlotsOfSnoc(env: Environment, rs: seq<Resident>, r: Resident)
    ensures SlotsOf(env, rs + [r])
         == if SlotsOf(env, rs).Some? && SlotOf(env, r, false).Some?
            then Some(SlotsOf(env, rs).value + [SlotOf(env, r, false).value]) else None
  {
    assert (rs + [r])[..|rs|] == rs;
  }

  lemma {:induction false} TotalOfCons(x: Slot, slots: seq<Slot>)
    ensures TotalBytes([x] + slots) == x.bytes + TotalBytes(slots)
    decreases |slots|
  {
    if slots == [] {
      assert [x] + slots == [x];
      assert TotalBytes([x]) == TotalBytes([x][..0]) + x.bytes;
    } else {
      var front := slots[..|slots| - 1];
      assert ([x] + slots)[..|slots|] == [x] + front;
      TotalOfCons(x, front);
    }
  }

  lemma TotalOfSnoc(slots: seq<Slot>, x: Slot)
    ensures TotalBytes(slots + [x]) == TotalBytes(slots) + x.bytes
  {
    assert (slots + [x])[..|slots|] == slots;
  }

  /** An add keeps the set sound, however it ended. */
  lemma AddKeepsSound(env: Environment, a: Config, b: Config)
    requires Sane(env) && SoundSet(env, a) && AddStep(env, a, b)
    ensures SoundSet(env, b)
  {
    if b.resident == a.resident {
      assert UnitsApart(env, b);
    } else {
      var slot :| AddedSlot(env, a, b, slot);
      AddedFits(env, a, b, slot);
      forall x | x in a.resident ensures x.port != slot.port {
        assert x.port in Taken(env.primaryPort, a.resident);
      }
    }
  }

  /** The set with the slot admitted to it can be sized, and fits. */
  lemma AddedFits(env: Environment, a: Config, b: Config, slot: Slot)
    requires Sane(env) && SoundSet(env, a) && Admitted(env, a, slot) && b.resident == WithSlot(a, slot).resident
    requires b.model == a.model && b.quant == a.quant && b.ctx == a.ctx
    ensures SetOf(env, b).Some?
    ensures TotalBytes(SetOf(env, b).value) <= SaturatingSub(env.envelope, env.headroom)
  {
    hide UnitsApart, PortsApart, IsLeastFree;
    var r := Resident(slot.model, slot.quant, slot.ctx, slot.port);
    assert env.catalog(slot.model).value.id == slot.model;
    assert SlotOf(env, r, false).Some? && SlotOf(env, r, false).value.bytes == slot.bytes;
    SlotsOfSnoc(env, a.resident, r);
    var before, after := SetOf(env, a).value, SlotOf(env, r, false).value;
    SmallEnvelopeNeverWraps(env.envelope, env.headroom, before, slot);
    TotalOfSnoc(before, slot);
    TotalOfSnoc(before, after);
    assert SetOf(env, b).value == before + [after];
  }

  lemma {:induction false} WithoutKeeps(env: Environment, rs: seq<Resident>, id: string)
    requires SlotsOf(env, rs).Some?
    ensures SlotsOf(env, Without(rs, id)).Some?
    ensures TotalBytes(SlotsOf(env, Without(rs, id)).value) <= TotalBytes(SlotsOf(env, rs).value)
    decreases |rs|
  {
    if rs == [] {
    } else {
      var front, last := rs[..|rs| - 1], rs[|rs| - 1];
      assert rs == front + [last];
      WithoutKeeps(env, front, id);
      SlotsOfSnoc(env, front, last);
      SlotsOfSnoc(env, Without(front, id), last);
      TotalOfSnoc(SlotsOf(env, front).value, SlotOf(env, last, false).value);
      TotalOfSnoc(SlotsOf(env, Without(front, id)).value, SlotOf(env, last, false).value);
    }
  }

  lemma {:induction false} WithoutMembers(rs: seq<Resident>, id: string)
    ensures forall r :: r in Without(rs, id) <==> r in rs && r.model != id
    decreases |rs|
  {
    if rs == [] {
    } else {
      WithoutMembers(rs[..|rs| - 1], id);
      assert rs == rs[..|rs| - 1] + [rs[|rs| - 1]];
    }
  }

  lemma {:induction false} WithoutKeepsPortsApart(rs: seq<Resident>, id: string)
    requires PortsApart(rs)
    ensures PortsApart(Without(rs, id))
    decreases |rs|
  {
    if rs == [] {
    } else {
      var front, last := rs[..|rs| - 1], rs[|rs| - 1];
      WithoutKeepsPortsApart(front, id);
      WithoutMembers(front, id);
      forall r | r in front ensures r.port != last.port {
        var i :| 0 <= i < |front| && front[i] == r;
        assert rs[i] == r;
      }
    }
  }

  lemma {:induction false} WithoutKeepsUnitsApart(env: Environment, c: Config, rs: seq<Resident>, id: string)
    requires UnitsApart(env, c.(resident := rs))
    ensures UnitsApart(env, c.(resident := Without(rs, id)))
    decreases |rs|
  {
    if rs == [] {
    } else {
      var front, last := rs[..|rs| - 1], rs[|rs| - 1];
      WithoutKeepsUnitsApart(env, c, front, id);
      WithoutMembers(front, id);
      forall r | r in front ensures env.unitName(r.model) != env.unitName(last.model) {
        var i :| 0 <= i < |front| && front[i] == r;
        assert c.(resident := rs).resident[i] == r;
      }
    }
  }

  lemma RmKeepsSound(env: Environment, a: Config, b: Config)
    requires SoundSet(env, a) && RmStep(a, b)
    ensures SoundSet(env, b)
  {
    if b.resident == a.resident {
      assert UnitsApart(env, b);
    } else {
      var id :| b.resident == Without(a.resident, id);
      WithoutKeeps(env, a.resident, id);
      assert a.(resident := a.resident) == a;
      WithoutKeepsPortsApart(a.resident, id);
      WithoutKeepsUnitsApart(env, a, a.resident, id);
      WithoutMembers(a.resident, id);
      assert UnitsApart(env, b);
      var primary := SlotOf(env, PrimaryOf(env, a), true).value;
      TotalOfCons(primary, SlotsOf(env, a.resident).value);
      TotalOfCons(primary, SlotsOf(env, b.resident).value);
    }
  }

  lemma SoundModelsApart(env: Environment, cfg: Config)
    requires SoundSet(env, cfg)
    ensures ModelsApart(cfg.resident)
  {
  }

  ghost predicate Step(env: Environment, a: Config, b: Config) {
    AddStep(env, a, b) || RmStep(a, b)
  }

  lemma SameModelSameSlot(rs: seq<Resident>, r: Resident, r': Resident)
    requires ModelsApart(rs) && r in rs && r' in rs && r.model == r'.model
    ensures r == r'
  {
    var i :| 0 <= i < |rs| && rs[i] == r;
    var j :| 0 <= j < |rs| && rs[j] == r';
    assert !(i < j) && !(j < i);
  }

  /** Whatever adds and removals come, and however each of them ends, the set stays sound. */
  lemma {:induction false} SetStaysSound(env: Environment, cs: seq<Config>)
    requires Sane(env) && |cs| > 0 && SoundSet(env, cs[0])
    requires forall i :: 0 < i < |cs| ==> Step(env, cs[i-1], cs[i])
    ensures SoundSet(env, cs[|cs| - 1]) && ModelsApart(cs[|cs| - 1].resident)
    decreases |cs|
  {
    var n := |cs| - 1;
    if n == 0 {
    } else {
      var front := cs[..n];
      assert front[n-1] == cs[n-1];
      forall i | 0 < i < n ensures Step(env, front[i-1], front[i]) {
        assert front[i] == cs[i] && front[i-1] == cs[i-1];
      }
      SetStaysSound(env, front);
      if AddStep(env, cs[n-1], cs[n]) {
        AddKeepsSound(env, cs[n-1], cs[n]);
      } else {
        RmKeepsSound(env, cs[n-1], cs[n]);
      }
    }
    SoundModelsApart(env, cs[n]);
  }

  /** A slot that survives a step keeps its port, its length and its place in the order. */
  lemma SurvivorsKeepTheirPorts(env: Environment, a: Config, b: Config, r: Resident, r': Resident)
    requires Sane(env) && SoundSet(env, a) && Step(env, a, b)
    requires r in a.resident && r' in b.resident && r.model == r'.model
    ensures r' == r
  {
    if AddStep(env, a, b) {
      AddKeepsSound(env, a, b);
      SoundModelsApart(env, b);
      SameModelSameSlot(b.resident, r, r');
    } else {
      SoundModelsApart(env, a);
      if b.resident != a.resident {
        var id :| b.resident == Without(a.resident, id);
        WithoutMembers(a.resident, id);
      }
      SameModelSameSlot(a.resident, r, r');
    }
  }

  // ------------------------------------------------------------------
  // Two things admission does not see
  // ------------------------------------------------------------------

  /** A slot's unit carries its .service suffix and a candidate's does not, so admission
      never finds a shared unit: only a shared port counts. */
  lemma OnlyPortsCollide(env: Environment, cfg: Config, candidate: Slot)
    requires Sane(env) && SetOf(env, cfg).Some? && env.unitName(candidate.model) == Some(candidate.unit)
    ensures var slots := SetOf(env, cfg).value;
      NoCollision(slots + [candidate]) <==> NoCollision(slots) && forall s :: s in slots ==> s.port != candidate.port
  {
    var slots := SetOf(env, cfg).value;
    SuffixedUnits(env, cfg.resident);
    assert PRIMARY_SERVICE[|PRIMARY_UNIT|] == '.';
    forall i | 0 <= i < |slots| ensures '.' in slots[i].unit {
      assert slots[i] in slots;
    }
    var all := slots + [candidate];
    if NoCollision(all) {
      forall i, j | 0 <= i < j < |slots| ensures slots[i].port != slots[j].port && slots[i].unit != slots[j].unit {
        assert all[i] == slots[i] && all[j] == slots[j];
      }
      forall s | s in slots ensures s.port != candidate.port {
        var i :| 0 <= i < |slots| && slots[i] == s;
        assert all[i] == s && all[|slots|] == candidate;
      }
    }
  }

  lemma {:induction false} SuffixedUnits(env: Environment, rs: seq<Resident>)
    requires SlotsOf(env, rs).Some?
    ensures forall s :: s in SlotsOf(env, rs).value ==> '.' in s.unit
    decreases |rs|
  {
    if rs == [] {
    } else {
      SuffixedUnits(env, rs[..|rs| - 1]);
      var unit := env.unitName(rs[|rs| - 1].model).value;
      assert (unit + ".service")[|unit|] == '.';
    }
  }

  lemma {:induction false} SlotsOfAt(env: Environment, rs: seq<Resident>, i: nat)
    requires SlotsOf(env, rs).Some? && i < |rs|
    ensures |SlotsOf(env, rs).value| == |rs| && Some(SlotsOf(env, rs).value[i]) == SlotOf(env, rs[i], false)
    decreases |rs|
  {
    var n := |rs| - 1;
    if n == 0 {
    } else {
      SlotsOfAt(env, rs[..n], if i < n then i else 0);
    }
  }

  /** The slots of a set are the primary's and, in order, those of its residents. */
  lemma SetOfAt(env: Environment, cfg: Config)
    requires SetOf(env, cfg).Some?
    ensures var slots := SetOf(env, cfg).value;
      && |slots| == |cfg.resident| + 1 && Some(slots[0]) == SlotOf(env, PrimaryOf(env, cfg), true)
      && forall i :: 0 < i < |slots| ==> Some(slots[i]) == SlotOf(env, cfg.resident[i-1], false)
  {
    var slots := SetOf(env, cfg).value;
    if cfg.resident != [] { SlotsOfAt(env, cfg.resident, 0); }
    forall i | 0 < i < |slots| ensures Some(slots[i]) == SlotOf(env, cfg.resident[i-1], false) {
      SlotsOfAt(env, cfg.resident, i - 1);
    }
  }

  lemma SuffixIsInjective(a: string, b: string)
    requires a + ".service" == b + ".service"
    ensures a == b
  {
    assert a == (a + ".service")[..|a|] && b == (b + ".service")[..|b|];
  }

  lemma SoundSetsDoNotCollide(env: Environment, cfg: Config)
    requires Sane(env) && SoundSet(env, cfg)
    ensures NoCollision(SetOf(env, cfg).value)
  {
    var slots := SetOf(env, cfg).value;
    SetOfAt(env, cfg);
    forall i, j | 0 <= i < j < |slots| ensures slots[i].port != slots[j].port && slots[i].unit != slots[j].unit {
      var r := cfg.resident[j-1];
      assert Some(slots[j]) == SlotOf(env, r, false);
      var unit := env.unitName(r.model).value;
      if i == 0 {
        if slots[i].unit == slots[j].unit { SuffixIsInjective(PRIMARY_UNIT, unit); }
      } else if slots[i].unit == slots[j].unit {
        SuffixIsInjective(env.unitName(cfg.resident[i-1].model).value, unit);
      }
    }
  }

  /** This configured model is what the candidate would serve, at the same length. */
  predicate Serves(r: Resident, candidate: Slot) {
    r.model == candidate.model && r.quant == candidate.quant && r.ctx == candidate.ctx
  }

  lemma ServedIffSlotted(env: Environment, cfg: Config, candidate: Slot)
    requires SetOf(env, cfg).Some?
    ensures (exists s :: s in SetOf(env, cfg).value && SameWorkload(s, candidate)) <==>
            Serves(PrimaryOf(env, cfg), candidate) || exists r :: r in cfg.resident && Serves(r, candidate)
  {
    var slots := SetOf(env, cfg).value;
    SetOfAt(env, cfg);
    hide SetOf;
    assert SameWorkload(slots[0], candidate) <==> Serves(PrimaryOf(env, cfg), candidate);
    assert slots[0] in slots;
    forall r | r in cfg.resident && Serves(r, candidate) ensures exists s :: s in slots && SameWorkload(s, candidate) {
      var i :| 0 <= i < |cfg.resident| && cfg.resident[i] == r;
      assert slots[i+1] in slots;
    }
    if s :| s in slots && SameWorkload(s, candidate) {
      var i :| 0 <= i < |slots| && slots[i] == s;
      assert i > 0 ==> Serves(cfg.resident[i-1], candidate);
    }
  }

  lemma FreePortIsNoSlots(env: Environment, cfg: Config, port: int)
    requires SetOf(env, cfg).Some? && port !in Taken(env.primaryPort, cfg.resident)
    ensures forall s :: s in SetOf(env, cfg).value ==> s.port != port
  {
    var slots := SetOf(env, cfg).value;
    SetOfAt(env, cfg);
    hide SetOf;
    forall s | s in slots ensures s.port != port {
      var i :| 0 <= i < |slots| && slots[i] == s;
      assert i > 0 ==> cfg.resident[i-1].port in Taken(env.primaryPort, cfg.resident);
    }
  }

  /** On a sound set, a candidate that has a free port and fits is added exactly when neither
      the primary nor any resident already serves it. */
  lemma AddedIffNotServed(env: Environment, cfg: Config, candidate: Slot)
    requires Sane(env) && SoundSet(env, cfg) && env.unitName(candidate.model) == Some(candidate.unit)
    requires candidate.port !in Taken(env.primaryPort, cfg.resident) && candidate.bytes <= env.envelope
    requires TotalBytes(SetOf(env, cfg).value) + candidate.bytes <= SaturatingSub(env.envelope, env.headroom)
    ensures Decide(env.envelope, env.headroom, SetOf(env, cfg).value, candidate) == Add <==>
            !Serves(PrimaryOf(env, cfg), candidate) && forall r :: r in cfg.resident ==> !Serves(r, candidate)
  {
    ServedIffSlotted(env, cfg, candidate);
    FreePortIsNoSlots(env, cfg, candidate.port);
    SoundSetsDoNotCollide(env, cfg);
    OnlyPortsCollide(env, cfg, candidate);
    hide NoCollision, SetOf, TotalBytes, Taken, UnitsApart, PortsApart;
    assert TotalBytes(SetOf(env, cfg).value) + candidate.bytes < WORD;
  }

  /** The primary's own model is admitted once more as a resident exactly when its configured
      quant or length is not the candidate's and no resident serves it already; and `rm`,
      which goes by the model alone, then refuses it. */
  lemma PrimaryAdmittedTwiceIff(env: Environment, cfg: Config, candidate: Slot)
    requires Sane(env) && SoundSet(env, cfg) && env.unitName(candidate.model) == Some(candidate.unit)
    requires candidate.model == cfg.model
    requires candidate.port !in Taken(env.primaryPort, cfg.resident) && candidate.bytes <= env.envelope
    requires TotalBytes(SetOf(env, cfg).value) + candidate.bytes <= SaturatingSub(env.envelope, env.headroom)
    ensures Decide(env.envelope, env.headroom, SetOf(env, cfg).value, candidate) == Add <==>
            (cfg.quant != candidate.quant || cfg.ctx != candidate.ctx) && forall r :: r in cfg.resident ==>
              !Serves(r, candidate)
  {
    AddedIffNotServed(env, cfg, candidate);
  }
}
