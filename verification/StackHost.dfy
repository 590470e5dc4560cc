/** The host a stack is applied to: config.toml, the unit directory, what systemd has
    loaded of it, and the running services with the unit text each was started from.
    Every call may fail, and a failed call may have taken effect all the same. */
module StackHost {
  type Service = string
  type Text = string

  /** A Quadlet .container file yields a service of the same stem; no other file does. */
  datatype UnitName = Container(service: Service) | Plain(file: string)

  datatype Unit = Unit(name: UnitName, text: Text)

  datatype Resident = Resident(model: string, quant: string, ctx: int, port: int)

  /** What the pinned render reads: config.toml, and in `pins` the recorded component pins,
      which only an update writes. `rest` stands for every setting the model does not look
      into. */
  datatype Config = Config(model: string, quant: string, ctx: int, resident: seq<Resident>, secret: string,
                           pins: map<string, string>, rest: string)

  datatype Rendered = NotRendered | Rendered(units: seq<Unit>)

  /** What `systemctl is-active` answers. */
  datatype Word = Unreadable | Active | Warming | Inactive

  /** A call succeeds, fails before its effect, after it, or half way through. */
  datatype Fault = Fine | Refused | Landed | Halfway

  predicate IsUp(word: Word) {
    word.Active? || word.Warming?
  }

  predicate IsVilla(n: UnitName) {
    "villa" <= (match n case Container(svc) => svc case Plain(file) => file)
  }

  function Names(units: seq<Unit>): set<UnitName> {
    set u | u in units :: u.name
  }

  ghost predicate Distinct(units: seq<Unit>) {
    forall i, j :: 0 <= i < j < |units| ==> units[i].name != units[j].name
  }

  /** The two maps agree everywhere outside `keys`. */
  ghost predicate AgreeOff<K(!new), V>(a: map<K, V>, b: map<K, V>, keys: set<K>) {
    forall k :: k !in keys ==> (k in a <==> k in b) && (k in a ==> a[k] == b[k])
  }

  lemma AgreeOffTwice<K(!new), V>(a: map<K, V>, b: map<K, V>, c: map<K, V>, s: set<K>, t: set<K>)
    requires AgreeOff(a, b, s) && AgreeOff(b, c, t)
    ensures AgreeOff(a, c, s + t)
  {
  }

  lemma AgreeOffMore<K(!new), V>(a: map<K, V>, b: map<K, V>, s: set<K>, t: set<K>)
    requires AgreeOff(a, b, s) && s <= t
    ensures AgreeOff(a, b, t)
  {
  }

  lemma AgreeOffNothing<K(!new), V>(a: map<K, V>, b: map<K, V>)
    requires AgreeOff(a, b, {})
    ensures a == b
  {
    assert a.Keys == b.Keys;
  }

  lemma NamesSnoc(units: seq<Unit>, i: nat)
    requires i < |units|
    ensures Names(units[..i+1]) == Names(units[..i]) + {units[i].name}
  {
    assert units[..i+1] == units[..i] + [units[i]];
  }

  /** What there is to see of a stack at one moment. */
  datatype Snapshot = Snapshot(disk: map<UnitName, Text>, loaded: map<UnitName, Text>, up: map<Service, Text>)

  /** The unit text a service is started from. */
  function Definition(svc: Service, loaded: map<UnitName, Text>, natives: map<Service, Text>): Text {
    if svc in natives then natives[svc]
    else if Container(svc) in loaded then loaded[Container(svc)]
    else ""
  }

  /** A running service runs the unit text that is on disk. */
  ghost predicate RunsItsUnit(s: Snapshot, svc: Service, natives: map<Service, Text>)
    requires svc in s.up
  {
    if svc in natives then s.up[svc] == natives[svc]
    else Container(svc) in s.disk && s.up[svc] == s.disk[Container(svc)]
  }

  ghost predicate Coherent(s: Snapshot, natives: map<Service, Text>) {
    forall svc :: svc in s.up ==> RunsItsUnit(s, svc, natives)
  }

  /** systemd has read the unit directory as it is. */
  ghost predicate Synced(s: Snapshot) {
    s.loaded == s.disk
  }

  class Stack {
    var config: Config
    var disk: map<UnitName, Text>
    var loaded: map<UnitName, Text>
    var up: map<Service, Text>
    var calls: nat
    /** Every start and restart asked of systemd, in order. */
    ghost var fired: seq<Service>

    /** The pinned render, and the unit files the subsystem registry declares. */
    const render: Config -> Rendered
    const registry: seq<UnitName>
    /** Services with a unit of their own, outside the Quadlet directory: the dashboard. */
    const natives: map<Service, Text>
    /** Running services systemd still reports as activating or reloading. */
    const warming: set<Service>
    const faults: nat -> Fault
    /** A key freshly generated when the config has none. */
    const newSecret: string

    /** What render and registry promise: no file is named twice, the key changes no file
        name, every registry file is a villa file. */
    ghost predicate Wired() {
      && newSecret != ""
      && (forall c :: render(c).Rendered? ==> Distinct(render(c).units))
      && (forall c, s :: render(c).Rendered? && render(c.(secret := s)).Rendered? ==>
            Names(render(c.(secret := s)).units) == Names(render(c).units))
      && (forall n :: n in registry ==> IsVilla(n))
      && (forall svc :: svc in natives ==> Container(svc) !in registry)
      && (forall c, svc :: render(c).Rendered? && svc in natives ==> Container(svc) !in Names(render(c).units))
    }

    constructor (config: Config, disk: map<UnitName, Text>, loaded: map<UnitName, Text>, up: map<Service, Text>,
                 render: Config -> Rendered, registry: seq<UnitName>, natives: map<Service, Text>,
                 warming: set<Service>, faults: nat -> Fault, newSecret: string)
      ensures this.config == config && this.disk == disk && this.loaded == loaded && this.up == up
      ensures this.render == render && this.registry == registry && this.natives == natives && this.warming == warming
      ensures this.faults == faults && this.newSecret == newSecret && calls == 0 && fired == []
    {
      this.config, this.disk, this.loaded, this.up, this.calls := config, disk, loaded, up, 0;
      this.render, this.registry, this.natives, this.warming := render, registry, natives, warming;
      this.faults, this.newSecret, this.fired := faults, newSecret, [];
    }

    /** None of the calls from `from` up to `to` failed. */
    ghost predicate Smooth(from: nat, to: nat) {
      forall n :: from <= n < to ==> faults(n).Fine?
    }

    /** At most one of these calls failed. */
    ghost predicate OneFault(from: nat, to: nat) {
      forall m, n :: from <= m < n < to ==> faults(m).Fine? || faults(n).Fine?
    }

    /** systemd knows a unit to start the service from. */
    predicate Startable(svc: Service)
      reads `loaded
    {
      svc in natives || Container(svc) in loaded
    }

    function Snap(): Snapshot
      reads `disk, `loaded, `up
    {
      Snapshot(disk, loaded, up)
    }

    method Next() returns (fault: Fault)
      modifies `calls
      ensures fault == faults(old(calls)) && calls == old(calls) + 1
    {
      fault := faults(calls);
      calls := calls + 1;
    }

    /** A call that changes nothing. */
    method Ask() returns (ok: bool)
      modifies `calls
      ensures calls == old(calls) + 1 && (ok <==> faults(old(calls)).Fine?)
    {
      var fault := Next();
      ok := fault.Fine?;
    }

    method SaveConfig(c: Config) returns (ok: bool)
      modifies `config, `calls
      ensures calls == old(calls) + 1 && (ok <==> faults(old(calls)).Fine?)
      ensures config == c || (!ok && config == old(config))
    {
      var fault := Next();
      ok := fault.Fine?;
      if !fault.Refused? { config := c; }
    }

    method ReadUnit(name: UnitName) returns (ok: bool, present: bool, text: Text)
      modifies `calls
      ensures calls == old(calls) + 1 && (ok <==> faults(old(calls)).Fine?)
      ensures ok ==> present == (name in disk) && (present ==> text == disk[name])
    {
      var fault := Next();
      ok, present := fault.Fine?, name in disk;
      text := if present then disk[name] else "";
    }

    /** An atomic write: the file is the old one or the new one, even when it fails. */
    method WriteUnit(name: UnitName, text: Text) returns (ok: bool)
      modifies `disk, `calls
      ensures calls == old(calls) + 1 && (ok <==> faults(old(calls)).Fine?)
      ensures disk == old(disk)[name := text] || (!ok && disk == old(disk))
    {
      var fault := Next();
      ok := fault.Fine?;
      if !fault.Refused? { disk := disk[name := text]; }
    }

    /** Unlinks a file; an absent one is fine. A failed unlink leaves the file. */
    method RemoveUnit(name: UnitName) returns (ok: bool)
      modifies `disk, `calls
      ensures calls == old(calls) + 1 && (ok <==> faults(old(calls)).Fine?)
      ensures disk == if ok then old(disk) - {name} else old(disk)
    {
      var fault := Next();
      ok := fault.Fine?;
      if ok { disk := disk - {name}; }
    }

    method DaemonReload() returns (ok: bool)
      modifies `loaded, `calls
      ensures calls == old(calls) + 1 && (ok <==> faults(old(calls)).Fine?)
      ensures loaded == disk || (!ok && loaded == old(loaded))
    {
      var fault := Next();
      ok := fault.Fine?;
      if !fault.Refused? { loaded := disk; }
    }

    method IsActive(svc: Service) returns (word: Word)
      modifies `calls
      ensures calls == old(calls) + 1 && (word.Unreadable? <==> !faults(old(calls)).Fine?)
      ensures word.Active? ==> svc in up && svc !in warming
      ensures word.Warming? ==> svc in up && svc in warming
      ensures word.Inactive? ==> svc !in up
    {
      var fault := Next();
      word := if !fault.Fine? then Unreadable
              else if svc !in up then Inactive
              else if svc in warming then Warming
              else Active;
    }

    method Stop(svc: Service) returns (ok: bool)
      modifies `up, `calls
      ensures calls == old(calls) + 1
      ensures up == old(up) - {svc} || (!ok && up == old(up))
      ensures ok == faults(old(calls)).Fine? && (!faults(old(calls)).Refused? ==> up == old(up) - {svc})
    {
      var fault := Next();
      ok := fault.Fine?;
      if !fault.Refused? { up := up - {svc}; }
    }

    /** `systemctl start` leaves a running service alone. */
    method Start(svc: Service) returns (ok: bool)
      modifies `up, `calls, `fired
      ensures calls == old(calls) + 1
      ensures fired == old(fired) + [svc]
      ensures ok <==> faults(old(calls)).Fine? && (svc in old(up) || Startable(svc))
      ensures svc in old(up) ==> up == old(up)
      ensures svc !in old(up) ==>
        (!ok && up == old(up)) || (Startable(svc) && up == old(up)[svc := Definition(svc, loaded, natives)])
    {
      var fault := Next();
      fired := fired + [svc];
      ok := fault.Fine? && (svc in up || Startable(svc));
      if svc !in up && Startable(svc) && !fault.Refused? {
        up := up[svc := Definition(svc, loaded, natives)];
      }
    }

    /** A failed restart leaves the service as it was, down, or up from its new unit. */
    method Restart(svc: Service) returns (ok: bool)
      modifies `up, `calls, `fired
      ensures calls == old(calls) + 1 && (ok <==> faults(old(calls)).Fine? && Startable(svc))
      ensures fired == old(fired) + [svc]
      ensures AgreeOff(up, old(up), {svc})
      ensures ok ==> up == old(up)[svc := Definition(svc, loaded, natives)]
      ensures svc in up && up != old(up) ==> Startable(svc) && up[svc] == Definition(svc, loaded, natives)
    {
      var fault := Next();
      fired := fired + [svc];
      ok := fault.Fine? && Startable(svc);
      if ok || (fault.Landed? && Startable(svc)) {
        up := up[svc := Definition(svc, loaded, natives)];
      } else if !fault.Refused? {
        up := up - {svc};
      }
    }
  }

  lemma SmoothTwice(h: Stack, a: nat, b: nat, c: nat)
    requires a <= b <= c
    ensures h.Smooth(a, c) <==> h.Smooth(a, b) && h.Smooth(b, c)
  {
  }

  lemma SmoothOnce(h: Stack, a: nat)
    ensures h.Smooth(a, a) && (h.Smooth(a, a + 1) <==> h.faults(a).Fine?)
  {
  }

  /** One call more after a stretch of them. */
  lemma SmoothThenOne(h: Stack, a: nat, b: nat)
    requires a <= b
    ensures h.Smooth(a, b + 1) <==> h.Smooth(a, b) && h.faults(b).Fine?
  {
  }

  /** If it was in this stretch, it was in none before or after. */
  lemma FaultIsHere(h: Stack, a: nat, b: nat, c: nat, d: nat)
    requires a <= b <= c <= d && h.OneFault(a, d) && !h.Smooth(b, c)
    ensures h.Smooth(a, b) && h.Smooth(c, d)
  {
  }
}
