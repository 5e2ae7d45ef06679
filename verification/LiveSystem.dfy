/** A live system as the loader sees it: the registered units, their connections, the system
ports - and what registering, wiring and unregistering do to them.

A live unit has an address (`Handle`) and its ports in the order in which they are searched by
name. What the factory's user code makes of a unit, and whether scheduling it throws, is an
input. */
module LiveSystem {
  import opened SpecModel
  import opened Wrappers

  type UnitId = nat
  type Handle = nat

  datatype LivePort = LivePort(id: int, name: string, direction: Direction, kind: Kind, dataType: string)
  datatype LiveUnit = LiveUnit(handle: Handle, ports: seq<LivePort>)
  datatype PortRef = PortRef(owner: Handle, port: LivePort)

  /** A connection, held by the unit it comes from. */
  datatype Wire = Wire(from: PortRef, to: PortRef)

  /** The unit registry, the connections, the system ports and the count of active units. */
  datatype Sys = Sys(
    units: map<UnitId, LiveUnit>, unitToId: map<Handle, UnitId>, nextId: UnitId,
    wires: set<Wire>, inputs: map<string, PortRef>, outputs: map<string, PortRef>, active: int)

  /** The two maps of the registry are inverse; connections and system ports belong to
      registered units. */
  ghost predicate ValidSys(s: Sys) {
    && (forall id :: id in s.units ==>
          id < s.nextId && s.units[id].handle in s.unitToId && s.unitToId[s.units[id].handle] == id)
    && (forall h :: h in s.unitToId ==> s.unitToId[h] in s.units && s.units[s.unitToId[h]].handle == h)
    && (forall w :: w in s.wires ==> w.from.owner in s.unitToId)
    && (forall name :: name in s.inputs ==> s.inputs[name].owner in s.unitToId)
    && (forall name :: name in s.outputs ==> s.outputs[name].owner in s.unitToId)
  }

  // ---------------------------------------------------------------- registry operations

  function Registered(s: Sys, u: LiveUnit): Sys {
    s.(units := s.units[s.nextId := u], unitToId := s.unitToId[u.handle := s.nextId],
       nextId := s.nextId + 1, active := s.active + 1)
  }

  /** The ports not owned by a unit. */
  function WithoutOwner(ports: map<string, PortRef>, h: Handle): map<string, PortRef> {
    map name | name in ports && ports[name].owner != h :: ports[name]
  }

  function Unregistered(s: Sys, id: UnitId): Sys {
    if id !in s.units then s
    else
      var h := s.units[id].handle;
      s.(units := s.units - {id}, unitToId := s.unitToId - {h},
         wires := (set w | w in s.wires && w.from.owner != h),
         inputs := WithoutOwner(s.inputs, h), outputs := WithoutOwner(s.outputs, h), active := s.active - 1)
  }

  /** Every connection ends at a registered unit. */
  ghost predicate NothingDangles(s: Sys) {
    forall w :: w in s.wires ==> w.to.owner in s.unitToId
  }

  /** Some other unit is connected to this one. */
  ghost predicate FedByOther(s: Sys, h: Handle) {
    exists w :: w in s.wires && w.to.owner == h && w.from.owner != h
  }

  /** Unregistering a unit drops the connections it holds, not those the others hold to it: a
      connection to the removed unit survives if and only if some other unit was connected to it. */
  lemma DanglesIffFedByOther(s: Sys, id: UnitId)
    requires id in s.units && NothingDangles(s)
    ensures NothingDangles(Unregistered(s, id)) <==> !FedByOther(s, s.units[id].handle)
  {
    var h, after := s.units[id].handle, Unregistered(s, id);
    if w :| w in s.wires && w.to.owner == h && w.from.owner != h {
      assert w in after.wires && w.to.owner !in after.unitToId;
    }
  }

  // ------------------------------------------------------------------- live references

  /** The first port with this name; sync and async inputs and outputs share one search. */
  function FindByName(ports: seq<LivePort>, name: string): Option<LivePort> {
    if ports == [] then None else if ports[0].name == name then Some(ports[0]) else FindByName(ports[1..], name)
  }

  function FindById(ports: seq<LivePort>, id: int, direction: Direction, kind: Kind): Option<LivePort> {
    if ports == [] then None
    else if ports[0].id == id && ports[0].direction == direction && ports[0].kind == kind then Some(ports[0])
    else FindById(ports[1..], id, direction, kind)
  }

  /** The port a system port is assigned: by number, the sync ports first. */
  function FindAssigned(ports: seq<LivePort>, id: int, direction: Direction): Option<LivePort> {
    var sync := FindById(ports, id, direction, Sync);
    if sync.Some? then sync else FindById(ports, id, direction, Async)
  }

  function ResolveLive(names: map<string, LiveUnit>, ref: string): Option<PortRef> {
    var name := SplitPortRef(ref);
    if name.unit !in names then None
    else
      var p := FindByName(names[name.unit].ports, name.port);
      if p.Some? then Some(PortRef(names[name.unit].handle, p.value)) else None
  }

  /** Whether the types of two ports let them be connected. */
  predicate CanConnect(from: LivePort, to: LivePort) {
    from.direction == Output && to.direction == Input && from.kind == to.kind && from.dataType == to.dataType
  }

  predicate Connects(names: map<string, LiveUnit>, c: Connection) {
    var from, to := ResolveLive(names, c.from), ResolveLive(names, c.to);
    from.Some? && to.Some? && CanConnect(from.value.port, to.value.port)
  }

  function WireOf(names: map<string, LiveUnit>, c: Connection): Wire
    requires Connects(names, c)
  {
    Wire(ResolveLive(names, c.from).value, ResolveLive(names, c.to).value)
  }

  /** The port a reference leads a system port of this direction to. */
  function Assigned(names: map<string, LiveUnit>, ref: string, direction: Direction): Option<PortRef> {
    var p := ResolveLive(names, ref);
    if p.None? then None
    else
      var unit := names[SplitPortRef(ref).unit];
      var q := FindAssigned(unit.ports, p.value.port.id, direction);
      if q.Some? then Some(PortRef(unit.handle, q.value)) else None
  }

  // ----------------------------------------------------------------------- loading

  /** What comes of instantiating one unit: user code fails, or makes a unit whose
      registration may throw. */
  datatype Build = CreateFails | Builds(unit: LiveUnit, registerThrows: bool)

  ghost predicate Creates(factory: Factory, u: SpecUnit, b: Build) {
    UnitOk(factory, u) && b.Builds?
  }

  /** Unit i of the spec gets registered, after the i units before it. */
  ghost predicate UnitLoads(spec: Spec, factory: Factory, builds: seq<Build>, s: Sys, max: nat, i: nat)
    requires i < |spec.units| == |builds|
  {
    Registers(factory, spec.units[i], builds[i], |s.units| + i, max)
  }

  ghost predicate Registers(factory: Factory, su: SpecUnit, b: Build, count: nat, max: nat) {
    Creates(factory, su, b) && su.downSampling >= 1 && !b.registerThrows && count < max
  }

  predicate AllBuilt(builds: seq<Build>, n: nat)
    requires n <= |builds|
  {
    forall i :: 0 <= i < n ==> builds[i].Builds?
  }

  ghost predicate UnitsLoad(spec: Spec, factory: Factory, builds: seq<Build>, s: Sys, max: nat, n: nat)
    requires n <= |spec.units| == |builds|
  {
    AllBuilt(builds, n) && forall i :: 0 <= i < n ==> UnitLoads(spec, factory, builds, s, max, i)
  }

  /** The first n units by name. */
  function Names(spec: Spec, builds: seq<Build>, n: nat): map<string, LiveUnit>
    requires n <= |spec.units| == |builds| && AllBuilt(builds, n)
  {
    if n == 0 then map[] else Names(spec, builds, n - 1)[spec.units[n - 1].name := builds[n - 1].unit]
  }

  /** Registering the first n units. */
  function WithUnits(s: Sys, builds: seq<Build>, n: nat): Sys
    requires n <= |builds| && AllBuilt(builds, n)
  {
    if n == 0 then s else Registered(WithUnits(s, builds, n - 1), builds[n - 1].unit)
  }

  ghost predicate AllConnect(spec: Spec, names: map<string, LiveUnit>, n: nat)
    requires n <= |spec.connections|
  {
    forall i :: 0 <= i < n ==> Connects(names, spec.connections[i])
  }

  function Wires(spec: Spec, names: map<string, LiveUnit>, n: nat): set<Wire>
    requires n <= |spec.connections|
  {
    set i | 0 <= i < n && Connects(names, spec.connections[i]) :: WireOf(names, spec.connections[i])
  }

  /** A system port can be assigned: it has a name, not yet in use, and a port to lead to. */
  predicate Assignable(names: map<string, LiveUnit>, taken: map<string, PortRef>, name: string, ref: string, d: Direction) {
    name != "" && name !in taken && Assigned(names, ref, d).Some?
  }

  ghost predicate AllAssignable(names: map<string, LiveUnit>, taken: map<string, PortRef>, ports: map<string, string>,
                                done: set<string>, d: Direction)
  {
    forall name :: name in done ==> name in ports && Assignable(names, taken, name, ports[name], d)
  }

  function Assignments(names: map<string, LiveUnit>, ports: map<string, string>, done: set<string>, d: Direction): map<string, PortRef> {
    map name | name in done && name in ports && Assigned(names, ports[name], d).Some? ::
      Assigned(names, ports[name], d).value
  }

  ghost predicate Wireable(spec: Spec, s: Sys, names: map<string, LiveUnit>) {
    && AllConnect(spec, names, |spec.connections|)
    && AllAssignable(names, s.inputs, spec.inputs, spec.inputs.Keys, Input)
    && AllAssignable(names, s.outputs, spec.outputs, spec.outputs.Keys, Output)
  }

  ghost predicate AdaptersInjected(spec: Spec, injected: set<string>) {
    forall i :: 0 <= i < |spec.adapters| ==> spec.adapters[i] in injected
  }

  /** Exactly what must be true for a spec to load into a system. */
  ghost predicate Loadable(spec: Spec, factory: Factory, builds: seq<Build>, injected: set<string>, s: Sys, max: nat)
    requires |spec.units| == |builds|
  {
    && spec.pipelines == 0
    && UnitsLoad(spec, factory, builds, s, max, |builds|)
    && AdaptersInjected(spec, injected)
    && Wireable(spec, s, Names(spec, builds, |builds|))
  }

  /** A unit whose down-sampling factor is refused by an exception nothing here catches. */
  ghost predicate Throws(spec: Spec, factory: Factory, builds: seq<Build>, s: Sys, max: nat, i: nat)
    requires i < |spec.units| == |builds|
  {
    && spec.pipelines == 0
    && UnitsLoad(spec, factory, builds, s, max, i)
    && Creates(factory, spec.units[i], builds[i]) && spec.units[i].downSampling < 1
  }

  /** The addresses of the units to come are those of no live unit, and pairwise different. */
  ghost predicate FreshHandles(builds: seq<Build>, s: Sys) {
    && (forall i: nat :: HasHandle(builds, i) ==> builds[i].unit.handle !in s.unitToId)
    && (forall i: nat, j: nat :: HasHandle(builds, i) && HasHandle(builds, j) && i != j ==>
          builds[i].unit.handle != builds[j].unit.handle)
  }

  predicate HasHandle(builds: seq<Build>, i: nat) {
    i < |builds| && builds[i].Builds?
  }

  // ---------------------------------------------------------------------- rollback

  /** `now` is `was` with the units numbered from lo up to hi added, and nothing else but
      connections and system ports of these units. */
  ghost predicate Grown(was: Sys, now: Sys, lo: UnitId, hi: UnitId) {
    && ValidSys(was) && ValidSys(now)
    && was.nextId <= lo <= hi <= now.nextId
    && (forall id :: id in now.units <==> id in was.units || lo <= id < hi)
    && (forall id :: id in was.units ==> now.units[id] == was.units[id])
    && was.wires <= now.wires
    && (forall w :: w in now.wires && w.from.owner in was.unitToId ==> w in was.wires)
    && PortsGrown(was, was.inputs, now.inputs) && PortsGrown(was, was.outputs, now.outputs)
    && now.active == was.active + (hi - lo)
  }

  ghost predicate PortsGrown(was: Sys, before: map<string, PortRef>, after: map<string, PortRef>) {
    && (forall name :: name in before ==> name in after && after[name] == before[name])
    && (forall name :: name in after && after[name].owner in was.unitToId ==> name in before)
  }

  lemma OldHandlesKept(was: Sys, now: Sys, lo: UnitId, hi: UnitId, h: Handle)
    requires Grown(was, now, lo, hi) && h in was.unitToId
    ensures h in now.unitToId && now.unitToId[h] == was.unitToId[h]
  {
    assert now.units[was.unitToId[h]] == was.units[was.unitToId[h]];
  }

  lemma UnregisterKeepsValid(s: Sys, id: UnitId)
    requires ValidSys(s) && id in s.units
    ensures ValidSys(Unregistered(s, id))
  {
    var after := Unregistered(s, id);
    forall other | other in after.units ensures after.units[other].handle in after.unitToId {
      assert s.unitToId[s.units[other].handle] == other;
    }
  }

  lemma NewUnitIsNew(was: Sys, now: Sys, lo: UnitId, hi: UnitId, id: UnitId)
    requires Grown(was, now, lo, hi) && lo <= id < hi
    ensures now.units[id].handle !in was.unitToId
  {
    if now.units[id].handle in was.unitToId {
      OldHandlesKept(was, now, lo, hi, now.units[id].handle);
      assert false;
    }
  }

  /** Unregistering the first of the new units. */
  lemma UnregisterShrinks(was: Sys, now: Sys, lo: UnitId, hi: UnitId)
    requires Grown(was, now, lo, hi) && lo < hi
    ensures Grown(was, Unregistered(now, lo), lo + 1, hi)
  {
    NewUnitIsNew(was, now, lo, hi, lo);
    UnregisterKeepsValid(now, lo);
  }

  lemma NothingLeft(was: Sys, now: Sys, hi: UnitId)
    requires Grown(was, now, hi, hi)
    ensures now == was.(nextId := now.nextId)
    ensures NothingDangles(now) <==> NothingDangles(was)
  {
    forall h ensures h in now.unitToId <==> h in was.unitToId {
      if h in now.unitToId {
        assert was.units[now.unitToId[h]].handle == h;
      }
      if h in was.unitToId {
        OldHandlesKept(was, now, hi, hi, h);
      }
    }
    forall h | h in was.unitToId ensures now.unitToId[h] == was.unitToId[h] {
      OldHandlesKept(was, now, hi, hi, h);
    }
    assert now.units == was.units && now.unitToId == was.unitToId;
    assert now.wires == was.wires && now.inputs == was.inputs && now.outputs == was.outputs;
  }

  lemma RegisterKeepsValid(s: Sys, u: LiveUnit)
    requires ValidSys(s) && u.handle !in s.unitToId
    ensures ValidSys(Registered(s, u))
  {
    var after := Registered(s, u);
    assert s.nextId !in s.units;
    forall id | id in after.units
      ensures id < after.nextId && after.units[id].handle in after.unitToId
              && after.unitToId[after.units[id].handle] == id
    {
      if id != s.nextId {
        assert id in s.units && s.units[id].handle in s.unitToId;
      }
    }
    forall h | h in after.unitToId
      ensures after.unitToId[h] in after.units && after.units[after.unitToId[h]].handle == h
    {
      if h != u.handle {
        assert s.unitToId[h] in s.units;
      }
    }
  }

  lemma RegisterGrows(was: Sys, now: Sys, lo: UnitId, hi: UnitId, u: LiveUnit)
    requires Grown(was, now, lo, hi) && hi == now.nextId && u.handle !in now.unitToId
    ensures Grown(was, Registered(now, u), lo, hi + 1)
    ensures |Registered(now, u).units| == |now.units| + 1
  {
    var after := Registered(now, u);
    assert hi !in now.units;
    assert after.units.Keys == now.units.Keys + {hi};
    RegisterKeepsValid(now, u);
    NewHandleIsNew(was, now, lo, hi, u.handle);
  }

  lemma NewHandleIsNew(was: Sys, now: Sys, lo: UnitId, hi: UnitId, h: Handle)
    requires Grown(was, now, lo, hi) && h !in now.unitToId
    ensures h !in was.unitToId
  {
    if h in was.unitToId {
      OldHandlesKept(was, now, lo, hi, h);
    }
  }

  /** Named units are registered. */
  ghost predicate NamesRegistered(names: map<string, LiveUnit>, unitToId: map<Handle, UnitId>) {
    forall n :: n in names ==> names[n].handle in unitToId
  }

  ghost predicate NamesNew(names: map<string, LiveUnit>, was: Sys) {
    forall n :: n in names ==> names[n].handle !in was.unitToId
  }

  lemma NextHandleIsNew(builds: seq<Build>, n: nat, s: Sys)
    requires n < |builds| && AllBuilt(builds, n) && builds[n].Builds? && FreshHandles(builds, s)
    ensures builds[n].unit.handle !in WithUnits(s, builds, n).unitToId
  {
    HandlesOf(builds, n, s);
    assert HasHandle(builds, n);
    forall i | 0 <= i < n ensures builds[i].unit.handle != builds[n].unit.handle {
      assert HasHandle(builds, i);
    }
  }

  ghost predicate GrownBy(builds: seq<Build>, n: nat, s: Sys)
    requires n <= |builds| && AllBuilt(builds, n)
  {
    Grown(s, WithUnits(s, builds, n), s.nextId, WithUnits(s, builds, n).nextId)
  }

  lemma NothingYet(builds: seq<Build>, s: Sys)
    requires ValidSys(s)
    ensures GrownBy(builds, 0, s)
  {
    assert Grown(s, s, s.nextId, s.nextId);
  }

  /** One registration more. */
  lemma {:induction false} OneMoreGrows(builds: seq<Build>, n: nat, s: Sys)
    requires n < |builds| && AllBuilt(builds, n + 1) && FreshHandles(builds, s) && GrownBy(builds, n, s)
    ensures GrownBy(builds, n + 1, s)
  {
    NextHandleIsNew(builds, n, s);
    RegisterGrows(s, WithUnits(s, builds, n), s.nextId, WithUnits(s, builds, n).nextId, builds[n].unit);
  }

  lemma {:induction false} UnitsNumbered(builds: seq<Build>, n: nat, s: Sys)
    requires n <= |builds| && AllBuilt(builds, n)
    ensures WithUnits(s, builds, n).nextId == s.nextId + n
  {
    if n > 0 {
      UnitsNumbered(builds, n - 1, s);
    }
  }

  lemma UnitsGrow(builds: seq<Build>, n: nat, s: Sys)
    requires n <= |builds| && AllBuilt(builds, n) && FreshHandles(builds, s) && ValidSys(s)
    ensures GrownBy(builds, n, s)
  {
    NothingYet(builds, s);
    var k := 0;
    while k < n
      invariant 0 <= k <= n && AllBuilt(builds, k) && GrownBy(builds, k, s)
    {
      OneMoreGrows(builds, k, s);
      k := k + 1;
    }
  }

  lemma WithUnitsGrows(builds: seq<Build>, n: nat, s: Sys)
    requires n <= |builds| && AllBuilt(builds, n) && FreshHandles(builds, s) && ValidSys(s)
    ensures Grown(s, WithUnits(s, builds, n), s.nextId, s.nextId + n)
    ensures WithUnits(s, builds, n).nextId == s.nextId + n
  {
    UnitsNumbered(builds, n, s);
    UnitsGrow(builds, n, s);
  }

  lemma {:induction false} NamedUnitsAreNew(spec: Spec, builds: seq<Build>, n: nat, s: Sys)
    requires n <= |spec.units| == |builds| && AllBuilt(builds, n) && FreshHandles(builds, s)
    ensures NamesNew(Names(spec, builds, n), s)
    ensures NamesRegistered(Names(spec, builds, n), WithUnits(s, builds, n).unitToId)
  {
    if n > 0 {
      NamedUnitsAreNew(spec, builds, n - 1, s);
      assert HasHandle(builds, n - 1);
    }
  }

  /** There is a new number and a new address for the next unit. */
  lemma NextUnitIsNew(builds: seq<Build>, n: nat, s: Sys)
    requires n < |builds| && AllBuilt(builds, n) && FreshHandles(builds, s) && ValidSys(s)
    ensures WithUnits(s, builds, n).nextId == s.nextId + n && s.nextId + n !in WithUnits(s, builds, n).units
    ensures builds[n].Builds? ==> builds[n].unit.handle !in WithUnits(s, builds, n).unitToId
  {
    WithUnitsGrows(builds, n, s);
    if builds[n].Builds? {
      NextHandleIsNew(builds, n, s);
    }
  }

  lemma {:induction false} HandlesOf(builds: seq<Build>, n: nat, s: Sys)
    requires n <= |builds| && AllBuilt(builds, n)
    ensures forall h :: h in WithUnits(s, builds, n).unitToId <==>
              h in s.unitToId || exists i :: 0 <= i < n && builds[i].unit.handle == h
  {
    if n > 0 {
      HandlesOf(builds, n - 1, s);
    }
  }

  /** System ports of new units under new names. */
  lemma PortsGrowOn(was: Sys, before: map<string, PortRef>, after: map<string, PortRef>, added: map<string, PortRef>)
    requires PortsGrown(was, before, after)
    requires forall n :: n in added ==> n !in after && added[n].owner !in was.unitToId
    ensures PortsGrown(was, before, after + added)
  {
  }

  lemma WiringKeepsValid(now: Sys, ws: set<Wire>, ins: map<string, PortRef>, outs: map<string, PortRef>)
    requires ValidSys(now) && (forall w :: w in ws ==> w.from.owner in now.unitToId)
    requires forall n :: n in ins ==> ins[n].owner in now.unitToId
    requires forall n :: n in outs ==> outs[n].owner in now.unitToId
    ensures ValidSys(now.(wires := now.wires + ws, inputs := now.inputs + ins, outputs := now.outputs + outs))
  {
  }

  lemma NamedOwner(was: Sys, now: Sys, names: map<string, LiveUnit>, p: PortRef)
    requires NamesNew(names, was) && NamesRegistered(names, now.unitToId) && OwnedByNamed(names, p)
    ensures p.owner in now.unitToId && p.owner !in was.unitToId
  {
    var n :| n in names && names[n].handle == p.owner;
  }

  /** Connections and system ports of new units. */
  lemma WiringGrows(was: Sys, now: Sys, hi: UnitId, names: map<string, LiveUnit>, ws: set<Wire>,
                    ins: map<string, PortRef>, outs: map<string, PortRef>)
    requires Grown(was, now, was.nextId, hi) && NamesNew(names, was) && NamesRegistered(names, now.unitToId)
    requires forall w :: w in ws ==> OwnedByNamed(names, w.from)
    requires forall n :: n in ins ==> n !in now.inputs && OwnedByNamed(names, ins[n])
    requires forall n :: n in outs ==> n !in now.outputs && OwnedByNamed(names, outs[n])
    ensures Grown(was, now.(wires := now.wires + ws, inputs := now.inputs + ins, outputs := now.outputs + outs), was.nextId, hi)
  {
    forall p | OwnedByNamed(names, p) ensures p.owner in now.unitToId && p.owner !in was.unitToId {
      NamedOwner(was, now, names, p);
    }
    PortsGrowOn(was, was.inputs, now.inputs, ins);
    PortsGrowOn(was, was.outputs, now.outputs, outs);
    WiringKeepsValid(now, ws, ins, outs);
  }

  ghost predicate OwnedByNamed(names: map<string, LiveUnit>, p: PortRef) {
    exists n :: n in names && names[n].handle == p.owner
  }

  /** How far a load may get: all units, some connections, some system ports. */
  ghost predicate PartlyWired(spec: Spec, s: Sys, names: map<string, LiveUnit>, n: nat, ins: set<string>, outs: set<string>) {
    && n <= |spec.connections| && AllConnect(spec, names, n)
    && AllAssignable(names, s.inputs, spec.inputs, ins, Input)
    && AllAssignable(names, s.outputs, spec.outputs, outs, Output)
  }

  function PartlyLoaded(spec: Spec, builds: seq<Build>, s: Sys, n: nat, ins: set<string>, outs: set<string>): Sys
    requires |spec.units| == |builds| && AllBuilt(builds, |builds|) && n <= |spec.connections|
  {
    var names, grown := Names(spec, builds, |builds|), WithUnits(s, builds, |builds|);
    grown.(wires := s.wires + Wires(spec, names, n),
           inputs := s.inputs + Assignments(names, spec.inputs, ins, Input),
           outputs := s.outputs + Assignments(names, spec.outputs, outs, Output))
  }

  lemma {:induction false} WithUnitsKeepsWiring(s: Sys, builds: seq<Build>, n: nat)
    requires n <= |builds| && AllBuilt(builds, n)
    ensures var g := WithUnits(s, builds, n); g.wires == s.wires && g.inputs == s.inputs && g.outputs == s.outputs
  {
    if n > 0 {
      WithUnitsKeepsWiring(s, builds, n - 1);
    }
  }

  /** What a load connects and assigns belongs to its units, and takes nobody's name. */
  lemma NewWiringIsOwned(spec: Spec, s: Sys, names: map<string, LiveUnit>, n: nat, ins: set<string>, outs: set<string>)
    requires PartlyWired(spec, s, names, n, ins, outs)
    ensures forall w :: w in Wires(spec, names, n) ==> OwnedByNamed(names, w.from)
    ensures var added := Assignments(names, spec.inputs, ins, Input);
            forall name :: name in added ==> name !in s.inputs && OwnedByNamed(names, added[name])
    ensures var added := Assignments(names, spec.outputs, outs, Output);
            forall name :: name in added ==> name !in s.outputs && OwnedByNamed(names, added[name])
  {
    forall w | w in Wires(spec, names, n) ensures OwnedByNamed(names, w.from) {
      var i :| 0 <= i < n && Connects(names, spec.connections[i]) && w == WireOf(names, spec.connections[i]);
    }
    AssignedToNamed(names, s.inputs, spec.inputs, ins, Input);
    AssignedToNamed(names, s.outputs, spec.outputs, outs, Output);
  }

  lemma AssignedToNamed(names: map<string, LiveUnit>, taken: map<string, PortRef>, ports: map<string, string>,
                        done: set<string>, d: Direction)
    requires AllAssignable(names, taken, ports, done, d)
    ensures var added := Assignments(names, ports, done, d);
            forall name :: name in added ==> name !in taken && OwnedByNamed(names, added[name])
  {
    forall name | name in Assignments(names, ports, done, d)
      ensures name !in taken && OwnedByNamed(names, Assigned(names, ports[name], d).value)
    {
      assert Assignable(names, taken, name, ports[name], d);
    }
  }

  lemma PartlyLoadedIsGrown(spec: Spec, builds: seq<Build>, s: Sys, n: nat, ins: set<string>, outs: set<string>)
    requires |spec.units| == |builds| && AllBuilt(builds, |builds|) && FreshHandles(builds, s) && ValidSys(s)
    requires PartlyWired(spec, s, Names(spec, builds, |builds|), n, ins, outs)
    ensures Grown(s, PartlyLoaded(spec, builds, s, n, ins, outs), s.nextId, s.nextId + |builds|)
  {
    var names, grown := Names(spec, builds, |builds|), WithUnits(s, builds, |builds|);
    WithUnitsGrows(builds, |builds|, s);
    NamedUnitsAreNew(spec, builds, |builds|, s);
    WithUnitsKeepsWiring(s, builds, |builds|);
    NewWiringIsOwned(spec, s, names, n, ins, outs);
    WiringGrows(s, grown, s.nextId + |builds|, names, Wires(spec, names, n),
                Assignments(names, spec.inputs, ins, Input), Assignments(names, spec.outputs, outs, Output));
  }

  /** However far a load gets, the connections it makes end at registered units. */
  lemma LoadDoesNotDangle(spec: Spec, builds: seq<Build>, s: Sys, n: nat, ins: set<string>, outs: set<string>)
    requires |spec.units| == |builds| && AllBuilt(builds, |builds|) && n <= |spec.connections|
    requires FreshHandles(builds, s) && NothingDangles(s)
    ensures NothingDangles(PartlyLoaded(spec, builds, s, n, ins, outs))
  {
    var names, after := Names(spec, builds, |builds|), PartlyLoaded(spec, builds, s, n, ins, outs);
    NamedUnitsAreNew(spec, builds, |builds|, s);
    HandlesOf(builds, |builds|, s);
    forall w | w in after.wires ensures w.to.owner in after.unitToId {
      if w !in s.wires {
        var i :| 0 <= i < n && Connects(names, spec.connections[i]) && w == WireOf(names, spec.connections[i]);
      }
    }
  }

  lemma OneMoreLoads(spec: Spec, factory: Factory, builds: seq<Build>, s: Sys, max: nat, n: nat)
    requires n < |spec.units| == |builds| && UnitsLoad(spec, factory, builds, s, max, n)
    requires UnitLoads(spec, factory, builds, s, max, n)
    ensures UnitsLoad(spec, factory, builds, s, max, n + 1)
  {
    assert AllBuilt(builds, n + 1);
    forall i | 0 <= i < n + 1 ensures UnitLoads(spec, factory, builds, s, max, i) {
      if i < n {
        assert UnitLoads(spec, factory, builds, s, max, i);
      }
    }
  }

  lemma OneMoreCounted(s: Sys, u: LiveUnit)
    requires s.nextId !in s.units
    ensures |Registered(s, u).units| == |s.units| + 1
  {
    assert Registered(s, u).units.Keys == s.units.Keys + {s.nextId};
  }

  predicate NumbersBelow(s: Sys) {
    forall id :: id in s.units ==> id < s.nextId
  }

  lemma {:induction false} UnitsCounted(builds: seq<Build>, n: nat, s: Sys)
    requires n <= |builds| && AllBuilt(builds, n) && NumbersBelow(s)
    ensures |WithUnits(s, builds, n).units| == |s.units| + n && NumbersBelow(WithUnits(s, builds, n))
  {
    if n > 0 {
      UnitsCounted(builds, n - 1, s);
      OneMoreCounted(WithUnits(s, builds, n - 1), builds[n - 1].unit);
    }
  }

  predicate Consecutive(ids: seq<UnitId>, first: UnitId) {
    forall k :: 0 <= k < |ids| ==> ids[k] == first + k
  }

  /** The state, the name table and the numbers after n units. */
  ghost predicate Instantiated(spec: Spec, builds: seq<Build>, s: Sys, n: nat, names: map<string, LiveUnit>,
                               ids: seq<UnitId>, now: Sys)
    requires n <= |spec.units| == |builds| && AllBuilt(builds, n)
  {
    && now == WithUnits(s, builds, n) && now.nextId == s.nextId + n
    && names == Names(spec, builds, n) && |ids| == n && Consecutive(ids, s.nextId)
  }

  /** The same, but for numbers used up by a registration that failed. */
  ghost predicate Interrupted(spec: Spec, builds: seq<Build>, s: Sys, n: nat, names: map<string, LiveUnit>,
                              ids: seq<UnitId>, now: Sys)
    requires n <= |spec.units| == |builds| && AllBuilt(builds, n)
  {
    now.nextId >= s.nextId + n && Instantiated(spec, builds, s, n, names, ids, now.(nextId := s.nextId + n))
  }

  lemma InstantiatedNext(spec: Spec, builds: seq<Build>, s: Sys, n: nat, names: map<string, LiveUnit>, ids: seq<UnitId>)
    requires n < |spec.units| == |builds| && AllBuilt(builds, n + 1)
    requires Instantiated(spec, builds, s, n, names, ids, WithUnits(s, builds, n))
    ensures Instantiated(spec, builds, s, n + 1, names[spec.units[n].name := builds[n].unit], ids + [s.nextId + n],
                         WithUnits(s, builds, n + 1))
  {
    NextName(spec, builds, n);
    ConsecutiveSnoc(ids, s.nextId);
  }

  /** Unit n does not load; it throws if it was created and its factor is refused. */
  ghost predicate StoppedAt(spec: Spec, factory: Factory, builds: seq<Build>, s: Sys, max: nat, n: nat, threw: bool)
    requires n < |spec.units| == |builds|
  {
    && UnitsLoad(spec, factory, builds, s, max, n) && !UnitLoads(spec, factory, builds, s, max, n)
    && (threw <==> Creates(factory, spec.units[n], builds[n]) && spec.units[n].downSampling < 1)
  }

  lemma ConsecutiveSnoc(ids: seq<UnitId>, first: UnitId)
    requires Consecutive(ids, first)
    ensures Consecutive(ids + [first + |ids|], first)
  {
  }

  lemma NextName(spec: Spec, builds: seq<Build>, n: nat)
    requires n < |spec.units| == |builds| && AllBuilt(builds, n + 1)
    ensures Names(spec, builds, n + 1) == Names(spec, builds, n)[spec.units[n].name := builds[n].unit]
  {
  }

  lemma RemoveUndoesAdd<K, V>(m: map<K, V>, k: K, v: V)
    requires k !in m
    ensures m[k := v] - {k} == m
  {
  }

  lemma OneMoreAssigned(names: map<string, LiveUnit>, taken: map<string, PortRef>, ports: map<string, string>,
                        done: set<string>, d: Direction, name: string)
    requires name in ports && name !in done && AllAssignable(names, taken, ports, done, d)
    ensures Assignments(names, ports, done, d).Keys == done
    ensures Assignable(names, taken, name, ports[name], d) ==>
              && AllAssignable(names, taken, ports, done + {name}, d)
              && taken + Assignments(names, ports, done + {name}, d)
                 == (taken + Assignments(names, ports, done, d))[name := Assigned(names, ports[name], d).value]
  {
  }

  /** A number used up by a registration that failed makes no difference. */
  lemma LeftoverIsGrown(spec: Spec, builds: seq<Build>, n: nat, s: Sys, nextId: UnitId)
    requires n <= |spec.units| == |builds| && AllBuilt(builds, n) && FreshHandles(builds, s) && ValidSys(s)
    requires nextId >= s.nextId + n
    ensures Grown(s, WithUnits(s, builds, n).(nextId := nextId), s.nextId, s.nextId + n)
  {
    WithUnitsGrows(builds, n, s);
  }

  lemma NoneMayThrow(spec: Spec, factory: Factory, builds: seq<Build>, s: Sys, max: nat)
    requires |spec.units| == |builds| && UnitsLoad(spec, factory, builds, s, max, |builds|)
    ensures !exists k :: 0 <= k < |builds| && Throws(spec, factory, builds, s, max, k)
  {
    forall k | 0 <= k < |builds| ensures !Throws(spec, factory, builds, s, max, k) {
      assert UnitLoads(spec, factory, builds, s, max, k);
    }
  }

  /** Only the first unit that does not load can be the one that throws. */
  lemma OnlyOneMayThrow(spec: Spec, factory: Factory, builds: seq<Build>, s: Sys, max: nat, i: nat)
    requires i < |spec.units| == |builds| && UnitsLoad(spec, factory, builds, s, max, i)
    requires !UnitLoads(spec, factory, builds, s, max, i) && spec.pipelines == 0
    ensures (exists k :: 0 <= k < |builds| && Throws(spec, factory, builds, s, max, k))
            <==> Creates(factory, spec.units[i], builds[i]) && spec.units[i].downSampling < 1
    ensures !UnitsLoad(spec, factory, builds, s, max, |builds|)
  {
    forall k | 0 <= k < |builds| ensures Throws(spec, factory, builds, s, max, k) ==> k == i {
      if k < i {
        assert UnitLoads(spec, factory, builds, s, max, k);
      }
    }
    assert Throws(spec, factory, builds, s, max, i) <==>
             Creates(factory, spec.units[i], builds[i]) && spec.units[i].downSampling < 1;
  }
}
