/** Building a system from a spec: instantiating its units, wiring them, assigning the system
ports - and rolling back. */
module SpecLoader {
  import opened UnitParams
  import opened SpecModel
  import opened LiveSystem
  import opened Wrappers

  datatype Outcome = Done | Refused | Threw

  class SpecSystem {
    const maxUnits: nat
    var units: map<UnitId, LiveUnit>
    var unitToId: map<Handle, UnitId>
    var nextUnitId: UnitId
    var wires: set<Wire>
    var systemInputs: map<string, PortRef>
    var systemOutputs: map<string, PortRef>
    var activeUnits: int

    ghost function Contents(): Sys
      reads this
    {
      Sys(units, unitToId, nextUnitId, wires, systemInputs, systemOutputs, activeUnits)
    }

    constructor (maxUnits: nat)
      ensures ValidSys(Contents()) && units == map[] && this.maxUnits == maxUnits
    {
      this.maxUnits := maxUnits;
      units, unitToId, nextUnitId, wires := map[], map[], 1, {};
      systemInputs, systemOutputs, activeUnits := map[], map[], 0;
    }

    /** Adds a unit; if there is no room, or scheduling it throws, nothing but a number is used up. */
    method RegisterProcessingUnit(u: LiveUnit, throws: bool) returns (id: Option<UnitId>)
      requires u.handle !in unitToId && nextUnitId !in units
      modifies this
      ensures id == if old(|units|) < maxUnits && !throws then Some(old(nextUnitId)) else None
      ensures id.Some? ==> Contents() == Registered(old(Contents()), u)
      ensures id.None? ==> Contents() == old(Contents()).(nextId := nextUnitId) && nextUnitId >= old(nextUnitId)
    {
      if |units| >= maxUnits {
        return None;
      }
      var unitId := nextUnitId;
      nextUnitId := nextUnitId + 1;
      units := units[unitId := u];
      unitToId := unitToId[u.handle := unitId];
      if throws {
        RemoveUndoesAdd(old(units), unitId, u);
        RemoveUndoesAdd(old(unitToId), u.handle, unitId);
        units := units - {unitId};
        unitToId := unitToId - {u.handle};
        return None;
      }
      activeUnits := activeUnits + 1;
      id := Some(unitId);
    }

    method UnregisterProcessingUnit(id: UnitId) returns (found: bool)
      modifies this
      ensures Contents() == Unregistered(old(Contents()), id) && found == (id in old(units))
    {
      found := id in units;
      if !found {
        return;
      }
      var h := units[id].handle;
      unitToId := unitToId - {h};
      units := units - {id};
      systemInputs := WithoutOwner(systemInputs, h);
      systemOutputs := WithoutOwner(systemOutputs, h);
      wires := set w | w in wires && w.from.owner != h;
      activeUnits := activeUnits - 1;
    }

    /** Undoes the registrations of a load, in the order they were made. */
    method RollbackRegisteredUnits(ids: seq<UnitId>, ghost was: Sys)
      requires Grown(was, Contents(), was.nextId, was.nextId + |ids|)
      requires Consecutive(ids, was.nextId)
      modifies this
      ensures Contents() == was.(nextId := nextUnitId) && nextUnitId >= was.nextId
    {
      var k := 0;
      while k < |ids|
        invariant 0 <= k <= |ids|
        invariant Grown(was, Contents(), was.nextId + k, was.nextId + |ids|)
      {
        RollbackOne(ids[k], was, was.nextId + |ids|);
        k := k + 1;
      }
      NothingLeft(was, Contents(), was.nextId + |ids|);
    }

    method RollbackOne(id: UnitId, ghost was: Sys, ghost hi: UnitId)
      requires Grown(was, Contents(), id, hi) && id < hi
      modifies this
      ensures Grown(was, Contents(), id + 1, hi)
    {
      UnregisterShrinks(was, Contents(), id, hi);
      var found := UnregisterProcessingUnit(id);
    }

    /** Instantiates and registers one unit. */
    method InstantiateUnit(factory: Factory, su: SpecUnit, build: Build) returns (outcome: Outcome, id: UnitId)
      requires build.Builds? ==> build.unit.handle !in unitToId
      requires nextUnitId !in units
      modifies this
      ensures outcome == Threw <==> Creates(factory, su, build) && su.downSampling < 1
      ensures outcome == Done <==> Registers(factory, su, build, |old(units)|, maxUnits)
      ensures outcome == Done ==> Contents() == Registered(old(Contents()), build.unit) && id == old(nextUnitId)
      ensures outcome != Done ==> Contents() == old(Contents()).(nextId := nextUnitId) && nextUnitId >= old(nextUnitId)
      ensures outcome == Threw ==> nextUnitId == old(nextUnitId)
    {
      id := 0;
      var created := CreateUnit(factory, su, build);
      if !created {
        return Refused, id;
      }
      if su.downSampling != 1 {
        if su.downSampling < 1 {
          return Threw, id;
        }
      }
      var registered := RegisterProcessingUnit(build.unit, build.registerThrows);
      if registered.None? {
        return Refused, id;
      }
      outcome, id := Done, registered.value;
    }

    /** Unit i, once the units before it are registered. */
    method InstantiateNext(spec: Spec, factory: Factory, builds: seq<Build>, i: nat,
                           names: map<string, LiveUnit>, ids: seq<UnitId>, ghost was: Sys)
      returns (outcome: Outcome, names': map<string, LiveUnit>, ids': seq<UnitId>)
      requires ValidSys(was) && i < |spec.units| == |builds| && FreshHandles(builds, was)
      requires UnitsLoad(spec, factory, builds, was, maxUnits, i)
      requires Instantiated(spec, builds, was, i, names, ids, Contents())
      modifies this
      ensures outcome == Done ==> UnitsLoad(spec, factory, builds, was, maxUnits, i + 1)
                                  && Instantiated(spec, builds, was, i + 1, names', ids', Contents())
      ensures outcome != Done ==> StoppedAt(spec, factory, builds, was, maxUnits, i, outcome == Threw)
                                  && Interrupted(spec, builds, was, i, names', ids', Contents())
                                  && (outcome == Threw ==> nextUnitId == was.nextId + i)
    {
      NextUnitIsNew(builds, i, was);
      UnitsCounted(builds, i, was);
      names', ids' := names, ids;
      var id;
      outcome, id := InstantiateUnit(factory, spec.units[i], builds[i]);
      if outcome == Done {
        OneMoreLoads(spec, factory, builds, was, maxUnits, i);
        InstantiatedNext(spec, builds, was, i, names, ids);
        names' := names[spec.units[i].name := builds[i].unit];
        ids' := ids + [id];
      }
    }

    /** Instantiates and registers the units in the order of the spec; `ids` are the numbers of
        those that were registered. */
    method InstantiateUnits(spec: Spec, factory: Factory, builds: seq<Build>, ghost was: Sys)
      returns (outcome: Outcome, names: map<string, LiveUnit>, ids: seq<UnitId>)
      requires was == Contents() && ValidSys(was) && |spec.units| == |builds| && FreshHandles(builds, was)
      modifies this
      ensures outcome == Done ==> UnitsLoad(spec, factory, builds, was, maxUnits, |builds|)
                                  && Instantiated(spec, builds, was, |builds|, names, ids, Contents())
      ensures outcome != Done ==> |ids| < |builds|
                                  && StoppedAt(spec, factory, builds, was, maxUnits, |ids|, outcome == Threw)
                                  && Interrupted(spec, builds, was, |ids|, names, ids, Contents())
                                  && (outcome == Threw ==> nextUnitId == was.nextId + |ids|)
    {
      names, ids, outcome := map[], [], Done;
      var i := 0;
      while i < |builds|
        invariant 0 <= i <= |builds| && outcome == Done
        invariant UnitsLoad(spec, factory, builds, was, maxUnits, i)
        invariant Instantiated(spec, builds, was, i, names, ids, Contents())
      {
        outcome, names, ids := InstantiateNext(spec, factory, builds, i, names, ids, was);
        if outcome != Done {
          return;
        }
        i := i + 1;
      }
    }

    /** The factory: an unknown type, parameters that do not pass, or failing user code. */
    method CreateUnit(factory: Factory, u: SpecUnit, build: Build) returns (ok: bool)
      ensures ok <==> Creates(factory, u, build)
    {
      if u.kind !in factory {
        return false;
      }
      var issues := ValidateParams(factory[u.kind].parameters, u.params);
      ok := issues == [] && build.Builds?;
    }

    method CheckAdapters(spec: Spec, injected: set<string>) returns (ok: bool)
      ensures ok <==> AdaptersInjected(spec, injected)
    {
      var i := 0;
      while i < |spec.adapters|
        invariant 0 <= i <= |spec.adapters|
        invariant forall k :: 0 <= k < i ==> spec.adapters[k] in injected
      {
        if spec.adapters[i] !in injected {
          return false;
        }
        i := i + 1;
      }
      ok := true;
    }

    /** Connects until all is connected, or something cannot be. */
    method WireConnections(spec: Spec, names: map<string, LiveUnit>) returns (ok: bool, ghost n: nat)
      modifies this`wires
      ensures n <= |spec.connections| && AllConnect(spec, names, n)
      ensures wires == old(wires) + Wires(spec, names, n)
      ensures if ok then n == |spec.connections| else n < |spec.connections| && !Connects(names, spec.connections[n])
    {
      var i := 0;
      while i < |spec.connections|
        invariant 0 <= i <= |spec.connections|
        invariant AllConnect(spec, names, i) && wires == old(wires) + Wires(spec, names, i)
      {
        var c := spec.connections[i];
        n := i;
        if !Connects(names, c) {
          return false, n;
        }
        assert Wires(spec, names, i + 1) == Wires(spec, names, i) + {WireOf(names, c)};
        wires := wires + {WireOf(names, c)};
        i := i + 1;
      }
      ok, n := true, i;
    }

    /** Assigns one system input; the port is looked up again, by number. */
    method AssignSystemInputPort(name: string, unit: LiveUnit, portId: int) returns (ok: bool)
      modifies this`systemInputs
      ensures ok <==> name != "" && unit.handle in unitToId && name !in old(systemInputs)
                      && FindAssigned(unit.ports, portId, Input).Some?
      ensures systemInputs == if ok
                              then old(systemInputs)[name := PortRef(unit.handle, FindAssigned(unit.ports, portId, Input).value)]
                              else old(systemInputs)
    {
      if name == "" || unit.handle !in unitToId {
        return false;
      }
      var port := FindById(unit.ports, portId, Input, Sync);
      if port.None? {
        port := FindById(unit.ports, portId, Input, Async);
      }
      if port.None? || name in systemInputs {
        return false;
      }
      systemInputs := systemInputs[name := PortRef(unit.handle, port.value)];
      ok := true;
    }

    method AssignSystemOutputPort(name: string, unit: LiveUnit, portId: int) returns (ok: bool)
      modifies this`systemOutputs
      ensures ok <==> name != "" && unit.handle in unitToId && name !in old(systemOutputs)
                      && FindAssigned(unit.ports, portId, Output).Some?
      ensures systemOutputs == if ok
                               then old(systemOutputs)[name := PortRef(unit.handle, FindAssigned(unit.ports, portId, Output).value)]
                               else old(systemOutputs)
    {
      if name == "" || unit.handle !in unitToId {
        return false;
      }
      var port := FindById(unit.ports, portId, Output, Sync);
      if port.None? {
        port := FindById(unit.ports, portId, Output, Async);
      }
      if port.None? || name in systemOutputs {
        return false;
      }
      systemOutputs := systemOutputs[name := PortRef(unit.handle, port.value)];
      ok := true;
    }

    method AssignInputs(spec: Spec, names: map<string, LiveUnit>) returns (ok: bool, ghost done: set<string>)
      requires NamesRegistered(names, unitToId)
      modifies this`systemInputs
      ensures AllAssignable(names, old(systemInputs), spec.inputs, done, Input)
      ensures systemInputs == old(systemInputs) + Assignments(names, spec.inputs, done, Input)
      ensures if ok then done == spec.inputs.Keys else !AllAssignable(names, old(systemInputs), spec.inputs, spec.inputs.Keys, Input)
    {
      var todo := spec.inputs.Keys;
      done := {};
      while todo != {}
        invariant todo <= spec.inputs.Keys && done == spec.inputs.Keys - todo
        invariant AllAssignable(names, old(systemInputs), spec.inputs, done, Input)
        invariant systemInputs == old(systemInputs) + Assignments(names, spec.inputs, done, Input)
        decreases todo
      {
        var name :| name in todo;
        OneMoreAssigned(names, old(systemInputs), spec.inputs, done, Input, name);
        var p := ResolveLive(names, spec.inputs[name]);
        if p.None? {
          assert !Assignable(names, old(systemInputs), name, spec.inputs[name], Input);
          return false, done;
        }
        var unit := names[SplitPortRef(spec.inputs[name]).unit];
        ok := AssignSystemInputPort(name, unit, p.value.port.id);
        if !ok {
          assert !Assignable(names, old(systemInputs), name, spec.inputs[name], Input);
          return;
        }
        todo, done := todo - {name}, done + {name};
        assert done == spec.inputs.Keys - todo;
      }
      assert done == spec.inputs.Keys;
      ok := true;
    }

    method AssignOutputs(spec: Spec, names: map<string, LiveUnit>) returns (ok: bool, ghost done: set<string>)
      requires NamesRegistered(names, unitToId)
      modifies this`systemOutputs
      ensures AllAssignable(names, old(systemOutputs), spec.outputs, done, Output)
      ensures systemOutputs == old(systemOutputs) + Assignments(names, spec.outputs, done, Output)
      ensures if ok then done == spec.outputs.Keys else !AllAssignable(names, old(systemOutputs), spec.outputs, spec.outputs.Keys, Output)
    {
      var todo := spec.outputs.Keys;
      done := {};
      while todo != {}
        invariant todo <= spec.outputs.Keys && done == spec.outputs.Keys - todo
        invariant AllAssignable(names, old(systemOutputs), spec.outputs, done, Output)
        invariant systemOutputs == old(systemOutputs) + Assignments(names, spec.outputs, done, Output)
        decreases todo
      {
        var name :| name in todo;
        OneMoreAssigned(names, old(systemOutputs), spec.outputs, done, Output, name);
        var p := ResolveLive(names, spec.outputs[name]);
        if p.None? {
          assert !Assignable(names, old(systemOutputs), name, spec.outputs[name], Output);
          return false, done;
        }
        var unit := names[SplitPortRef(spec.outputs[name]).unit];
        ok := AssignSystemOutputPort(name, unit, p.value.port.id);
        if !ok {
          assert !Assignable(names, old(systemOutputs), name, spec.outputs[name], Output);
          return;
        }
        todo, done := todo - {name}, done + {name};
        assert done == spec.outputs.Keys - todo;
      }
      assert done == spec.outputs.Keys;
      ok := true;
    }

    /** Wires the instantiated units; fails exactly if something cannot be connected or assigned. */
    method WireAll(spec: Spec, names: map<string, LiveUnit>, ghost was: Sys)
      returns (ok: bool, ghost n: nat, ghost ins: set<string>, ghost outs: set<string>)
      requires NamesRegistered(names, unitToId)
      requires wires == was.wires && systemInputs == was.inputs && systemOutputs == was.outputs
      modifies this`wires, this`systemInputs, this`systemOutputs
      ensures PartlyWired(spec, was, names, n, ins, outs)
      ensures wires == was.wires + Wires(spec, names, n)
      ensures systemInputs == was.inputs + Assignments(names, spec.inputs, ins, Input)
      ensures systemOutputs == was.outputs + Assignments(names, spec.outputs, outs, Output)
      ensures ok <==> Wireable(spec, was, names)
      ensures ok ==> n == |spec.connections| && ins == spec.inputs.Keys && outs == spec.outputs.Keys
    {
      ins, outs := {}, {};
      ok, n := WireConnections(spec, names);
      if ok {
        ok, ins := AssignInputs(spec, names);
      }
      if ok {
        ok, outs := AssignOutputs(spec, names);
      }
    }

    /** Loads the spec. A failed load takes everything back - except when a down-sampling factor
        is refused by an exception, which leaves the units registered so far behind. */
    method InitializeBlocksLayout(spec: Spec, factory: Factory, builds: seq<Build>, injected: set<string>)
      returns (outcome: Outcome)
      requires ValidSys(Contents()) && |spec.units| == |builds| && FreshHandles(builds, Contents())
      modifies this
      ensures outcome == Done <==> Loadable(spec, factory, builds, injected, old(Contents()), maxUnits)
      ensures outcome == Threw <==> exists i :: 0 <= i < |builds| && Throws(spec, factory, builds, old(Contents()), maxUnits, i)
      ensures outcome == Done ==>
                Contents() == PartlyLoaded(spec, builds, old(Contents()), |spec.connections|, spec.inputs.Keys, spec.outputs.Keys)
      ensures outcome == Refused ==> Contents() == old(Contents()).(nextId := nextUnitId)
      ensures outcome == Threw ==> exists i :: 0 <= i < |builds| && Throws(spec, factory, builds, old(Contents()), maxUnits, i)
                                               && Contents() == WithUnits(old(Contents()), builds, i)
    {
      if spec.pipelines != 0 {
        return Refused;
      }
      ghost var was := Contents();
      var names, ids;
      outcome, names, ids := InstantiateUnits(spec, factory, builds, was);
      if outcome != Done {
        OnlyOneMayThrow(spec, factory, builds, was, maxUnits, |ids|);
        assert outcome == Threw ==> Throws(spec, factory, builds, was, maxUnits, |ids|);
        if outcome == Refused {
          LeftoverIsGrown(spec, builds, |ids|, was, nextUnitId);
          RollbackRegisteredUnits(ids, was);
        }
        return;
      }
      NoneMayThrow(spec, factory, builds, was, maxUnits);
      var ok := CheckAdapters(spec, injected);
      if ok {
        ok := WireOrRollback(spec, builds, names, ids, was);
      } else {
        LeftoverIsGrown(spec, builds, |ids|, was, nextUnitId);
        RollbackRegisteredUnits(ids, was);
      }
      outcome := if ok then Done else Refused;
    }

    method WireOrRollback(spec: Spec, builds: seq<Build>, names: map<string, LiveUnit>, ids: seq<UnitId>, ghost was: Sys)
      returns (ok: bool)
      requires ValidSys(was) && |spec.units| == |builds| == |ids| && AllBuilt(builds, |builds|) && FreshHandles(builds, was)
      requires Consecutive(ids, was.nextId)
      requires Contents() == WithUnits(was, builds, |builds|) && names == Names(spec, builds, |builds|)
      modifies this
      ensures ok <==> Wireable(spec, was, names)
      ensures if ok
              then Contents() == PartlyLoaded(spec, builds, was, |spec.connections|, spec.inputs.Keys, spec.outputs.Keys)
              else Contents() == was.(nextId := nextUnitId)
    {
      NamedUnitsAreNew(spec, builds, |builds|, was);
      WithUnitsKeepsWiring(was, builds, |builds|);
      ghost var n, ins, outs;
      ok, n, ins, outs := WireAll(spec, names, was);
      assert Contents() == PartlyLoaded(spec, builds, was, n, ins, outs);
      if !ok {
        PartlyLoadedIsGrown(spec, builds, was, n, ins, outs);
        RollbackRegisteredUnits(ids, was);
      }
    }
  }
}
