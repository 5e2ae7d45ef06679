/** What validation promises about loading. */
module SpecTheorems {
  import opened SpecModel
  import opened LiveSystem
  import opened Wrappers

  predicate Matches(p: LivePort, d: PortDescriptor) {
    p.id == d.index && p.name == d.name && p.direction == d.direction && p.kind == d.kind && p.dataType == d.dataType
  }

  ghost predicate HasPort(u: LiveUnit, d: PortDescriptor) {
    exists k :: 0 <= k < |u.ports| && Matches(u.ports[k], d)
  }

  /** Ports of one direction and kind are numbered apart: creating a second one throws. */
  ghost predicate NumberedApart(ports: seq<LivePort>) {
    forall i, j :: 0 <= i < j < |ports| ==>
      !(ports[i].id == ports[j].id && ports[i].direction == ports[j].direction && ports[i].kind == ports[j].kind)
  }

  /** The unit has the ports its type describes (among others), and no two of the same name. */
  ghost predicate Exposes(u: LiveUnit, t: UnitType) {
    && (forall k :: 0 <= k < |t.ports| ==> HasPort(u, t.ports[k]))
    && (forall i, j :: 0 <= i < j < |u.ports| ==> u.ports[i].name != u.ports[j].name)
    && NumberedApart(u.ports)
  }

  /** User code builds every unit as described, and registering it does not throw. */
  ghost predicate Faithful(spec: Spec, factory: Factory, builds: seq<Build>)
    requires |spec.units| == |builds|
  {
    forall i :: 0 <= i < |builds| ==> FaithfulAt(spec, factory, builds, i)
  }

  ghost predicate FaithfulAt(spec: Spec, factory: Factory, builds: seq<Build>, i: nat)
    requires i < |spec.units| == |builds|
  {
    && builds[i].Builds? && !builds[i].registerThrows
    && (spec.units[i].kind in factory ==> Exposes(builds[i].unit, factory[spec.units[i].kind]))
  }

  lemma {:induction false} FoundByName(ports: seq<LivePort>, k: nat)
    requires k < |ports| && forall i, j :: 0 <= i < j < |ports| ==> ports[i].name != ports[j].name
    ensures FindByName(ports, ports[k].name) == Some(ports[k])
  {
    if k > 0 {
      assert ports[1..][k - 1] == ports[k];
      FoundByName(ports[1..], k - 1);
    }
  }

  lemma {:induction false} FoundById(ports: seq<LivePort>, k: nat)
    requires k < |ports|
    ensures FindById(ports, ports[k].id, ports[k].direction, ports[k].kind).Some?
  {
    if k > 0 {
      assert ports[1..][k - 1] == ports[k];
      FoundById(ports[1..], k - 1);
    }
  }

  lemma {:induction false} FoundByIdMatches(ports: seq<LivePort>, id: int, d: Direction, kind: Kind)
    ensures var p := FindById(ports, id, d, kind);
            p.Some? ==> p.value in ports && p.value.id == id && p.value.direction == d && p.value.kind == kind
  {
    if ports != [] {
      FoundByIdMatches(ports[1..], id, d, kind);
    }
  }

  /** A described port is found on the live unit, with the attributes described. */
  lemma DescribedPortIsLive(u: LiveUnit, t: UnitType, name: string)
    requires Exposes(u, t) && FindPort(t.ports, name).Some?
    ensures FindByName(u.ports, name).Some? && Matches(FindByName(u.ports, name).value, FindPort(t.ports, name).value)
    ensures FindByName(u.ports, name).value in u.ports
  {
    FoundPort(t.ports, name);
    var d := FindPort(t.ports, name).value;
    var i :| 0 <= i < |t.ports| && t.ports[i] == d;
    assert HasPort(u, t.ports[i]);
    var k :| 0 <= k < |u.ports| && Matches(u.ports[k], d);
    FoundByName(u.ports, k);
  }

  // --------------------------------------------------------------- names lead to units

  lemma {:induction false} NameLeadsToUnit(spec: Spec, builds: seq<Build>, n: nat, i: nat)
    requires i < n <= |spec.units| == |builds| && AllBuilt(builds, n)
    requires forall a, b :: 0 <= a < b < |spec.units| ==> spec.units[a].name != spec.units[b].name
    ensures spec.units[i].name in Names(spec, builds, n)
    ensures Names(spec, builds, n)[spec.units[i].name] == builds[i].unit
  {
    if i < n - 1 {
      NameLeadsToUnit(spec, builds, n - 1, i);
    }
  }

  /** Everything that loading a valid spec with faithful units can rely on. */
  ghost predicate Setting(spec: Spec, factory: Factory, builds: seq<Build>) {
    && Parsed(spec) && ValidSpec(spec, factory) && |spec.units| == |builds|
    && AllBuilt(builds, |builds|) && Faithful(spec, factory, builds)
  }

  function AllNames(spec: Spec, builds: seq<Build>): map<string, LiveUnit>
    requires |spec.units| == |builds| && AllBuilt(builds, |builds|)
  {
    Names(spec, builds, |builds|)
  }

  /** A reference the validator resolves is resolved by the loader, to a port with the
      attributes the validator saw. */
  lemma ResolvesTheSame(spec: Spec, factory: Factory, builds: seq<Build>, ref: string) returns (i: nat)
    requires Setting(spec, factory, builds) && ResolvePort(spec, factory, ref).Some?
    ensures i < |builds| && spec.units[i].name == SplitPortRef(ref).unit
    ensures var p := ResolveLive(AllNames(spec, builds), ref);
            && p.Some? && p.value.owner == builds[i].unit.handle && p.value.port in builds[i].unit.ports
            && p.value.port.name == SplitPortRef(ref).port
            && Matches(p.value.port, ResolvePort(spec, factory, ref).value)
    ensures SplitPortRef(ref).unit in AllNames(spec, builds)
            && AllNames(spec, builds)[SplitPortRef(ref).unit] == builds[i].unit
  {
    var name := SplitPortRef(ref);
    i := NamedUnit(spec.units, name.unit);
    NameLeadsToUnit(spec, builds, |builds|, i);
    assert FaithfulAt(spec, factory, builds, i);
    var t := factory[spec.units[i].kind];
    DescribedPortIsLive(builds[i].unit, t, name.port);
    FoundPort(t.ports, name.port);
  }

  // ------------------------------------------------------------------ valid specs load

  lemma ValidConnectionConnects(spec: Spec, factory: Factory, builds: seq<Build>, c: Connection)
    requires Setting(spec, factory, builds) && ConnectionOk(spec, factory, c)
    ensures Connects(AllNames(spec, builds), c)
  {
    var i := ResolvesTheSame(spec, factory, builds, c.from);
    var j := ResolvesTheSame(spec, factory, builds, c.to);
  }

  lemma ValidPortIsAssigned(spec: Spec, factory: Factory, builds: seq<Build>, ref: string, d: Direction)
    requires Setting(spec, factory, builds) && Resolves(spec, factory, ref, d)
    ensures Assigned(AllNames(spec, builds), ref, d).Some?
  {
    var i := ResolvesTheSame(spec, factory, builds, ref);
    var p := ResolveLive(AllNames(spec, builds), ref).value.port;
    var ports := builds[i].unit.ports;
    var k :| 0 <= k < |ports| && ports[k] == p;
    FoundById(ports, k);
  }

  /** The system ports have names, and names not yet taken. */
  ghost predicate PortNamesFree(spec: Spec, s: Sys) {
    && (forall name :: name in spec.inputs ==> name != "" && name !in s.inputs)
    && (forall name :: name in spec.outputs ==> name != "" && name !in s.outputs)
  }

  lemma ValidSpecIsWireable(spec: Spec, factory: Factory, builds: seq<Build>, s: Sys)
    requires Setting(spec, factory, builds)
    ensures Wireable(spec, s, AllNames(spec, builds)) <==> PortNamesFree(spec, s)
  {
    var names := AllNames(spec, builds);
    forall i | 0 <= i < |spec.connections| ensures Connects(names, spec.connections[i]) {
      assert ConnectionOk(spec, factory, spec.connections[i]);
      ValidConnectionConnects(spec, factory, builds, spec.connections[i]);
    }
    forall name | name in spec.inputs ensures Assigned(names, spec.inputs[name], Input).Some? {
      ValidPortIsAssigned(spec, factory, builds, spec.inputs[name], Input);
    }
    forall name | name in spec.outputs ensures Assigned(names, spec.outputs[name], Output).Some? {
      ValidPortIsAssigned(spec, factory, builds, spec.outputs[name], Output);
    }
    PortsAssignable(names, s.inputs, spec.inputs, Input);
    PortsAssignable(names, s.outputs, spec.outputs, Output);
  }

  lemma PortsAssignable(names: map<string, LiveUnit>, taken: map<string, PortRef>, ports: map<string, string>, d: Direction)
    requires forall name :: name in ports ==> Assigned(names, ports[name], d).Some?
    ensures AllAssignable(names, taken, ports, ports.Keys, d) <==> forall name :: name in ports ==> name != "" && name !in taken
  {
    forall name | name in ports
      ensures Assignable(names, taken, name, ports[name], d) <==> name != "" && name !in taken
    {
    }
  }

  lemma ValidUnitsLoad(spec: Spec, factory: Factory, builds: seq<Build>, s: Sys, max: nat)
    requires Setting(spec, factory, builds)
    ensures UnitsLoad(spec, factory, builds, s, max, |builds|) <==>
              && (forall i :: 0 <= i < |spec.units| ==> spec.units[i].downSampling >= 1)
              && |s.units| + |spec.units| <= max
  {
    forall i | 0 <= i < |builds|
      ensures UnitLoads(spec, factory, builds, s, max, i) <==> spec.units[i].downSampling >= 1 && |s.units| + i < max
    {
      assert UnitOk(factory, spec.units[i]) && FaithfulAt(spec, factory, builds, i);
    }
    if UnitsLoad(spec, factory, builds, s, max, |builds|) {
      assert UnitLoads(spec, factory, builds, s, max, |builds| - 1);
      forall i | 0 <= i < |spec.units| ensures spec.units[i].downSampling >= 1 {
        assert UnitLoads(spec, factory, builds, s, max, i);
      }
    }
  }

  /** A parsed spec that validates loads - no parameter check, resolution, connection or
      assignment can fail - exactly if it asks for no mission pipelines, the cast left every
      down-sampling factor positive, there is room for its units, its adapters were injected,
      and its system ports have names that are not empty and not taken. */
  lemma ValidSpecLoads(spec: Spec, factory: Factory, builds: seq<Build>, injected: set<string>, s: Sys, max: nat)
    requires Setting(spec, factory, builds)
    ensures Loadable(spec, factory, builds, injected, s, max) <==>
              && spec.pipelines == 0
              && (forall i :: 0 <= i < |spec.units| ==> spec.units[i].downSampling >= 1)
              && |s.units| + |spec.units| <= max
              && AdaptersInjected(spec, injected)
              && PortNamesFree(spec, s)
  {
    ValidUnitsLoad(spec, factory, builds, s, max);
    ValidSpecIsWireable(spec, factory, builds, s);
  }

  /** Which positive factors of a document survive the cast: the parser accepts every one. */
  lemma FactorSurvivesCast(n: int)
    requires n >= 1
    ensures ToInt32(n) >= 1 <==> 1 <= n % 0x1_0000_0000 <= 0x7FFF_FFFF
    ensures 1 <= n <= 0x7FFF_FFFF ==> ToInt32(n) == n
    ensures ToInt32(0x1_0000_0000) < 1
  {
  }

  // ------------------------------------------------------- one source for every input

  /** A system port is assigned by number after being found by name. It ends at the port found
      exactly if that is a sync port, or no sync port of its direction has the same number. */
  lemma AssignedByNumber(ports: seq<LivePort>, p: LivePort)
    requires p in ports && NumberedApart(ports)
    ensures FindAssigned(ports, p.id, p.direction) == Some(p) <==>
              p.kind == Sync || forall q :: q in ports && q.kind == Sync && q.direction == p.direction ==> q.id != p.id
  {
    var k :| 0 <= k < |ports| && ports[k] == p;
    FoundById(ports, k);
    FoundByIdMatches(ports, p.id, p.direction, Sync);
    FoundByIdMatches(ports, p.id, p.direction, Async);
    forall q | q in ports && q.kind == Sync && q.direction == p.direction && q.id == p.id
      ensures FindById(ports, p.id, p.direction, Sync).Some?
    {
      var j :| 0 <= j < |ports| && ports[j] == q;
      FoundById(ports, j);
    }
  }

  /** The sync input of a unit that has the number of one of its async inputs. */
  predicate Shadows(q: LivePort, p: LivePort) {
    q.direction == p.direction == Input && q.kind == Sync && p.kind == Async && q.id == p.id
  }

  /** The reference names an async input, and a sync input of its unit has the same number. */
  ghost predicate Shadowed(names: map<string, LiveUnit>, ref: string) {
    ResolveLive(names, ref).Some? &&
    exists q :: q in names[SplitPortRef(ref).unit].ports && Shadows(q, ResolveLive(names, ref).value.port)
  }

  /** A system input ends at the port its reference names, unless that is shadowed: then it ends
      at the sync input that shadows it. */
  lemma AssignedUnlessShadowed(spec: Spec, factory: Factory, builds: seq<Build>, ref: string)
    requires Setting(spec, factory, builds) && Resolves(spec, factory, ref, Input)
    ensures var names := AllNames(spec, builds);
            var p, q := ResolveLive(names, ref), Assigned(names, ref, Input);
            && p.Some? && p.value.port.direction == Input && q.Some? && q.value.owner == p.value.owner
            && (q == p <==> !Shadowed(names, ref))
            && (Shadowed(names, ref) ==> Shadows(q.value.port, p.value.port))
  {
    var i := ResolvesTheSame(spec, factory, builds, ref);
    assert FaithfulAt(spec, factory, builds, i) && UnitOk(factory, spec.units[i]);
    var ports, p := builds[i].unit.ports, ResolveLive(AllNames(spec, builds), ref).value.port;
    AssignedByNumber(ports, p);
    FoundByIdMatches(ports, p.id, Input, Sync);
    FoundByIdMatches(ports, p.id, Input, Async);
    var k :| 0 <= k < |ports| && ports[k] == p;
    FoundById(ports, k);
    forall q | q in ports && Shadows(q, p) ensures FindById(ports, p.id, Input, Sync).Some? {
      var j :| 0 <= j < |ports| && ports[j] == q;
      FoundById(ports, j);
    }
  }

  /** Different references lead to different live ports. */
  lemma LiveRefsDiffer(spec: Spec, factory: Factory, builds: seq<Build>, s: Sys, r: string, t: string)
    requires Setting(spec, factory, builds) && FreshHandles(builds, s)
    requires IsValidPortRef(r) && IsValidPortRef(t)
    requires ResolvePort(spec, factory, r).Some? && ResolvePort(spec, factory, t).Some?
    requires ResolveLive(AllNames(spec, builds), r) == ResolveLive(AllNames(spec, builds), t)
    ensures r == t
  {
    var i := ResolvesTheSame(spec, factory, builds, r);
    var j := ResolvesTheSame(spec, factory, builds, t);
    assert HasHandle(builds, i) && HasHandle(builds, j);
    ValidRefsAreDistinct(r, t);
  }

  /** A port has at most one source: one new connection or one system input. */
  ghost predicate AtMostOneSource(wires: set<Wire>, inputs: map<string, PortRef>, p: PortRef) {
    && (forall v, w :: v in wires && w in wires && v.to == p && w.to == p ==> v == w)
    && (forall a, b :: a in inputs && b in inputs && inputs[a] == p && inputs[b] == p ==> a == b)
    && (forall w, a :: w in wires && a in inputs && w.to == p ==> inputs[a] != p)
  }

  ghost predicate HasSource(wires: set<Wire>, inputs: map<string, PortRef>, p: PortRef) {
    (exists w :: w in wires && w.to == p) || (exists a :: a in inputs && inputs[a] == p)
  }

  lemma WireHasIndex(spec: Spec, names: map<string, LiveUnit>, w: Wire) returns (i: nat)
    requires w in Wires(spec, names, |spec.connections|)
    ensures i < |spec.connections| && Connects(names, spec.connections[i]) && w == WireOf(names, spec.connections[i])
  {
    i :| 0 <= i < |spec.connections| && Connects(names, spec.connections[i]) && w == WireOf(names, spec.connections[i]);
  }

  /** The connection a wire comes of, and the reference that leads to its end. */
  lemma WireHasRef(spec: Spec, factory: Factory, builds: seq<Build>, w: Wire) returns (i: nat)
    requires Setting(spec, factory, builds) && w in Wires(spec, AllNames(spec, builds), |spec.connections|)
    ensures i < |spec.connections| && Connects(AllNames(spec, builds), spec.connections[i])
            && w == WireOf(AllNames(spec, builds), spec.connections[i])
    ensures var ref := spec.connections[i].to;
            IsValidPortRef(ref) && ResolvePort(spec, factory, ref).Some? && ResolveLive(AllNames(spec, builds), ref) == Some(w.to)
  {
    i := WireHasIndex(spec, AllNames(spec, builds), w);
    assert ConnectionOk(spec, factory, spec.connections[i]);
  }

  /** Two connections into one port are one connection. */
  lemma OneWire(spec: Spec, factory: Factory, builds: seq<Build>, s: Sys, v: Wire, w: Wire)
    requires Setting(spec, factory, builds) && FreshHandles(builds, s)
    requires v in Wires(spec, AllNames(spec, builds), |spec.connections|)
    requires w in Wires(spec, AllNames(spec, builds), |spec.connections|) && v.to == w.to
    ensures v == w
  {
    var i := WireHasRef(spec, factory, builds, v);
    var j := WireHasRef(spec, factory, builds, w);
    LiveRefsDiffer(spec, factory, builds, s, spec.connections[i].to, spec.connections[j].to);
    assert InputsWiredOnce(spec);
  }

  /** System input a is shadowed, and the sync input it ends at is wired by another reference. */
  ghost predicate Collides(spec: Spec, names: map<string, LiveUnit>, a: string) {
    a in spec.inputs && Shadowed(names, spec.inputs[a]) &&
    exists ref :: Wired(spec, ref) && ResolveLive(names, ref) == Assigned(names, spec.inputs[a], Input)
  }

  function NewWires(spec: Spec, builds: seq<Build>): set<Wire>
    requires |spec.units| == |builds| && AllBuilt(builds, |builds|)
  {
    Wires(spec, AllNames(spec, builds), |spec.connections|)
  }

  function NewInputs(spec: Spec, builds: seq<Build>): map<string, PortRef>
    requires |spec.units| == |builds| && AllBuilt(builds, |builds|)
  {
    Assignments(AllNames(spec, builds), spec.inputs, spec.inputs.Keys, Input)
  }

  lemma ConnectionWired(spec: Spec, i: nat)
    requires i < |spec.connections|
    ensures Wired(spec, spec.connections[i].to)
  {
  }

  lemma InputWired(spec: Spec, a: string)
    requires a in spec.inputs
    ensures Wired(spec, spec.inputs[a])
  {
  }

  /** Two shadowed async inputs that end at one sync input are the same. */
  lemma ShadowedApart(spec: Spec, factory: Factory, builds: seq<Build>, s: Sys, r: string, t: string)
    requires Setting(spec, factory, builds) && FreshHandles(builds, s)
    requires IsValidPortRef(r) && IsValidPortRef(t)
    requires Resolves(spec, factory, r, Input) && Resolves(spec, factory, t, Input)
    requires Shadowed(AllNames(spec, builds), r) && Shadowed(AllNames(spec, builds), t)
    requires Assigned(AllNames(spec, builds), r, Input) == Assigned(AllNames(spec, builds), t, Input)
    ensures r == t
  {
    AssignedUnlessShadowed(spec, factory, builds, r);
    AssignedUnlessShadowed(spec, factory, builds, t);
    var i := ResolvesTheSame(spec, factory, builds, r);
    var j := ResolvesTheSame(spec, factory, builds, t);
    assert HasHandle(builds, i) && HasHandle(builds, j);
    assert FaithfulAt(spec, factory, builds, i) && UnitOk(factory, spec.units[i]);
    LiveRefsDiffer(spec, factory, builds, s, r, t);
  }

  /** Two system inputs that end at one port are one, unless they collide. */
  lemma OneInput(spec: Spec, factory: Factory, builds: seq<Build>, s: Sys, a: string, b: string)
    requires Setting(spec, factory, builds) && FreshHandles(builds, s) && a in spec.inputs && b in spec.inputs
    requires Assigned(AllNames(spec, builds), spec.inputs[a], Input) == Assigned(AllNames(spec, builds), spec.inputs[b], Input)
    requires !Collides(spec, AllNames(spec, builds), a) && !Collides(spec, AllNames(spec, builds), b)
    ensures a == b
  {
    var names, ra, rb := AllNames(spec, builds), spec.inputs[a], spec.inputs[b];
    AssignedUnlessShadowed(spec, factory, builds, ra);
    AssignedUnlessShadowed(spec, factory, builds, rb);
    InputWired(spec, a);
    InputWired(spec, b);
    if Shadowed(names, ra) {
      ShadowedApart(spec, factory, builds, s, ra, rb);
    } else {
      LiveRefsDiffer(spec, factory, builds, s, ra, rb);
    }
  }

  /** A connection and a system input do not end at one port, unless they collide. */
  lemma WireOrInput(spec: Spec, factory: Factory, builds: seq<Build>, s: Sys, w: Wire, a: string)
    requires Setting(spec, factory, builds) && FreshHandles(builds, s)
    requires w in NewWires(spec, builds) && a in spec.inputs && !Collides(spec, AllNames(spec, builds), a)
    ensures Assigned(AllNames(spec, builds), spec.inputs[a], Input) != Some(w.to)
  {
    var names := AllNames(spec, builds);
    var i := WireHasIndex(spec, names, w);
    assert ConnectionOk(spec, factory, spec.connections[i]);
    ConnectionWired(spec, i);
    AssignedUnlessShadowed(spec, factory, builds, spec.inputs[a]);
    if Assigned(names, spec.inputs[a], Input) == Some(w.to) && !Shadowed(names, spec.inputs[a]) {
      LiveRefsDiffer(spec, factory, builds, s, spec.connections[i].to, spec.inputs[a]);
    }
  }

  /** A collision gives the sync input two sources. */
  lemma CollisionGivesTwo(spec: Spec, factory: Factory, builds: seq<Build>, a: string)
    requires Setting(spec, factory, builds) && Collides(spec, AllNames(spec, builds), a)
    ensures exists p :: !AtMostOneSource(NewWires(spec, builds), NewInputs(spec, builds), p)
  {
    var names := AllNames(spec, builds);
    AssignedUnlessShadowed(spec, factory, builds, spec.inputs[a]);
    var p := Assigned(names, spec.inputs[a], Input).value;
    var ref :| Wired(spec, ref) && ResolveLive(names, ref) == Some(p);
    assert a in NewInputs(spec, builds) && NewInputs(spec, builds)[a] == p;
    if i :| 0 <= i < |spec.connections| && spec.connections[i].to == ref {
      assert ConnectionOk(spec, factory, spec.connections[i]);
      ValidConnectionConnects(spec, factory, builds, spec.connections[i]);
      var w := WireOf(names, spec.connections[i]);
      assert w in NewWires(spec, builds) && w.to == p;
    } else {
      var b :| b in spec.inputs && spec.inputs[b] == ref;
      AssignedUnlessShadowed(spec, factory, builds, ref);
      assert b in NewInputs(spec, builds) && NewInputs(spec, builds)[b] == p && a != b;
    }
    assert !AtMostOneSource(NewWires(spec, builds), NewInputs(spec, builds), p);
  }

  /** No live input gets two sources from a valid spec, if and only if no system input that
      names an async input is diverted, by its number, to a sync input that is wired as well. */
  lemma NoInputGetsTwo(spec: Spec, factory: Factory, builds: seq<Build>, s: Sys)
    requires Setting(spec, factory, builds) && FreshHandles(builds, s)
    ensures (forall p :: AtMostOneSource(NewWires(spec, builds), NewInputs(spec, builds), p))
            <==> forall a :: a in spec.inputs ==> !Collides(spec, AllNames(spec, builds), a)
  {
    if a :| a in spec.inputs && Collides(spec, AllNames(spec, builds), a) {
      CollisionGivesTwo(spec, factory, builds, a);
    } else {
      forall p ensures AtMostOneSource(NewWires(spec, builds), NewInputs(spec, builds), p) {
        AtMostOneUnlessCollision(spec, factory, builds, s, p);
      }
    }
  }

  lemma AtMostOneUnlessCollision(spec: Spec, factory: Factory, builds: seq<Build>, s: Sys, p: PortRef)
    requires Setting(spec, factory, builds) && FreshHandles(builds, s)
    requires forall a :: a in spec.inputs ==> !Collides(spec, AllNames(spec, builds), a)
    ensures AtMostOneSource(NewWires(spec, builds), NewInputs(spec, builds), p)
  {
    var wires, inputs := NewWires(spec, builds), NewInputs(spec, builds);
    forall v, w | v in wires && w in wires && v.to == p && w.to == p ensures v == w {
      OneWire(spec, factory, builds, s, v, w);
    }
    forall a, b | a in inputs && b in inputs && inputs[a] == p && inputs[b] == p ensures a == b {
      OneInput(spec, factory, builds, s, a, b);
    }
    forall w, a | w in wires && a in inputs && w.to == p ensures inputs[a] != p {
      WireOrInput(spec, factory, builds, s, w, a);
    }
  }

  ghost predicate ByConnection(spec: Spec, ref: string) {
    exists i :: 0 <= i < |spec.connections| && spec.connections[i].to == ref
  }

  /** A wired reference gives the port it names a source, unless it is wired as a system input
      only, and shadowed. */
  lemma WiredMeansSource(spec: Spec, factory: Factory, builds: seq<Build>, ref: string)
    requires Setting(spec, factory, builds) && Wired(spec, ref) && Resolves(spec, factory, ref, Input)
    requires ByConnection(spec, ref) || !Shadowed(AllNames(spec, builds), ref)
    ensures ResolveLive(AllNames(spec, builds), ref).Some?
    ensures HasSource(NewWires(spec, builds), NewInputs(spec, builds), ResolveLive(AllNames(spec, builds), ref).value)
  {
    var names := AllNames(spec, builds);
    AssignedUnlessShadowed(spec, factory, builds, ref);
    var p := ResolveLive(names, ref).value;
    if i :| 0 <= i < |spec.connections| && spec.connections[i].to == ref {
      assert ConnectionOk(spec, factory, spec.connections[i]);
      ValidConnectionConnects(spec, factory, builds, spec.connections[i]);
      var w := WireOf(names, spec.connections[i]);
      assert w in NewWires(spec, builds) && w.to == p;
    } else {
      var a :| a in spec.inputs && spec.inputs[a] == ref;
      assert a in NewInputs(spec, builds) && NewInputs(spec, builds)[a] == p;
    }
  }

  /** The other way round: a source of the port a reference names is that reference's own. */
  lemma SourceMeansWired(spec: Spec, factory: Factory, builds: seq<Build>, s: Sys, ref: string)
    requires Setting(spec, factory, builds) && FreshHandles(builds, s)
    requires IsValidPortRef(ref) && Resolves(spec, factory, ref, Input)
    requires ResolveLive(AllNames(spec, builds), ref).Some?
    requires HasSource(NewWires(spec, builds), NewInputs(spec, builds), ResolveLive(AllNames(spec, builds), ref).value)
    ensures ByConnection(spec, ref) || !Shadowed(AllNames(spec, builds), ref)
  {
    var names := AllNames(spec, builds);
    AssignedUnlessShadowed(spec, factory, builds, ref);
    var p := ResolveLive(names, ref).value;
    if w :| w in NewWires(spec, builds) && w.to == p {
      var i := WireHasIndex(spec, names, w);
      assert ConnectionOk(spec, factory, spec.connections[i]);
      LiveRefsDiffer(spec, factory, builds, s, spec.connections[i].to, ref);
    } else {
      var a :| a in NewInputs(spec, builds) && NewInputs(spec, builds)[a] == p;
      AssignedUnlessShadowed(spec, factory, builds, spec.inputs[a]);
      if !Shadowed(names, spec.inputs[a]) {
        LiveRefsDiffer(spec, factory, builds, s, spec.inputs[a], ref);
      }
    }
  }

  lemma WiredRefIsValid(spec: Spec, ref: string)
    requires Parsed(spec) && Wired(spec, ref)
    ensures IsValidPortRef(ref)
  {
  }

  /** Every required input of every unit gets a source, if and only if it is wired by a
      connection or not shadowed; and if no system input is shadowed, exactly one. */
  lemma RequiredInputGetsOne(spec: Spec, factory: Factory, builds: seq<Build>, s: Sys, i: nat, k: nat) returns (p: PortRef)
    requires Setting(spec, factory, builds) && FreshHandles(builds, s)
    requires i < |spec.units| && k < |factory[spec.units[i].kind].ports|
    requires factory[spec.units[i].kind].ports[k].direction == Input && factory[spec.units[i].kind].ports[k].required
    ensures p.owner == builds[i].unit.handle && p.port in builds[i].unit.ports
            && p.port.name == factory[spec.units[i].kind].ports[k].name
    ensures var ref := JoinPortRef(spec.units[i].name, factory[spec.units[i].kind].ports[k].name);
            HasSource(NewWires(spec, builds), NewInputs(spec, builds), p)
            <==> ByConnection(spec, ref) || !Shadowed(AllNames(spec, builds), ref)
    ensures (forall a :: a in spec.inputs ==> !Shadowed(AllNames(spec, builds), spec.inputs[a])) ==>
              && HasSource(NewWires(spec, builds), NewInputs(spec, builds), p)
              && AtMostOneSource(NewWires(spec, builds), NewInputs(spec, builds), p)
  {
    var d := factory[spec.units[i].kind].ports[k];
    var ref := JoinPortRef(spec.units[i].name, d.name);
    p := RequiredInputIsLive(spec, factory, builds, i, k);
    if ByConnection(spec, ref) || !Shadowed(AllNames(spec, builds), ref) {
      WiredMeansSource(spec, factory, builds, ref);
    } else if HasSource(NewWires(spec, builds), NewInputs(spec, builds), p) {
      SourceMeansWired(spec, factory, builds, s, ref);
    }
    if forall a :: a in spec.inputs ==> !Shadowed(AllNames(spec, builds), spec.inputs[a]) {
      AtMostOneUnlessCollision(spec, factory, builds, s, p);
    }
  }

  /** A required input is wired, by a reference the validator resolves to an input of its name. */
  lemma RequiredInputIsWired(spec: Spec, factory: Factory, builds: seq<Build>, i: nat, k: nat)
    requires Setting(spec, factory, builds)
    requires i < |spec.units| && k < |factory[spec.units[i].kind].ports|
    requires factory[spec.units[i].kind].ports[k].direction == Input && factory[spec.units[i].kind].ports[k].required
    ensures var name := factory[spec.units[i].kind].ports[k].name;
            var ref := JoinPortRef(spec.units[i].name, name);
            && Wired(spec, ref) && IsValidPortRef(ref) && Resolves(spec, factory, ref, Input)
            && SplitPortRef(ref) == PortName(spec.units[i].name, name)
  {
    var d := factory[spec.units[i].kind].ports[k];
    var ref := JoinPortRef(spec.units[i].name, d.name);
    assert RequiredInputsWired(spec, factory, spec.units[i]);
    assert Wired(spec, ref);
    WiredRefIsValid(spec, ref);
    JoinedRefSplits(spec.units[i].name, d.name);
    WiredResolves(spec, factory, ref);
  }

  lemma WiredResolves(spec: Spec, factory: Factory, ref: string)
    requires ValidSpec(spec, factory) && Wired(spec, ref)
    ensures Resolves(spec, factory, ref, Input)
  {
    if i :| 0 <= i < |spec.connections| && spec.connections[i].to == ref {
      assert ConnectionOk(spec, factory, spec.connections[i]);
    }
  }

  /** The live port of a required input. */
  lemma RequiredInputIsLive(spec: Spec, factory: Factory, builds: seq<Build>, i: nat, k: nat) returns (p: PortRef)
    requires Setting(spec, factory, builds)
    requires i < |spec.units| && k < |factory[spec.units[i].kind].ports|
    requires factory[spec.units[i].kind].ports[k].direction == Input && factory[spec.units[i].kind].ports[k].required
    ensures var ref := JoinPortRef(spec.units[i].name, factory[spec.units[i].kind].ports[k].name);
            && Wired(spec, ref) && IsValidPortRef(ref) && Resolves(spec, factory, ref, Input)
            && ResolveLive(AllNames(spec, builds), ref) == Some(p)
    ensures p.owner == builds[i].unit.handle && p.port in builds[i].unit.ports
            && p.port.name == factory[spec.units[i].kind].ports[k].name
  {
    var ref := JoinPortRef(spec.units[i].name, factory[spec.units[i].kind].ports[k].name);
    RequiredInputIsWired(spec, factory, builds, i, k);
    var j := ResolvesTheSame(spec, factory, builds, ref);
    assert j == i;
    p := ResolveLive(AllNames(spec, builds), ref).value;
  }

  // ------------------------------------------------------------- failures leave nothing

  /** A load that throws takes nothing back: it leaves the system as it was only if the very
      first unit threw. */
  lemma {:induction false} ThrowLeavesUnits(s: Sys, builds: seq<Build>, i: nat)
    requires i <= |builds| && AllBuilt(builds, i)
    ensures WithUnits(s, builds, i).active == s.active + i
    ensures WithUnits(s, builds, i) == s <==> i == 0
  {
    if i > 0 {
      ThrowLeavesUnits(s, builds, i - 1);
    }
  }
}
