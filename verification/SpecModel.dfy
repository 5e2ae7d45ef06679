/** A parsed system spec, its references, and what makes it valid - without any unit built. */
module SpecModel {
  import opened Json
  import opened UnitParams
  import opened Wrappers

  datatype Direction = Input | Output
  datatype Kind = Sync | Async

  datatype PortDescriptor = PortDescriptor(
    index: int, name: string, direction: Direction, kind: Kind, dataType: string, required: bool)

  datatype UnitType = UnitType(ports: seq<PortDescriptor>, parameters: seq<ParamDescriptor>)

  /** The unit types the factory knows. */
  type Factory = map<string, UnitType>

  /** A 64-bit integer cast to 32 bits. */
  function ToInt32(n: int): int {
    var low := n % 0x1_0000_0000;
    if low < 0x8000_0000 then low else low - 0x1_0000_0000
  }

  /** What the parser makes of a down-sampling factor: a positive 64-bit integer of the document,
      cast to 32 bits. */
  ghost predicate IsParsedFactor(factor: int) {
    exists n :: 1 <= n <= 0x7FFF_FFFF_FFFF_FFFF && factor == ToInt32(n)
  }

  datatype SpecUnit = SpecUnit(name: string, kind: string, params: Json, downSampling: int)
  datatype Connection = Connection(from: string, to: string)

  datatype Spec = Spec(
    units: seq<SpecUnit>, connections: seq<Connection>,
    inputs: map<string, string>, outputs: map<string, string>,   // system port name -> "unit.port"
    adapters: seq<string>, pipelines: nat)

  // ------------------------------------------------------------------- references

  /** The first dot at or after a position, or the length. */
  function FindDot(s: string, from: nat): (i: nat)
    requires from <= |s|
    ensures from <= i <= |s| && (i < |s| ==> s[i] == '.')
    ensures forall j :: from <= j < i ==> s[j] != '.'
    decreases |s| - from
  {
    if from == |s| || s[from] == '.' then from else FindDot(s, from + 1)
  }

  /** "unit.port": exactly one dot, with text on both sides. */
  predicate IsValidPortRef(s: string) {
    var dot := FindDot(s, 0);
    0 < dot < |s| - 1 && FindDot(s, dot + 1) == |s|
  }

  datatype PortName = PortName(unit: string, port: string)

  /** Without a dot, both halves are the whole text. */
  function SplitPortRef(s: string): PortName {
    var dot := FindDot(s, 0);
    if dot == |s| then PortName(s, s) else PortName(s[..dot], s[dot + 1..])
  }

  function JoinPortRef(unit: string, port: string): string {
    unit + "." + port
  }

  lemma ValidRefJoins(s: string)
    requires IsValidPortRef(s)
    ensures JoinPortRef(SplitPortRef(s).unit, SplitPortRef(s).port) == s
  {
    var dot := FindDot(s, 0);
    assert s == s[..dot] + [s[dot]] + s[dot + 1..];
  }

  lemma JoinedRefSplits(unit: string, port: string)
    requires IsValidPortRef(JoinPortRef(unit, port))
    ensures SplitPortRef(JoinPortRef(unit, port)) == PortName(unit, port)
  {
    var s := JoinPortRef(unit, port);
    assert s[|unit|] == '.';
    var dot := FindDot(s, 0);
    assert s[..dot] == unit && s[dot + 1..] == port;
  }

  /** Different valid references name different ports. */
  lemma ValidRefsAreDistinct(s: string, t: string)
    requires IsValidPortRef(s) && IsValidPortRef(t) && SplitPortRef(s) == SplitPortRef(t)
    ensures s == t
  {
    ValidRefJoins(s);
    ValidRefJoins(t);
  }

  // ------------------------------------------------------------------------ parsing

  /** What a spec that came out of the parser satisfies. */
  ghost predicate Parsed(spec: Spec) {
    && |spec.units| > 0
    && (forall i, j :: 0 <= i < j < |spec.units| ==> spec.units[i].name != spec.units[j].name)
    && (forall i :: 0 <= i < |spec.units| ==> spec.units[i].name != "")
    && (forall i :: 0 <= i < |spec.units| ==> IsParsedFactor(spec.units[i].downSampling))
    && (forall i :: 0 <= i < |spec.connections| ==>
          IsValidPortRef(spec.connections[i].from) && IsValidPortRef(spec.connections[i].to))
    && (forall name :: name in spec.inputs ==> IsValidPortRef(spec.inputs[name]))
    && (forall name :: name in spec.outputs ==> IsValidPortRef(spec.outputs[name]))
  }

  // --------------------------------------------------------------------- validation

  /** The types of the units by name; a later unit of the same name replaces an earlier one. */
  function TypesByName(units: seq<SpecUnit>): map<string, string> {
    if units == [] then map[]
    else TypesByName(units[..|units| - 1])[units[|units| - 1].name := units[|units| - 1].kind]
  }

  function FindPort(ports: seq<PortDescriptor>, name: string): Option<PortDescriptor> {
    if ports == [] then None else if ports[0].name == name then Some(ports[0]) else FindPort(ports[1..], name)
  }

  function ResolvePort(spec: Spec, factory: Factory, ref: string): Option<PortDescriptor> {
    var name, types := SplitPortRef(ref), TypesByName(spec.units);
    if name.unit in types && types[name.unit] in factory
    then FindPort(factory[types[name.unit]].ports, name.port)
    else None
  }

  predicate Resolves(spec: Spec, factory: Factory, ref: string, direction: Direction) {
    var p := ResolvePort(spec, factory, ref);
    p.Some? && p.value.direction == direction
  }

  predicate ConnectionOk(spec: Spec, factory: Factory, c: Connection) {
    && Resolves(spec, factory, c.from, Output) && Resolves(spec, factory, c.to, Input)
    && var from, to := ResolvePort(spec, factory, c.from).value, ResolvePort(spec, factory, c.to).value;
       from.kind == to.kind && from.dataType == to.dataType
  }

  ghost predicate UnitOk(factory: Factory, u: SpecUnit) {
    u.kind in factory && ParamsOk(factory[u.kind].parameters, u.params)
  }

  /** Whether some connection or system input is wired to a reference. */
  ghost predicate Wired(spec: Spec, ref: string) {
    || (exists i :: 0 <= i < |spec.connections| && spec.connections[i].to == ref)
    || (exists name :: name in spec.inputs && spec.inputs[name] == ref)
  }

  ghost predicate RequiredInputsWired(spec: Spec, factory: Factory, u: SpecUnit)
    requires u.kind in factory
  {
    forall k :: 0 <= k < |factory[u.kind].ports| ==>
      var p := factory[u.kind].ports[k];
      p.direction == Input && p.required ==> Wired(spec, JoinPortRef(u.name, p.name))
  }

  predicate SchemeEndsAt(uri: string, i: nat) {
    i + 3 <= |uri| && uri[i..i + 3] == "://"
  }

  ghost predicate HasScheme(uri: string) {
    exists i :: SchemeEndsAt(uri, i)
  }

  /** No input is wired twice, by connections or system inputs. */
  ghost predicate InputsWiredOnce(spec: Spec) {
    && (forall i, j :: 0 <= i < j < |spec.connections| ==> spec.connections[i].to != spec.connections[j].to)
    && (forall i, name :: 0 <= i < |spec.connections| && name in spec.inputs ==>
          spec.connections[i].to != spec.inputs[name])
    && (forall a, b :: a in spec.inputs && b in spec.inputs && a != b ==> spec.inputs[a] != spec.inputs[b])
  }

  ghost predicate ValidSpec(spec: Spec, factory: Factory) {
    && (forall i :: 0 <= i < |spec.units| ==> UnitOk(factory, spec.units[i]))
    && (forall i :: 0 <= i < |spec.connections| ==> ConnectionOk(spec, factory, spec.connections[i]))
    && (forall name :: name in spec.inputs ==> Resolves(spec, factory, spec.inputs[name], Input))
    && (forall name :: name in spec.outputs ==> Resolves(spec, factory, spec.outputs[name], Output))
    && InputsWiredOnce(spec)
    && (forall i :: 0 <= i < |spec.units| ==> RequiredInputsWired(spec, factory, spec.units[i]))
    && (forall i :: 0 <= i < |spec.adapters| ==> HasScheme(spec.adapters[i]))
  }

  /** The name table of distinct units leads to each of them. */
  lemma {:induction false} TypesByNameFinds(units: seq<SpecUnit>, i: nat)
    requires forall a, b :: 0 <= a < b < |units| ==> units[a].name != units[b].name
    requires i < |units|
    ensures units[i].name in TypesByName(units) && TypesByName(units)[units[i].name] == units[i].kind
  {
    if i < |units| - 1 {
      TypesByNameFinds(units[..|units| - 1], i);
    }
  }

  lemma {:induction false} NamedUnit(units: seq<SpecUnit>, name: string) returns (i: nat)
    requires name in TypesByName(units)
    ensures i < |units| && units[i].name == name && units[i].kind == TypesByName(units)[name]
  {
    var n := |units| - 1;
    i := n;
    if units[n].name != name {
      i := NamedUnit(units[..n], name);
    }
  }

  lemma {:induction false} FoundPort(ports: seq<PortDescriptor>, name: string)
    ensures FindPort(ports, name).Some? <==> exists k :: 0 <= k < |ports| && ports[k].name == name
    ensures FindPort(ports, name).Some? ==> FindPort(ports, name).value in ports && FindPort(ports, name).value.name == name
  {
    if ports != [] {
      FoundPort(ports[1..], name);
      if ports[0].name != name {
        forall k | 0 <= k < |ports| && ports[k].name == name
          ensures FindPort(ports, name).Some?
        {
          assert ports[1..][k - 1].name == name;
        }
        if FindPort(ports[1..], name).Some? {
          var k :| 0 <= k < |ports[1..]| && ports[1..][k].name == name;
          assert ports[k + 1].name == name;
        }
      }
    }
  }
}
