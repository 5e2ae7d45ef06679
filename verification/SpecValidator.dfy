/** Static validation of a parsed spec: every section in one pass, all errors collected. */
module SpecValidator {
  import opened UnitParams
  import opened SpecModel
  import opened Wrappers

  datatype Path = UnitAt(i: nat) | ConnectionAt(i: nat) | InputAt(name: string) | OutputAt(name: string) | AdapterAt(i: nat)

  datatype ErrorCode =
    | UNKNOWN_UNIT_TYPE | UNKNOWN_KEY | PARAM_CONSTRAINT | BAD_REFERENCE | KIND_MISMATCH
    | PORT_TYPE_MISMATCH | DUP_INPUT_WIRE | REQUIRED_INPUT_UNWIRED

  datatype SpecError = SpecError(path: Path, code: ErrorCode)

  ghost predicate TypesKnown(spec: Spec, factory: Factory) {
    forall name :: name in TypesByName(spec.units) ==> TypesByName(spec.units)[name] in factory
  }

  function ParamError(path: Path, issue: Issue): SpecError {
    SpecError(path, if issue.code == UnknownKey then UNKNOWN_KEY else PARAM_CONSTRAINT)
  }

  // What each section of the spec must satisfy, besides connections and inputs.

  ghost predicate UnitsOk(spec: Spec, factory: Factory) {
    forall i :: 0 <= i < |spec.units| ==> UnitOk(factory, spec.units[i])
  }

  ghost predicate OutputsOk(spec: Spec, factory: Factory) {
    forall name :: name in spec.outputs ==> Resolves(spec, factory, spec.outputs[name], Output)
  }

  ghost predicate RequiredOk(spec: Spec, factory: Factory) {
    forall i :: 0 <= i < |spec.units| ==>
      spec.units[i].kind in factory && RequiredInputsWired(spec, factory, spec.units[i])
  }

  ghost predicate AdaptersOk(spec: Spec) {
    forall i :: 0 <= i < |spec.adapters| ==> HasScheme(spec.adapters[i])
  }

  method ValidateUnits(spec: Spec, factory: Factory) returns (errors: seq<SpecError>)
    ensures errors == [] <==> UnitsOk(spec, factory)
  {
    errors := [];
    var i := 0;
    while i < |spec.units|
      invariant 0 <= i <= |spec.units|
      invariant errors == [] <==> forall k :: 0 <= k < i ==> UnitOk(factory, spec.units[k])
    {
      var u := spec.units[i];
      if u.kind !in factory {
        errors := errors + [SpecError(UnitAt(i), UNKNOWN_UNIT_TYPE)];
      } else {
        var issues := ValidateParams(factory[u.kind].parameters, u.params);
        errors := errors + seq(|issues|, k requires 0 <= k < |issues| => ParamError(UnitAt(i), issues[k]));
      }
      i := i + 1;
    }
  }

  /** Resolves a reference to a port of the given direction; an unknown unit type is not
      reported again. */
  method ResolveAs(spec: Spec, factory: Factory, ref: string, direction: Direction, path: Path)
    returns (port: Option<PortDescriptor>, errors: seq<SpecError>)
    ensures port == if Resolves(spec, factory, ref, direction) then ResolvePort(spec, factory, ref) else None
    ensures TypesKnown(spec, factory) ==> (errors == [] <==> port.Some?)
    ensures port.Some? ==> errors == []
  {
    var name, types := SplitPortRef(ref), TypesByName(spec.units);
    port, errors := ResolvePort(spec, factory, ref), [];
    if name.unit in types && types[name.unit] !in factory {
      return;
    }
    if port.None? || port.value.direction != direction {
      port, errors := None, [SpecError(path, BAD_REFERENCE)];
    }
  }

  ghost predicate TosDistinct(spec: Spec, n: nat)
    requires n <= |spec.connections|
  {
    forall i, j :: 0 <= i < j < n ==> spec.connections[i].to != spec.connections[j].to
  }

  ghost predicate ConnectionsOk(spec: Spec, factory: Factory, n: nat)
    requires n <= |spec.connections|
  {
    (forall i :: 0 <= i < n ==> ConnectionOk(spec, factory, spec.connections[i])) && TosDistinct(spec, n)
  }

  /** `wired` are the targets of the connections found in order. */
  ghost predicate WiredByConnections(spec: Spec, n: nat, wired: set<string>)
    requires n <= |spec.connections|
  {
    && (forall i :: 0 <= i < n ==> spec.connections[i].to in wired)
    && (forall ref :: ref in wired ==> exists i :: 0 <= i < n && spec.connections[i].to == ref)
  }

  method ValidateConnection(spec: Spec, factory: Factory, i: nat, wired: set<string>)
    returns (errors: seq<SpecError>, wired': set<string>)
    requires i < |spec.connections|
    ensures TypesKnown(spec, factory) ==>
              (errors == [] <==> ConnectionOk(spec, factory, spec.connections[i]) && spec.connections[i].to !in wired)
    ensures ConnectionOk(spec, factory, spec.connections[i]) ==> wired' == wired + {spec.connections[i].to}
  {
    var c := spec.connections[i];
    var from, to, more;
    from, errors := ResolveAs(spec, factory, c.from, Output, ConnectionAt(i));
    to, more := ResolveAs(spec, factory, c.to, Input, ConnectionAt(i));
    errors, wired' := errors + more, wired;
    if from.Some? && to.Some? {
      if from.value.kind != to.value.kind {
        errors := errors + [SpecError(ConnectionAt(i), KIND_MISMATCH)];
      } else if from.value.dataType != to.value.dataType {
        errors := errors + [SpecError(ConnectionAt(i), PORT_TYPE_MISMATCH)];
      } else if c.to in wired {
        errors := errors + [SpecError(ConnectionAt(i), DUP_INPUT_WIRE)];
      }
      if from.value.kind == to.value.kind && from.value.dataType == to.value.dataType {
        wired' := wired + {c.to};
      }
    }
  }

  method ValidateConnections(spec: Spec, factory: Factory) returns (errors: seq<SpecError>, wired: set<string>)
    ensures TypesKnown(spec, factory) ==> (errors == [] <==> ConnectionsOk(spec, factory, |spec.connections|))
    ensures ConnectionsOk(spec, factory, |spec.connections|) ==> WiredByConnections(spec, |spec.connections|, wired)
  {
    errors, wired := [], {};
    var i := 0;
    while i < |spec.connections|
      invariant 0 <= i <= |spec.connections|
      invariant TypesKnown(spec, factory) ==> (errors == [] <==> ConnectionsOk(spec, factory, i))
      invariant ConnectionsOk(spec, factory, i) ==> WiredByConnections(spec, i, wired)
    {
      var found;
      ghost var before := wired;
      found, wired := ValidateConnection(spec, factory, i, wired);
      errors := errors + found;
      OneMoreConnection(spec, factory, i, before);
      i := i + 1;
    }
  }

  lemma OneMoreConnection(spec: Spec, factory: Factory, i: nat, wired: set<string>)
    requires i < |spec.connections|
    requires ConnectionsOk(spec, factory, i) ==> WiredByConnections(spec, i, wired)
    ensures ConnectionsOk(spec, factory, i + 1) <==>
              && ConnectionsOk(spec, factory, i)
              && ConnectionOk(spec, factory, spec.connections[i]) && spec.connections[i].to !in wired
    ensures ConnectionsOk(spec, factory, i + 1) ==>
              WiredByConnections(spec, i + 1, wired + {spec.connections[i].to})
  {
    if ConnectionsOk(spec, factory, i + 1) {
      assert TosDistinct(spec, i);
    }
  }

  /** System inputs among `done`: each resolves to an input nothing else is wired to. */
  ghost predicate InputsOk(spec: Spec, factory: Factory, done: set<string>, wired: set<string>)
    requires done <= spec.inputs.Keys
  {
    && (forall name :: name in done ==>
          Resolves(spec, factory, spec.inputs[name], Input) && spec.inputs[name] !in wired)
    && (forall a, b :: a in done && b in done && a != b ==> spec.inputs[a] != spec.inputs[b])
  }

  function Targets(spec: Spec, done: set<string>): set<string>
    requires done <= spec.inputs.Keys
  {
    set name | name in done :: spec.inputs[name]
  }

  method ValidateInputs(spec: Spec, factory: Factory, wired: set<string>)
    returns (errors: seq<SpecError>, wired': set<string>)
    ensures TypesKnown(spec, factory) ==> (errors == [] <==> InputsOk(spec, factory, spec.inputs.Keys, wired))
    ensures InputsOk(spec, factory, spec.inputs.Keys, wired) ==> wired' == wired + Targets(spec, spec.inputs.Keys)
  {
    errors, wired' := [], wired;
    var todo := spec.inputs.Keys;
    ghost var done := {};
    while todo != {}
      invariant todo <= spec.inputs.Keys && done == spec.inputs.Keys - todo
      invariant TypesKnown(spec, factory) ==> (errors == [] <==> InputsOk(spec, factory, done, wired))
      invariant InputsOk(spec, factory, done, wired) ==> wired' == wired + Targets(spec, done)
      decreases todo
    {
      var name :| name in todo;
      var port, found := ResolveAs(spec, factory, spec.inputs[name], Input, InputAt(name));
      errors := errors + found;
      OneMoreInput(spec, factory, done, wired, name);
      if port.Some? {
        if spec.inputs[name] in wired' {
          errors := errors + [SpecError(InputAt(name), DUP_INPUT_WIRE)];
        }
        wired' := wired' + {spec.inputs[name]};
      }
      todo, done := todo - {name}, done + {name};
      assert done == spec.inputs.Keys - todo;
    }
    assert done == spec.inputs.Keys;
  }

  lemma OneMoreInput(spec: Spec, factory: Factory, done: set<string>, wired: set<string>, name: string)
    requires done <= spec.inputs.Keys && name in spec.inputs && name !in done
    ensures InputsOk(spec, factory, done + {name}, wired) <==>
              && InputsOk(spec, factory, done, wired)
              && Resolves(spec, factory, spec.inputs[name], Input)
              && spec.inputs[name] !in wired + Targets(spec, done)
    ensures Targets(spec, done + {name}) == Targets(spec, done) + {spec.inputs[name]}
  {
  }

  method ValidateOutputs(spec: Spec, factory: Factory) returns (errors: seq<SpecError>)
    ensures TypesKnown(spec, factory) ==>
              (errors == [] <==> OutputsOk(spec, factory))
  {
    errors := [];
    var todo := spec.outputs.Keys;
    while todo != {}
      invariant todo <= spec.outputs.Keys
      invariant TypesKnown(spec, factory) ==>
                  (errors == [] <==> forall name :: name in spec.outputs.Keys - todo ==>
                                       Resolves(spec, factory, spec.outputs[name], Output))
      decreases todo
    {
      var name :| name in todo;
      var port, found := ResolveAs(spec, factory, spec.outputs[name], Output, OutputAt(name));
      errors := errors + found;
      todo := todo - {name};
    }
  }

  /** A reference set that agrees with what the spec wires. */
  ghost predicate IsWiring(spec: Spec, wired: set<string>) {
    forall ref :: ref in wired <==> Wired(spec, ref)
  }

  method ValidateRequired(spec: Spec, factory: Factory, wired: set<string>) returns (errors: seq<SpecError>)
    requires Parsed(spec)
    ensures IsWiring(spec, wired) && (forall i :: 0 <= i < |spec.units| ==> spec.units[i].kind in factory) ==>
              (errors == [] <==> RequiredOk(spec, factory))
  {
    errors := [];
    var i := 0;
    while i < |spec.units|
      invariant 0 <= i <= |spec.units|
      invariant IsWiring(spec, wired) && (forall k :: 0 <= k < |spec.units| ==> spec.units[k].kind in factory) ==>
                  (errors == [] <==> forall k :: 0 <= k < i ==> RequiredInputsWired(spec, factory, spec.units[k]))
    {
      TypesByNameFinds(spec.units, i);
      var kind := TypesByName(spec.units)[spec.units[i].name];
      if kind in factory {
        var found := ValidateUnitInputs(spec, factory, i, wired);
        errors := errors + found;
      }
      i := i + 1;
    }
  }

  method ValidateUnitInputs(spec: Spec, factory: Factory, i: nat, wired: set<string>) returns (errors: seq<SpecError>)
    requires i < |spec.units| && spec.units[i].kind in factory
    ensures IsWiring(spec, wired) ==> (errors == [] <==> RequiredInputsWired(spec, factory, spec.units[i]))
  {
    errors := [];
    var ports := factory[spec.units[i].kind].ports;
    var k := 0;
    while k < |ports|
      invariant 0 <= k <= |ports|
      invariant errors == [] <==> forall j :: 0 <= j < k ==>
                  (ports[j].direction == Input && ports[j].required ==> JoinPortRef(spec.units[i].name, ports[j].name) in wired)
    {
      if ports[k].direction == Input && ports[k].required && JoinPortRef(spec.units[i].name, ports[k].name) !in wired {
        errors := errors + [SpecError(UnitAt(i), REQUIRED_INPUT_UNWIRED)];
      }
      k := k + 1;
    }
  }

  method FindScheme(uri: string) returns (found: bool)
    ensures found <==> HasScheme(uri)
  {
    var i := 0;
    while i + 3 <= |uri|
      invariant forall j: nat :: j < i ==> !SchemeEndsAt(uri, j)
      decreases |uri| - i
    {
      if uri[i..i + 3] == "://" {
        assert SchemeEndsAt(uri, i);
        return true;
      }
      i := i + 1;
    }
    found := false;
  }

  method ValidateAdapters(spec: Spec) returns (errors: seq<SpecError>)
    ensures errors == [] <==> AdaptersOk(spec)
  {
    errors := [];
    var i := 0;
    while i < |spec.adapters|
      invariant 0 <= i <= |spec.adapters|
      invariant errors == [] <==> forall k :: 0 <= k < i ==> HasScheme(spec.adapters[k])
    {
      var ok := FindScheme(spec.adapters[i]);
      if !ok {
        errors := errors + [SpecError(AdapterAt(i), BAD_REFERENCE)];
      }
      i := i + 1;
    }
  }

  lemma UnitsKnown(spec: Spec, factory: Factory)
    requires UnitsOk(spec, factory)
    ensures TypesKnown(spec, factory) && forall i :: 0 <= i < |spec.units| ==> spec.units[i].kind in factory
  {
    forall name | name in TypesByName(spec.units) ensures TypesByName(spec.units)[name] in factory {
      var i := NamedUnit(spec.units, name);
      assert UnitOk(factory, spec.units[i]);
    }
  }

  /** The sections together say that no input is wired twice, and know exactly what is wired. */
  lemma WiringAddsUp(spec: Spec, factory: Factory, byConnections: set<string>, wired: set<string>)
    requires WiredByConnections(spec, |spec.connections|, byConnections)
    requires wired == byConnections + Targets(spec, spec.inputs.Keys)
    ensures IsWiring(spec, wired)
    ensures InputsOk(spec, factory, spec.inputs.Keys, byConnections) && TosDistinct(spec, |spec.connections|) <==>
              && InputsWiredOnce(spec)
              && forall name :: name in spec.inputs ==> Resolves(spec, factory, spec.inputs[name], Input)
  {
  }

  /** A spec whose units and connections pass is valid exactly if its other sections pass. */
  lemma SectionsAddUp(spec: Spec, factory: Factory, byConnections: set<string>)
    requires UnitsOk(spec, factory) && ConnectionsOk(spec, factory, |spec.connections|)
    requires WiredByConnections(spec, |spec.connections|, byConnections)
    ensures IsWiring(spec, byConnections + Targets(spec, spec.inputs.Keys))
    ensures ValidSpec(spec, factory) <==>
              && InputsOk(spec, factory, spec.inputs.Keys, byConnections) && OutputsOk(spec, factory)
              && RequiredOk(spec, factory) && AdaptersOk(spec)
  {
    WiringAddsUp(spec, factory, byConnections, byConnections + Targets(spec, spec.inputs.Keys));
    assert forall i :: 0 <= i < |spec.units| ==> UnitOk(factory, spec.units[i]);
  }

  lemma ValidSections(spec: Spec, factory: Factory)
    requires ValidSpec(spec, factory)
    ensures UnitsOk(spec, factory) && ConnectionsOk(spec, factory, |spec.connections|)
  {
  }

  /** Validation succeeds exactly for the valid specs. */
  method Validate(spec: Spec, factory: Factory) returns (ok: bool, errors: seq<SpecError>)
    requires Parsed(spec)
    ensures ok <==> ValidSpec(spec, factory)
    ensures ok <==> errors == []
  {
    errors := ValidateUnits(spec, factory);
    ghost var unitsOk := errors == [];
    if unitsOk {
      UnitsKnown(spec, factory);
    }
    var connectionErrors, byConnections := ValidateConnections(spec, factory);
    var inputErrors, wired := ValidateInputs(spec, factory, byConnections);
    var outputErrors := ValidateOutputs(spec, factory);
    var requiredErrors := ValidateRequired(spec, factory, wired);
    var adapterErrors := ValidateAdapters(spec);
    if unitsOk && connectionErrors == [] {
      SectionsAddUp(spec, factory, byConnections);
    } else if ValidSpec(spec, factory) {
      ValidSections(spec, factory);
    }
    errors := errors + connectionErrors + inputErrors + outputErrors + requiredErrors + adapterErrors;
    ok := errors == [];
  }
}
