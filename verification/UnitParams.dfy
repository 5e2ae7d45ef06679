/** Checking a unit's parameters against the descriptors of its type. The spec validator and the
unit factory both rely on this one check. */
module UnitParams {
  import opened Json

  datatype ParamType = BoolParam | IntParam | DoubleParam | StringParam | EnumParam | ObjectParam

  /** A null default makes the parameter required. */
  datatype ParamDescriptor = ParamDescriptor(name: string, kind: ParamType, defaultValue: Json, constraints: Json)

  datatype Code = UnknownKey | MissingRequired | TypeMismatch | ConstraintViolation

  datatype Issue = Issue(name: string, code: Code)

  predicate JsonTypeMatches(kind: ParamType, value: Json) {
    match kind
    case BoolParam => value.Bool?
    case IntParam => value.Integer?
    case DoubleParam => IsNumber(value)
    case StringParam => value.String?
    case EnumParam => value.String?
    case ObjectParam => value.Object?
  }

  /** A numeric bound of the descriptor, if it states one. */
  predicate HasBound(constraints: Json, key: string) {
    constraints.Object? && key in constraints.fields && IsNumber(constraints.fields[key])
  }

  /** Malformed constraints count as none. */
  predicate Satisfies(d: ParamDescriptor, value: Json) {
    match d.kind
    case EnumParam =>
      d.constraints.Object? && "values" in d.constraints.fields && d.constraints.fields["values"].Array? ==>
        value in d.constraints.fields["values"].items
    case IntParam => InRange(d.constraints, value)
    case DoubleParam => InRange(d.constraints, value)
    case _ => true
  }

  predicate InRange(constraints: Json, value: Json) {
    IsNumber(value) ==>
      && (HasBound(constraints, "min") ==> Value(value) >= Value(constraints.fields["min"]))
      && (HasBound(constraints, "max") ==> Value(value) <= Value(constraints.fields["max"]))
  }

  method ConstraintsSatisfied(d: ParamDescriptor, value: Json) returns (ok: bool)
    ensures ok <==> Satisfies(d, value)
  {
    if !d.constraints.Object? {
      return true;
    }
    var fields := d.constraints.fields;
    if d.kind == EnumParam {
      if "values" in fields && fields["values"].Array? {
        var items := fields["values"].items;
        var i := 0;
        while i < |items|
          invariant 0 <= i <= |items|
          invariant value !in items[..i]
        {
          if items[i] == value {
            return true;
          }
          i := i + 1;
        }
        assert items[..i] == items;
        return false;
      }
      return true;
    }
    if d.kind == IntParam || d.kind == DoubleParam {
      if !IsNumber(value) {
        return true;
      }
      var v := Value(value);
      if "min" in fields && IsNumber(fields["min"]) && v < Value(fields["min"]) {
        return false;
      }
      if "max" in fields && IsNumber(fields["max"]) && v > Value(fields["max"]) {
        return false;
      }
    }
    ok := true;
  }

  /** Absent parameters are an empty object. */
  function Fields(params: Json): map<string, Json>
    requires params.Null? || params.Object?
  {
    if params.Null? then map[] else params.fields
  }

  predicate Known(ds: seq<ParamDescriptor>, key: string) {
    exists i :: 0 <= i < |ds| && ds[i].name == key
  }

  /** What one descriptor finds wrong with the parameters. */
  function Complaint(d: ParamDescriptor, fields: map<string, Json>): set<Code> {
    if d.name !in fields then (if d.defaultValue.Null? then {MissingRequired} else {})
    else if !JsonTypeMatches(d.kind, fields[d.name]) then {TypeMismatch}
    else if !Satisfies(d, fields[d.name]) then {ConstraintViolation}
    else {}
  }

  /** The issues parameters have, stated without reference to how they are found. */
  ghost predicate IsIssue(ds: seq<ParamDescriptor>, params: Json, issue: Issue) {
    if !params.Null? && !params.Object? then issue == Issue("", TypeMismatch)
    else
      || (issue.code == UnknownKey && issue.name in Fields(params) && !Known(ds, issue.name))
      || (exists i :: 0 <= i < |ds| && ds[i].name == issue.name && issue.code in Complaint(ds[i], Fields(params)))
  }

  ghost predicate ParamsOk(ds: seq<ParamDescriptor>, params: Json) {
    forall issue :: !IsIssue(ds, params, issue)
  }

  /** Reports every issue there is, and nothing else. */
  method ValidateParams(ds: seq<ParamDescriptor>, params: Json) returns (issues: seq<Issue>)
    ensures forall issue :: issue in issues <==> IsIssue(ds, params, issue)
    ensures issues == [] <==> ParamsOk(ds, params)
  {
    if !params.Null? && !params.Object? {
      issues := [Issue("", TypeMismatch)];
      assert issues[0] in issues && IsIssue(ds, params, issues[0]);
      return;
    }
    var fields := Fields(params);
    issues := UnknownKeys(ds, fields);
    ghost var unknown := issues;
    var i := 0;
    while i < |ds|
      invariant 0 <= i <= |ds|
      invariant forall issue :: issue in issues <==>
                  issue in unknown
                  || exists k :: 0 <= k < i && ds[k].name == issue.name && issue.code in Complaint(ds[k], fields)
    {
      var found := CheckParam(ds[i], fields);
      issues := issues + found;
      i := i + 1;
    }
    if issues != [] {
      assert issues[0] in issues;
    }
  }

  method UnknownKeys(ds: seq<ParamDescriptor>, fields: map<string, Json>) returns (issues: seq<Issue>)
    ensures forall issue :: issue in issues <==>
              issue.code == UnknownKey && issue.name in fields && !Known(ds, issue.name)
  {
    issues := [];
    var todo := fields.Keys;
    while todo != {}
      invariant todo <= fields.Keys
      invariant forall issue :: issue in issues <==>
                  issue.code == UnknownKey && issue.name in fields.Keys - todo && !Known(ds, issue.name)
      decreases todo
    {
      var key :| key in todo;
      var known, i := false, 0;
      while i < |ds| && !known
        invariant 0 <= i <= |ds|
        invariant known <==> exists k :: 0 <= k < i && ds[k].name == key
      {
        known := ds[i].name == key;
        i := i + 1;
      }
      if !known {
        issues := issues + [Issue(key, UnknownKey)];
      }
      todo := todo - {key};
    }
  }

  method CheckParam(d: ParamDescriptor, fields: map<string, Json>) returns (issues: seq<Issue>)
    ensures forall issue :: issue in issues <==> issue.name == d.name && issue.code in Complaint(d, fields)
  {
    if d.name !in fields {
      return if d.defaultValue.Null? then [Issue(d.name, MissingRequired)] else [];
    }
    if !JsonTypeMatches(d.kind, fields[d.name]) {
      return [Issue(d.name, TypeMismatch)];
    }
    var ok := ConstraintsSatisfied(d, fields[d.name]);
    issues := if ok then [] else [Issue(d.name, ConstraintViolation)];
  }

  /** Parameters pass exactly if they are absent or an object whose keys are all described, and
      every described parameter is there if required and, if there, well typed and in range. */
  lemma ParamsOkMeans(ds: seq<ParamDescriptor>, params: Json)
    ensures ParamsOk(ds, params) <==>
              && (params.Null? || params.Object?)
              && (forall key :: key in Fields(params) ==> Known(ds, key))
              && (forall d :: d in ds ==>
                    if d.name in Fields(params)
                    then JsonTypeMatches(d.kind, Fields(params)[d.name]) && Satisfies(d, Fields(params)[d.name])
                    else !d.defaultValue.Null?)
  {
    if !params.Null? && !params.Object? {
      assert IsIssue(ds, params, Issue("", TypeMismatch));
    } else {
      var fields := Fields(params);
      forall key | key in fields && !Known(ds, key) ensures !ParamsOk(ds, params) {
        assert IsIssue(ds, params, Issue(key, UnknownKey));
      }
      forall d, code | d in ds && code in Complaint(d, fields) ensures !ParamsOk(ds, params) {
        assert IsIssue(ds, params, Issue(d.name, code));
      }
      if forall d :: d in ds ==> Complaint(d, fields) == {} {
        forall i | 0 <= i < |ds| ensures Complaint(ds[i], fields) == {} {
          assert ds[i] in ds;
        }
      } else {
        var d :| d in ds && Complaint(d, fields) != {};
        var code :| code in Complaint(d, fields);
        assert !ParamsOk(ds, params);
      }
    }
  }
}
