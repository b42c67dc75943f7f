/** The validator framework: each validator keeps the error list of its
    latest `validate` call, and a composite runs every child and gathers the
    errors of those that fail.

    The validator interface is modelled as one class whose `rule` says which
    of the concrete validators it is; the check each kind performs is a
    function of the rule and the input dict. */
module Validators {
  import opened Base

  /** The classes an isinstance test names. */
  datatype PyType = BoolType | IntType | FloatType | StrType | ListType | DictType | NoneType

  /** isinstance(v, t); a bool is an instance of int. */
  predicate IsInstance(v: Value, t: PyType)
  {
    match t
    case BoolType => v.VBool?
    case IntType => v.VInt? || v.VBool?
    case FloatType => v.VFloat?
    case StrType => v.VStr?
    case ListType => v.VList?
    case DictType => v.VDict?
    case NoneType => v.VNone?
  }

  /** t.__name__ */
  function TypeName(t: PyType): string
  {
    match t
    case BoolType => "bool"
    case IntType => "int"
    case FloatType => "float"
    case StrType => "str"
    case ListType => "list"
    case DictType => "dict"
    case NoneType => "NoneType"
  }

  /** The second argument of isinstance: one class, or a tuple of them. */
  datatype Expected = Class(t: PyType) | Tuple(ts: seq<PyType>)

  predicate Matches(v: Value, e: Expected)
  {
    match e
    case Class(t) => IsInstance(v, t)
    case Tuple(ts) => exists i :: 0 <= i < |ts| && IsInstance(v, ts[i])
  }

  /** One recorded error; `Text` gives its wording. */
  datatype Message =
    | FieldRequired(field: string)
    | NotNumeric(field: string)
    | OutOfRange(field: string, lo: real, hi: real)
    | RequiredMissing(field: string)
    | WrongType(field: string, typeName: string)
    | NotString(field: string)
    | NoMatch(text: string)

  /** The wording of a message; `number` stands for Python's str() of a
      float. */
  function Text(m: Message, number: real -> string): string
  {
    match m
    case FieldRequired(f) => "Field '" + f + "' is required"
    case NotNumeric(f) => "Field '" + f + "' must be numeric"
    case OutOfRange(f, lo, hi) => "Field '" + f + "' must be between " + number(lo) + " and " + number(hi)
    case RequiredMissing(f) => "Required field '" + f + "' is missing"
    case WrongType(f, t) => "Field '" + f + "' must be of type " + t
    case NotString(f) => "Field '" + f + "' must be a string for pattern validation"
    case NoMatch(text) => text
  }

  /** Which validator an object is, with its constructor arguments.
      `matchesAtStart` stands for the compiled pattern's `match`. */
  datatype Rule =
    | NumericRange(field: string, lo: real, hi: real)
    | RequiredFields(fields: seq<string>)
    | DataTypes(mapping: seq<(string, Expected)>)
    | Pattern(field: string, matchesAtStart: string -> bool, message: string)

  /** PatternValidator's constructor: a missing or empty message gives the
      default wording. */
  function PatternRule(field: string, matchesAtStart: string -> bool, errorMessage: Option<string>): (r: Rule)
    ensures r.Pattern? && r.field == field
    ensures errorMessage.Some? && errorMessage.value != "" ==> r.message == errorMessage.value
    ensures errorMessage.None? || errorMessage.value == "" ==>
              r.message == "Field '" + field + "' does not match required pattern"
  {
    var message := if errorMessage.Some? && errorMessage.value != "" then errorMessage.value
                   else "Field '" + field + "' does not match required pattern";
    Pattern(field, matchesAtStart, message)
  }

  // ---------------------------------------------------------------------
  // What each validator records
  // ---------------------------------------------------------------------

  /** NumericRangeValidator: at most one error, the first check that fails. */
  function RangeErrors(field: string, lo: real, hi: real, data: Dict): (r: seq<Message>)
    ensures |r| <= 1
    ensures !HasKey(data, field) ==> r == [FieldRequired(field)]
    ensures HasKey(data, field) && NumberOf(Get(data, field).value).None? ==> r == [NotNumeric(field)]
    ensures r == [] <==> HasKey(data, field) && NumberOf(Get(data, field).value).Some?
                         && lo <= NumberOf(Get(data, field).value).value <= hi
  {
    if !HasKey(data, field) then [FieldRequired(field)]
    else
      var n := NumberOf(Get(data, field).value);
      if n.None? then [NotNumeric(field)]
      else if !(lo <= n.value <= hi) then [OutOfRange(field, lo, hi)]
      else []
  }

  /** A required field is absent, or present and None. */
  predicate Absent(data: Dict, field: string)
  {
    !HasKey(data, field) || Get(data, field) == Some(VNone)
  }

  /** RequiredFieldValidator: one error per absent field, in list order. */
  function RequiredErrors(fields: seq<string>, data: Dict): (r: seq<Message>)
    ensures |r| <= |fields|
  {
    if fields == [] then []
    else
      var last := fields[|fields| - 1];
      RequiredErrors(fields[..|fields| - 1], data) + (if Absent(data, last) then [RequiredMissing(last)] else [])
  }

  /** The errors name exactly the absent required fields, so the validator
      passes exactly when every required field holds a value. */
  lemma {:induction false} RequiredErrorsExact(fields: seq<string>, data: Dict)
    ensures forall m :: m in RequiredErrors(fields, data) <==> m.RequiredMissing? && m.field in fields && Absent(data, m.field)
    ensures RequiredErrors(fields, data) == [] <==> forall i :: 0 <= i < |fields| ==> !Absent(data, fields[i])
  {
    if fields != [] {
      var init, last := fields[..|fields| - 1], fields[|fields| - 1];
      RequiredErrorsExact(init, data);
      assert fields == init + [last];
      assert forall f :: f in fields <==> f in init || f == last;
      if RequiredErrors(fields, data) == [] {
        forall i | 0 <= i < |fields| ensures !Absent(data, fields[i]) {
          if i < |init| {
            assert fields[i] == init[i];
          }
        }
      }
    }
  }

  /** The wording of an expected type in an error: a class's name, and for a
      tuple its members' names joined with " or ". */
  function ExpectedName(e: Expected): string
  {
    match e
    case Class(t) => TypeName(t)
    case Tuple(ts) => Join(" or ", Map(TypeName, ts))
  }

  /** DataTypeValidator: one error per present field of the wrong type, in
      mapping order; absent fields are skipped. */
  function TypeErrors(mapping: seq<(string, Expected)>, data: Dict): (r: seq<Message>)
    ensures |r| <= |mapping|
  {
    if mapping == [] then []
    else
      var (field, expected) := mapping[|mapping| - 1];
      TypeErrors(mapping[..|mapping| - 1], data)
      + (if HasKey(data, field) && !Matches(Get(data, field).value, expected)
         then [WrongType(field, ExpectedName(expected))] else [])
  }

  /** Only present fields of the wrong type are reported, so the validator
      passes exactly when every present field has its expected type. */
  lemma {:induction false} TypeErrorsExact(mapping: seq<(string, Expected)>, data: Dict)
    ensures forall m :: m in TypeErrors(mapping, data) ==>
              m.WrongType? && HasKey(data, m.field)
              && exists i :: 0 <= i < |mapping| && mapping[i].0 == m.field && !Matches(Get(data, m.field).value, mapping[i].1)
    ensures TypeErrors(mapping, data) == [] <==>
              forall i :: 0 <= i < |mapping| && HasKey(data, mapping[i].0) ==> Matches(Get(data, mapping[i].0).value, mapping[i].1)
  {
    if mapping != [] {
      var init := mapping[..|mapping| - 1];
      TypeErrorsExact(init, data);
      assert forall i :: 0 <= i < |init| ==> init[i] == mapping[i];
    }
  }

  /** A present field of the wrong type, checked against a tuple of classes:
      the case in which building the message raises. */
  predicate RaisesOn(entry: (string, Expected), data: Dict)
  {
    entry.1.Tuple? && HasKey(data, entry.0) && !Matches(Get(data, entry.0).value, entry.1)
  }

  /** The check as written: the message reads `expected_type.__name__`, which
      a tuple of classes does not have, so a wrong-typed field checked
      against a tuple raises AttributeError instead of being reported. */
  function TypeErrorsAsWritten(mapping: seq<(string, Expected)>, data: Dict): (r: Result<seq<Message>, string>)
    ensures r.Ok? ==> r.value == TypeErrors(mapping, data)
    ensures r.Err? <==> exists i :: 0 <= i < |mapping| && RaisesOn(mapping[i], data)
    ensures r.Err? ==> r.error == "AttributeError"
  {
    if mapping == [] then Ok([])
    else
      var (field, expected) := mapping[|mapping| - 1];
      match TypeErrorsAsWritten(mapping[..|mapping| - 1], data)
      case Err(e) => Err(e)
      case Ok(prefix) =>
        if HasKey(data, field) && !Matches(Get(data, field).value, expected) then
          if expected.Tuple? then Err("AttributeError")
          else Ok(prefix + [WrongType(field, TypeName(expected.t))])
        else Ok(prefix)
  }

  /** PatternValidator: an absent field passes; a non-string or a value the
      pattern does not match at its start gives exactly one error. */
  function PatternErrors(field: string, matchesAtStart: string -> bool, message: string, data: Dict): (r: seq<Message>)
    ensures |r| <= 1
    ensures !HasKey(data, field) ==> r == []
    ensures r == [] <==> !HasKey(data, field)
                         || (Get(data, field).value.VStr? && matchesAtStart(Get(data, field).value.s))
  {
    if !HasKey(data, field) then []
    else
      var v := Get(data, field).value;
      if !v.VStr? then [NotString(field)]
      else if !matchesAtStart(v.s) then [NoMatch(message)]
      else []
  }

  /** What a validator records for `data`. */
  function Errors(rule: Rule, data: Dict): seq<Message>
  {
    match rule
    case NumericRange(f, lo, hi) => RangeErrors(f, lo, hi, data)
    case RequiredFields(fields) => RequiredErrors(fields, data)
    case DataTypes(mapping) => TypeErrors(mapping, data)
    case Pattern(f, m, message) => PatternErrors(f, m, message, data)
  }

  function ErrorsOn(data: Dict): Rule -> seq<Message>
  {
    rule => Errors(rule, data)
  }

  /** What a composite of validators with these rules records. */
  function AllErrors(rules: seq<Rule>, data: Dict): seq<Message>
  {
    FlatMap(ErrorsOn(data), rules)
  }

  /** A composite records nothing exactly when every child passes. */
  lemma AllErrorsEmptyIff(rules: seq<Rule>, data: Dict)
    ensures AllErrors(rules, data) == [] <==> forall i :: 0 <= i < |rules| ==> Errors(rules[i], data) == []
  {
    FlatMapEmptyIff(ErrorsOn(data), rules);
  }

  // ---------------------------------------------------------------------
  // Validator objects
  // ---------------------------------------------------------------------

  class Validator {
    const rule: Rule
    var errors: seq<Message>

    constructor (rule: Rule)
      ensures this.rule == rule && errors == []
    {
      this.rule := rule;
      errors := [];
    }

    /** The errors held are those of a `validate` call on `data`. */
    predicate Ran(data: Dict)
      reads this
    {
      errors == Errors(rule, data)
    }

    /** validate: clears the errors, runs the rule's check, and passes
        exactly when it recorded nothing. */
    method Validate(data: Dict) returns (ok: bool)
      modifies this
      ensures errors == Errors(rule, data) && Ran(data)
      ensures ok <==> errors == []
    {
      errors := [];
      match rule
      case NumericRange(f, lo, hi) => ok := CheckRange(f, lo, hi, data);
      case RequiredFields(fields) => ok := CheckRequired(fields, data);
      case DataTypes(mapping) => ok := CheckTypes(mapping, data);
      case Pattern(f, m, message) => ok := CheckPattern(f, m, message, data);
    }

    /** get_validation_errors: the errors of the latest call, as a value the
        caller cannot change the validator through. */
    method GetValidationErrors() returns (copy: seq<Message>)
      ensures copy == errors
    {
      copy := errors;
    }

    method CheckRange(field: string, lo: real, hi: real, data: Dict) returns (ok: bool)
      requires errors == []
      modifies this
      ensures errors == RangeErrors(field, lo, hi, data)
      ensures ok <==> errors == []
    {
      if !HasKey(data, field) {
        errors := errors + [FieldRequired(field)];
        return false;
      }
      var value := Get(data, field).value;
      if NumberOf(value).None? {
        errors := errors + [NotNumeric(field)];
        return false;
      }
      if !(lo <= NumberOf(value).value <= hi) {
        errors := errors + [OutOfRange(field, lo, hi)];
        return false;
      }
      return true;
    }

    method CheckRequired(fields: seq<string>, data: Dict) returns (ok: bool)
      requires errors == []
      modifies this
      ensures errors == RequiredErrors(fields, data)
      ensures ok <==> errors == []
    {
      for i := 0 to |fields|
        invariant errors == RequiredErrors(fields[..i], data)
      {
        assert fields[..i + 1][..i] == fields[..i];
        if Absent(data, fields[i]) {
          errors := errors + [RequiredMissing(fields[i])];
        }
      }
      assert fields[..|fields|] == fields;
      ok := |errors| == 0;
    }

    method CheckTypes(mapping: seq<(string, Expected)>, data: Dict) returns (ok: bool)
      requires errors == []
      modifies this
      ensures errors == TypeErrors(mapping, data)
      ensures ok <==> errors == []
    {
      for i := 0 to |mapping|
        invariant errors == TypeErrors(mapping[..i], data)
      {
        assert mapping[..i + 1][..i] == mapping[..i];
        var (field, expected) := mapping[i];
        if HasKey(data, field) && !Matches(Get(data, field).value, expected) {
          errors := errors + [WrongType(field, ExpectedName(expected))];
        }
      }
      assert mapping[..|mapping|] == mapping;
      ok := |errors| == 0;
    }

    method CheckPattern(field: string, matchesAtStart: string -> bool, message: string, data: Dict) returns (ok: bool)
      requires errors == []
      modifies this
      ensures errors == PatternErrors(field, matchesAtStart, message, data)
      ensures ok <==> errors == []
    {
      if !HasKey(data, field) {
        return true;
      }
      var value := Get(data, field).value;
      if !value.VStr? {
        errors := errors + [NotString(field)];
        return false;
      }
      if !matchesAtStart(value.s) {
        errors := errors + [NoMatch(message)];
        return false;
      }
      return true;
    }
  }

  function RuleOf(v: Validator): Rule { v.rule }

  /** The rules of a list of validators. */
  function RulesOf(vs: seq<Validator>): seq<Rule>
  {
    Map(RuleOf, vs)
  }

  class CompositeValidator {
    var validators: seq<Validator>
    var errors: seq<Message>

    constructor (validators: seq<Validator>)
      ensures this.validators == validators && errors == []
    {
      this.validators := validators;
      errors := [];
    }

    /** validate: runs every child, without stopping at a failure, and
        gathers the errors of the children that fail, in order. */
    method Validate(data: Dict) returns (ok: bool)
      modifies this, validators
      ensures validators == old(validators)
      ensures errors == AllErrors(RulesOf(validators), data)
      ensures ok <==> forall i :: 0 <= i < |validators| ==> Errors(validators[i].rule, data) == []
      ensures forall i :: 0 <= i < |validators| ==> validators[i].Ran(data)
    {
      errors := [];
      var allValid := true;
      for i := 0 to |validators|
        invariant validators == old(validators)
        invariant errors == AllErrors(RulesOf(validators[..i]), data)
        invariant allValid <==> errors == []
        invariant forall j :: 0 <= j < i ==> validators[j].Ran(data)
      {
        allValid := RunChild(i, data, allValid);
      }
      assert validators[..|validators|] == validators;
      AllErrorsEmptyIff(RulesOf(validators), data);
      forall j | 0 <= j < |validators| ensures RulesOf(validators)[j] == validators[j].rule {
        MapAt(RuleOf, validators, j);
      }
      ok := allValid;
    }

    /** One turn of the loop in `validate`: run child i and keep its errors
        when it fails. */
    method RunChild(i: nat, data: Dict, allValid: bool) returns (stillValid: bool)
      requires i < |validators|
      requires errors == AllErrors(RulesOf(validators[..i]), data)
      requires allValid <==> errors == []
      modifies this, validators[i]
      ensures validators == old(validators)
      ensures errors == AllErrors(RulesOf(validators[..i + 1]), data)
      ensures validators[i].Ran(data)
      ensures stillValid <==> errors == []
    {
      var child := validators[i];
      var passed := child.Validate(data);
      GatherStep(validators, data, i);
      stillValid := allValid;
      if !passed {
        var childErrors := child.GetValidationErrors();
        errors := errors + childErrors;
        stillValid := false;
      }
    }

    method GetValidationErrors() returns (copy: seq<Message>)
      ensures copy == errors
    {
      copy := errors;
    }

    /** add_validator */
    method AddValidator(v: Validator)
      modifies this
      ensures validators == old(validators) + [v] && errors == old(errors)
    {
      validators := validators + [v];
    }
  }

  lemma GatherStep(vs: seq<Validator>, data: Dict, i: nat)
    requires i < |vs|
    ensures AllErrors(RulesOf(vs[..i + 1]), data) == AllErrors(RulesOf(vs[..i]), data) + Errors(vs[i].rule, data)
  {
    MapStep(RuleOf, vs, i);
    var rules := RulesOf(vs[..i + 1]);
    assert rules[..i] == RulesOf(vs[..i]);
    FlatMapStep(ErrorsOn(data), rules, i);
    assert rules[..i + 1] == rules;
  }

  // ---------------------------------------------------------------------
  // ValidationUtility
  // ---------------------------------------------------------------------

  /** A list of validators built with these rules, in order. */
  lemma RulesOfBuilt(vs: seq<Validator>, rules: seq<Rule>)
    requires |vs| == |rules| && forall i :: 0 <= i < |vs| ==> vs[i].rule == rules[i]
    ensures RulesOf(vs) == rules
  {
    forall i | 0 <= i < |vs| ensures RulesOf(vs)[i] == rules[i] {
      MapAt(RuleOf, vs, i);
    }
  }

  /** What a composite of four validators records. */
  lemma AllErrorsOfFour(a: Rule, b: Rule, c: Rule, d: Rule, data: Dict)
    ensures AllErrors([a, b, c, d], data) == Errors(a, data) + Errors(b, data) + Errors(c, data) + Errors(d, data)
  {
    FlatMapOfFour(ErrorsOn(data), a, b, c, d);
  }

  const LatLon: seq<string> := ["latitude", "longitude"]
  const NumberType := Tuple([IntType, FloatType])
  const LatLonTypes: seq<(string, Expected)> := [("latitude", NumberType), ("longitude", NumberType)]

  function CoordinateRules(): seq<Rule>
  {
    [RequiredFields(LatLon), DataTypes(LatLonTypes),
     NumericRange("latitude", -90.0, 90.0), NumericRange("longitude", -180.0, 180.0)]
  }

  /** create_coordinate_validator */
  method CreateCoordinateValidator() returns (c: CompositeValidator)
    ensures fresh(c) && c.errors == [] && RulesOf(c.validators) == CoordinateRules()
  {
    var required := new Validator(RequiredFields(LatLon));
    var types := new Validator(DataTypes(LatLonTypes));
    var latitude := new Validator(NumericRange("latitude", -90.0, 90.0));
    var longitude := new Validator(NumericRange("longitude", -180.0, 180.0));
    c := new CompositeValidator([required, types, latitude, longitude]);
    RulesOfBuilt(c.validators, CoordinateRules());
  }

  /** A number is an instance of (int, float). */
  lemma NumberMatches(v: Value)
    requires NumberOf(v).Some?
    ensures Matches(v, NumberType)
  {
    if v.VFloat? {
      assert IsInstance(v, NumberType.ts[1]);
    } else {
      assert IsInstance(v, NumberType.ts[0]);
    }
  }

  /** When both coordinates are numbers, the presence and type checks pass. */
  lemma PresenceAndTypesPass(data: Dict)
    requires HasKey(data, "latitude") && HasKey(data, "longitude")
    requires NumberOf(Get(data, "latitude").value).Some? && NumberOf(Get(data, "longitude").value).Some?
    ensures RequiredErrors(LatLon, data) == [] && TypeErrors(LatLonTypes, data) == []
  {
    RequiredErrorsExact(LatLon, data);
    TypeErrorsExact(LatLonTypes, data);
    NumberMatches(Get(data, "latitude").value);
    NumberMatches(Get(data, "longitude").value);
  }

  /** The coordinate validator passes exactly when both coordinates are
      numbers (a bool counts as one) within [-90, 90] and [-180, 180]. */
  lemma CoordinateRulesAccept(data: Dict)
    ensures AllErrors(CoordinateRules(), data) == [] <==>
              HasKey(data, "latitude") && HasKey(data, "longitude")
              && NumberOf(Get(data, "latitude").value).Some? && NumberOf(Get(data, "longitude").value).Some?
              && -90.0 <= NumberOf(Get(data, "latitude").value).value <= 90.0
              && -180.0 <= NumberOf(Get(data, "longitude").value).value <= 180.0
  {
    AllErrorsOfFour(RequiredFields(LatLon), DataTypes(LatLonTypes),
                    NumericRange("latitude", -90.0, 90.0), NumericRange("longitude", -180.0, 180.0), data);
    if HasKey(data, "latitude") && HasKey(data, "longitude")
       && NumberOf(Get(data, "latitude").value).Some? && NumberOf(Get(data, "longitude").value).Some? {
      PresenceAndTypesPass(data);
    }
  }

  /** Two steps of the type check over a two-entry mapping. */
  lemma TypeErrorsOfTwo(a: (string, Expected), b: (string, Expected), data: Dict)
    ensures TypeErrors([a, b], data) == TypeErrors([a], data)
            + (if HasKey(data, b.0) && !Matches(Get(data, b.0).value, b.1) then [WrongType(b.0, ExpectedName(b.1))] else [])
    ensures TypeErrors([a], data)
            == (if HasKey(data, a.0) && !Matches(Get(data, a.0).value, a.1) then [WrongType(a.0, ExpectedName(a.1))] else [])
  {
    assert [a, b][..1] == [a];
    assert [a][..0] == [];
  }

  /** As written, a coordinate validator given a latitude that is text
      raises AttributeError from the type check instead of reporting it. */
  lemma CoordinateTypeCheckRaises()
    ensures TypeErrorsAsWritten(LatLonTypes, [("latitude", VStr("north")), ("longitude", VFloat(0.0))]).Err?
  {
    var data := [("latitude", VStr("north")), ("longitude", VFloat(0.0))];
    assert data[0].0 == "latitude";
    assert !Matches(VStr("north"), NumberType);
    assert LatLonTypes[..1] == [LatLonTypes[0]];
    assert LatLonTypes[..1][..0] == [];
  }

  /** The corrected check reports that latitude instead. */
  lemma CoordinateTypeCheckReports()
    ensures TypeErrors(LatLonTypes, [("latitude", VStr("north")), ("longitude", VFloat(0.0))])
            == [WrongType("latitude", "int or float")]
  {
    var data := [("latitude", VStr("north")), ("longitude", VFloat(0.0))];
    assert data[0].0 == "latitude" && data[1].0 == "longitude";
    assert !Matches(VStr("north"), NumberType);
    NumberMatches(VFloat(0.0));
    TypeErrorsOfTwo(LatLonTypes[0], LatLonTypes[1], data);
    NumberTypeName();
    assert TypeErrors([LatLonTypes[0]], data) == [WrongType("latitude", "int or float")];
    assert LatLonTypes == [LatLonTypes[0], LatLonTypes[1]];
  }

  /** The message names the tuple (int, float) as "int or float". */
  lemma NumberTypeName()
    ensures ExpectedName(NumberType) == "int or float"
  {
    var names := Map(TypeName, NumberType.ts);
    MapAt(TypeName, NumberType.ts, 0);
    MapAt(TypeName, NumberType.ts, 1);
    assert names == ["int", "float"];
    assert names[1..] == ["float"];
    assert Join(" or ", names[1..]) == "float";
    assert Join(" or ", names) == "int" + " or " + "float";
  }

  /** create_location_validator */
  method CreateLocationValidator() returns (c: CompositeValidator)
    ensures fresh(c) && c.errors == []
    ensures RulesOf(c.validators)
            == [RequiredFields(["source_location", "destination_location"]),
                DataTypes([("source_location", Class(DictType)), ("destination_location", Class(DictType))])]
  {
    var required := new Validator(RequiredFields(["source_location", "destination_location"]));
    var types := new Validator(DataTypes([("source_location", Class(DictType)),
                                          ("destination_location", Class(DictType))]));
    c := new CompositeValidator([required, types]);
    RulesOfBuilt(c.validators, [required.rule, types.rule]);
  }
}
