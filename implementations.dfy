/** The concrete services behind the coordinate workflow: the coordinate
    validator, the in-memory store, and the validation, persistence, health
    and orchestration services that hold them. */
module Implementations {
  import opened Base
  import opened DataModels

  // ---------------------------------------------------------------------
  // CoordinateValidator
  // ---------------------------------------------------------------------

  /** The fields CoordinateValidator requires, in the order it checks them. */
  const RequiredLocations: seq<string> := ["source_location", "destination_location"]

  /** _validate_location: a dict that names both coordinates (their values
      are not looked at). */
  predicate WellFormedLocation(v: Value)
  {
    v.VDict? && HasKey(v.entries, "latitude") && HasKey(v.entries, "longitude")
  }

  function MissingField(field: string): string { "Missing required field: " + field }

  function InvalidField(field: string): string { "Invalid " + field + " format" }

  /** What one required field contributes: a missing field is reported as
      missing and its format is not checked; a present one is reported only
      when it is not a well-formed location. */
  function FieldErrors(data: Dict, field: string): (r: seq<string>)
    ensures !HasKey(data, field) ==> r == [MissingField(field)]
    ensures HasKey(data, field) ==> (r == [] <==> WellFormedLocation(Get(data, field).value))
    ensures r != [] ==> |r| == 1
  {
    if !HasKey(data, field) then [MissingField(field)]
    else if !WellFormedLocation(Get(data, field).value) then [InvalidField(field)]
    else []
  }

  function FieldErrorsOn(data: Dict): string -> seq<string>
  {
    field => FieldErrors(data, field)
  }

  /** The errors one `validate` call records on `data`. */
  function CoordinateErrors(data: Dict): seq<string>
  {
    FlatMap(FieldErrorsOn(data), RequiredLocations)
  }

  /** The validator passes exactly when both locations are present and
      well-formed, and it records at most one error per required field. */
  lemma CoordinateErrorsExact(data: Dict)
    ensures CoordinateErrors(data) == FieldErrors(data, "source_location") + FieldErrors(data, "destination_location")
    ensures CoordinateErrors(data) == [] <==>
              HasKey(data, "source_location") && WellFormedLocation(Get(data, "source_location").value)
              && HasKey(data, "destination_location") && WellFormedLocation(Get(data, "destination_location").value)
    ensures |CoordinateErrors(data)| <= 2
  {
    var f := FieldErrorsOn(data);
    assert RequiredLocations[..0] == [];
    FlatMapStep(f, RequiredLocations, 0);
    FlatMapStep(f, RequiredLocations, 1);
    assert RequiredLocations[..2] == RequiredLocations;
  }

  /** Every input record that could be built passes the coordinate
      validator: building it already demanded both coordinates. */
  lemma BuiltInputPassesCoordinateValidator(source: Value, destination: Value, parameters: Dict)
    requires MakeInput(source, destination, parameters).Ok?
    ensures CoordinateErrors(InputDict(MakeInput(source, destination, parameters).value)) == []
  {
    InputHasCoordinates(source, destination, parameters);
    CoordinateErrorsExact(InputDict(MakeInput(source, destination, parameters).value));
  }

  /** A record with neither location is reported twice, once per field, as
      missing. */
  lemma EmptyRecordMissesBoth()
    ensures CoordinateErrors([]) == [MissingField("source_location"), MissingField("destination_location")]
  {
    CoordinateErrorsExact([]);
  }

  class CoordinateValidator {
    var errors: seq<string>

    constructor ()
      ensures errors == []
    {
      errors := [];
    }

    /** validate: clears the errors, checks each required field in turn, and
        passes exactly when nothing was recorded. */
    method Validate(data: Dict) returns (ok: bool)
      modifies this
      ensures errors == CoordinateErrors(data)
      ensures ok <==> errors == []
    {
      errors := [];
      var f := FieldErrorsOn(data);
      for i := 0 to |RequiredLocations|
        invariant errors == FlatMap(f, RequiredLocations[..i])
      {
        var field := RequiredLocations[i];
        if !HasKey(data, field) {
          errors := errors + [MissingField(field)];
        } else if !WellFormedLocation(Get(data, field).value) {
          errors := errors + [InvalidField(field)];
        }
        FlatMapStep(f, RequiredLocations, i);
      }
      assert RequiredLocations[..|RequiredLocations|] == RequiredLocations;
      ok := |errors| == 0;
    }

    /** get_validation_errors */
    method GetValidationErrors() returns (copy: seq<string>)
      ensures copy == errors
    {
      copy := errors;
    }
  }

  // ---------------------------------------------------------------------
  // ValidationService
  // ---------------------------------------------------------------------

  /** The errors validate_input gathers with the validators `vs`: each
      validator's errors, in registration order. */
  function ServiceErrors(vs: seq<CoordinateValidator>, data: Dict): seq<string>
  {
    FlatMap((v: CoordinateValidator) => CoordinateErrors(data), vs)
  }

  /** Each registered validator repeats the whole report, and the input is
      valid exactly when there is no validator or the record passes. */
  lemma {:induction false} ServiceErrorsShape(vs: seq<CoordinateValidator>, data: Dict)
    ensures |ServiceErrors(vs, data)| == |vs| * |CoordinateErrors(data)|
    ensures ServiceErrors(vs, data) == [] <==> vs == [] || CoordinateErrors(data) == []
  {
    if vs != [] {
      var init := vs[..|vs| - 1];
      ServiceErrorsShape(init, data);
      assert |vs| * |CoordinateErrors(data)| == |init| * |CoordinateErrors(data)| + |CoordinateErrors(data)|;
      FlatMapEmptyIff((v: CoordinateValidator) => CoordinateErrors(data), vs);
    }
  }

  class ValidationService {
    var validators: seq<CoordinateValidator>

    constructor (validators: seq<CoordinateValidator>)
      ensures this.validators == validators
    {
      this.validators := validators;
    }

    /** validate_input: runs every validator on the record's dict and keeps
        the errors of those that fail; valid exactly when none was kept. */
    method ValidateInput(m: InputData) returns (result: ValidationResult)
      modifies validators
      ensures result.errors == ServiceErrors(validators, InputDict(m))
      ensures result.isValid <==> result.errors == []
      ensures result.warnings == []
      ensures forall i :: 0 <= i < |validators| ==> validators[i].errors == CoordinateErrors(InputDict(m))
    {
      var data := InputDict(m);
      var f := (v: CoordinateValidator) => CoordinateErrors(data);
      var allErrors: seq<string> := [];
      for i := 0 to |validators|
        invariant allErrors == FlatMap(f, validators[..i])
        invariant forall j :: 0 <= j < i ==> validators[j].errors == CoordinateErrors(data)
      {
        var v := validators[i];
        var passed := v.Validate(data);
        if !passed {
          var errs := v.GetValidationErrors();
          allErrors := allErrors + errs;
        }
        FlatMapStep(f, validators, i);
      }
      assert validators[..|validators|] == validators;
      result := ValidationResult(|allErrors| == 0, allErrors, []);
    }

    /** add_validator */
    method AddValidator(v: CoordinateValidator)
      modifies this
      ensures validators == old(validators) + [v]
    {
      validators := validators + [v];
    }
  }

  /** With the factory's single coordinate validator, validating a record
      that could be built reports it valid. */
  lemma BuiltInputValid(v: CoordinateValidator, source: Value, destination: Value, parameters: Dict)
    requires MakeInput(source, destination, parameters).Ok?
    ensures ServiceErrors([v], InputDict(MakeInput(source, destination, parameters).value)) == []
  {
    BuiltInputPassesCoordinateValidator(source, destination, parameters);
    ServiceErrorsShape([v], InputDict(MakeInput(source, destination, parameters).value));
  }

  // ---------------------------------------------------------------------
  // InMemoryPersistence and PersistenceService
  // ---------------------------------------------------------------------

  /** An identifier "calc_<n>_<timestamp>": n is the store's size plus one
      at the time of the save; the timestamp is supplied by the caller. */
  datatype CalcId = CalcId(index: nat, stamp: string)

  /** The stored record {'data': data, 'saved_at': savedAt}. */
  function RecordOf(data: Dict, savedAt: string): (r: Dict)
    ensures Get(r, "data") == Some(VDict(data))
    ensures Get(r, "saved_at") == Some(VStr(savedAt))
    ensures Keys(r) == ["data", "saved_at"]
  {
    [("data", VDict(data)), ("saved_at", VStr(savedAt))]
  }

  class InMemoryPersistence {
    var storage: map<CalcId, Dict>

    /** Every identifier handed out numbers a save that has happened, so
        the next number is not in use. */
    ghost predicate Valid()
      reads this
    {
      forall id :: id in storage ==> 1 <= id.index <= |storage|
    }

    constructor ()
      ensures storage == map[] && Valid()
    {
      storage := map[];
    }

    /** save: stores one new record under a fresh identifier; nothing
        stored before is overwritten. */
    method Save(data: Dict, stamp: string, savedAt: string) returns (id: CalcId)
      requires Valid()
      modifies this
      ensures Valid()
      ensures id == CalcId(|old(storage)| + 1, stamp)
      ensures id !in old(storage)
      ensures storage == old(storage)[id := RecordOf(data, savedAt)]
      ensures |storage| == |old(storage)| + 1
    {
      id := CalcId(|storage| + 1, stamp);
      storage := storage[id := RecordOf(data, savedAt)];
    }

    /** retrieve: the record stored under `id`, or None for an unknown id. */
    method Retrieve(id: CalcId) returns (r: Option<Dict>)
      ensures r.Some? <==> id in storage
      ensures r.Some? ==> r.value == storage[id]
    {
      if id in storage {
        r := Some(storage[id]);
      } else {
        r := None;
      }
    }
  }

  class PersistenceService {
    const provider: InMemoryPersistence

    constructor (provider: InMemoryPersistence)
      ensures this.provider == provider
    {
      this.provider := provider;
    }

    /** save_calculation */
    method SaveCalculation(data: Dict, stamp: string, savedAt: string) returns (id: CalcId)
      requires provider.Valid()
      modifies provider
      ensures provider.Valid()
      ensures id !in old(provider.storage)
      ensures provider.storage == old(provider.storage)[id := RecordOf(data, savedAt)]
    {
      id := provider.Save(data, stamp, savedAt);
    }

    /** retrieve_calculation: a missing record comes back as {}. */
    method RetrieveCalculation(id: CalcId) returns (r: Dict)
      ensures id in provider.storage ==> r == provider.storage[id]
      ensures id !in provider.storage ==> r == []
    {
      var found := provider.Retrieve(id);
      r := if found.Some? then found.value else [];
    }
  }

  // ---------------------------------------------------------------------
  // HealthService
  // ---------------------------------------------------------------------

  /** A health checker: its component name and the report check_health
      returns. */
  datatype HealthChecker = HealthChecker(componentName: string, report: Dict)

  /** Pydantic's refusal of a status that is not text. */
  const NotText := "str type expected"

  /** The status of a report: its 'status' entry, "unknown" when it has
      none, refused when it is not text. */
  function StatusOf(report: Dict): (r: Result<string, string>)
    ensures !HasKey(report, "status") ==> r == Ok("unknown")
    ensures r.Ok? && HasKey(report, "status") ==> Get(report, "status") == Some(VStr(r.value))
    ensures r.Err? <==> HasKey(report, "status") && !Get(report, "status").value.VStr?
  {
    match Get(report, "status")
    case None => Ok("unknown")
    case Some(v) => if v.VStr? then Ok(v.s) else Err(NotText)
  }

  /** The status record for one checker, or the refusal of its status. */
  function StatusRecord(c: HealthChecker): Result<HealthStatus, string>
  {
    match StatusOf(c.report)
    case Ok(s) => Ok(HealthStatus(c.componentName, s, c.report))
    case Err(e) => Err(e)
  }

  class HealthService {
    var checkers: seq<HealthChecker>

    constructor (checkers: seq<HealthChecker>)
      ensures this.checkers == checkers
    {
      this.checkers := checkers;
    }

    /** check_system_health: one status per checker, in registration order,
        each carrying the checker's name and whole report; the first report
        whose status is not text stops the call. */
    method CheckSystemHealth() returns (r: Result<seq<HealthStatus>, string>)
      ensures r.Ok? <==> forall i :: 0 <= i < |checkers| ==> StatusRecord(checkers[i]).Ok?
      ensures r.Ok? ==> |r.value| == |checkers|
                        && forall i :: 0 <= i < |checkers| ==> Ok(r.value[i]) == StatusRecord(checkers[i])
      ensures r.Ok? ==> forall i :: 0 <= i < |checkers| ==>
                          r.value[i].componentName == checkers[i].componentName
                          && r.value[i].details == checkers[i].report
    {
      var results: seq<HealthStatus> := [];
      for i := 0 to |checkers|
        invariant |results| == i
        invariant forall j :: 0 <= j < i ==> Ok(results[j]) == StatusRecord(checkers[j])
      {
        var c := checkers[i];
        var status := StatusOf(c.report);
        if status.Err? {
          return Err(status.error);
        }
        results := results + [HealthStatus(c.componentName, status.value, c.report)];
      }
      r := Ok(results);
    }

    /** add_health_checker */
    method AddHealthChecker(c: HealthChecker)
      modifies this
      ensures checkers == old(checkers) + [c]
    {
      checkers := checkers + [c];
    }
  }

  // ---------------------------------------------------------------------
  // OrchestrationService
  // ---------------------------------------------------------------------

  /** The workflow's answer; `data` holds the formatted result and the
      identifier it was saved under. */
  datatype WorkflowData = WorkflowData(calculationResult: Dict, persistenceId: CalcId)

  datatype WorkflowResult = WorkflowResult(success: bool, errors: seq<string>, data: Option<WorkflowData>)

  class OrchestrationService {
    const validation: ValidationService
    const persistence: PersistenceService

    constructor (validation: ValidationService, persistence: PersistenceService)
      ensures this.validation == validation && this.persistence == persistence
    {
      this.validation := validation;
      this.persistence := persistence;
    }

    ghost predicate Valid()
      reads this, persistence, persistence.provider
    {
      persistence.provider.Valid()
    }

    /** execute_workflow: validate; on failure answer with the errors and
        no data, leaving the store alone; otherwise calculate and format
        (`calculate`) and save the formatted result exactly once. */
    method ExecuteWorkflow(input: InputData, calculate: InputData -> Dict, stamp: string, savedAt: string)
      returns (r: WorkflowResult)
      requires Valid()
      modifies validation.validators, persistence.provider
      ensures Valid()
      ensures var errs := ServiceErrors(validation.validators, InputDict(input));
              errs != [] ==> r == WorkflowResult(false, errs, None)
                             && persistence.provider.storage == old(persistence.provider.storage)
      ensures var errs := ServiceErrors(validation.validators, InputDict(input));
              errs == [] ==> r.success && r.errors == [] && r.data.Some?
                             && r.data.value.calculationResult == calculate(input)
                             && r.data.value.persistenceId !in old(persistence.provider.storage)
                             && persistence.provider.storage
                                == old(persistence.provider.storage)[r.data.value.persistenceId := RecordOf(calculate(input), savedAt)]
    {
      var validationResult := validation.ValidateInput(input);
      if !validationResult.isValid {
        return WorkflowResult(false, validationResult.errors, None);
      }
      var formatted := calculate(input);
      var id := persistence.SaveCalculation(formatted, stamp, savedAt);
      r := WorkflowResult(true, [], Some(WorkflowData(formatted, id)));
    }
  }
}
