/** The records passed between the validation, calculation, persistence and
    health services, and the coordinate check an input record runs when it
    is built. */
module DataModels {
  import opened Base

  /** An InputDataModel once built: both locations are dicts whose latitude
      and longitude are in range. */
  datatype InputData = InputData(source: Dict, destination: Dict, parameters: Dict)

  /** ValidationResultModel */
  datatype ValidationResult = ValidationResult(isValid: bool, errors: seq<string>, warnings: seq<string>)

  /** HealthStatusModel; the check timestamp is not modelled. */
  datatype HealthStatus = HealthStatus(componentName: string, status: string, details: Dict)

  /** `.dict()` of an input record. */
  function InputDict(m: InputData): (r: Dict)
    ensures Get(r, "source_location") == Some(VDict(m.source))
    ensures Get(r, "destination_location") == Some(VDict(m.destination))
  {
    [("source_location", VDict(m.source)),
     ("destination_location", VDict(m.destination)),
     ("parameters", VDict(m.parameters))]
  }

  const MissingKeys := "Location must contain latitude and longitude"
  const BadLatitude := "Latitude must be between -90 and 90"
  const BadLongitude := "Longitude must be between -180 and 180"

  /** The refusals of the field's declared type, Dict[str, float], which
      come before the validator runs; they make the validator's own "Location
      must be a dictionary" branch unreachable. */
  const NotDict := "value is not a valid dict"
  const NotNumber := "value is not a valid float"

  /** The check of source_location and of destination_location: the declared
      type first, then validate_coordinates. A location that passes comes
      back unchanged. */
  function ValidateCoordinates(v: Value): (r: Result<Value, string>)
    ensures !v.VDict? ==> r == Err(NotDict)
    ensures (v.VDict? && (forall i :: 0 <= i < |v.entries| ==> NumberOf(v.entries[i].1).Some?)
             && !(HasKey(v.entries, "latitude") && HasKey(v.entries, "longitude")))
            ==> r == Err(MissingKeys)
    ensures r.Ok? ==> r.value == v
    ensures r.Ok? <==>
              v.VDict? && (forall i :: 0 <= i < |v.entries| ==> NumberOf(v.entries[i].1).Some?)
              && HasKey(v.entries, "latitude") && HasKey(v.entries, "longitude")
              && -90.0 <= NumberOf(Get(v.entries, "latitude").value).value <= 90.0
              && -180.0 <= NumberOf(Get(v.entries, "longitude").value).value <= 180.0
  {
    if !v.VDict? then Err(NotDict)
    else if exists i :: 0 <= i < |v.entries| && NumberOf(v.entries[i].1).None? then Err(NotNumber)
    else if !(HasKey(v.entries, "latitude") && HasKey(v.entries, "longitude")) then Err(MissingKeys)
    else
      var lat := NumberOf(Get(v.entries, "latitude").value).value;
      var lon := NumberOf(Get(v.entries, "longitude").value).value;
      if !(-90.0 <= lat <= 90.0) then Err(BadLatitude)
      else if !(-180.0 <= lon <= 180.0) then Err(BadLongitude)
      else Ok(v)
  }

  /** Building an InputDataModel: each location is checked and its refusal
      reported under its field, source first. */
  function MakeInput(source: Value, destination: Value, parameters: Dict): (r: Result<InputData, seq<string>>)
    ensures r.Ok? <==> ValidateCoordinates(source).Ok? && ValidateCoordinates(destination).Ok?
    ensures r.Ok? ==> r.value == InputData(source.entries, destination.entries, parameters)
    ensures r.Err? ==> 1 <= |r.error| <= 2
  {
    var errs := (if ValidateCoordinates(source).Err? then [ValidateCoordinates(source).error] else [])
                + (if ValidateCoordinates(destination).Err? then [ValidateCoordinates(destination).error] else []);
    if errs == [] then Ok(InputData(source.entries, destination.entries, parameters)) else Err(errs)
  }

  /** The latitude bounds are inclusive: a pole is accepted; likewise for
      longitude at the date line. */
  lemma CoordinateBoundsInclusive()
    ensures ValidateCoordinates(VDict([("latitude", VFloat(90.0)), ("longitude", VFloat(-180.0))])).Ok?
    ensures ValidateCoordinates(VDict([("latitude", VFloat(-90.0)), ("longitude", VFloat(180.0))])).Ok?
  {
    var a := [("latitude", VFloat(90.0)), ("longitude", VFloat(-180.0))];
    assert a[0].0 == "latitude" && a[1].0 == "longitude";
    var b := [("latitude", VFloat(-90.0)), ("longitude", VFloat(180.0))];
    assert b[0].0 == "latitude" && b[1].0 == "longitude";
  }

  /** Half a degree past a pole or past the date line is refused, with the
      message of the coordinate that is out of range. */
  lemma CoordinateBoundsExceeded()
    ensures ValidateCoordinates(VDict([("latitude", VFloat(90.5)), ("longitude", VFloat(0.0))])) == Err(BadLatitude)
    ensures ValidateCoordinates(VDict([("latitude", VFloat(0.0)), ("longitude", VFloat(-180.5))])) == Err(BadLongitude)
  {
    var c := [("latitude", VFloat(90.5)), ("longitude", VFloat(0.0))];
    assert c[0].0 == "latitude" && c[1].0 == "longitude";
    var d := [("latitude", VFloat(0.0)), ("longitude", VFloat(-180.5))];
    assert d[0].0 == "latitude" && d[1].0 == "longitude";
  }

  /** A built input record holds two dicts that name both coordinates. */
  lemma InputHasCoordinates(source: Value, destination: Value, parameters: Dict)
    requires MakeInput(source, destination, parameters).Ok?
    ensures var m := MakeInput(source, destination, parameters).value;
            HasKey(m.source, "latitude") && HasKey(m.source, "longitude")
            && HasKey(m.destination, "latitude") && HasKey(m.destination, "longitude")
  {
  }
}
