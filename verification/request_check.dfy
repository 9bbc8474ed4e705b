/**
 * The argument handling of the `/api/predict` endpoint: the required keys
 * are looked up in a fixed order and the first one missing is reported;
 * otherwise the numeric fields are converted, with the two optional ones
 * read as 0 when absent.
 *
 * JSON values are of an abstract type `V`; `toFloat` and `toInt` stand for
 * Python's `float(...)` and `int(...)` on such a value, `None` meaning the
 * conversion raised.
 */
module RequestCheck {
  import opened Wrappers

  const RequiredFields: seq<string> := ["category", "priority", "assigned_team", "complexity_score"]
  const AgeField: string := "request_age_hours"
  const InteractionsField: string := "previous_interactions"

  /** Why the endpoint answers with an error instead of a prediction. */
  datatype Rejection =
      /** A required key is absent (answered with status 400). */
    | MissingField(field: string)
      /** A numeric field could not be converted (the exception is answered with status 500). */
    | Unconvertible(field: string)

  /** The arguments handed to `predictor.predict`. */
  datatype PredictCall<V> = PredictCall(
    category: V,
    priority: V,
    assignedTeam: V,
    complexityScore: real,
    requestAgeHours: real,
    previousInteractions: int)

  /** Position of the first field absent from `data`, or `|fields|` when all are present. */
  method FirstMissing<V>(data: map<string, V>, fields: seq<string>) returns (k: nat)
    ensures k <= |fields|
    ensures forall j :: 0 <= j < k ==> fields[j] in data
    ensures k < |fields| ==> fields[k] !in data
  {
    k := 0;
    while k < |fields|
      invariant k <= |fields|
      invariant forall j :: 0 <= j < k ==> fields[j] in data
    {
      if fields[k] !in data {
        return;
      }
      k := k + 1;
    }
  }

  /** `data.get(key, 0)` converted: the converted value when present, 0 when absent. */
  function Optional<V, N>(data: map<string, V>, key: string, convert: V -> Option<N>, zero: N): (r: Option<N>)
    ensures key !in data ==> r == Some(zero)
    ensures key in data ==> r == convert(data[key])
  {
    if key in data then convert(data[key]) else Some(zero)
  }

  /** The validation and conversion `predict` performs before calling the predictor. */
  method CheckRequest<V>(data: map<string, V>, toFloat: V -> Option<real>, toInt: V -> Option<int>)
    returns (r: Result<PredictCall<V>, Rejection>)
    // a missing key is reported only when every earlier required key is present
    ensures r.Failure? && r.error.MissingField? <==>
              exists k :: 0 <= k < |RequiredFields| && RequiredFields[k] !in data
    ensures r.Failure? && r.error.MissingField? ==>
              exists k :: 0 <= k < |RequiredFields| && RequiredFields[k] == r.error.field
                          && r.error.field !in data
                          && forall j :: 0 <= j < k ==> RequiredFields[j] in data
    // conversions run only once every required key is present, in argument order
    ensures r.Failure? && r.error.Unconvertible? ==>
              && (forall k :: 0 <= k < |RequiredFields| ==> RequiredFields[k] in data)
              && "complexity_score" in data
              && (r.error.field == "complexity_score" ==> toFloat(data["complexity_score"]).None?)
              && (r.error.field == AgeField ==>
                    toFloat(data["complexity_score"]).Some? && AgeField in data && toFloat(data[AgeField]).None?)
              && (r.error.field == InteractionsField ==>
                    toFloat(data["complexity_score"]).Some? && Optional(data, AgeField, toFloat, 0.0).Some?
                    && InteractionsField in data && toInt(data[InteractionsField]).None?)
              && r.error.field in {"complexity_score", AgeField, InteractionsField}
    // a call is made exactly when every key is present and every conversion succeeds
    ensures r.Success? <==>
              && (forall k :: 0 <= k < |RequiredFields| ==> RequiredFields[k] in data)
              && "complexity_score" in data
              && toFloat(data["complexity_score"]).Some?
              && Optional(data, AgeField, toFloat, 0.0).Some?
              && Optional(data, InteractionsField, toInt, 0).Some?
    ensures r.Success? ==>
              && "category" in data && "priority" in data && "assigned_team" in data
              && "complexity_score" in data
              && r.value.category == data["category"]
              && r.value.priority == data["priority"]
              && r.value.assignedTeam == data["assigned_team"]
              && Some(r.value.complexityScore) == toFloat(data["complexity_score"])
              && (AgeField !in data ==> r.value.requestAgeHours == 0.0)
              && (AgeField in data ==> Some(r.value.requestAgeHours) == toFloat(data[AgeField]))
              && (InteractionsField !in data ==> r.value.previousInteractions == 0)
              && (InteractionsField in data ==> Some(r.value.previousInteractions) == toInt(data[InteractionsField]))
  {
    var k := FirstMissing(data, RequiredFields);
    if k < |RequiredFields| {
      return Failure(MissingField(RequiredFields[k]));
    }
    assert RequiredFields[0] in data && RequiredFields[1] in data;
    assert RequiredFields[2] in data && RequiredFields[3] in data;
    var complexity := toFloat(data["complexity_score"]);
    if complexity.None? {
      return Failure(Unconvertible("complexity_score"));
    }
    var age := Optional(data, AgeField, toFloat, 0.0);
    if age.None? {
      return Failure(Unconvertible(AgeField));
    }
    var interactions := Optional(data, InteractionsField, toInt, 0);
    if interactions.None? {
      return Failure(Unconvertible(InteractionsField));
    }
    r := Success(PredictCall(data["category"], data["priority"], data["assigned_team"],
                             complexity.value, age.value, interactions.value));
  }
}
