/**
 * `validateSimulationData`: the structural check of a POST body. The checks
 * run in a fixed order and the first one that fails decides the error.
 */
module Validation {
  import opened Wrappers
  import opened Json

  /** The required fields, in the order they are checked. */
  const RequiredFields: seq<string> := ["id", "user_id", "env_id", "data", "result", "summary"]

  /** One error per check; each carries the message the thrown `Error` has. */
  datatype ValidationError =
    | InvalidStructure
    | MissingField(field: string)
    | IdentifiersNotStrings
    | ResultNotNumber
  {
    function Message(): string
    {
      match this
      case InvalidStructure => "Invalid data structure"
      case MissingField(f) => "Missing required field: " + f
      case IdentifiersNotStrings => "sim_id, user_id, and env_id must be strings"
      case ResultNotNumber => "result must be a number"
    }
  }

  /** The typed record a passing body is asserted to be. */
  datatype PostData = PostData(
    id: string,
    userId: string,
    envId: string,
    data: Value,
    result: real,
    summary: Value)

  /** Index of the first field of `fields` that `v` lacks, or |fields| when it has them all. */
  function FirstMissing(fields: seq<string>, v: Value): (i: nat)
    ensures i <= |fields|
    ensures forall j :: 0 <= j < i ==> Has(v, fields[j])
    ensures i < |fields| ==> !Has(v, fields[i])
  {
    if fields == [] then 0
    else if !Has(v, fields[0]) then 0
    else 1 + FirstMissing(fields[1..], v)
  }

  /** The declarative acceptance condition: an object with all six keys, string identifiers and a numeric result. */
  predicate Acceptable(v: Value)
  {
    && v.Obj?
    && "id" in v.fields && "user_id" in v.fields && "env_id" in v.fields
    && "data" in v.fields && "result" in v.fields && "summary" in v.fields
    && v.fields["id"].Str? && v.fields["user_id"].Str? && v.fields["env_id"].Str?
    && v.fields["result"].Num?
  }

  /** The validator, check by check; on success it yields the typed record. */
  function Validate(v: Value): (r: Result<PostData, ValidationError>)
    ensures r.Ok? <==> Acceptable(v)
    ensures r.Ok? ==>
      && v.fields["id"] == Str(r.value.id)
      && v.fields["user_id"] == Str(r.value.userId)
      && v.fields["env_id"] == Str(r.value.envId)
      && v.fields["data"] == r.value.data
      && v.fields["result"] == Num(r.value.result)
      && v.fields["summary"] == r.value.summary
  {
    if !IsObject(v) then Err(InvalidStructure)
    else
      var i := FirstMissing(RequiredFields, v);
      if i < |RequiredFields| then Err(MissingField(RequiredFields[i]))
      else
        assert Has(v, RequiredFields[0]) && Has(v, RequiredFields[1]) && Has(v, RequiredFields[2]);
        assert Has(v, RequiredFields[3]) && Has(v, RequiredFields[4]) && Has(v, RequiredFields[5]);
        var f := v.fields;
        if !(f["id"].Str? && f["user_id"].Str? && f["env_id"].Str?) then Err(IdentifiersNotStrings)
        else if !f["result"].Num? then Err(ResultNotNumber)
        else Ok(PostData(f["id"].s, f["user_id"].s, f["env_id"].s, f["data"], f["result"].n, f["summary"]))
  }

  /** The validator as `validateSimulationData` writes it: a loop over the required fields that stops at the first missing one. */
  method ValidateSimulationData(v: Value) returns (r: Result<PostData, ValidationError>)
    ensures r == Validate(v)
  {
    if !IsObject(v) {
      return Err(InvalidStructure);
    }
    for i := 0 to |RequiredFields|
      invariant forall j :: 0 <= j < i ==> Has(v, RequiredFields[j])
    {
      if !Has(v, RequiredFields[i]) {
        return Err(MissingField(RequiredFields[i]));
      }
    }
    assert Has(v, RequiredFields[0]) && Has(v, RequiredFields[1]) && Has(v, RequiredFields[2]);
    assert Has(v, RequiredFields[3]) && Has(v, RequiredFields[4]) && Has(v, RequiredFields[5]);
    var f := v.fields;
    if !(f["id"].Str? && f["user_id"].Str? && f["env_id"].Str?) {
      return Err(IdentifiersNotStrings);
    }
    if !f["result"].Num? {
      return Err(ResultNotNumber);
    }
    r := Ok(PostData(f["id"].s, f["user_id"].s, f["env_id"].s, f["data"], f["result"].n, f["summary"]));
  }

  /** Anything that is not an object or array (null included) is refused before any field is looked at. */
  lemma RejectsNonObjectFirst(v: Value)
    requires !IsObject(v)
    ensures Validate(v) == Err(InvalidStructure)
  {
  }

  /** With fields missing, the error names the first missing one in the fixed order. */
  lemma ReportsFirstMissingField(v: Value, i: nat)
    requires IsObject(v)
    requires i < |RequiredFields| && !Has(v, RequiredFields[i])
    requires forall j :: 0 <= j < i ==> Has(v, RequiredFields[j])
    ensures Validate(v) == Err(MissingField(RequiredFields[i]))
  {
  }

  /** Presence is checked before any type: a missing field is reported whatever the types of the others. */
  lemma PresenceBeforeTypes(v: Value, field: string)
    requires IsObject(v) && field in RequiredFields && !Has(v, field)
    ensures Validate(v).Err? && Validate(v).error.MissingField?
    ensures Validate(v).error.field in RequiredFields
  {
  }

  /** With every field present, a non-string identifier is reported, whatever `result` holds. */
  lemma IdentifiersBeforeResult(v: Value)
    requires v.Obj? && forall f :: f in RequiredFields ==> f in v.fields
    requires !v.fields["id"].Str? || !v.fields["user_id"].Str? || !v.fields["env_id"].Str?
    ensures Validate(v) == Err(IdentifiersNotStrings)
  {
  }

  /** With every field present and string identifiers, a non-numeric result is the last error. */
  lemma ResultCheckedLast(v: Value)
    requires v.Obj? && forall f :: f in RequiredFields ==> f in v.fields
    requires v.fields["id"].Str? && v.fields["user_id"].Str? && v.fields["env_id"].Str?
    requires !v.fields["result"].Num?
    ensures Validate(v) == Err(ResultNotNumber)
  {
  }

  /** `data` and `summary` are only required to be present: any values there are accepted. */
  lemma DataAndSummaryUnconstrained(v: Value, data: Value, summary: Value)
    requires Acceptable(v)
    ensures Acceptable(Obj(v.fields["data" := data]["summary" := summary]))
  {
  }

  /** Different failures carry different messages, so the message identifies the failed check and the missing field. */
  lemma MessagesDistinguishErrors(e1: ValidationError, e2: ValidationError)
    requires e1.Message() == e2.Message()
    ensures e1 == e2
  {
    var prefix := "Missing required field: ";
    // only a missing-field message starts with 'M'
    assert e1.Message()[0] == 'M' <==> e1.MissingField?;
    assert e2.Message()[0] == 'M' <==> e2.MissingField?;
    if e1.MissingField? && e2.MissingField? {
      assert e1.field == e1.Message()[|prefix|..];
      assert e2.field == e2.Message()[|prefix|..];
    } else if !e1.MissingField? && !e2.MissingField? {
      // the other three messages have different lengths
      assert |e1.Message()| != |e2.Message()| || e1 == e2;
    }
  }
}
