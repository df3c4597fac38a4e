/** The change ("vcs") payload schema (libraries/payloads/vcs.js) and a
    validator over it: every required field present, `status` and `type`
    within their enumerations, and the payload handed back unchanged. */
module VcsPayload {
  import opened Wrappers

  /** The payload kind tag. */
  const PayloadKind: string := "vcs"

  /** The required fields, in declaration order. */
  const RequiredFields: seq<string> := [
    "repo", "before", "after", "actor",
    "repo_url", "base_ref", "fork_url", "fork_ref",
    "status", "repo_id", "change", "change_id", "type"
  ]

  /** A JSON value of a payload field. */
  datatype Value = Null | Str(s: string) | Num(n: int) | Bool(b: bool)

  /** `null` status means "not applicable". */
  const StatusValues: seq<Value> := [Str("open"), Str("closed"), Str("merged"), Null]

  const TypeValues: seq<Value> := [Str("proposal"), Str("change")]

  /** The enumerated-value constraints, in declaration order. */
  const FieldVals: seq<(string, seq<Value>)> := [("status", StatusValues), ("type", TypeValues)]

  /** A payload: absent keys are fields that are not set. */
  type Payload = map<string, Value>

  datatype SchemaError = MissingField(field: string) | InvalidValue(field: string, value: Value)

  datatype Result = Ok(payload: Payload) | Err(error: SchemaError)

  /** The first field of `fields` that the payload lacks. */
  function FirstMissing(fields: seq<string>, payload: Payload): (r: Option<string>)
    ensures r.None? <==> forall i :: 0 <= i < |fields| ==> fields[i] in payload
    ensures r.Some? ==> exists i :: 0 <= i < |fields| && fields[i] == r.value && r.value !in payload
                                    && forall j :: 0 <= j < i ==> fields[j] in payload
  {
    if fields == [] then None
    else if fields[0] !in payload then Some(fields[0])
    else
      var r := FirstMissing(fields[1..], payload);
      if r.Some? then
        ghost var i :| 0 <= i < |fields[1..]| && fields[1..][i] == r.value && r.value !in payload
                       && forall j :: 0 <= j < i ==> fields[1..][j] in payload;
        assert fields[i + 1] == r.value;
        r
      else r
  }

  /** The first constrained field whose value is outside its enumeration. */
  function FirstInvalid(vals: seq<(string, seq<Value>)>, payload: Payload): (r: Option<(string, Value)>)
    ensures r.None? <==> forall i :: 0 <= i < |vals| && vals[i].0 in payload ==> payload[vals[i].0] in vals[i].1
    ensures r.Some? ==> exists i :: 0 <= i < |vals| && vals[i].0 == r.value.0 && r.value.0 in payload
                                    && payload[r.value.0] == r.value.1 && r.value.1 !in vals[i].1
                                    && forall j :: 0 <= j < i && vals[j].0 in payload ==> payload[vals[j].0] in vals[j].1
  {
    if vals == [] then None
    else if vals[0].0 in payload && payload[vals[0].0] !in vals[0].1 then Some((vals[0].0, payload[vals[0].0]))
    else
      var r := FirstInvalid(vals[1..], payload);
      assert forall i :: 1 <= i < |vals| ==> vals[i] == vals[1..][i - 1];
      if r.Some? then
        ghost var i :| 0 <= i < |vals[1..]| && vals[1..][i].0 == r.value.0 && r.value.0 in payload
                       && payload[r.value.0] == r.value.1 && r.value.1 !in vals[1..][i].1
                       && forall j :: 0 <= j < i && vals[1..][j].0 in payload ==> payload[vals[1..][j].0] in vals[1..][j].1;
        assert vals[i + 1] == vals[1..][i];
        r
      else r
  }

  /** `new VcsPayload(p).validate()` followed by `return p`: missing fields
      are reported first, in declaration order, then values outside the
      enumerations. */
  function Validate(payload: Payload): (r: Result)
    ensures r.Ok? ==> r.payload == payload
    ensures r.Err? && r.error.MissingField? ==> r.error.field in RequiredFields && r.error.field !in payload
  {
    match FirstMissing(RequiredFields, payload)
    case Some(field) => Err(MissingField(field))
    case None =>
      match FirstInvalid(FieldVals, payload)
      case Some((field, value)) => Err(InvalidValue(field, value))
      case None => Ok(payload)
  }

  /** The schema read directly off the declaration. */
  predicate Conforms(payload: Payload) {
    && (forall f :: f in RequiredFields ==> f in payload)
    && payload["status"] in StatusValues
    && payload["type"] in TypeValues
  }

  /** A payload is accepted exactly when it conforms, and is then returned unchanged. */
  lemma ValidateAccepts(payload: Payload)
    ensures Validate(payload).Ok? <==> Conforms(payload)
    ensures Validate(payload).Ok? ==> Validate(payload).payload == payload
  {
    if forall i :: 0 <= i < |RequiredFields| ==> RequiredFields[i] in payload {
      assert RequiredFields[8] == "status" && RequiredFields[12] == "type";
      assert FieldVals[0] == ("status", StatusValues) && FieldVals[1] == ("type", TypeValues);
    } else {
      var i :| 0 <= i < |RequiredFields| && RequiredFields[i] !in payload;
      assert RequiredFields[i] in RequiredFields;
    }
  }

  /** A rejection names a schema field: a required one that is missing, or
      a constrained one with its offending value. */
  lemma ValidateRejects(payload: Payload)
    requires Validate(payload).Err?
    ensures var e := Validate(payload).error;
      && (e.MissingField? ==> e.field in RequiredFields && e.field !in payload)
      && (e.InvalidValue? ==>
            && (forall f :: f in RequiredFields ==> f in payload)
            && (e.field == "status" || e.field == "type")
            && payload[e.field] == e.value
            && e.value !in (if e.field == "status" then StatusValues else TypeValues))
  {
    var e := Validate(payload).error;
    if e.InvalidValue? {
      forall f | f in RequiredFields ensures f in payload {
        var i :| 0 <= i < |RequiredFields| && RequiredFields[i] == f;
      }
    }
  }

  /** The missing field reported is the first one in declaration order. */
  lemma MissingReportsFirst(payload: Payload, k: nat)
    requires k < |RequiredFields| && RequiredFields[k] !in payload
    requires forall j :: 0 <= j < k ==> RequiredFields[j] in payload
    ensures Validate(payload) == Err(MissingField(RequiredFields[k]))
  {
    var r := FirstMissing(RequiredFields, payload);
    var i :| 0 <= i < |RequiredFields| && RequiredFields[i] == r.value && r.value !in payload
             && forall j :: 0 <= j < i ==> RequiredFields[j] in payload;
    assert i == k;
  }

  /** A change payload without `change_id` is refused, naming `change_id`. */
  lemma MissingChangeId(payload: Payload)
    requires "change_id" !in payload
    requires forall f :: f in RequiredFields && f != "change_id" ==> f in payload
    ensures Validate(payload) == Err(MissingField("change_id"))
  {
    assert RequiredFields[11] == "change_id";
    forall j | 0 <= j < 11 ensures RequiredFields[j] in payload {
      assert RequiredFields[j] in RequiredFields && RequiredFields[j] != "change_id";
    }
    MissingReportsFirst(payload, 11);
  }

  /** A null status is accepted. */
  lemma NullStatusAccepted(payload: Payload)
    requires forall f :: f in RequiredFields ==> f in payload
    requires payload["type"] in TypeValues
    ensures Validate(payload["status" := Null]) == Ok(payload["status" := Null])
  {
    ValidateAccepts(payload["status" := Null]);
  }

  /** Fields without an enumeration only need to be present: which value they hold never matters. */
  lemma UnconstrainedFieldsAcceptAnything(payload: Payload, f: string, v: Value, w: Value)
    requires f in RequiredFields && f != "status" && f != "type"
    ensures Validate(payload[f := v]).Ok? <==> Validate(payload[f := w]).Ok?
  {
    ValidateAccepts(payload[f := v]);
    ValidateAccepts(payload[f := w]);
  }
}
