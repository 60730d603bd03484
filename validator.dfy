/** Validation of a person request body: each field validator returns a list
    of errors by case analysis on the (untyped) value it is given, and the
    request validator concatenates them. */
module Validator {
  import opened Common
  import opened PyValues

  datatype ValidationError = ValidationError(field: string, err: string)

  const NameNullMessage := "Name must be not null"
  const NameEmptyMessage := "Name must have len gt than 0"
  const AgeTypeMessage := "Age must be integer"
  const AgeRangeMessage := "Age must be gt than 0"

  function OptionalFieldMessage(fieldName: string): string {
    "Field " + fieldName + " must be null or have len gt 0"
  }

  /** `validate_name`: `None` and an empty value are errors; `len` of a
      number or bool raises `TypeError`. */
  function ValidateName(name: Value): (r: Result<seq<ValidationError>, PyException>)
    ensures r.Err? <==> name != Null && !HasLen(name)
    ensures r.Err? ==> r.error == TypeError
    ensures r.Ok? ==> |r.value| <= 1 && forall e :: e in r.value ==> e.field == "name"
    ensures r == Ok([]) <==> HasLen(name) && Len(name) > 0
    ensures name == Null ==> r == Ok([ValidationError("name", NameNullMessage)])
    ensures HasLen(name) && Len(name) == 0 ==> r == Ok([ValidationError("name", NameEmptyMessage)])
  {
    if name == Null then Ok([ValidationError("name", NameNullMessage)])
    else if !HasLen(name) then Err(TypeError)
    else if Len(name) == 0 then Ok([ValidationError("name", NameEmptyMessage)])
    else Ok([])
  }

  /** `validate_age`: `None` passes, a non-int is a type error, an int
      (bools included) must be positive. */
  function ValidateAge(age: Value): (r: seq<ValidationError>)
    ensures |r| <= 1 && forall e :: e in r ==> e.field == "age"
    ensures r == [] <==> age == Null || (IsInt(age) && IntValue(age) > 0)
    ensures r == [ValidationError("age", AgeTypeMessage)] <==> age != Null && !IsInt(age)
    ensures IsInt(age) && IntValue(age) <= 0 ==> r == [ValidationError("age", AgeRangeMessage)]
  {
    if age == Null then []
    else if !IsInt(age) then [ValidationError("age", AgeTypeMessage)]
    else if IntValue(age) <= 0 then [ValidationError("age", AgeRangeMessage)]
    else []
  }

  /** `validate_optional_field`: only an empty string is an error. */
  function ValidateOptionalField(fieldName: string, field: Value): (r: seq<ValidationError>)
    ensures |r| <= 1 && forall e :: e in r ==> e.field == fieldName
    ensures r != [] <==> field == Str("")
    ensures field == Str("") ==> r == [ValidationError(fieldName, OptionalFieldMessage(fieldName))]
  {
    if field != Null && field.Str? && |field.s| == 0 then [ValidationError(fieldName, OptionalFieldMessage(fieldName))]
    else []
  }

  /** The position of a field in the order the request validator checks them. */
  function FieldRank(field: string): int {
    if field == "name" then 0
    else if field == "age" then 1
    else if field == "work" then 2
    else if field == "address" then 3
    else 4
  }

  /** `validate_person_request`: the name, age, work and address errors in
      that order; a `TypeError` from the name check propagates. */
  function ValidatePersonRequest(data: seq<(string, Value)>): (r: Result<seq<ValidationError>, PyException>)
    ensures r.Err? <==> ValidateName(Get(data, "name")).Err?
    ensures r.Ok? ==> |r.value| <= 4
    ensures r.Ok? ==> forall i, j :: 0 <= i < j < |r.value| ==> FieldRank(r.value[i].field) < FieldRank(r.value[j].field)
    ensures r.Ok? ==> forall e :: e in r.value ==> FieldRank(e.field) < 4
    ensures r.Ok? ==> forall e :: e in r.value <==>
      || e in ValidateName(Get(data, "name")).value
      || e in ValidateAge(Get(data, "age"))
      || e in ValidateOptionalField("work", Get(data, "work"))
      || e in ValidateOptionalField("address", Get(data, "address"))
  {
    match ValidateName(Get(data, "name"))
    case Err(e) => Err(e)
    case Ok(nameErrors) =>
      var ret := nameErrors + ValidateAge(Get(data, "age")) + ValidateOptionalField("work", Get(data, "work"))
        + ValidateOptionalField("address", Get(data, "address"));
      RanksIncrease(nameErrors, ValidateAge(Get(data, "age")), ValidateOptionalField("work", Get(data, "work")),
        ValidateOptionalField("address", Get(data, "address")));
      Ok(ret)
  }

  lemma RanksIncrease(a: seq<ValidationError>, b: seq<ValidationError>, c: seq<ValidationError>, d: seq<ValidationError>)
    requires |a| <= 1 && |b| <= 1 && |c| <= 1 && |d| <= 1
    requires forall e :: e in a ==> e.field == "name"
    requires forall e :: e in b ==> e.field == "age"
    requires forall e :: e in c ==> e.field == "work"
    requires forall e :: e in d ==> e.field == "address"
    ensures var r := a + b + c + d;
      && (forall i, j :: 0 <= i < j < |r| ==> FieldRank(r[i].field) < FieldRank(r[j].field))
      && (forall e :: e in r ==> FieldRank(e.field) < 4)
  {
    var r := a + b + c + d;
    forall i | 0 <= i < |r| ensures FieldRank(r[i].field) == (if i < |a| then 0 else if i < |a| + |b| then 1 else if i < |a| + |b| + |c| then 2 else 3) {
      if i < |a| {
        assert r[i] in a;
      } else if i < |a| + |b| {
        assert r[i] == b[i - |a|];
      } else if i < |a| + |b| + |c| {
        assert r[i] == c[i - |a| - |b|];
      } else {
        assert r[i] == d[i - |a| - |b| - |c|];
      }
    }
  }

  /** The request passes exactly when the name has a positive length, the age
      is absent or a positive int, and neither work nor address is an empty string. */
  lemma RequestValidIff(data: seq<(string, Value)>)
    ensures ValidatePersonRequest(data) == Ok([]) <==>
      && HasLen(Get(data, "name")) && Len(Get(data, "name")) > 0
      && (Get(data, "age") == Null || (IsInt(Get(data, "age")) && IntValue(Get(data, "age")) > 0))
      && Get(data, "work") != Str("")
      && Get(data, "address") != Str("")
  {
    var n := ValidateName(Get(data, "name"));
    var a := ValidateAge(Get(data, "age"));
    var wk := ValidateOptionalField("work", Get(data, "work"));
    var ad := ValidateOptionalField("address", Get(data, "address"));
    if n.Ok? {
      assert ValidatePersonRequest(data) == Ok(n.value + a + wk + ad);
      assert |n.value + a + wk + ad| == |n.value| + |a| + |wk| + |ad|;
    }
  }

  /** A missing field reads as `None`, so a body without a name always
      reports the not-null error first. */
  lemma MissingNameReported(data: seq<(string, Value)>)
    requires forall k :: 0 <= k < |data| ==> data[k].0 != "name"
    ensures ValidatePersonRequest(data).Ok? && |ValidatePersonRequest(data).value| >= 1
    ensures ValidatePersonRequest(data).value[0] == ValidationError("name", NameNullMessage)
  {
    GetAbsent(data, "name");
  }

}
