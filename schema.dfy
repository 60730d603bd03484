/** The gateway's person and error payloads. A Python dict is an association
    list in insertion order with distinct keys: assigning to an existing key
    replaces its value in place, assigning to a new key appends it. */
module Schema {
  import opened Common
  import opened PyValues
  import opened Validator

  // ----- ValidationErrorResponse.from_validation_errors -----

  /** The dict built from the errors in order: each error assigns its message to its field. */
  function ErrorsDict(errs: seq<ValidationError>): seq<(string, string)> {
    if errs == [] then []
    else DictSet(ErrorsDict(errs[..|errs| - 1]), errs[|errs| - 1].field, errs[|errs| - 1].err)
  }

  /** The message of the last error naming the field, if any. */
  function LastErrorFor(errs: seq<ValidationError>, field: string): Option<string> {
    if errs == [] then None
    else if errs[|errs| - 1].field == field then Some(errs[|errs| - 1].err)
    else LastErrorFor(errs[..|errs| - 1], field)
  }

  /** The dict has one key per field named by some error, and for a field
      named twice the later message wins. */
  lemma {:induction false} ErrorsDictLastWins(errs: seq<ValidationError>)
    ensures forall f :: Lookup(ErrorsDict(errs), f) == LastErrorFor(errs, f)
    ensures DistinctKeys(ErrorsDict(errs))
  {
    if errs != [] {
      var init := errs[..|errs| - 1];
      ErrorsDictLastWins(init);
      DictSetLookup(ErrorsDict(init), errs[|errs| - 1].field, errs[|errs| - 1].err);
      DictSetKeys(ErrorsDict(init), errs[|errs| - 1].field, errs[|errs| - 1].err);
    }
  }

  lemma {:induction false} LastErrorForSome(errs: seq<ValidationError>, f: string)
    ensures LastErrorFor(errs, f).Some? <==> exists e :: e in errs && e.field == f
  {
    if errs != [] {
      var init := errs[..|errs| - 1];
      LastErrorForSome(init, f);
      assert errs == init + [errs[|errs| - 1]];
    }
  }

  datatype ErrorResponse =
    | ErrorResponse(message: Option<string>)
    | ErrorNotFound
    | ValidationErrorResponse(message: Option<string>, errors: Option<seq<(string, string)>>)

  /** `from_validation_errors`: the dict is filled by a loop over the errors. */
  method FromValidationErrors(message: string, errs: seq<ValidationError>) returns (resp: ErrorResponse)
    ensures resp.ValidationErrorResponse? && resp.message == Some(message) && resp.errors.Some?
    ensures resp.errors.value == ErrorsDict(errs)
    ensures forall f :: Lookup(resp.errors.value, f) == LastErrorFor(errs, f)
    ensures forall f :: Lookup(resp.errors.value, f).Some? <==> exists e :: e in errs && e.field == f
  {
    var errDict: seq<(string, string)> := [];
    var i := 0;
    while i < |errs|
      invariant 0 <= i <= |errs|
      invariant errDict == ErrorsDict(errs[..i])
    {
      assert errs[..i + 1][..i] == errs[..i];
      errDict := DictSet(errDict, errs[i].field, errs[i].err);
      i := i + 1;
    }
    assert errs[..i] == errs;
    ErrorsDictLastWins(errs);
    forall f ensures LastErrorFor(errs, f).Some? <==> exists e :: e in errs && e.field == f {
      LastErrorForSome(errs, f);
    }
    return ValidationErrorResponse(Some(message), Some(errDict));
  }

  // ----- error payloads -----

  /** The HTTP status: 404 for not-found, the class default 400 otherwise. */
  function Status(e: ErrorResponse): (s: int)
    ensures s == 404 <==> e.ErrorNotFound?
    ensures s == 400 || s == 404
  {
    match e
    case ErrorNotFound => 404
    case _ => 400
  }

  function MessageOf(e: ErrorResponse): (m: Option<string>)
    ensures e.ErrorNotFound? ==> m == Some("Not found")
    ensures !e.ErrorNotFound? ==> m == e.message
  {
    match e
    case ErrorNotFound => Some("Not found")
    case ErrorResponse(m) => m
    case ValidationErrorResponse(m, _) => m
  }

  function OptText(o: Option<string>): Value {
    match o
    case None => Null
    case Some(s) => Str(s)
  }

  function ErrorsValue(errors: Option<seq<(string, string)>>): Value {
    match errors
    case None => Null
    case Some(d) => Dict(seq(|d|, i requires 0 <= i < |d| => (d[i].0, Str(d[i].1))))
  }

  /** `to_json`: the message alone, plus the errors dict for a validation error. */
  function ErrorToJson(e: ErrorResponse): (j: seq<(string, Value)>)
    ensures Keys(j) == if e.ValidationErrorResponse? then ["message", "errors"] else ["message"]
    ensures Lookup(j, "message") == Some(OptText(MessageOf(e)))
    ensures e.ValidationErrorResponse? ==> Lookup(j, "errors") == Some(ErrorsValue(e.errors))
  {
    match e
    case ValidationErrorResponse(m, errs) => [("message", OptText(m)), ("errors", ErrorsValue(errs))]
    case _ => [("message", OptText(MessageOf(e)))]
  }

  // ----- person payloads -----

  datatype PersonRequest = PersonRequest(name: Value, age: Value, address: Value, work: Value)

  datatype FromRawOutcome = Built(req: PersonRequest) | Rejected(resp: ErrorResponse) | Raised(exc: PyException)

  const InvalidPersonMessage := "Invalid person request"

  /** `PersonRequest.from_raw`: validation errors become a raised
      `ValidationErrorResponse`; otherwise the fields are read (the name with
      `data['name']`, which cannot miss: see `FromRawFindsName`). */
  function FromRaw(data: seq<(string, Value)>): (o: FromRawOutcome)
    ensures o.Raised? <==> ValidatePersonRequest(data).Err?
    ensures o.Raised? ==> o.exc == TypeError
    ensures o.Rejected? <==> ValidatePersonRequest(data).Ok? && ValidatePersonRequest(data).value != []
    ensures o.Rejected? ==> o.resp == ValidationErrorResponse(Some(InvalidPersonMessage), Some(ErrorsDict(ValidatePersonRequest(data).value)))
    ensures o.Built? ==> o.req == PersonRequest(Get(data, "name"), Get(data, "age"), Get(data, "address"), Get(data, "work"))
  {
    match ValidatePersonRequest(data)
    case Err(e) => Raised(e)
    case Ok(errs) =>
      if |errs| > 0 then Rejected(ValidationErrorResponse(Some(InvalidPersonMessage), Some(ErrorsDict(errs))))
      else Built(PersonRequest(Get(data, "name"), Get(data, "age"), Get(data, "address"), Get(data, "work")))
  }

  /** A request that passes validation always has a name entry, so reading
      `data['name']` in `from_raw` never raises; the built request carries a
      name with a positive length. */
  lemma FromRawFindsName(data: seq<(string, Value)>)
    ensures FromRaw(data).Built? ==> HasKey(data, "name")
    ensures FromRaw(data).Built? ==> HasLen(FromRaw(data).req.name) && Len(FromRaw(data).req.name) > 0
  {
    RequestValidIff(data);
    if ValidatePersonRequest(data) == Ok([]) {
      GetPresent(data, "name");
    }
  }

  /** A person response holds its attributes as the instance's field dict,
      starting with `_id`. */
  function InitialAttrs(personId: int, req: PersonRequest): seq<(string, Value)> {
    [("_id", Int(personId)), ("name", req.name), ("age", req.age), ("address", req.address), ("work", req.work)]
  }

  /** `to_json` on a field dict: `id` is assigned from `_id`, then `_id` is
      deleted; without `_id` reading the attribute raises. The result and the
      new field dict are the same dict. */
  function ToJsonSpec(attrs: seq<(string, Value)>): (Result<seq<(string, Value)>, PyException>, seq<(string, Value)>) {
    match Lookup(attrs, "_id")
    case None => (Err(AttributeError), attrs)
    case Some(v) =>
      var d := DictDel(DictSet(attrs, "id", v), "_id");
      (Ok(d), d)
  }

  /** The first `to_json` renames `_id` to `id`, moved to the end; a second
      call on the same response raises `AttributeError`. */
  lemma ToJsonRenamesOnce(personId: int, req: PersonRequest)
    ensures ToJsonSpec(InitialAttrs(personId, req)).0 ==
      Ok([("name", req.name), ("age", req.age), ("address", req.address), ("work", req.work), ("id", Int(personId))])
    ensures ToJsonSpec(ToJsonSpec(InitialAttrs(personId, req)).1).0 == Err(AttributeError)
  {
    var attrs := InitialAttrs(personId, req);
    var rest := [("name", req.name), ("age", req.age), ("address", req.address), ("work", req.work)];
    assert attrs == [("_id", Int(personId))] + rest;
    LookupAbsent(attrs, "id");
    DictSetNew(attrs, "id", Int(personId));
    var d := attrs + [("id", Int(personId))];
    assert Lookup(attrs, "_id") == Some(Int(personId));
    assert d[0].0 == "_id" && d[1..] == rest + [("id", Int(personId))];
    assert DictDel(d, "_id") == rest + [("id", Int(personId))];
    assert ToJsonSpec(attrs).1 == rest + [("id", Int(personId))];
    assert rest + [("id", Int(personId))] ==
      [("name", req.name), ("age", req.age), ("address", req.address), ("work", req.work), ("id", Int(personId))];
    assert ToJsonSpec(attrs).0 == Ok(ToJsonSpec(attrs).1);
    LookupAbsent(rest + [("id", Int(personId))], "_id");
  }

  class PersonResponse {
    /** The instance's `__dict__`. */
    var attrs: seq<(string, Value)>

    /** `from_request`: the id, then the request's fields in declaration order. */
    constructor FromRequest(personId: int, req: PersonRequest)
      ensures attrs == InitialAttrs(personId, req)
      ensures Keys(attrs) == ["_id", "name", "age", "address", "work"]
    {
      attrs := InitialAttrs(personId, req);
    }

    method ToJson() returns (r: Result<seq<(string, Value)>, PyException>)
      modifies this
      ensures (r, attrs) == ToJsonSpec(old(attrs))
    {
      var id := Lookup(attrs, "_id");
      if id.None? {
        return Err(AttributeError);
      }
      attrs := DictSet(attrs, "id", id.value);
      attrs := DictDel(attrs, "_id");
      return Ok(attrs);
    }
  }
}
