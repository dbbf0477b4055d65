/** The response side of a request (`Http::json`, which sends a JSON body with a
    status code and ends the request) and the shared required-field validator
    (`Http::requireFields`). */
module Http {
  import opened Values
  import opened Schema

  /** What a response carries as its JSON body. */
  datatype Payload =
    | ErrorBody(error: string)                            // {"error": ...}
    | ValidationBody(error: string, fields: seq<string>)  // {"error": ..., "fields": [...]}
    | UserBody(user: UserView)
    | ProjectBody(project: ProjectView)
    | ProjectListBody(projects: seq<ProjectView>)
    | TaskBody(task: TaskView)
    | SuccessBody                                         // {"success": true}
    | NoBody                                              // nothing is echoed
    | UncaughtError(reason: string)                       // a PHP error nothing catches

  datatype Response = Response(status: int, payload: Payload)

  /** `Http::json($data, $status = 200)`. It ends the request, so in this model every
      call of it is the value a handler returns, and nothing after it runs. */
  function Json(data: Payload, status: int := 200): Response {
    Response(status, data)
  }

  /** `Http::json(['error' => $message], $status)`. */
  function Error(message: string, status: int): Response {
    Json(ErrorBody(message), status)
  }

  /** An uncaught PHP error (a TypeError or ValueError) ends the request with status 500. */
  function Crash(reason: string): Response {
    Json(UncaughtError(reason), 500)
  }

  /** The result of a service call: a value, or the response some `Http::json` call
      inside it sent before ending the request. */
  datatype Outcome<+T> = Ok(value: T) | Exit(response: Response) {
    predicate IsFailure() {
      Exit?
    }

    function PropagateFailure<U>(): Outcome<U>
      requires Exit?
    {
      Exit(response)
    }

    function Extract(): T
      requires Ok?
    {
      value
    }
  }

  /** The result of a check that returns nothing when it passes. */
  datatype Check = Pass | Fail(response: Response) {
    predicate IsFailure() {
      Fail?
    }

    function PropagateFailure<U>(): Outcome<U>
      requires Fail?
    {
      Exit(response)
    }
  }

  const MissingFieldsMessage := "Missing required fields"

  /** `!isset($body[$field]) || $body[$field] === ''`: absent, null, or the empty string. */
  predicate Missing(body: Json, field: string) {
    !IsSet(body, field) || Lookup(body, field) == Some(Str(""))
  }

  /** The fields of `required` that are missing from `body`, in the order of `required`. */
  function MissingFields(body: Json, required: seq<string>): (r: seq<string>)
    ensures |r| <= |required|
    ensures forall f :: f in r <==> f in required && Missing(body, f)
  {
    if required == [] then []
    else
      var init := required[..|required| - 1];
      var last := required[|required| - 1];
      assert required == init + [last];
      MissingFields(body, init) + (if Missing(body, last) then [last] else [])
  }

  /** The missing fields of two lists of required fields, one after the other, are the
      missing fields of the first followed by those of the second: the report keeps the
      order in which the fields were required. */
  lemma {:induction false} MissingFieldsConcat(body: Json, r1: seq<string>, r2: seq<string>)
    ensures MissingFields(body, r1 + r2) == MissingFields(body, r1) + MissingFields(body, r2)
  {
    if r2 == [] {
      assert r1 + r2 == r1;
    } else {
      var init := r2[..|r2| - 1];
      assert (r1 + r2)[..|r1 + r2| - 1] == r1 + init;
      assert (r1 + r2)[|r1 + r2| - 1] == r2[|r2| - 1];
      MissingFieldsConcat(body, r1, init);
    }
  }

  /** What `Http::requireFields($body, $required)` decides: pass when nothing is missing,
      otherwise end the request with 422 and the missing fields in order. */
  function Required(body: Json, required: seq<string>): (c: Check)
    ensures c.Pass? <==> forall f :: f in required ==> !Missing(body, f)
    ensures c.Fail? ==> c.response == Json(ValidationBody(MissingFieldsMessage, MissingFields(body, required)), 422)
  {
    var missing := MissingFields(body, required);
    if missing == [] then Pass
    else
      assert missing[0] in missing;
      Fail(Json(ValidationBody(MissingFieldsMessage, missing), 422))
  }

  /** The 422 response that names a single missing field. */
  function MissingOne(field: string): Response {
    Json(ValidationBody(MissingFieldsMessage, [field]), 422)
  }

  /** With one required field the check fails exactly when that field is missing, and
      the report names it. */
  lemma RequiredOne(body: Json, field: string)
    ensures Required(body, [field]) == if Missing(body, field) then Fail(MissingOne(field)) else Pass
  {
    assert [field][..0] == [];
    assert MissingFields(body, [field]) == if Missing(body, field) then [field] else [];
  }

  /** `Http::requireFields($body, $required)`: collects the missing fields in a loop and,
      if there are any, ends the request with 422. */
  method RequireFields(body: Json, required: seq<string>) returns (c: Check)
    ensures c == Required(body, required)
  {
    var missing: seq<string> := [];
    for i := 0 to |required|
      invariant missing == MissingFields(body, required[..i])
    {
      assert required[..i + 1][..i] == required[..i];
      if Missing(body, required[i]) {
        missing := missing + [required[i]];
      }
    }
    assert required[..|required|] == required;
    if missing != [] {
      return Fail(Json(ValidationBody(MissingFieldsMessage, missing), 422));
    }
    return Pass;
  }
}
