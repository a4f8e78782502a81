/**
 * The global error middleware of `backend/middleware/errorHandler.js`: an
 * ordered classification of an error into a failure response.
 */
module ErrorHandler {
  import opened Wrappers
  import opened LeadStoreBasics

  /** The error fields the handler inspects. `fieldMessages` are the
      messages of `err.errors` in path order; `keyValue` holds the keys of
      `err.keyValue`, absent when the error has none. */
  datatype Failure = Failure(
    name: string,
    code: Option<int>,
    fieldMessages: seq<string>,
    keyValue: Option<seq<string>>,
    statusCode: Option<int>,
    message: string)

  /** The handler itself throws: `Object.keys(undefined)` on a duplicate-key
      error without `keyValue`. */
  datatype Thrown = TypeErrorKeysOfUndefined

  /** `${field}` of an absent first key. */
  const UndefinedText := "undefined"

  /** The three classified kinds, in the order the handler tests them. */
  predicate IsValidation(e: Failure) { e.name == "ValidationError" }
  predicate IsDuplicate(e: Failure) { e.code == Some(11000) }
  predicate IsCast(e: Failure) { e.name == "CastError" }

  /** `err.statusCode || 500`, `err.message || 'Server Error'`. */
  function FallbackStatus(e: Failure): int {
    if e.statusCode.Some? && e.statusCode.value != 0 then e.statusCode.value else 500
  }

  function FallbackMessage(e: Failure): string {
    if e.message != "" then e.message else "Server Error"
  }

  /** The response sent for an error (the `error` detail of the default
      branch is `{}` outside development). */
  function Handle(e: Failure): (r: Result<Response, Thrown>)
    ensures r.Ok? ==> !r.value.success
    ensures r.Err? <==> !IsValidation(e) && IsDuplicate(e) && e.keyValue == None
    ensures IsValidation(e) ==>
      r == Ok(Response(400, false, Some("Validation Error"), ErrorDetail(e.fieldMessages)))
    ensures !IsValidation(e) && IsDuplicate(e) && e.keyValue.Some? ==>
      && r.Ok? && r.value.code == 400 && r.value.payload == NoData
      && r.value.message == Some((if e.keyValue.value == [] then UndefinedText else e.keyValue.value[0]) + " already exists")
    ensures !IsValidation(e) && !IsDuplicate(e) && IsCast(e) ==>
      r == Ok(Response(400, false, Some("Invalid ID format"), NoData))
    ensures !IsValidation(e) && !IsDuplicate(e) && !IsCast(e) ==>
      && r.Ok? && r.value.payload == EmptyObject
      && r.value.code == FallbackStatus(e) && r.value.message == Some(FallbackMessage(e))
  {
    if IsValidation(e) then
      Ok(Response(400, false, Some("Validation Error"), ErrorDetail(e.fieldMessages)))
    else if IsDuplicate(e) then
      match e.keyValue
      case None => Err(TypeErrorKeysOfUndefined)
      case Some(keys) =>
        var field := if keys == [] then UndefinedText else keys[0];
        Ok(Response(400, false, Some(field + " already exists"), NoData))
    else if IsCast(e) then
      Ok(Response(400, false, Some("Invalid ID format"), NoData))
    else
      Ok(Response(FallbackStatus(e), false, Some(FallbackMessage(e)), EmptyObject))
  }

  /** A validation error is reported as such whatever else it carries. */
  lemma ValidationFirst(e: Failure, code: Option<int>, keys: Option<seq<string>>, status: Option<int>)
    requires IsValidation(e)
    ensures Handle(e.(code := code, keyValue := keys, statusCode := status)) == Handle(e)
  {
  }

  /** A duplicate-key error is reported as such even when its name says it
      is a cast error. */
  lemma DuplicateBeforeCast(e: Failure)
    requires !IsValidation(e) && IsDuplicate(e) && e.keyValue.Some?
    ensures Handle(e.(name := "CastError")).Ok?
    ensures Handle(e.(name := "CastError")).value.message != Some("Invalid ID format")
  {
    var keys := e.keyValue.value;
    var field := if keys == [] then UndefinedText else keys[0];
    var m := field + " already exists";
    assert m[|m| - 1] != "Invalid ID format"[16];
  }

  /** Every classified kind answers 400; only the default branch can answer
      with another code. A cast error that also carries code 11000 is taken
      for a duplicate-key error, and so needs its `keyValue`. */
  lemma ClassifiedAre400(e: Failure)
    requires IsValidation(e) || (IsDuplicate(e) && e.keyValue.Some?) || (!IsDuplicate(e) && IsCast(e))
    ensures Handle(e).Ok? && Handle(e).value.code == 400
  {
  }

  /** An unclassified error without a status code answers 500. */
  lemma DefaultIs500(e: Failure)
    requires !IsValidation(e) && !IsDuplicate(e) && !IsCast(e)
    requires e.statusCode == None || e.statusCode == Some(0)
    ensures Handle(e).Ok? && Handle(e).value.code == 500
  {
  }
}
