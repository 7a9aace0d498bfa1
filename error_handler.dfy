/** The body of the plugin's error handler (src/index.ts): the status and
    JSON body chosen for a thrown value. Sending the reply is left to the
    host framework and is not part of this model. */
module ErrorHandler {
  import opened Wrappers
  import opened Kinds
  import Validation
  import AppErrors

  /** The two shapes of response body. A validation reply may lack a code
      (it is copied as found); every other reply carries one. */
  datatype Body =
    | HttpErrorBody(statusCode: int, code: string, message: string)
    | BadRequestBody(statusCode: int, codeIfAny: Option<string>, message: string,
                     validation: seq<ValidationItem>, validationContext: Option<string>)

  /** The status line and body the handler sends. */
  datatype Reply = Reply(status: int, body: Body)

  /** Status used when the thrown value declares none. */
  const DefaultStatus: int := 500

  /** The handler's decision. Any value carrying validation detail (an empty
      array included, since every array is truthy) is answered 400; otherwise
      the status is the value's own or 500, and a missing code is taken from
      the catalog entry for that status. Without a code and without such an
      entry the source reads a property of `undefined` and throws. */
  function Respond(e: Raised): (r: Result<Reply, Fault>)
    ensures r.Ok? ==> r.value.status == r.value.body.statusCode
    ensures r.Ok? ==> r.value.body.message == e.message
    ensures e.validation.Some? ==>
      && r.Ok? && r.value.status == 400 && r.value.body.BadRequestBody?
      && r.value.body.codeIfAny == e.code
      && r.value.body.validation == e.validation.value
      && r.value.body.validationContext == e.validationContext
    ensures e.validation.None? ==>
      (r.Ok? <==> e.code.Some? || AppErrors.NameOfStatus(e.statusCode.GetOr(DefaultStatus)).Some?)
    ensures e.validation.None? && r.Ok? ==>
      && r.value.status == e.statusCode.GetOr(DefaultStatus)
      && r.value.body.HttpErrorBody?
      && (e.code.Some? ==> r.value.body.code == e.code.value)
      && (e.code.None? ==>
            r.value.body.code == AppErrors.HttpErrorsByStatusCode(r.value.status).value.code)
    ensures e.validation.None? && r.Err? ==>
      r.error == NoCatalogEntry(e.statusCode.GetOr(DefaultStatus))
  {
    if e.validation.Some? then
      Ok(Reply(400, BadRequestBody(400, e.code, e.message, e.validation.value, e.validationContext)))
    else
      var statusCode := e.statusCode.GetOr(DefaultStatus);
      if e.code.Some? then
        Ok(Reply(statusCode, HttpErrorBody(statusCode, e.code.value, e.message)))
      else
        match AppErrors.HttpErrorsByStatusCode(statusCode)
        case Some(entry) => Ok(Reply(statusCode, HttpErrorBody(statusCode, entry.code, e.message)))
        case None => Err(NoCatalogEntry(statusCode))
  }

  /** A kind thrown as it is (`throw app.errors.NotFoundError`): the handler
      reads the kind's own status, code and message, and finds no
      validation detail on it. */
  function Thrown(kind: ErrorKind): (r: Raised)
    ensures r.statusCode == Some(kind.statusCode) && r.code == Some(kind.code)
    ensures r.message == kind.message
    ensures r.validation == None && r.validationContext == None
  {
    Raised(Some(kind.statusCode), Some(kind.code), kind.message, None, None)
  }

  /** A thrown kind is answered with its own status, code and message
      template, whatever its status and whether or not the catalog has it. */
  lemma ThrownKindAnswersItself(kind: ErrorKind)
    ensures Respond(Thrown(kind)) ==
      Ok(Reply(kind.statusCode, HttpErrorBody(kind.statusCode, kind.code, kind.message)))
  {
  }

  /** Validation detail decides the status, overriding any status the value
      declares, and the reply does not depend on that status. */
  lemma ValidationOverridesStatus(e: Raised, statusCode: Option<int>)
    requires e.validation.Some?
    ensures Respond(e.(statusCode := statusCode)) == Respond(e)
    ensures Respond(e).value.status == 400
  {
  }

  /** The reply to the error `ValidationError.fromSchemaValidator` builds: 400,
      `FST_ERR_VALIDATION`, the headline as message, and one item per
      failure, in order. */
  method RespondToValidationFailure(input: FailureInput, context: Option<string>)
    returns (r: Result<Reply, Fault>)
    requires Validation.Failures(input) != []
    ensures r == Ok(Reply(400, BadRequestBody(400, Some("FST_ERR_VALIDATION"),
      Validation.Headline(Validation.Failures(input)[0], context),
      Validation.ToItems(Validation.Failures(input)), context)))
    ensures |r.value.body.validation| == |Validation.Failures(input)|
  {
    var e := AppErrors.FromSchemaValidator(input, context);
    r := Respond(e.AsRaised());
  }

  /** A value without status and code gets 500 and the catalog's
      `ERR_INTERNAL_SERVER_ERROR`. */
  lemma BareErrorIsInternalServerError(message: string)
    ensures Respond(Raised(None, None, message, None, None)) ==
      Ok(Reply(500, HttpErrorBody(500, "ERR_INTERNAL_SERVER_ERROR", message)))
  {
    assert AppErrors.NameOfStatus(500) == Some(AppErrors.InternalServerError);
  }

  /** A value with status 406 or 413 and no code makes the handler fail: the
      data catalog has no entry for them, although src/https-errors.ts
      declares classes for both. */
  lemma UncataloguedStatusWithoutCodeFails(statusCode: int, message: string)
    requires statusCode == 406 || statusCode == 413
    ensures Respond(Raised(Some(statusCode), None, message, None, None)) == Err(NoCatalogEntry(statusCode))
  {
  }
}
