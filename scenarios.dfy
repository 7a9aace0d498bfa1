/** Scenarios of the plugin, after test/index.test.ts: what the handler
    answers to the errors its routes throw, and the schemas `useErrors`
    returns for its routes. Each scenario is stated for any error table
    holding the kinds it names; `TestTableHoldsScenarioKinds` shows that the
    test's table (`AppErrors.AllErrors` of one custom kind) is such a table. */
module Scenarios {
  import opened Wrappers
  import opened Kinds
  import BetterErrors
  import Validation
  import AppErrors
  import ErrorHandler
  import SchemaGrouper

  /** The custom kind the test registers. The test passes one object to the
      positional `createError` of src/index.ts; the kind it expects is the one
      the object form of src/create-error.ts builds, used here instead. */
  function CustomError(): (kind: ErrorKind)
    ensures kind.statusCode == 400 && kind.code == "ERR_CUSTOM" && kind.message == "Custom error"
  {
    BetterErrors.CreateError(BetterErrors.CreateErrorOptions(400, "ERR_CUSTOM", "Custom error", None, None))
  }

  /** Throwing the table's `BadRequestError` is answered 400 `ERR_BAD_REQUEST`. */
  lemma ThrowBadRequestError(all: map<string, ErrorKind>)
    requires "BadRequestError" in all && all["BadRequestError"] == AppErrors.HttpError(AppErrors.BadRequestError)
    ensures ErrorHandler.Respond(ErrorHandler.Thrown(all["BadRequestError"])) ==
      Ok(ErrorHandler.Reply(400, ErrorHandler.HttpErrorBody(400, "ERR_BAD_REQUEST", "Bad Request")))
  {
    ErrorHandler.ThrownKindAnswersItself(all["BadRequestError"]);
  }

  /** Throwing the table's `CustomError` is answered 400 `ERR_CUSTOM`. */
  lemma ThrowCustomError(all: map<string, ErrorKind>)
    requires "CustomError" in all && all["CustomError"] == CustomError()
    ensures ErrorHandler.Respond(ErrorHandler.Thrown(all["CustomError"])) ==
      Ok(ErrorHandler.Reply(400, ErrorHandler.HttpErrorBody(400, "ERR_CUSTOM", "Custom error")))
  {
    ErrorHandler.ThrownKindAnswersItself(all["CustomError"]);
  }

  /** A route parameter `test` where a number is required: one failure at
      `/id` under the `type` keyword. */
  function NotANumber(): RawFailure {
    RawFailure("/id", "#/properties/id/type", "type", map["type" := "number"], Some("must be number"))
  }

  /** The headline for that failure in the `params` context. */
  lemma NotANumberHeadline()
    ensures Validation.Headline(NotANumber(), Some("params")) == "params/id must be number"
  {
  }

  /** The item the test expects for that failure. */
  function NotANumberItem(): ValidationItem {
    ValidationItem("/id", "#/properties/id/type", "type", map["type" := "number"], "must be number")
  }

  /** The error Fastify itself raises when the route's `params` schema
      rejects `/id`: status 400, code `FST_ERR_VALIDATION`, the headline as
      message, the failure as its one validation item and `params` as the
      context. */
  function HostValidationError(): Raised {
    Raised(Some(400), Some("FST_ERR_VALIDATION"), "params/id must be number", Some([NotANumberItem()]), Some("params"))
  }

  /** The handler's reply to that error: 400 `FST_ERR_VALIDATION` with the
      headline and exactly the one item the test expects. */
  lemma RespondToNotANumber()
    ensures var r := ErrorHandler.Respond(HostValidationError());
      && r.Ok? && r.value.status == 400
      && r.value.body.BadRequestBody? && r.value.body.codeIfAny == Some("FST_ERR_VALIDATION")
      && r.value.body.message == "params/id must be number"
      && r.value.body.validation ==
        [ValidationItem("/id", "#/properties/id/type", "type", map["type" := "number"], "must be number")]
      && r.value.body.validationContext == Some("params")
  {
  }

  /** The test's error table holds the kinds the scenarios name: the three
      defaults under their own keys, and the custom kind it registers. */
  lemma TestTableHoldsScenarioKinds()
    ensures var all := AppErrors.AllErrors(map["CustomError" := CustomError()]);
      && "NotFoundError" in all && all["NotFoundError"] == AppErrors.HttpError(AppErrors.NotFoundError)
      && "BadRequestError" in all && all["BadRequestError"] == AppErrors.HttpError(AppErrors.BadRequestError)
      && "ValidationError" in all && all["ValidationError"] == AppErrors.ValidationErrorKind
      && "CustomError" in all && all["CustomError"] == CustomError()
  {
    AppErrors.DefaultErrorsHoldNotFound();
    AppErrors.DefaultErrorsHoldBadRequest();
    AppErrors.DefaultErrorsHoldValidation();
  }

  /** `useErrors(['NotFoundError'])`: one `HttpError` reference under 404. */
  lemma UseNotFoundError(all: map<string, ErrorKind>)
    requires "NotFoundError" in all && all["NotFoundError"] == AppErrors.HttpError(AppErrors.NotFoundError)
    ensures SchemaGrouper.UseErrorsSpec(AppErrors.HttpErrorsByStatusCode, all, [SchemaGrouper.Named("NotFoundError")]) ==
      Ok(map[404 := SchemaGrouper.SchemaRef("HttpError",
        map["ERR_NOT_FOUND" := SchemaGrouper.ExampleDoc("ERR_NOT_FOUND", None,
          SchemaGrouper.ExampleValue(404, "ERR_NOT_FOUND", "Not Found", None, None))],
        "Not Found")])
  {
    var refs := [SchemaGrouper.Named("NotFoundError")];
    var item := SchemaGrouper.UseErrorItem(404, "ERR_NOT_FOUND", "Not Found", None, None);
    assert refs[..0] == [];
    assert SchemaGrouper.Resolve(all, refs[..0]) == Ok([]);
    assert AppErrors.HttpError(AppErrors.NotFoundError) == ErrorKind(404, "ERR_NOT_FOUND", "Not Found", None, None);
    assert SchemaGrouper.ItemOf(all, refs[0]) == Ok(item);
    assert [] + [item] == [item];
    assert SchemaGrouper.Resolve(all, refs) == Ok([item]);
    var items := [item];
    assert items[..0] == [];
    var bucket := SchemaGrouper.Bucket(404, items);
    assert SchemaGrouper.Group(items[..0]) == [];
    assert [] + [bucket] == [bucket];
    assert SchemaGrouper.Group(items) == [bucket];
    assert [bucket][..0] == [];
    assert SchemaGrouper.Examples(items[..0]) == map[];
    assert SchemaGrouper.Examples(items) == map["ERR_NOT_FOUND" := SchemaGrouper.ExampleOf(item)];
    assert AppErrors.HttpErrorsByStatusCode(404) == Some(AppErrors.HttpError(AppErrors.NotFoundError));
    var schema := SchemaGrouper.SchemaRef("HttpError", SchemaGrouper.Examples(items), "Not Found");
    assert SchemaGrouper.SchemaOf(AppErrors.HttpErrorsByStatusCode, bucket) == Ok(schema);
    assert SchemaGrouper.SchemasOf(AppErrors.HttpErrorsByStatusCode, [bucket][..0]) == Ok(map[]);
    assert SchemaGrouper.SchemasOf(AppErrors.HttpErrorsByStatusCode, [bucket]) == Ok(map[404 := schema]);
  }

  /** `useErrors(['BadRequestError', 'CustomError'])`: both land under 400,
      refer to `BadRequestError`, and the custom kind is described by the
      catalog's `Bad Request`. */
  lemma UseBadRequestAndCustomError(all: map<string, ErrorKind>)
    requires "BadRequestError" in all && all["BadRequestError"] == AppErrors.HttpError(AppErrors.BadRequestError)
    requires "CustomError" in all && all["CustomError"] == CustomError()
    ensures SchemaGrouper.UseErrorsSpec(AppErrors.HttpErrorsByStatusCode, all,
      [SchemaGrouper.Named("BadRequestError"), SchemaGrouper.Named("CustomError")]) ==
      Ok(map[400 := SchemaGrouper.SchemaRef("BadRequestError",
        map["ERR_BAD_REQUEST" := SchemaGrouper.ExampleDoc("ERR_BAD_REQUEST", None,
              SchemaGrouper.ExampleValue(400, "ERR_BAD_REQUEST", "Bad Request", None, None)),
            "ERR_CUSTOM" := SchemaGrouper.ExampleDoc("ERR_CUSTOM", None,
              SchemaGrouper.ExampleValue(400, "ERR_CUSTOM", "Custom error", None, None))],
        "Bad Request")])
  {
    var refs := [SchemaGrouper.Named("BadRequestError"), SchemaGrouper.Named("CustomError")];
    var first := SchemaGrouper.UseErrorItem(400, "ERR_BAD_REQUEST", "Bad Request", None, None);
    var second := SchemaGrouper.UseErrorItem(400, "ERR_CUSTOM", "Custom error", None, None);
    assert AppErrors.HttpError(AppErrors.BadRequestError) == ErrorKind(400, "ERR_BAD_REQUEST", "Bad Request", None, None);
    assert refs[..1][..0] == [] && refs[..1] == [refs[0]] && refs[..2 - 1] == refs[..1];
    assert SchemaGrouper.Resolve(all, refs[..1][..0]) == Ok([]);
    assert SchemaGrouper.ItemOf(all, refs[0]) == Ok(first);
    assert [] + [first] == [first];
    assert SchemaGrouper.Resolve(all, refs[..1]) == Ok([first]);
    assert SchemaGrouper.ItemOf(all, refs[1]) == Ok(second);
    assert [first] + [second] == [first, second];
    assert SchemaGrouper.Resolve(all, refs) == Ok([first, second]);
    var items := [first, second];
    assert items[..1][..0] == [] && items[..1] == [first] && items[..2 - 1] == items[..1];
    assert SchemaGrouper.Group(items[..1][..0]) == [];
    assert [] + [SchemaGrouper.Bucket(400, [first])] == [SchemaGrouper.Bucket(400, [first])];
    assert SchemaGrouper.Group(items[..1]) == [SchemaGrouper.Bucket(400, [first])];
    var bucket := SchemaGrouper.Bucket(400, items);
    assert [first] + [second] == items;
    assert SchemaGrouper.Group(items) == [bucket];
    assert [bucket][..0] == [];
    assert SchemaGrouper.Examples(items[..1][..0]) == map[];
    assert SchemaGrouper.Examples(items[..1]) == map["ERR_BAD_REQUEST" := SchemaGrouper.ExampleOf(first)];
    assert SchemaGrouper.Examples(items) ==
      map["ERR_BAD_REQUEST" := SchemaGrouper.ExampleOf(first), "ERR_CUSTOM" := SchemaGrouper.ExampleOf(second)];
    assert AppErrors.HttpErrorsByStatusCode(400) == Some(AppErrors.HttpError(AppErrors.BadRequestError));
    var schema := SchemaGrouper.SchemaRef("BadRequestError", SchemaGrouper.Examples(items), "Bad Request");
    assert SchemaGrouper.SchemaOf(AppErrors.HttpErrorsByStatusCode, bucket) == Ok(schema);
    assert SchemaGrouper.SchemasOf(AppErrors.HttpErrorsByStatusCode, [bucket][..0]) == Ok(map[]);
    assert SchemaGrouper.SchemasOf(AppErrors.HttpErrorsByStatusCode, [bucket]) == Ok(map[400 := schema]);
  }

  /** `useErrors(['ValidationError'])`: the example takes the kind's
      documented message, item and context over the template. */
  lemma UseValidationError(all: map<string, ErrorKind>)
    requires "ValidationError" in all && all["ValidationError"] == AppErrors.ValidationErrorKind
    ensures SchemaGrouper.UseErrorsSpec(AppErrors.HttpErrorsByStatusCode, all, [SchemaGrouper.Named("ValidationError")]) ==
      Ok(map[400 := SchemaGrouper.SchemaRef("BadRequestError",
        map["FST_ERR_VALIDATION" := SchemaGrouper.ExampleDoc("FST_ERR_VALIDATION", None,
          SchemaGrouper.ExampleValue(400, "FST_ERR_VALIDATION", "params/id must match format \"uuid\"",
            Some([ValidationItem("/id", "#/properties/id/format", "format", map["format" := "uuid"],
              "must match format \"uuid\"")]),
            Some("params")))],
        "Bad Request")])
  {
    var refs := [SchemaGrouper.Named("ValidationError")];
    var kind := AppErrors.ValidationErrorKind;
    var item := SchemaGrouper.UseErrorItem(400, "FST_ERR_VALIDATION", "%s", None, kind.example);
    assert refs[..0] == [];
    assert SchemaGrouper.Resolve(all, refs[..0]) == Ok([]);
    assert SchemaGrouper.ItemOf(all, refs[0]) == Ok(item);
    assert [] + [item] == [item];
    assert SchemaGrouper.Resolve(all, refs) == Ok([item]);
    var items := [item];
    assert items[..0] == [];
    var bucket := SchemaGrouper.Bucket(400, items);
    assert SchemaGrouper.Group(items[..0]) == [];
    assert [] + [bucket] == [bucket];
    assert SchemaGrouper.Group(items) == [bucket];
    assert [bucket][..0] == [];
    assert SchemaGrouper.Examples(items[..0]) == map[];
    assert SchemaGrouper.Examples(items) == map["FST_ERR_VALIDATION" := SchemaGrouper.ExampleOf(item)];
    assert AppErrors.HttpErrorsByStatusCode(400) == Some(AppErrors.HttpError(AppErrors.BadRequestError));
    var schema := SchemaGrouper.SchemaRef("BadRequestError", SchemaGrouper.Examples(items), "Bad Request");
    assert SchemaGrouper.SchemaOf(AppErrors.HttpErrorsByStatusCode, bucket) == Ok(schema);
    assert SchemaGrouper.SchemasOf(AppErrors.HttpErrorsByStatusCode, [bucket][..0]) == Ok(map[]);
    assert SchemaGrouper.SchemasOf(AppErrors.HttpErrorsByStatusCode, [bucket]) == Ok(map[400 := schema]);
  }

  /** A key the table does not hold makes `useErrors` throw, even after a
      key it does hold. */
  lemma UseUnknownName(all: map<string, ErrorKind>, name: string)
    requires "NotFoundError" in all && name !in all
    ensures SchemaGrouper.UseErrorsSpec(AppErrors.HttpErrorsByStatusCode, all, [SchemaGrouper.Named("NotFoundError"), SchemaGrouper.Named(name)]) ==
      Err(UnknownErrorName(name))
  {
    var refs := [SchemaGrouper.Named("NotFoundError"), SchemaGrouper.Named(name)];
    assert refs[..1][..0] == [] && refs[..1] == [refs[0]] && refs[..2 - 1] == refs[..1];
    assert SchemaGrouper.Resolve(all, refs[..1][..0]) == Ok([]);
    assert SchemaGrouper.Resolve(all, refs[..1]).Ok?;
    assert SchemaGrouper.ItemOf(all, refs[1]) == Err(UnknownErrorName(name));
  }
}
