# fastify-better-error, modelled in Dafny

This project models the core of `fastify-better-error`, a Fastify plugin that gives HTTP error
responses one shape and documents them. The plugin has three parts:

- **Error kinds.** A kind fixes a status code, an application code and a message template. The
  model covers both generations of the taxonomy:
  - the class-based one in `src/create-error.ts`, with the standard classes in
    `src/https-errors.ts`;
  - the data-based one in `src/index.ts`: the positional `createError`, the `httpErrors` table and
    the `ValidationError` kind.
- **The error handler.** For every thrown value it chooses a status and a JSON body.
- **`useErrors`.** It turns a route's list of errors into response schemas: one reference per
  status code, with one example per application code and the catalog's reason phrase as the
  description.

The modules follow the source files:

| module | file | source |
|---|---|---|
| `Wrappers` | wrappers.dfy | `Option` and `Result` |
| `JsValues` | js_values.dfy | JavaScript truthiness, the `code` property `equals` reads, `Error.prototype.toString` |
| `Format` | format.dfy | message templates: positional `%s` substitution |
| `Kinds` | kinds.dfy | validation items, examples, error kinds, thrown values, faults |
| `Validation` | validation.dfy | the validation adapter shared by both `fromSchemaValidator`s |
| `BetterErrors` | create_error.dfy | `src/create-error.ts`: the instance class, `createError`, `equals`, `fromSchemaValidator`, `fromError`, `from` |
| `HttpsErrors` | https_errors.dfy | `src/https-errors.ts`: the 41 standard classes |
| `AppErrors` | app_errors.dfy | `src/index.ts` declarations: `createError`, `ValidationError`, `httpErrors`, `httpErrorsByStatusCode`, `defaultErrors`, the merged `allErrors` |
| `ErrorHandler` | error_handler.dfy | `src/index.ts`: the error handler's decision |
| `SchemaGrouper` | schema_grouper.dfy | `src/index.ts`: `useErrors` |
| `Scenarios` | scenarios.dfy | scenarios of `test/index.test.ts` |

How the source is represented:

- **Kinds and instances.**
  - An error kind is an immutable value (`Kinds.ErrorKind`). Its fields are written once, on a
    fresh object, before the kind escapes.
  - An error instance is a class (`BetterErrors.BetterError`). Its constructor assigns status, code
    and message. `fromSchemaValidator` and `fromError` then assign `validation`,
    `validationContext` and `cause` on the new instance.
- **The standard catalog.** Each class of `src/https-errors.ts` is a constructor of the enumeration
  `HttpsErrors.CatalogClass`. Each static field is a function of it. Each code is also a named
  constant (`HttpsErrors.NotFoundCode`, ...), one per class.
- **The `httpErrors` table.**
  - Its keys are the enumeration `AppErrors.HttpErrorName`, with its status, code and message as
    functions.
  - `httpErrorsByStatusCode` is `AppErrors.HttpErrorsByStatusCode`: `AppErrors.NameOfStatus`
    followed by `AppErrors.HttpError`.
  - The error table the plugin builds, keyed by string, is `AppErrors.AllErrors`.
- **`useErrors`.** It is two methods whose loops follow the source's two `forEach` loops:
  - `CollectCodes` fills the `codes` map, kept as a sequence of buckets in insertion order.
  - `BuildSchemas` fills the `schemas` record, kept as a map from status code to schema reference.
  - The methods are proved equal to the specification functions `GroupedSpec`, `SchemasOf` and
    `UseErrorsSpec`. The lemmas about those functions state what the source promises.
  - The schema functions and lemmas take the status-code catalog as a parameter
    (`SchemaGrouper.Catalog`, a function from status code to optional kind). `UseErrors` passes
    `AppErrors.HttpErrorsByStatusCode`, as the source reads `httpErrorsByStatusCode`.
- **Faults.** Where the source reads a property of `undefined` and so throws, the model returns
  `Err(UnknownErrorName(..))` or `Err(NoCatalogEntry(..))`.

Where the code and the surrounding documentation disagree, the model follows the code:

- **Invalid status codes.** `createError` (`src/index.ts:170-185`, `src/create-error.ts:74-88`)
  never checks its status code, and the model accepts any integer too.
- **The two `createError` signatures.** `test/index.test.ts:6` imports the positional `createError`
  of `src/index.ts:170`, yet `test/index.test.ts:9-13` passes it one object. As written, that call
  takes the object as the status code and leaves code and message undefined.
  - Each file's own signature is modelled: `BetterErrors.CreateError` and `AppErrors.CreateError`.
  - `Scenarios.CustomError` substitutes the object form of `src/create-error.ts:74`, which builds the
    kind the test expects (400, `ERR_CUSTOM`, `Custom error`).

## Model

| member | source | states |
|---|---|---|
| JsValues.NativeError.ToString | src/create-error.ts:83 | the text `from` wraps: the name, the separator `: ` and the message, reducing to the other part when name or message is empty |
| Format.Render | src/create-error.ts:57 | defines the positional substitution: each `%s` takes the next argument, a `%s` with no argument left and every other character are copied |
| Format.RenderWithoutArgs | src/create-error.ts:57 | formatting a template with no arguments yields the template unchanged |
| Format.RenderWithoutPercent | src/create-error.ts:57 | a template without `%` ignores whatever arguments it is given |
| Format.RenderSolePlaceholder | src/index.ts:76 | the `%s` template of `ValidationError` renders to its single argument |
| Format.RenderFirstPlaceholder | src/create-error.ts:57 | arguments are consumed left to right: the first `%s` receives the first argument |
| Validation.Failures | src/index.ts:93 | a single failure becomes a one-element list, and a list is kept as it is |
| Validation.ToItems | src/index.ts:96-102 | one item per failure, same length and order; path, schema path, keyword and params are copied; a missing message becomes `''` |
| Validation.Headline | src/index.ts:95 | the headline is the context (when truthy), then the first failure's instance path, a space and its message; a missing message reads `undefined` |
| Validation.SingleIsOneElementArray | src/index.ts:93 | a single failure and the one-element list holding it give the same single item |
| Validation.ToItemsAppend | src/index.ts:96-102 | the items of a concatenation are the concatenation of the items, so every failure is copied independently of the others |
| BetterErrors.BetterError.constructor | src/create-error.ts:50-59 | an instance's status and code are its kind's; its message is the kind's template formatted with exactly the constructor's arguments; validation, context and cause are unset |
| BetterErrors.BetterError.AsRaised | src/index.ts:201-217 | the handler sees the instance's own status, code, message, validation and context |
| BetterErrors.CreateError | src/create-error.ts:74-81 | the returned kind's statics are the given status, code, message, description and example |
| BetterErrors.Equals | src/create-error.ts:24-26 | `equals(err)` is truthy iff `err` is an object whose `code` is a non-empty string equal to the kind's code |
| BetterErrors.EqualsMatchesByCode | src/create-error.ts:24-26 | `equals` classifies by code alone: it matches an object with a non-empty code iff that code is the kind's |
| BetterErrors.FromSchemaValidator | src/create-error.ts:28-42 | status and code come from the kind it is called on; the message is the kind's template formatted with the headline of the first failure; validation holds every failure in order; the context is stored verbatim |
| BetterErrors.ValidationMessageOfKind | src/create-error.ts:31-32 | on a `%s` kind the message is the headline; on a kind whose template has no `%` (every standard class) the headline is dropped |
| BetterErrors.FromError | src/create-error.ts:44-48 | an instance of the same kind whose message is formatted from the wrapped error's message and whose cause is the wrapped error |
| BetterErrors.From | src/create-error.ts:82-86 | the sole format argument is `[` + the wrapped error's `toString()` + `]` |
| BetterErrors.InstanceWithoutArgs | src/create-error.ts:55-57 | an instance of a `createError` kind built without arguments carries exactly the given message |
| HttpsErrors.Kind | src/https-errors.ts:3-8 | each class fixes one status, code and message, with no description or example |
| HttpsErrors.StatusInRange | src/https-errors.ts:3-288 | every status code lies in 400..511 |
| HttpsErrors.StatusIdentifiesClass | src/https-errors.ts:3-288 | looking a class's status code up finds that class |
| HttpsErrors.ClassOfStatusDeclaresIt | src/https-errors.ts:3-288 | the lookup by status finds a class exactly for the declared status codes, and that class declares the status asked for |
| HttpsErrors.StatusesDistinct | src/https-errors.ts:3-288 | no two classes share a status code |
| HttpsErrors.CodesDistinct | src/https-errors.ts:3-288 | no two classes share a code |
| HttpsErrors.CodeHasPrefix | src/https-errors.ts:3-288 | every code starts with `ERR_` |
| HttpsErrors.EveryClassOverridesMessage | src/https-errors.ts:3-288 | every class sets `overrideMessage` to true |
| HttpsErrors.NotFoundClass | src/https-errors.ts:31-36 | `NotFoundError` is (404, `ERR_NOT_FOUND`, `Not Found`) |
| HttpsErrors.InternalServerErrorClass | src/https-errors.ts:206-211 | `InternalServerError` is (500, `ERR_INTERNAL_SERVER_ERROR`, `Internal Server Error`) |
| HttpsErrors.DeclaresNotAcceptableAndPayloadTooLarge | src/https-errors.ts:45-99 | this catalog declares 406 `ERR_NOT_ACCEPTABLE` and 413 `ERR_PAYLOAD_TOO_LARGE` |
| HttpsErrors.NewInstance | src/https-errors.ts:3-8 | no class overrides the constructor, so an instance built without arguments carries exactly its class's status, code and message |
| HttpsErrors.EqualsRecognisesOwnClassOnly | src/create-error.ts:24-26 | an instance of one standard class is recognised by that class's `equals` and by no other class's |
| AppErrors.CreateError | src/index.ts:170-185 | the kind's status, code and message are the arguments; description and example come from the options, and are absent without them |
| AppErrors.FromSchemaValidator | src/index.ts:92-105 | status 400, code `FST_ERR_VALIDATION`, the headline of the first failure as message, every failure copied in order, and the context stored verbatim |
| AppErrors.HttpError | src/index.ts:119-159 | defines each `httpErrors` entry as `createError` of that key's status, code and message, without options |
| AppErrors.DefaultErrors | src/index.ts:161-164 | defines `defaultErrors` as every `httpErrors` entry under its key, plus `ValidationError` |
| AppErrors.DefaultErrorsHoldNotFound | src/index.ts:124 | `defaultErrors` holds the 404 kind under `NotFoundError` |
| AppErrors.DefaultErrorsHoldBadRequest | src/index.ts:120 | `defaultErrors` holds the 400 kind under `BadRequestError` |
| AppErrors.DefaultErrorsHoldValidation | src/index.ts:161-164 | `defaultErrors` holds the `ValidationError` kind under its own name |
| AppErrors.NameOfStatus | src/index.ts:168 | defines the inversion of the table by status: the key declaring a status, or nothing |
| AppErrors.HttpErrorsByStatusCode | src/index.ts:168 | defines `httpErrorsByStatusCode[status]` as the kind of the key that declares the status, or `undefined` |
| AppErrors.AllErrors | src/index.ts:194-197 | defines `allErrors` as the defaults merged with the caller's table |
| AppErrors.Merge | src/index.ts:194-197 | the merged table has the keys of both tables; a caller's kind replaces the default with the same key; other defaults stay |
| AppErrors.ByStatusFindsEveryKey | src/index.ts:168 | inverting the table by status finds every key under its own status code |
| AppErrors.ByStatusFindsOnlyTableKeys | src/index.ts:168 | the inversion finds a key exactly for the table's status codes, and the key found declares the status asked for |
| AppErrors.TableStatusesDistinct | src/index.ts:119-159 | no two keys of the table share a status code, so the inversion loses no kind |
| AppErrors.StatusAgreesWithClass | src/index.ts:119-159 | each key declares the status code of the standard class with the same name |
| AppErrors.MissingFromTable | src/index.ts:119-159 | of the standard classes, exactly `NotAcceptableError` and `PayloadTooLargeError` have no status in the table |
| AppErrors.TablesDifferAtNotAcceptableAndPayloadTooLarge | src/index.ts:168 | the inversion finds nothing for 406 and 413, and for every other standard class finds the key of the same name |
| ErrorHandler.Respond | src/index.ts:201-218 | validation detail (even an empty list) always gives 400 with code, message, validation and context copied; otherwise the status is the value's or 500; the message is passed verbatim; the catalog code is used only when the value has none; the handler fails iff there is neither a code nor a catalog entry for the status |
| ErrorHandler.Thrown | src/index.ts:212-216 | a thrown kind offers the handler its own status, code and message and no validation detail |
| ErrorHandler.ThrownKindAnswersItself | test/index.test.ts:34-48 | a thrown kind is answered with its own status, code and message, whether or not the catalog has its status |
| ErrorHandler.ValidationOverridesStatus | src/index.ts:202-209 | with validation detail the reply does not depend on the value's status and is 400 |
| ErrorHandler.RespondToValidationFailure | src/index.ts:202-209 | the error built by `ValidationError.fromSchemaValidator` is answered 400 `FST_ERR_VALIDATION` with the headline and one item per failure |
| ErrorHandler.BareErrorIsInternalServerError | src/index.ts:212-215 | a value with no status and no code is answered 500 `ERR_INTERNAL_SERVER_ERROR` |
| ErrorHandler.UncataloguedStatusWithoutCodeFails | src/index.ts:215 | a value with status 406 or 413 and no code makes the handler fail |
| SchemaGrouper.ItemOf | src/index.ts:229-247 | a key must be in the table, and otherwise the lookup fails with that name; the item copies status, code, message and example; the description is kept only for a kind passed as itself |
| SchemaGrouper.Resolve | src/index.ts:228-248 | resolution succeeds iff every argument resolves, giving one item per argument in order |
| SchemaGrouper.ResolveFailsAtFirstUnknownName | src/index.ts:231-234 | a failed resolution names the first argument that is a key missing from the table |
| SchemaGrouper.GroupedSpec | src/index.ts:228-254 | defines the first loop's outcome: the grouping of the resolved arguments, or resolution's fault |
| SchemaGrouper.Group | src/index.ts:249-253 | defines the grouping: the buckets after adding each item in input order to the bucket of its status, a new bucket going last |
| SchemaGrouper.Filter | src/index.ts:249-253 | defines the items of one status, in input order, against which the buckets are proved |
| SchemaGrouper.Find | src/index.ts:249 | `codes.has`: the position found holds the status; when none is found, no bucket has it |
| SchemaGrouper.GroupHasOneEntryPerStatus | src/index.ts:249-253 | the first loop yields exactly one bucket per distinct status code of the input |
| SchemaGrouper.GroupEntriesAreFilters | src/index.ts:249-253 | each bucket holds exactly the input's items with its status, in input order, and at least one |
| SchemaGrouper.GroupKeepsFirstSeenOrder | src/index.ts:225-253 | buckets appear in the order in which their status codes first appear in the input |
| SchemaGrouper.CollectCodes | src/index.ts:228-254 | the first loop's `codes` equals the grouping of the resolved arguments, or the loop fails as resolution does |
| SchemaGrouper.RefFor | src/index.ts:257 | the reference is `BadRequestError` iff the status is 400, and `HttpError` otherwise |
| SchemaGrouper.ExampleOf | src/index.ts:259-268 | an example's summary and code are the item's code, its description the item's, its value `{statusCode, code, message}` overridden by each field the item's example sets |
| SchemaGrouper.Examples | src/index.ts:259 | defines `x-examples`: each item's example under its code, a later item replacing an earlier one |
| SchemaGrouper.ExamplesKeyedByCode | src/index.ts:259 | `x-examples` has one key per distinct code of the bucket |
| SchemaGrouper.ExamplesLastWins | src/index.ts:259-268 | the example under a code documents the last item with that code |
| SchemaGrouper.SchemaOf | src/index.ts:257-270 | a bucket's schema succeeds iff the catalog has an entry for its status, and otherwise fails naming that status; its reference is chosen by status, its examples are those of the bucket's items, and its description is the catalog entry's message, whatever the items' own messages |
| SchemaGrouper.SchemasOf | src/index.ts:256-270 | defines the second loop's outcome: each bucket's schema under its status, or the fault of the first bucket without a catalog entry |
| SchemaGrouper.SchemasSucceedIffCatalogued | src/index.ts:269 | the second loop succeeds iff every bucket's status has a catalog entry |
| SchemaGrouper.SchemasKeyedByStatus | src/index.ts:256-258 | on success the record has exactly one key per bucket status |
| SchemaGrouper.SchemasOfEntries | src/index.ts:256-270 | on success each status maps to the schema built from its own bucket |
| SchemaGrouper.SchemasFailAtFirstUncatalogued | src/index.ts:269 | on failure the fault names the first bucket whose status the catalog lacks |
| SchemaGrouper.BuildSchemas | src/index.ts:256-271 | for any catalog, the second loop's record equals the schema specification of the buckets, or it fails at the first uncatalogued status |
| SchemaGrouper.UseErrorsSpec | src/index.ts:224-274 | defines `useErrors`: the schemas of the grouped, resolved arguments, or the first fault |
| SchemaGrouper.UseErrors | src/index.ts:224-274 | `useErrors` returns exactly the schemas of the grouped, resolved arguments, read against `httpErrorsByStatusCode`, or the fault of the source |
| SchemaGrouper.UseErrorsOnResolvedArguments | src/index.ts:224-274 | with resolvable arguments `useErrors` succeeds iff the catalog has every status of the input; the result has one key per distinct status, each a reference to `BadRequestError` (400) or `HttpError` documenting that status's items and described by the catalog entry's message; on failure the fault names a status of the input the catalog lacks |
| Scenarios.CustomError | test/index.test.ts:8-14 | the test's custom kind is 400 `ERR_CUSTOM` `Custom error` |
| Scenarios.ThrowBadRequestError | test/index.test.ts:34-48 | throwing the default `BadRequestError` is answered 400 `ERR_BAD_REQUEST` |
| Scenarios.ThrowCustomError | test/index.test.ts:72-92 | throwing the custom kind is answered 400 `ERR_CUSTOM` |
| Scenarios.NotANumberHeadline | src/index.ts:95 | the headline for the test's failing `/id` in the `params` context is `params/id must be number` |
| Scenarios.RespondToNotANumber | test/index.test.ts:113-126 | the validation error Fastify raises for the test's failing `/id` in `params` is answered 400 `FST_ERR_VALIDATION` with the headline, exactly the expected item and the context |
| Scenarios.TestTableHoldsScenarioKinds | test/index.test.ts:8-14 | the test's table (the defaults merged with the custom kind) holds `NotFoundError`, `BadRequestError`, `ValidationError` and `CustomError` as the scenarios require |
| Scenarios.UseNotFoundError | src/index.ts:224-274 | `useErrors(['NotFoundError'])` is one `HttpError` reference under 404 described `Not Found` |
| Scenarios.UseBadRequestAndCustomError | src/index.ts:256-270 | `useErrors(['BadRequestError', 'CustomError'])` puts both under 400, referring to `BadRequestError`, described `Bad Request` |
| Scenarios.UseValidationError | src/index.ts:259-268 | `useErrors(['ValidationError'])` documents the kind's example message, item and context instead of its template |
| Scenarios.UseUnknownName | src/index.ts:231-234 | a key missing from the table makes `useErrors` fail, even after a key that resolves |

## Left out

- Fastify wiring is not modelled: `fastifyPlugin`, `app.decorate`, `app.addSchema`, `setErrorHandler` and `reply.status().send()` are framework I/O. Only the status and body the handler chooses are modelled.
- TypeBox schema objects (`src/schemas.ts`, `src/index.ts:8-61`) are declarative; a schema is referred to by its `$id` string only.
- `@fastify/error`'s `createErrorBase` is a foreign library. Only the fields `src/index.ts:178-184` assigns are modelled.
- Format.Render: `quick-format-unescaped` is modelled by its `%s` substitution only. Other directives (`%d`, `%i`, `%f`, `%j`, `%o`, `%O`, `%%`) are copied as text, and quick-format's handling of arguments past the last `%s` is not modelled.
- Stack traces (`Error.captureStackTrace`, and `from` keeping `err.stack`) are runtime diagnostics and are not modelled.
- Validation parameters (`params`) are modelled as a string-to-string mapping rather than arbitrary JSON values.
- Numbers are integers: NaN, fractions and the JavaScript number width are not modelled.
- BetterErrors.Equals: models the truthiness of the result; the source returns the last operand evaluated (for example `''` or `undefined`) rather than `false`.
- AppErrors.StatusAgreesWithClass: relates the two catalogs by status code only. That each key's code and message equal those of the class with the same name is not proved, because comparing all 39 string pairs in one proof exceeds the verifier's budget.
- Scenarios.UseNotFoundError: like the other scenario lemmas, it is stated for any error table that holds the kinds it names, not for the test's table literally. `Scenarios.TestTableHoldsScenarioKinds` proves that the test's table is such a table.
- The insertion order of the keys of `x-examples` (built with `Object.fromEntries`, `src/index.ts:259`) is not modelled; it is a map.
- A thrown value is modelled with a `message` string (`Kinds.Raised`); a thrown value without a `message` property cannot be represented.
- The validation error that Fastify builds when a schema rejects a request is an input of the model (`Scenarios.HostValidationError`); Fastify's own construction of it is not modelled.
- JavaScript's enumeration order of the `schemas` record (ascending numeric keys) is not modelled; the record is a map. Bucket order is modelled and proved.
- SchemaGrouper.ExampleOf: an `example` object with an explicit `undefined` property would overwrite the field with `undefined` in the source; the model treats a missing and an `undefined` field alike.
- Invalid status codes are not rejected by the source, and the model does not reject them either.
- The TypeScript type-level machinery (`ErrorKeys`, `BetterErrorPlugin`) and the `expectTypeOf` and `inject` test harness have no run-time behaviour and are not modelled.
