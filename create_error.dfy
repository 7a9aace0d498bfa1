/** src/create-error.ts: the class-based generation of the taxonomy. A kind is
    a class whose statics hold status, code and message template; an instance
    copies status and code from its class and renders the template with the
    constructor's arguments. */
module BetterErrors {
  import opened Wrappers
  import opened Kinds
  import opened JsValues
  import Format
  import Validation

  /** An error instance (`FastifyBetterError`). Its fields are assigned by the
      constructor and, for the validation and cause variants, just after it. */
  class BetterError {
    var statusCode: int
    var code: string
    var message: string
    var validation: Option<seq<ValidationItem>>
    var validationContext: Option<string>
    var cause: Option<NativeError>

    /** `new Kind(...args)`: status and code from the kind, the message its
        template rendered with exactly `args`. */
    constructor (kind: ErrorKind, args: seq<string>)
      ensures statusCode == kind.statusCode && code == kind.code
      ensures message == Format.Render(kind.message, args)
      ensures validation == None && validationContext == None && cause == None
    {
      statusCode := kind.statusCode;
      code := kind.code;
      message := Format.Render(kind.message, args);
      validation := None;
      validationContext := None;
      cause := None;
    }

    /** The instance as the plugin's error handler sees it when it is thrown. */
    function AsRaised(): (r: Raised)
      reads this
      ensures r.statusCode == Some(statusCode) && r.code == Some(code) && r.message == message
      ensures r.validation == validation && r.validationContext == validationContext
    {
      Raised(Some(statusCode), Some(code), message, validation, validationContext)
    }
  }

  /** The options object of `createError`. */
  datatype CreateErrorOptions = CreateErrorOptions(
    statusCode: int,
    code: string,
    message: string,
    description: Option<string>,
    example: Option<Example>)

  /** `createError({...})`: a new kind whose statics are the given fields. */
  function CreateError(opts: CreateErrorOptions): (kind: ErrorKind)
    ensures kind.statusCode == opts.statusCode && kind.code == opts.code
    ensures kind.message == opts.message
    ensures kind.description == opts.description && kind.example == opts.example
  {
    ErrorKind(opts.statusCode, opts.code, opts.message, opts.description, opts.example)
  }

  /** `Kind.equals(err)`, read for its truthiness: `err` must be an object whose
      `code` is a non-empty string equal to the kind's code. */
  function Equals(kind: ErrorKind, err: Value): (matches: bool)
    ensures matches <==> err == Object(Str(kind.code)) && kind.code != ""
  {
    Truthy(err) && err.Object? && Truthy(err.code) && err.code == Str(kind.code)
  }

  /** `Kind.fromSchemaValidator(validation, validationContext)`. The validator
      never reports zero failures; with none there is no first failure and the
      source throws. */
  method FromSchemaValidator(kind: ErrorKind, input: FailureInput, context: Option<string>)
    returns (e: BetterError)
    requires Validation.Failures(input) != []
    ensures fresh(e)
    ensures e.statusCode == kind.statusCode && e.code == kind.code
    ensures e.message == Format.Render(kind.message, [Validation.Headline(Validation.Failures(input)[0], context)])
    ensures e.validation == Some(Validation.ToItems(Validation.Failures(input)))
    ensures e.validationContext == context && e.cause == None
  {
    var errors := Validation.Failures(input);
    var first := errors[0];
    e := new BetterError(kind, [Validation.Headline(first, context)]);
    e.validation := Some(Validation.ToItems(errors));
    e.validationContext := context;
  }

  /** `Kind.fromError(err)`: an instance of the kind built from the wrapped
      error's message, with the wrapped error as its cause. */
  method FromError(kind: ErrorKind, err: NativeError) returns (e: BetterError)
    ensures fresh(e)
    ensures e.statusCode == kind.statusCode && e.code == kind.code
    ensures e.message == Format.Render(kind.message, [err.message])
    ensures e.cause == Some(err)
    ensures e.validation == None && e.validationContext == None
  {
    e := new BetterError(kind, [err.message]);
    e.cause := Some(err);
  }

  /** `Kind.from(err)` of a kind made by `createError`: the sole format argument
      is the wrapped error's text in brackets. */
  method From(kind: ErrorKind, err: NativeError) returns (e: BetterError)
    ensures fresh(e)
    ensures e.statusCode == kind.statusCode && e.code == kind.code
    ensures e.message == Format.Render(kind.message, ["[" + err.ToString() + "]"])
    ensures e.validation == None && e.validationContext == None && e.cause == None
  {
    e := new BetterError(kind, ["[" + err.ToString() + "]"]);
  }

  /** What `fromSchemaValidator` leaves in `message` depends on the kind's
      template: a `%s` template yields the headline, a template without `%`
      (every class of the standard catalog) keeps its own text and drops it. */
  lemma ValidationMessageOfKind(kind: ErrorKind, first: RawFailure, context: Option<string>)
    ensures kind.message == "%s" ==>
      Format.Render(kind.message, [Validation.Headline(first, context)]) == Validation.Headline(first, context)
    ensures '%' !in kind.message ==>
      Format.Render(kind.message, [Validation.Headline(first, context)]) == kind.message
  {
    if kind.message == "%s" {
      Format.RenderSolePlaceholder(Validation.Headline(first, context));
    }
    if '%' !in kind.message {
      Format.RenderWithoutPercent(kind.message, [Validation.Headline(first, context)]);
    }
  }

  /** An instance built without arguments carries exactly the statics given to
      `createError`. */
  lemma InstanceWithoutArgs(opts: CreateErrorOptions)
    ensures Format.Render(CreateError(opts).message, []) == opts.message
  {
    Format.RenderWithoutArgs(opts.message);
  }

  /** `equals` classifies by code alone: an instance of a kind with a non-empty
      code is matched by every kind with that code and by no other. */
  lemma EqualsMatchesByCode(kind: ErrorKind, other: ErrorKind)
    requires other.code != ""
    ensures Equals(kind, Object(Str(other.code))) <==> kind.code == other.code
  {
  }
}
