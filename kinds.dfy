/** The records shared by both generations of the plugin: validation items,
    documentation examples, error kinds and the faults the source lets throw. */
module Kinds {
  import opened Wrappers

  /** One field-level schema violation as it appears in a response body. The
      rule-specific `params` are modelled as a string-to-string mapping. */
  datatype ValidationItem = ValidationItem(
    instancePath: string,
    schemaPath: string,
    keyword: string,
    params: map<string, string>,
    message: string)

  /** One raw failure reported by the host's schema validator; its `message`
      may be missing. */
  datatype RawFailure = RawFailure(
    instancePath: string,
    schemaPath: string,
    keyword: string,
    params: map<string, string>,
    message: Option<string>)

  /** What the validator hands over: a single failure or an array of them. */
  datatype FailureInput = Single(failure: RawFailure) | Several(failures: seq<RawFailure>)

  /** The `example` attached to a kind for documentation; every field is
      optional and overrides the generated example value. */
  datatype Example = Example(
    message: Option<string>,
    validation: Option<seq<ValidationItem>>,
    validationContext: Option<string>)

  /** An error kind: the static declaration shared by every error it raises.
      `message` is a template (see Format.Render). */
  datatype ErrorKind = ErrorKind(
    statusCode: int,
    code: string,
    message: string,
    description: Option<string>,
    example: Option<Example>)

  /** A thrown value as the plugin's error handler reads it: any property may
      be missing except the message. */
  datatype Raised = Raised(
    statusCode: Option<int>,
    code: Option<string>,
    message: string,
    validation: Option<seq<ValidationItem>>,
    validationContext: Option<string>)

  /** The TypeErrors the source raises when a lookup finds nothing. */
  datatype Fault =
    | UnknownErrorName(name: string)   // `allErrors[name]` is undefined
    | NoCatalogEntry(statusCode: int)  // `httpErrorsByStatusCode[status]` is undefined
}
