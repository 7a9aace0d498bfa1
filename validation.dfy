/** The validation adapter shared by `ValidationError.fromSchemaValidator`
    (src/index.ts) and `FastifyBetterError.fromSchemaValidator`
    (src/create-error.ts): normalising the validator's input, copying each
    failure into a ValidationItem, and the headline message. */
module Validation {
  import opened Wrappers
  import opened Kinds

  /** `Array.isArray(validation) ? validation : [validation]`. */
  function Failures(input: FailureInput): (fs: seq<RawFailure>)
    ensures input.Single? ==> fs == [input.failure]
    ensures input.Several? ==> fs == input.failures
  {
    match input
    case Single(f) => [f]
    case Several(fs) => fs
  }

  /** The item built for one failure; a missing message becomes `''`. */
  function ToItem(f: RawFailure): ValidationItem {
    ValidationItem(f.instancePath, f.schemaPath, f.keyword, f.params, f.message.GetOr(""))
  }

  /** `errors.map(...)`: one item per failure, in the validator's order, each
      copying the path, schema path, keyword and params. */
  function ToItems(fs: seq<RawFailure>): (items: seq<ValidationItem>)
    ensures |items| == |fs|
    ensures forall i :: 0 <= i < |fs| ==>
      && items[i].instancePath == fs[i].instancePath
      && items[i].schemaPath == fs[i].schemaPath
      && items[i].keyword == fs[i].keyword
      && items[i].params == fs[i].params
    ensures forall i :: 0 <= i < |fs| ==>
      items[i].message == if fs[i].message.Some? then fs[i].message.value else ""
  {
    if fs == [] then [] else [ToItem(fs[0])] + ToItems(fs[1..])
  }

  /** A possibly missing message inside a template literal: `${undefined}` is
      the text "undefined". */
  function MessageText(m: Option<string>): string {
    match m
    case Some(s) => s
    case None => "undefined"
  }

  /** The headline message: the context (when truthy), the first failure's
      path, a space and its message. An empty context adds nothing either way. */
  function Headline(first: RawFailure, context: Option<string>): (r: string)
    ensures r == context.GetOr("") + first.instancePath + " " + MessageText(first.message)
  {
    if context.Some? && context.value != "" then
      context.value + first.instancePath + " " + MessageText(first.message)
    else
      first.instancePath + " " + MessageText(first.message)
  }

  /** A single failure is handled exactly as a one-element array. */
  lemma SingleIsOneElementArray(f: RawFailure)
    ensures ToItems(Failures(Single(f))) == ToItems(Failures(Several([f])))
    ensures |ToItems(Failures(Single(f)))| == 1
  {
  }

  /** Items of a concatenation are the concatenation of the items: the
      adapter treats every failure alike, whatever precedes it. */
  lemma {:induction false} ToItemsAppend(a: seq<RawFailure>, b: seq<RawFailure>)
    ensures ToItems(a + b) == ToItems(a) + ToItems(b)
    decreases |a|
  {
    if a != [] {
      assert (a + b)[1..] == a[1..] + b;
      ToItemsAppend(a[1..], b);
    }
  }
}
