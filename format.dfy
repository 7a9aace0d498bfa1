/** Message templates. Error kinds carry a template whose `%s` placeholders are
    replaced, left to right, by the arguments given when an instance is built. */
module Format {

  /** True when `t` starts with the placeholder `%s`. */
  predicate StartsWithPlaceholder(t: string) {
    |t| >= 2 && t[0] == '%' && t[1] == 's'
  }

  /** Positional substitution: each `%s` takes the next unused argument; a
      `%s` with no argument left, and every other character, is copied. */
  function Render(template: string, args: seq<string>): string
    decreases |template|
  {
    if template == [] then []
    else if StartsWithPlaceholder(template) && args != [] then
      args[0] + Render(template[2..], args[1..])
    else
      [template[0]] + Render(template[1..], args)
  }

  /** With no arguments the template is the message, unchanged. */
  lemma {:induction false} RenderWithoutArgs(template: string)
    ensures Render(template, []) == template
    decreases |template|
  {
    if template != [] {
      RenderWithoutArgs(template[1..]);
      assert template == [template[0]] + template[1..];
    }
  }

  /** A template without `%` ignores its arguments altogether. */
  lemma {:induction false} RenderWithoutPercent(template: string, args: seq<string>)
    requires '%' !in template
    ensures Render(template, args) == template
    decreases |template|
  {
    if template != [] {
      assert template[0] == template[0 + 0];
      assert forall c :: c in template[1..] ==> c in template;
      RenderWithoutPercent(template[1..], args);
      assert template == [template[0]] + template[1..];
    }
  }

  /** The template `%s` renders to its one argument. */
  lemma RenderSolePlaceholder(arg: string)
    ensures Render("%s", [arg]) == arg
  {
    assert StartsWithPlaceholder("%s");
    assert "%s"[2..] == [];
    assert arg + [] == arg;
  }

  /** Arguments are consumed in order: the first `%s` of a template whose
      prefix holds no `%` receives the first argument. */
  lemma {:induction false} RenderFirstPlaceholder(prefix: string, rest: string, arg: string, more: seq<string>)
    requires '%' !in prefix
    ensures Render(prefix + "%s" + rest, [arg] + more) == prefix + arg + Render(rest, more)
    decreases |prefix|
  {
    var t := prefix + "%s" + rest;
    if prefix == [] {
      assert t == "%s" + rest;
      assert StartsWithPlaceholder(t);
      assert t[2..] == rest;
    } else {
      assert t[0] == prefix[0] && prefix[0] != '%';
      assert t[1..] == prefix[1..] + "%s" + rest;
      assert forall c :: c in prefix[1..] ==> c in prefix;
      RenderFirstPlaceholder(prefix[1..], rest, arg, more);
      assert prefix == [prefix[0]] + prefix[1..];
    }
  }
}
