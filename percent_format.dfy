/** Python's `%` string-formatting operator, as far as both modules use it: `%s` takes the next
    argument, `%%` stands for a percent sign, and anything else is an error. */
module PercentFormat {
  import opened Runtime

  /** A string with no `%` in it: formatting copies it verbatim. */
  predicate NoPercent(s: string) {
    forall i :: 0 <= i < |s| ==> s[i] != '%'
  }

  function Prepend(s: string, r: Option<string>): Option<string> {
    if r.Some? then Some(s + r.value) else None
  }

  /** What one step of formatting produces: the text emitted, how many template characters it reads
      and how many arguments it takes. */
  datatype Piece = Piece(text: string, width: nat, used: nat)

  /** The piece at the front of a non-empty template: a plain character, `%s` or `%%`; `None` for a
      `%s` with no argument left, a lone `%` at the end or any other directive. */
  function Directive(template: string, args: seq<string>): (d: Option<Piece>)
    requires template != []
    ensures d.Some? ==> 1 <= d.value.width <= |template| && d.value.used <= |args|
  {
    if template[0] != '%' then Some(Piece([template[0]], 1, 0))
    else if |template| >= 2 && template[1] == 's' then
      if args == [] then None else Some(Piece(args[0], 2, 1))
    else if |template| >= 2 && template[1] == '%' then Some(Piece("%", 2, 0))
    else None
  }

  /** `template % tuple(args)`; `None` where Python raises: too few arguments ("not enough arguments"),
      too many ("not all arguments converted"), a lone `%` at the end or a directive other than `%s`/`%%`. */
  function Format(template: string, args: seq<string>): (r: Option<string>)
    ensures r.Some? ==> 2 * |args| <= |template|
    decreases |template|
  {
    if template == [] then
      if args == [] then Some("") else None
    else
      var d := Directive(template, args);
      if d.None? then None
      else Prepend(d.value.text, Format(template[d.value.width..], args[d.value.used..]))
  }

  /** `(template % args)` where `template` is itself the result of an earlier `%`, which may have raised. */
  function Apply(template: Option<string>, args: seq<string>): Option<string> {
    if template.Some? then Format(template.value, args) else None
  }

  /** Text without directives comes out unchanged, and only when no argument is left over. */
  lemma {:induction false} FormatVerbatim(s: string, args: seq<string>)
    requires NoPercent(s)
    ensures Format(s, args) == if args == [] then Some(s) else None
  {
    if s != [] {
      FormatVerbatim(s[1..], args);
      assert [s[0]] + s[1..] == s;
    }
  }

  /** A plain character is copied and formatting goes on with the rest of the template. */
  lemma FormatPlain(t: string, args: seq<string>)
    requires t != [] && t[0] != '%'
    ensures Format(t, args) == Prepend([t[0]], Format(t[1..], args))
  {
  }

  /** A `%s` takes the first argument and formatting goes on with the rest. */
  lemma FormatDirective(t: string, a: string, args: seq<string>)
    requires |t| >= 2 && t[0] == '%' && t[1] == 's'
    ensures Format(t, [a] + args) == Prepend(a, Format(t[2..], args))
  {
    assert ([a] + args)[1..] == args;
  }

  /** The first `%s` after a directive-free prefix takes the first argument. */
  lemma {:induction false} FormatSplice(p: string, rest: string, a: string, args: seq<string>)
    requires NoPercent(p)
    ensures Format(p + "%s" + rest, [a] + args) == Prepend(p + a, Format(rest, args))
  {
    var t := p + "%s" + rest;
    if p == [] {
      assert t[0] == '%' && t[1] == 's' && t[2..] == rest;
      FormatDirective(t, a, args);
      assert p + a == a;
    } else {
      assert t[0] == p[0] && p[0] != '%';
      assert t[1..] == p[1..] + "%s" + rest;
      FormatPlain(t, [a] + args);
      FormatSplice(p[1..], rest, a, args);
      var r := Format(rest, args);
      if r.Some? {
        assert [p[0]] + (p[1..] + a + r.value) == p + a + r.value;
      }
    }
  }

  /** One directive, one argument: `(p + '%s' + q) % a == p + a + q`. */
  lemma FormatOne(p: string, q: string, a: string)
    requires NoPercent(p) && NoPercent(q)
    ensures Format(p + "%s" + q, [a]) == Some(p + a + q)
  {
    assert [a] + [] == [a];
    FormatSplice(p, q, a, []);
    FormatVerbatim(q, []);
  }

  /** Two directives, two arguments: `(p + '%s' + q + '%s' + r) % (a, b) == p + a + q + b + r`. */
  lemma FormatTwo(p: string, q: string, r: string, a: string, b: string)
    requires NoPercent(p) && NoPercent(q) && NoPercent(r)
    ensures Format(p + "%s" + q + "%s" + r, [a, b]) == Some(p + a + q + b + r)
  {
    assert p + "%s" + q + "%s" + r == p + "%s" + (q + "%s" + r);
    assert [a] + [b] == [a, b];
    FormatSplice(p, q + "%s" + r, a, [b]);
    FormatOne(q, r, b);
    assert p + a + (q + b + r) == p + a + q + b + r;
  }
}
