/**
 * The three Python `str` operations the command layer relies on:
 * `str.strip()`, `str.split(' ')` and `str.format(*args)` restricted to
 * automatically numbered `{}` fields.
 */
module PyStr {
  import opened Wrappers

  /** The characters for which Python's `str.isspace()` holds; `str.strip()` removes exactly these. */
  predicate IsSpace(c: char) {
    || c == ' '
    || '\t' <= c <= '\r'
    || '\U{1c}' <= c <= '\U{1f}'
    || c == '\U{85}' || c == '\U{a0}' || c == '\U{1680}'
    || '\U{2000}' <= c <= '\U{200a}'
    || c == '\U{2028}' || c == '\U{2029}' || c == '\U{202f}' || c == '\U{205f}' || c == '\U{3000}'
  }

  predicate AllSpace(s: string) {
    forall k | 0 <= k < |s| :: IsSpace(s[k])
  }

  /** `s.lstrip()`: the suffix of `s` left after its longest all-whitespace prefix. */
  function TrimLeft(s: string): (r: string)
    ensures |r| <= |s| && r == s[|s| - |r|..]
    ensures r == [] || !IsSpace(r[0])
    ensures AllSpace(s[..|s| - |r|])
  {
    if s != [] && IsSpace(s[0]) then TrimLeft(s[1..]) else s
  }

  /** `s.rstrip()`: the prefix of `s` left after its longest all-whitespace suffix. */
  function TrimRight(s: string): (r: string)
    ensures |r| <= |s| && r == s[..|r|]
    ensures r == [] || !IsSpace(r[|r| - 1])
    ensures AllSpace(s[|r|..])
  {
    if s != [] && IsSpace(s[|s| - 1]) then TrimRight(s[..|s| - 1]) else s
  }

  /** `s.strip()`: whitespace removed from both ends. */
  function Strip(s: string): (r: string)
    ensures r == [] || (!IsSpace(r[0]) && !IsSpace(r[|r| - 1]))
    ensures |r| <= |s|
  {
    TrimRight(TrimLeft(s))
  }

  /** The leading whitespace `TrimLeft` removes is exactly the padding put in front of a body that starts with a non-space. */
  lemma {:induction false} TrimLeftPadded(pad: string, body: string)
    requires AllSpace(pad)
    requires body == [] || !IsSpace(body[0])
    ensures TrimLeft(pad + body) == body
  {
    if pad == [] {
      assert pad + body == body;
    } else {
      assert (pad + body)[1..] == pad[1..] + body;
      TrimLeftPadded(pad[1..], body);
    }
  }

  /** Symmetrically for the trailing whitespace `TrimRight` removes. */
  lemma {:induction false} TrimRightPadded(body: string, pad: string)
    requires AllSpace(pad)
    requires body == [] || !IsSpace(body[|body| - 1])
    ensures TrimRight(body + pad) == body
  {
    if pad == [] {
      assert body + pad == body;
    } else {
      var s := body + pad;
      assert s[..|s| - 1] == body + pad[..|pad| - 1];
      TrimRightPadded(body, pad[..|pad| - 1]);
    }
  }

  /**
   * `strip()` characterised independently of its definition: whatever
   * whitespace surrounds a body that neither starts nor ends with
   * whitespace, stripping gives back exactly that body.
   */
  lemma StripPadded(front: string, body: string, back: string)
    requires AllSpace(front) && AllSpace(back)
    requires body == [] || (!IsSpace(body[0]) && !IsSpace(body[|body| - 1]))
    ensures Strip(front + body + back) == body
  {
    assert front + body + back == front + (body + back);
    if body == [] {
      assert body + back == back;
      assert AllSpace(front + back);
      TrimLeftPadded(front + back, []);
      assert front + body + back == (front + back) + [];
      TrimRightPadded([], []);
    } else {
      TrimLeftPadded(front, body + back);
      TrimRightPadded(body, back);
    }
  }

  /** A line made only of whitespace strips to the empty string, and only such a line does. */
  lemma StripBlank(s: string)
    ensures Strip(s) == [] <==> AllSpace(s)
  {
    if AllSpace(s) {
      assert s == s + [] + [];
      StripPadded(s, [], []);
    }
    if Strip(s) == [] {
      var l := TrimLeft(s);
      assert l[0..] == l;
      assert l == [];
      assert s[..|s|] == s;
    }
  }

  /** Stripping twice is stripping once. */
  lemma StripIdempotent(s: string)
    ensures Strip(Strip(s)) == Strip(s)
  {
    var r := Strip(s);
    var none: string := [];
    assert AllSpace(none);
    assert none + r + none == r;
    StripPadded(none, r, none);
  }

  // ----- str.split(' ') -----

  /** The position of the first occurrence of `c` in `s`. */
  function IndexOf(s: string, c: char): (i: nat)
    requires c in s
    ensures i < |s| && s[i] == c && c !in s[..i]
  {
    if s[0] == c then 0 else 1 + IndexOf(s[1..], c)
  }

  /**
   * `s.split(' ')`: the fields between single spaces, in order. Unlike
   * `split()` with no argument, consecutive, leading and trailing spaces
   * give empty fields, and the empty string gives `[""]`.
   */
  function Split(s: string): (fields: seq<string>)
    ensures |fields| >= 1
    ensures forall i | 0 <= i < |fields| :: ' ' !in fields[i]
    decreases |s|
  {
    if ' ' !in s then [s]
    else
      var i := IndexOf(s, ' ');
      [s[..i]] + Split(s[i + 1..])
  }

  /** `' '.join(fields)`, the inverse of `Split`. */
  function Join(fields: seq<string>): string
  {
    if fields == [] then ""
    else if |fields| == 1 then fields[0]
    else fields[0] + " " + Join(fields[1..])
  }

  /** Joining a field in front of at least one other puts a single space between them. */
  lemma JoinCons(field: string, rest: seq<string>)
    requires |rest| >= 1
    ensures Join([field] + rest) == field + " " + Join(rest)
  {
    assert ([field] + rest)[1..] == rest;
  }

  /** Joining the fields of a split with single spaces restores the string. */
  lemma {:induction false} JoinSplit(s: string)
    ensures Join(Split(s)) == s
    decreases |s|
  {
    if ' ' in s {
      var i := IndexOf(s, ' ');
      JoinCons(s[..i], Split(s[i + 1..]));
      JoinSplit(s[i + 1..]);
      assert s == s[..i] + " " + s[i + 1..];
    }
  }

  /** Splitting a join of space-free fields gives back the fields. */
  lemma {:induction false} SplitJoin(fields: seq<string>)
    requires |fields| >= 1
    requires forall i | 0 <= i < |fields| :: ' ' !in fields[i]
    ensures Split(Join(fields)) == fields
  {
    if |fields| > 1 {
      var s := Join(fields);
      var f := fields[0];
      assert s == f + " " + Join(fields[1..]);
      assert s[|f|] == ' ';
      assert s[..|f|] == f;
      assert ' ' in s;
      var i := IndexOf(s, ' ');
      assert ' ' !in f;
      assert i == |f|;
      assert s[i + 1..] == Join(fields[1..]);
      SplitJoin(fields[1..]);
    }
  }

  /** Splitting the empty string gives one empty field. */
  lemma SplitEmpty()
    ensures Split("") == [""]
  {
  }

  // ----- str.format(*args) -----

  /** No `{` and no `}`: the string formats to itself. */
  predicate BraceFree(s: string) {
    '{' !in s && '}' !in s
  }

  /** A concatenation is brace-free exactly when both parts are. */
  lemma BraceFreeAppend(a: string, b: string)
    ensures BraceFree(a + b) <==> BraceFree(a) && BraceFree(b)
  {
    assert forall x :: x in a + b <==> x in a || x in b;
  }

  /** Prefixes `p` to a formatted result, keeping a failure a failure. */
  function Prepend(p: string, r: Option<string>): Option<string>
  {
    match r
    case None => None
    case Some(s) => Some(p + s)
  }

  /**
   * `template.format(*args)` for templates whose replacement fields are all
   * the automatically numbered `{}`: each `{}` takes the next argument,
   * `{{` and `}}` stand for single braces, and unused arguments are
   * ignored. `None` is the `IndexError` raised when a `{}` finds no
   * argument left, and also any other use of a brace (an explicitly
   * numbered or named field, a lone brace), which this model does not
   * interpret.
   */
  function Format(template: string, args: seq<string>): (r: Option<string>)
    ensures r.Some? ==> Formattable(template) && |args| >= Placeholders(template)
    decreases |template|
  {
    if template == [] then Some("")
    else if |template| >= 2 && template[0] == '{' && template[1] == '{' then
      Prepend("{", Format(template[2..], args))
    else if |template| >= 2 && template[0] == '}' && template[1] == '}' then
      Prepend("}", Format(template[2..], args))
    else if |template| >= 2 && template[0] == '{' && template[1] == '}' then
      if args == [] then None else Prepend(args[0], Format(template[2..], args[1..]))
    else if template[0] == '{' || template[0] == '}' then None
    else Prepend([template[0]], Format(template[1..], args))
  }

  /** Every brace of the template is part of `{}`, `{{` or `}}`, read left to right. */
  predicate Formattable(template: string)
    decreases |template|
  {
    if template == [] then true
    else if |template| >= 2 && template[0] in "{}" && template[1] in "{}"
      && !(template[0] == '}' && template[1] == '{') then Formattable(template[2..])
    else if template[0] == '{' || template[0] == '}' then false
    else Formattable(template[1..])
  }

  /** The number of `{}` replacement fields, read the way `Format` reads them. */
  function Placeholders(template: string): nat
    decreases |template|
  {
    if template == [] then 0
    else if |template| >= 2 && template[0] == '{' && template[1] == '}' then 1 + Placeholders(template[2..])
    else if |template| >= 2 && template[0] in "{}" && template[1] == template[0] then Placeholders(template[2..])
    else Placeholders(template[1..])
  }

  /**
   * A formattable template formats successfully exactly when at least as
   * many arguments as it has `{}` fields are supplied.
   */
  lemma {:induction false} FormatDefined(template: string, args: seq<string>)
    requires Formattable(template)
    ensures Format(template, args).Some? <==> |args| >= Placeholders(template)
    decreases |template|
  {
    if template == [] {
    } else if |template| >= 2 && template[0] == '{' && template[1] == '{' {
      FormatDefined(template[2..], args);
    } else if |template| >= 2 && template[0] == '}' && template[1] == '}' {
      FormatDefined(template[2..], args);
    } else if |template| >= 2 && template[0] == '{' && template[1] == '}' {
      if args != [] {
        FormatDefined(template[2..], args[1..]);
      }
    } else {
      FormatDefined(template[1..], args);
    }
  }

  /** A template without braces has no fields and formats to itself, whatever the arguments. */
  lemma {:induction false} FormatBraceFree(template: string, args: seq<string>)
    requires BraceFree(template)
    ensures Formattable(template) && Placeholders(template) == 0
    ensures Format(template, args) == Some(template)
    decreases |template|
  {
    if template != [] {
      assert template[0] in template;
      assert template == [template[0]] + template[1..];
      FormatBraceFree(template[1..], args);
    }
  }

  /** Formatting distributes over a brace-free prefix. */
  lemma {:induction false} FormatPrefix(prefix: string, template: string, args: seq<string>)
    requires BraceFree(prefix)
    ensures Format(prefix + template, args) == Prepend(prefix, Format(template, args))
    ensures Placeholders(prefix + template) == Placeholders(template)
    ensures Formattable(prefix + template) == Formattable(template)
    decreases |prefix|
  {
    if prefix != [] {
      assert prefix[0] in prefix;
      assert (prefix + template)[1..] == prefix[1..] + template;
      FormatPrefix(prefix[1..], template, args);
      assert prefix == [prefix[0]] + prefix[1..];
      match Format(template, args)
      case None =>
      case Some(t) => assert [prefix[0]] + (prefix[1..] + t) == prefix + t;
    } else {
      assert prefix + template == template;
      match Format(template, args)
      case None =>
      case Some(t) => assert prefix + t == t;
    }
  }

  /** A template that starts with `{}` puts the first argument there and formats the rest with the others. */
  lemma FormatLeadingField(after: string, args: seq<string>)
    requires |args| >= 1
    ensures Format("{}" + after, args) == Prepend(args[0], Format(after, args[1..]))
    ensures Placeholders("{}" + after) == 1 + Placeholders(after)
    ensures Formattable("{}" + after) == Formattable(after)
  {
    var t := "{}" + after;
    assert t[0] == '{' && t[1] == '}' && t[2..] == after;
  }

  /**
   * A template with one `{}` between brace-free text places its first
   * argument exactly there; it has one field and is formattable.
   */
  lemma FormatOneField(before: string, after: string, args: seq<string>)
    requires BraceFree(before) && BraceFree(after)
    requires |args| >= 1
    ensures Formattable(before + "{}" + after) && Placeholders(before + "{}" + after) == 1
    ensures Format(before + "{}" + after, args) == Some(before + args[0] + after)
  {
    var rest := "{}" + after;
    assert before + "{}" + after == before + rest;
    FormatPrefix(before, rest, args);
    FormatBraceFree(after, args[1..]);
    FormatLeadingField(after, args);
    assert before + (args[0] + after) == before + args[0] + after;
  }
}
