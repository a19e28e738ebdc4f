/** Go's fmt.Errorf called with a format string and no operands, which is how
    the client turns a daemon's result string into an error. Every '%' in the
    string starts a formatting directive: flags, an optional width, precision
    or argument index, and a verb. Without operands a directive prints "%" for
    the verb '%', "%!(NOVERB)" when the string ends first, and
    "%!<verb>(MISSING)" otherwise. Directives with a width, precision or
    argument index are not modelled and give None. */
module GoFormat {
  import opened Wire

  /** The flag characters Go accepts right after '%'. */
  predicate IsFlag(c: char) {
    c == '#' || c == '0' || c == '+' || c == '-' || c == ' '
  }

  /** Characters that, after the flags, start a width, a precision or an
      argument index. */
  predicate IsUnmodelled(c: char) {
    ('1' <= c <= '9') || c == '*' || c == '.' || c == '['
  }

  const NoVerb: string := "%!(NOVERB)"
  const Missing: string := "(MISSING)"

  function SkipFlags(s: string): (t: string)
    ensures |t| <= |s|
  {
    if s != [] && IsFlag(s[0]) then SkipFlags(s[1..]) else s
  }

  function Prepend(p: string, r: Option<string>): (r': Option<string>)
    ensures r'.Some? <==> r.Some?
    ensures r.Some? ==> r'.value == p + r.value
  {
    match r
    case None => None
    case Some(s) => Some(p + s)
  }

  /** What one directive prints when there is no operand for it. */
  function VerbText(verb: char): string {
    if verb == '%' then "%" else "%!" + [verb] + Missing
  }

  /** The text of fmt.Errorf(format) with no operands; None when the format
      holds a directive outside the modelled ones. */
  function ErrorfNoArgs(format: string): Option<string>
    decreases |format|
  {
    if format == [] then Some([])
    else if format[0] != '%' then Prepend([format[0]], ErrorfNoArgs(format[1..]))
    else
      var t := SkipFlags(format[1..]);
      if t == [] then Some(NoVerb)
      else if IsUnmodelled(t[0]) then None
      else Prepend(VerbText(t[0]), ErrorfNoArgs(t[1..]))
  }

  lemma PrependPrepend(a: string, b: string, r: Option<string>)
    ensures Prepend(a, Prepend(b, r)) == Prepend(a + b, r)
  {
    if r.Some? {
      assert a + (b + r.value) == (a + b) + r.value;
    }
  }

  /** Text before the first '%' is copied unchanged. */
  lemma {:induction false} ErrorfLiteralPrefix(p: string, q: string)
    requires '%' !in p
    ensures ErrorfNoArgs(p + q) == Prepend(p, ErrorfNoArgs(q))
    decreases |p|
  {
    if p == [] {
      assert p + q == q;
      if ErrorfNoArgs(q).Some? {
        assert p + ErrorfNoArgs(q).value == ErrorfNoArgs(q).value;
      }
    } else {
      var rest := p[1..];
      assert (p + q)[0] == p[0] && (p + q)[1..] == rest + q;
      assert ErrorfNoArgs(p + q) == Prepend([p[0]], ErrorfNoArgs(rest + q));
      ErrorfLiteralPrefix(rest, q);
      PrependPrepend([p[0]], rest, ErrorfNoArgs(q));
      assert [p[0]] + rest == p;
    }
  }

  /** A format without '%' is printed as it is: on such result strings the
      error text equals the daemon's text. */
  lemma ErrorfVerbatim(s: string)
    requires '%' !in s
    ensures ErrorfNoArgs(s) == Some(s)
  {
    ErrorfLiteralPrefix(s, []);
    assert s + [] == s;
  }

  /** A result string with a percent sign in it does not come out verbatim:
      "50% done" reads "% d" as the verb 'd' with the space flag. */
  lemma ErrorfMissingVerb()
    ensures ErrorfNoArgs("50% done") == Some("50" + "%!d" + Missing + "one")
  {
    var q := "% done";
    assert "50% done" == "50" + q;
    ErrorfLiteralPrefix("50", q);
    assert q[1..] == " done";
    assert SkipFlags(q[1..]) == "done" by { assert q[1..][1..] == "done"; }
    ErrorfVerbatim("one");
    assert "done"[1..] == "one";
    assert VerbText('d') == "%!d" + Missing;
    assert ErrorfNoArgs(q) == Some("%!d" + Missing + "one");
    assert "50" + ("%!d" + Missing + "one") == "50" + "%!d" + Missing + "one";
  }

  /** A result string ending in '%' gets Go's "missing verb" marker. */
  lemma ErrorfNoVerb()
    ensures ErrorfNoArgs("100%") == Some("100" + NoVerb)
  {
    assert "100%" == "100" + "%";
    ErrorfLiteralPrefix("100", "%");
    assert "%"[1..] == "";
  }
}
