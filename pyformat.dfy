/**
  The two pieces of Python's string machinery that run.py relies on:
  `str(n)` for an integer, and `str.format` with positional replacement
  fields. Only the field shapes that occur in the program are modelled:
  `{}` (automatic numbering), `{d}` for one decimal digit d (manual
  numbering), and the escapes `{{` and `}}`. A lone brace, running out
  of arguments and mixing automatic with manual numbering are errors in
  Python, and the model returns None for them. Other field shapes, such
  as format specs, conversions and index lookups, are outside the
  modelled subset and also give None.
*/
module PyFormat {
  import opened Wrappers

  // ---------------------------------------------------------------------
  // str(n) for an int
  // ---------------------------------------------------------------------

  predicate IsDigit(c: char) {
    '0' <= c <= '9'
  }

  predicate AllDigits(s: string) {
    forall i :: 0 <= i < |s| ==> IsDigit(s[i])
  }

  function DigitChar(d: nat): (c: char)
    requires d < 10
    ensures IsDigit(c)
  {
    ('0' as int + d) as char
  }

  function DigitValue(c: char): (d: nat)
    requires IsDigit(c)
    ensures d < 10
  {
    c as int - '0' as int
  }

  /** Decimal digits of n, most significant first, without leading zeros. */
  function NatToString(n: nat): (s: string)
    ensures |s| > 0 && AllDigits(s)
    ensures |s| > 1 ==> s[0] != '0'
    decreases n
  {
    if n < 10 then [DigitChar(n)] else NatToString(n / 10) + [DigitChar(n % 10)]
  }

  /** Python's `str(n)` (and `"{}".format(n)`) for an int. */
  function IntToString(n: int): (s: string)
  {
    if n < 0 then "-" + NatToString(-n) else NatToString(n)
  }

  /** The value of a string of decimal digits. */
  function ParseNat(s: string): nat
    requires AllDigits(s)
  {
    if s == [] then 0 else ParseNat(s[..|s| - 1]) * 10 + DigitValue(s[|s| - 1])
  }

  /** Reads back an optionally signed decimal numeral; the inverse of IntToString. */
  function ParseInt(s: string): Option<int>
  {
    if |s| > 1 && s[0] == '-' && AllDigits(s[1..]) then Some(-(ParseNat(s[1..]) as int))
    else if |s| > 0 && AllDigits(s) then Some(ParseNat(s))
    else None
  }

  lemma {:induction false} NatToStringRoundTrip(n: nat)
    ensures ParseNat(NatToString(n)) == n
    decreases n
  {
    var s := NatToString(n);
    if n >= 10 {
      NatToStringRoundTrip(n / 10);
      assert s[..|s| - 1] == NatToString(n / 10);
    }
  }

  /** The decimal text of every integer reads back as that integer. */
  lemma IntToStringRoundTrip(n: int)
    ensures ParseInt(IntToString(n)) == Some(n)
  {
    var s := IntToString(n);
    if n < 0 {
      NatToStringRoundTrip(-n);
      assert s[1..] == NatToString(-n);
    } else {
      NatToStringRoundTrip(n);
    }
  }

  predicate NoBraces(s: string) {
    '{' !in s && '}' !in s
  }

  lemma NoBracesConcat(a: string, b: string)
    requires NoBraces(a) && NoBraces(b)
    ensures NoBraces(a + b)
  {
  }

  /** The decimal text of an integer is non-empty and has no brace in it. */
  lemma IntToStringShape(n: int)
    ensures |IntToString(n)| > 0 && NoBraces(IntToString(n))
  {
    var s := IntToString(n);
    var digits := if n < 0 then NatToString(-n) else NatToString(n);
    assert forall i :: 0 <= i < |digits| ==> digits[i] != '{' && digits[i] != '}';
    if n < 0 {
      assert s == "-" + digits;
      assert forall i :: 1 <= i < |s| ==> s[i] == digits[i - 1];
    }
  }

  // ---------------------------------------------------------------------
  // str.format
  // ---------------------------------------------------------------------

  /** Python's field-numbering mode: none used yet, automatic (with the next index), or manual. */
  datatype Numbering = Unset | Auto(next: nat) | Manual

  function Prepend(p: string, r: Option<(string, Numbering)>): Option<(string, Numbering)>
  {
    match r
    case None => None
    case Some((s, n)) => Some((p + s, n))
  }

  /**
    Formats template t with the positional arguments args, starting in
    numbering mode n. On success yields the text and the mode reached.
    Arguments are inserted as they are: braces inside them are not read.
  */
  function FormatFrom(t: string, args: seq<string>, n: Numbering): Option<(string, Numbering)>
    decreases |t|
  {
    if t == [] then Some(([], n))
    else if t[0] == '{' then
      if |t| >= 2 && t[1] == '{' then
        Prepend("{", FormatFrom(t[2..], args, n))
      else if |t| >= 2 && t[1] == '}' then
        var k := if n.Auto? then n.next else 0;
        if !n.Manual? && k < |args| then Prepend(args[k], FormatFrom(t[2..], args, Auto(k + 1)))
        else None
      else if |t| >= 3 && IsDigit(t[1]) && t[2] == '}' then
        var k := DigitValue(t[1]);
        if !n.Auto? && k < |args| then Prepend(args[k], FormatFrom(t[3..], args, Manual))
        else None
      else None
    else if t[0] == '}' then
      if |t| >= 2 && t[1] == '}' then Prepend("}", FormatFrom(t[2..], args, n)) else None
    else
      Prepend([t[0]], FormatFrom(t[1..], args, n))
  }

  /** Python's `t.format(*args)`; None where Python raises. */
  function Format(t: string, args: seq<string>): Option<string>
  {
    match FormatFrom(t, args, Unset)
    case None => None
    case Some((s, _)) => Some(s)
  }

  lemma PrependAssoc(a: string, b: string, r: Option<(string, Numbering)>)
    ensures Prepend(a, Prepend(b, r)) == Prepend(a + b, r)
  {
    if r.Some? {
      assert a + (b + r.value.0) == (a + b) + r.value.0;
    }
  }

  /** Text without braces is copied unchanged and leaves the numbering mode alone. */
  lemma {:induction false} FormatLiteral(lit: string, t: string, args: seq<string>, n: Numbering)
    requires NoBraces(lit)
    ensures FormatFrom(lit + t, args, n) == Prepend(lit, FormatFrom(t, args, n))
    decreases |lit|
  {
    if lit == [] {
      assert lit + t == t;
      match FormatFrom(t, args, n)
      case None =>
      case Some((s, m)) => assert lit + s == s;
    } else {
      assert lit[0] in lit;
      var rest := lit[1..];
      assert forall c :: c in rest ==> c in lit;
      assert (lit + t)[0] == lit[0];
      assert (lit + t)[1..] == rest + t;
      FormatLiteral(rest, t, args, n);
      PrependAssoc([lit[0]], rest, FormatFrom(t, args, n));
      assert [lit[0]] + rest == lit;
    }
  }

  /** A template without braces formats to itself. */
  lemma FormatLiteralAlone(lit: string, args: seq<string>, n: Numbering)
    requires NoBraces(lit)
    ensures FormatFrom(lit, args, n) == Some((lit, n))
  {
    FormatLiteral(lit, [], args, n);
    assert lit + [] == lit;
  }

  /** `{{` and `}}` stand for one literal brace each. */
  lemma FormatEscapes(t: string, args: seq<string>, n: Numbering)
    ensures FormatFrom("{{" + t, args, n) == Prepend("{", FormatFrom(t, args, n))
    ensures FormatFrom("}}" + t, args, n) == Prepend("}", FormatFrom(t, args, n))
  {
    assert ("{{" + t)[2..] == t;
    assert ("}}" + t)[2..] == t;
  }

  /** `{}` takes the next argument in automatic numbering. */
  lemma FormatAutoField(t: string, args: seq<string>, n: Numbering)
    requires !n.Manual?
    requires (if n.Auto? then n.next else 0) < |args|
    ensures var k := if n.Auto? then n.next else 0;
      FormatFrom("{}" + t, args, n) == Prepend(args[k], FormatFrom(t, args, Auto(k + 1)))
  {
    assert ("{}" + t)[2..] == t;
  }

  /** `{0}` takes the first argument in manual numbering, as often as it occurs. */
  lemma FormatFieldZero(t: string, args: seq<string>, n: Numbering)
    requires !n.Auto? && |args| > 0
    ensures FormatFrom("{0}" + t, args, n) == Prepend(args[0], FormatFrom(t, args, Manual))
  {
    assert ("{0}" + t)[3..] == t;
  }

  /**
    Formatting a concatenation: once a prefix formats successfully, it
    consists of complete pieces, so the rest is formatted on its own,
    in the numbering mode the prefix left.
  */
  lemma {:induction false} FormatConcat(a: string, b: string, args: seq<string>, n: Numbering)
    requires FormatFrom(a, args, n).Some?
    ensures var (sa, m) := FormatFrom(a, args, n).value;
      FormatFrom(a + b, args, n) == Prepend(sa, FormatFrom(b, args, m))
    decreases |a|
  {
    var (sa, m) := FormatFrom(a, args, n).value;
    if a == [] {
      assert a + b == b;
      match FormatFrom(b, args, m)
      case None =>
      case Some((s, m')) => assert sa + s == s;
    } else {
      var ab := a + b;
      assert ab[0] == a[0];
      if a[0] == '{' {
        if |a| >= 2 && a[1] == '{' {
          assert ab[1] == '{' && ab[2..] == a[2..] + b;
          FormatConcat(a[2..], b, args, n);
          PrependAssoc("{", FormatFrom(a[2..], args, n).value.0, FormatFrom(b, args, m));
        } else if |a| >= 2 && a[1] == '}' {
          var k := if n.Auto? then n.next else 0;
          assert ab[1] == '}' && ab[2..] == a[2..] + b;
          FormatConcat(a[2..], b, args, Auto(k + 1));
          PrependAssoc(args[k], FormatFrom(a[2..], args, Auto(k + 1)).value.0, FormatFrom(b, args, m));
        } else {
          assert |a| >= 3 && IsDigit(a[1]) && a[2] == '}';
          var k := DigitValue(a[1]);
          assert ab[1] == a[1] && ab[2] == '}' && ab[3..] == a[3..] + b;
          FormatConcat(a[3..], b, args, Manual);
          PrependAssoc(args[k], FormatFrom(a[3..], args, Manual).value.0, FormatFrom(b, args, m));
        }
      } else if a[0] == '}' {
        assert ab[1] == '}' && ab[2..] == a[2..] + b;
        FormatConcat(a[2..], b, args, n);
        PrependAssoc("}", FormatFrom(a[2..], args, n).value.0, FormatFrom(b, args, m));
      } else {
        assert ab[1..] == a[1..] + b;
        FormatConcat(a[1..], b, args, n);
        PrependAssoc([a[0]], FormatFrom(a[1..], args, n).value.0, FormatFrom(b, args, m));
      }
    }
  }

  /** Appending brace-free text to a template that formats appends it to the result. */
  lemma AppendLiteral(a: string, lit: string, args: seq<string>, n: Numbering)
    requires FormatFrom(a, args, n).Some? && NoBraces(lit)
    ensures var (sa, m) := FormatFrom(a, args, n).value;
      FormatFrom(a + lit, args, n) == Some((sa + lit, m))
  {
    var (sa, m) := FormatFrom(a, args, n).value;
    FormatConcat(a, lit, args, n);
    FormatLiteralAlone(lit, args, m);
  }

  /** Appending `{}` appends the next argument in automatic numbering. */
  lemma AppendAutoField(a: string, args: seq<string>, n: Numbering)
    requires FormatFrom(a, args, n).Some?
    requires var m := FormatFrom(a, args, n).value.1;
      !m.Manual? && (if m.Auto? then m.next else 0) < |args|
    ensures var (sa, m) := FormatFrom(a, args, n).value;
      var k := if m.Auto? then m.next else 0;
      FormatFrom(a + "{}", args, n) == Some((sa + args[k], Auto(k + 1)))
  {
    var (sa, m) := FormatFrom(a, args, n).value;
    FormatConcat(a, "{}", args, n);
    var k := if m.Auto? then m.next else 0;
    FormatAutoField([], args, m);
    assert "{}" + [] == "{}";
    assert args[k] + [] == args[k];
  }

  /** Appending `{0}` appends the first argument in manual numbering. */
  lemma AppendFieldZero(a: string, args: seq<string>, n: Numbering)
    requires FormatFrom(a, args, n).Some? && |args| > 0
    requires !FormatFrom(a, args, n).value.1.Auto?
    ensures var sa := FormatFrom(a, args, n).value.0;
      FormatFrom(a + "{0}", args, n) == Some((sa + args[0], Manual))
  {
    var (sa, m) := FormatFrom(a, args, n).value;
    FormatConcat(a, "{0}", args, n);
    FormatFieldZero([], args, m);
    assert "{0}" + [] == "{0}";
    assert args[0] + [] == args[0];
  }

  /** Appending an escaped brace pair appends one literal brace. */
  lemma AppendEscape(a: string, esc: string, args: seq<string>, n: Numbering)
    requires FormatFrom(a, args, n).Some?
    requires esc == "{{" || esc == "}}"
    ensures var (sa, m) := FormatFrom(a, args, n).value;
      FormatFrom(a + esc, args, n) == Some((sa + esc[..1], m))
  {
    var (sa, m) := FormatFrom(a, args, n).value;
    FormatConcat(a, esc, args, n);
    FormatEscapes([], args, m);
    assert "{{" + [] == "{{" && "}}" + [] == "}}";
    assert esc[..1] + [] == esc[..1];
    assert esc[..1] == if esc == "{{" then "{" else "}";
  }

  /** Python refuses a lone brace, an unknown field and a mix of `{}` with `{0}`. */
  lemma FormatErrors(args: seq<string>)
    requires |args| > 0
    ensures Format("{", args) == None
    ensures Format("}", args) == None
    ensures Format("{0}{}", args) == None
    ensures Format("{}{0}", args) == None
    ensures |args| == 1 ==> Format("{1}", args) == None
  {
    assert "{0}{}" == "{0}" + "{}";
    FormatFieldZero("{}", args, Unset);
    assert "{}{0}" == "{}" + "{0}";
    FormatAutoField("{0}", args, Unset);
  }
}
