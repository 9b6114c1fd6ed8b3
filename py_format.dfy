/** The subset of Python's mapping-based `%` string formatting that the
    tile file names use: `%(key)d`, `%(key)s` and the escape `%%`, applied as
    `template % {"level": ..., "file_id": ..., ...}`.  Python works through the
    template from left to right and raises on the first problem; `Render`
    does the same and returns that problem as an `Err`. */
module PyFormat {
  import opened Common

  /** A value of the substitution dictionary: a Python `int` or `str`. */
  datatype Value = IntVal(i: int) | StrVal(s: string)

  /** The exceptions `template % mapping` can raise within the subset. */
  datatype FormatError =
    | MissingKey(key: string)     // KeyError: the key is not in the mapping
    | IncompleteKey               // ValueError: "incomplete format key" (no ')')
    | Incomplete                  // ValueError: "incomplete format" (template ends after '%' or the key)
    | WrongType(key: string)      // TypeError: `%d` applied to a `str`
    | Unsupported(c: char)        // a conversion outside the modelled subset

  // ---------------------------------------------------------------------
  // Decimal rendering of integers, as `str(n)` and `'%d' % n` produce it

  predicate IsDigit(c: char) { '0' <= c <= '9' }

  function DigitChar(d: nat): (c: char)
    requires d < 10
    ensures IsDigit(c) && c as int - '0' as int == d
  {
    ['0', '1', '2', '3', '4', '5', '6', '7', '8', '9'][d]
  }

  /** The decimal digits of `n`, most significant first, without leading zeros. */
  function NatDigits(n: nat): (s: string)
    ensures |s| >= 1 && (s[0] == '0' ==> n == 0 && s == "0")
    ensures forall i :: 0 <= i < |s| ==> IsDigit(s[i])
    decreases n
  {
    if n < 10 then [DigitChar(n)] else NatDigits(n / 10) + [DigitChar(n % 10)]
  }

  /** `str(n)` for a Python `int`: an optional minus sign and the digits. */
  function Decimal(n: int): string
  {
    if n < 0 then "-" + NatDigits(-n) else NatDigits(n)
  }

  /** The value of one digit (the inverse of `DigitChar`). */
  function DigitValue(c: char): (d: nat)
    requires IsDigit(c)
    ensures d < 10 && DigitChar(d) == c
  {
    c as int - '0' as int
  }

  /** The value of a string of decimal digits (the inverse of `NatDigits`). */
  function DigitsValue(s: string): nat
    requires forall i :: 0 <= i < |s| ==> IsDigit(s[i])
  {
    if s == [] then 0
    else DigitsValue(s[..|s| - 1]) * 10 + DigitValue(s[|s| - 1])
  }

  /** Python's `int(s)` restricted to an optional '-' followed by digits. */
  function ParseDecimal(s: string): Option<int>
  {
    if s != [] && s[0] == '-' then
      if |s| > 1 && forall i :: 1 <= i < |s| ==> IsDigit(s[i]) then Some(0 - DigitsValue(s[1..]) as int) else None
    else if s != [] && forall i :: 0 <= i < |s| ==> IsDigit(s[i]) then Some(DigitsValue(s))
    else None
  }

  lemma {:induction false} NatDigitsRoundTrip(n: nat)
    ensures DigitsValue(NatDigits(n)) == n
    decreases n
  {
    if n >= 10 {
      var init := NatDigits(n / 10);
      var s := init + [DigitChar(n % 10)];
      NatDigitsRoundTrip(n / 10);
      assert s[..|s| - 1] == init;
    }
  }

  /** Reading back the decimal text of any integer gives that integer. */
  lemma DecimalRoundTrip(n: int)
    ensures ParseDecimal(Decimal(n)) == Some(n)
  {
    if n < 0 {
      NegativeRoundTrip(NatDigits(-n), -n);
    } else {
      NatDigitsRoundTrip(n);
      NonNegativeRoundTrip(NatDigits(n), n);
    }
  }

  lemma NegativeRoundTrip(digits: string, m: int)
    requires m > 0 && digits == NatDigits(m)
    ensures ParseDecimal("-" + digits) == Some(-m)
  {
    var s := "-" + digits;
    NatDigitsRoundTrip(m);
    assert s[1..] == digits;
    assert forall i :: 1 <= i < |s| ==> s[i] == digits[i - 1];
  }

  lemma NonNegativeRoundTrip(digits: string, m: nat)
    requires digits == NatDigits(m) && DigitsValue(digits) == m
    ensures ParseDecimal(digits) == Some(m)
  {
    assert IsDigit(digits[0]);
  }

  // ---------------------------------------------------------------------
  // The renderer

  /** Where a `%(` key ends, as CPython scans it: parentheses nest, and the
      key runs up to the `)` that closes the one opened by `%(`; `None` when
      the template ends first ("incomplete format key").  `depth` is the
      number of parentheses still open at position `i`. */
  function KeyClose(t: string, i: nat, depth: nat): (r: Option<nat>)
    requires depth >= 1
    ensures r.Some? ==> i <= r.value < |t| && t[r.value] == ')'
    decreases |t| - i
  {
    if i >= |t| then None
    else if t[i] == ')' then (if depth == 1 then Some(i) else KeyClose(t, i + 1, depth - 1))
    else if t[i] == '(' then KeyClose(t, i + 1, depth + 1)
    else KeyClose(t, i + 1, depth)
  }

  /** Text without parentheses leaves the key scan's depth unchanged. */
  lemma {:induction false} KeyCloseRun(t: string, i: nat, j: nat, depth: nat)
    requires depth >= 1 && i <= j <= |t|
    requires forall k :: i <= k < j ==> t[k] != '(' && t[k] != ')'
    ensures KeyClose(t, i, depth) == KeyClose(t, j, depth)
    decreases j - i
  {
    if i < j {
      KeyCloseRun(t, i + 1, j, depth);
    }
  }

  /** A key without parentheses ends at the first `)`. */
  lemma KeyCloseFlat(t: string, i: nat, close: nat)
    requires i <= close < |t| && t[close] == ')'
    requires forall k :: i <= k < close ==> t[k] != '(' && t[k] != ')'
    ensures KeyClose(t, i, 1) == Some(close)
  {
    KeyCloseRun(t, i, close, 1);
  }

  /** The text one conversion produces for the value stored under `key`. */
  function Convert(conv: char, key: string, v: Value): Result<string, FormatError>
  {
    match (conv, v)
    case ('d', IntVal(n)) => Ok(Decimal(n))
    case ('d', StrVal(_)) => Err(WrongType(key))
    case ('s', IntVal(n)) => Ok(Decimal(n))
    case ('s', StrVal(s)) => Ok(s)
    case _ => Err(Unsupported(conv))
  }

  function Prepend(p: string, r: Result<string, FormatError>): Result<string, FormatError>
  {
    match r
    case Ok(s) => Ok(p + s)
    case Err(e) => Err(e)
  }

  /** `t % vars` for the modelled subset. */
  function Render(t: string, vars: map<string, Value>): Result<string, FormatError>
    decreases |t|
  {
    if t == [] then Ok("")
    else if t[0] != '%' then Prepend([t[0]], Render(t[1..], vars))
    else if |t| == 1 then Err(Incomplete)
    else if t[1] == '%' then Prepend("%", Render(t[2..], vars))
    else if t[1] != '(' then Err(Unsupported(t[1]))
    else
      match KeyClose(t, 2, 1)
      case None => Err(IncompleteKey)
      case Some(close) =>
        var key := t[2..close];
        if key !in vars then Err(MissingKey(key))
        else if close + 1 == |t| then Err(Incomplete)
        else
          match Convert(t[close + 1], key, vars[key])
          case Err(e) => Err(e)
          case Ok(text) => Prepend(text, Render(t[close + 2..], vars))
  }

  // ---------------------------------------------------------------------
  // Properties of the renderer

  /** Text without any '%' is copied through unchanged. */
  lemma {:induction false} RenderLiteralPrefix(p: string, t: string, vars: map<string, Value>)
    requires forall i :: 0 <= i < |p| ==> p[i] != '%'
    ensures Render(p + t, vars) == Prepend(p, Render(t, vars))
  {
    if p != [] {
      assert (p + t)[0] == p[0];
      assert (p + t)[1..] == p[1..] + t;
      RenderLiteralPrefix(p[1..], t, vars);
      match Render(t, vars)
      case Ok(s) => assert [p[0]] + (p[1..] + s) == p + s;
      case Err(_) =>
    } else {
      assert p + t == t;
      match Render(t, vars)
      case Ok(s) => assert p + s == s;
      case Err(_) =>
    }
  }

  /** One placeholder `%(key)c` with a known key free of parentheses and a
      `d` or `s` conversion is replaced by its converted value; the rest of
      the template follows. */
  lemma RenderPlaceholder(key: string, conv: char, t: string, vars: map<string, Value>)
    requires forall i :: 0 <= i < |key| ==> key[i] != '(' && key[i] != ')'
    requires key in vars && Convert(conv, key, vars[key]).Ok?
    ensures Render("%(" + key + ")" + [conv] + t, vars)
            == Prepend(Convert(conv, key, vars[key]).value, Render(t, vars))
  {
    var s := "%(" + key + ")" + [conv] + t;
    var close := |key| + 2;
    assert s[close] == ')';
    assert forall i :: 2 <= i < close ==> s[i] == key[i - 2];
    KeyCloseFlat(s, 2, close);
    assert s[2..close] == key;
    assert s[close + 1] == conv;
    assert s[close + 2..] == t;
  }

  /** Prepending two texts in turn prepends their concatenation. */
  lemma PrependTwice(p: string, q: string, r: Result<string, FormatError>)
    ensures Prepend(p, Prepend(q, r)) == Prepend(p + q, r)
  {
    match r
    case Ok(s) => assert p + (q + s) == p + q + s;
    case Err(_) =>
  }

  /** Literal text followed by one placeholder (key free of parentheses):
      both are rendered in turn. */
  lemma RenderSegment(p: string, key: string, conv: char, t: string, vars: map<string, Value>)
    requires forall i :: 0 <= i < |p| ==> p[i] != '%'
    requires forall i :: 0 <= i < |key| ==> key[i] != '(' && key[i] != ')'
    requires key in vars && Convert(conv, key, vars[key]).Ok?
    ensures Render(p + ("%(" + key + ")" + [conv] + t), vars)
            == Prepend(p + Convert(conv, key, vars[key]).value, Render(t, vars))
  {
    var v := Convert(conv, key, vars[key]).value;
    RenderLiteralPrefix(p, "%(" + key + ")" + [conv] + t, vars);
    RenderPlaceholder(key, conv, t, vars);
    PrependTwice(p, v, Render(t, vars));
  }

  /** A template made of text, a placeholder, text, a placeholder and text
      renders to the five parts, each placeholder replaced by its value. */
  lemma RenderTwoPlaceholders(p1: string, k1: string, c1: char, p2: string, k2: string, c2: char,
                              ext: string, vars: map<string, Value>)
    requires forall i :: 0 <= i < |p1| ==> p1[i] != '%'
    requires forall i :: 0 <= i < |p2| ==> p2[i] != '%'
    requires forall i :: 0 <= i < |ext| ==> ext[i] != '%'
    requires forall i :: 0 <= i < |k1| ==> k1[i] != '(' && k1[i] != ')'
    requires forall i :: 0 <= i < |k2| ==> k2[i] != '(' && k2[i] != ')'
    requires k1 in vars && Convert(c1, k1, vars[k1]).Ok?
    requires k2 in vars && Convert(c2, k2, vars[k2]).Ok?
    ensures Render(p1 + ("%(" + k1 + ")" + [c1] + (p2 + ("%(" + k2 + ")" + [c2] + ext))), vars)
         == Ok(p1 + Convert(c1, k1, vars[k1]).value + (p2 + Convert(c2, k2, vars[k2]).value + ext))
  {
    RenderLiteralPrefix(ext, "", vars);
    assert ext + "" == ext;
    RenderSegment(p2, k2, c2, ext, vars);
    RenderSegment(p1, k1, c1, p2 + ("%(" + k2 + ")" + [c2] + ext), vars);
  }

  /** Doubles every '%', so that the result renders back to `s`. */
  function Escape(s: string): (e: string)
    ensures |e| >= |s|
  {
    if s == [] then ""
    else if s[0] == '%' then "%%" + Escape(s[1..])
    else [s[0]] + Escape(s[1..])
  }

  /** Round trip: escaping a text and rendering it gives the text back,
      whatever the mapping holds. */
  lemma {:induction false} EscapeRoundTrip(s: string, vars: map<string, Value>)
    ensures Render(Escape(s), vars) == Ok(s)
  {
    if s != [] {
      var e := Escape(s);
      EscapeRoundTrip(s[1..], vars);
      if s[0] == '%' {
        assert e[0] == '%' && e[1] == '%' && e[2..] == Escape(s[1..]);
      } else {
        assert e[0] == s[0] && e[1..] == Escape(s[1..]);
      }
      assert [s[0]] + s[1..] == s;
    }
  }

  /** `%%` is a single literal percent sign and the text after it is not a
      placeholder: `"%%(level)d"` renders as the literal text `%(level)d`. */
  lemma EscapedPlaceholderIsLiteral(vars: map<string, Value>)
    ensures Render("%%(level)d", vars) == Ok("%(level)d")
  {
    LevelPlaceholderText();
    RenderEscapedPercent("(level)d", vars);
  }

  /** The escaped and the unescaped placeholder text, as concatenations. */
  lemma LevelPlaceholderText()
    ensures "%%(level)d" == "%%" + "(level)d"
    ensures "%(level)d" == "%" + "(level)d"
  {
  }

  /** `%%` followed by text without '%' renders as '%' and that text. */
  lemma RenderEscapedPercent(s: string, vars: map<string, Value>)
    requires forall i :: 0 <= i < |s| ==> s[i] != '%'
    ensures Render("%%" + s, vars) == Ok("%" + s)
  {
    var t := "%%" + s;
    assert t[0] == '%' && t[1] == '%' && t[2..] == s;
    RenderLiteralPrefix(s, "", vars);
    assert s + "" == s;
  }

  /** A placeholder whose key (free of parentheses) is missing from the
      mapping raises KeyError. */
  lemma MissingKeyFails(key: string, conv: char, vars: map<string, Value>)
    requires forall i :: 0 <= i < |key| ==> key[i] != '(' && key[i] != ')'
    requires key !in vars
    ensures Render("%(" + key + ")" + [conv], vars) == Err(MissingKey(key))
  {
    var s := "%(" + key + ")" + [conv];
    var close := |key| + 2;
    assert s[close] == ')';
    assert forall i :: 2 <= i < close ==> s[i] == key[i - 2];
    KeyCloseFlat(s, 2, close);
    assert s[2..close] == key;
  }

  /** Once the key scan closes right after `key`, the placeholder looks up
      `key` and renders its value in front of the rest. */
  lemma RenderAtKey(key: string, conv: char, t: string, vars: map<string, Value>)
    requires KeyClose("%(" + key + ")" + [conv] + t, 2, 1) == Some(|key| + 2)
    ensures var s := "%(" + key + ")" + [conv] + t;
            && (key !in vars ==> Render(s, vars) == Err(MissingKey(key)))
            && (key in vars && Convert(conv, key, vars[key]).Ok? ==>
                  Render(s, vars) == Prepend(Convert(conv, key, vars[key]).value, Render(t, vars)))
  {
    var s := "%(" + key + ")" + [conv] + t;
    var close := |key| + 2;
    assert s[0] == '%' && s[1] == '(';
    assert s[2..close] == key;
    assert s[close + 1] == conv;
    assert s[close + 2..] == t;
  }

  /** The scan of a key `a(b)c` passes the inner pair and closes after `c`. */
  lemma NestedKeyClose(a: string, b: string, c: string, rest: string)
    requires forall i :: 0 <= i < |a| ==> a[i] != '(' && a[i] != ')'
    requires forall i :: 0 <= i < |b| ==> b[i] != '(' && b[i] != ')'
    requires forall i :: 0 <= i < |c| ==> c[i] != '(' && c[i] != ')'
    ensures KeyClose("%(" + a + "(" + b + ")" + c + ")" + rest, 2, 1) == Some(|a| + |b| + |c| + 4)
  {
    var s := "%(" + a + "(" + b + ")" + c + ")" + rest;
    var o := 2 + |a|;
    var cb := o + 1 + |b|;
    var close := cb + 1 + |c|;
    assert forall k :: 2 <= k < o ==> s[k] == a[k - 2];
    assert forall k :: o + 1 <= k < cb ==> s[k] == b[k - o - 1];
    assert forall k :: cb + 1 <= k < close ==> s[k] == c[k - cb - 1];
    assert s[o] == '(' && s[cb] == ')' && s[close] == ')';
    KeyCloseRun(s, 2, o, 1);
    KeyCloseRun(s, o + 1, cb, 2);
    KeyCloseRun(s, cb + 1, close, 1);
  }

  /** Parentheses nest inside a key: `%(a(b)c)d` looks up the key `a(b)c`. */
  lemma NestedKeyIsRead(a: string, b: string, c: string, conv: char, t: string, vars: map<string, Value>)
    requires forall i :: 0 <= i < |a| ==> a[i] != '(' && a[i] != ')'
    requires forall i :: 0 <= i < |b| ==> b[i] != '(' && b[i] != ')'
    requires forall i :: 0 <= i < |c| ==> c[i] != '(' && c[i] != ')'
    ensures var key := a + "(" + b + ")" + c;
            var s := "%(" + key + ")" + [conv] + t;
            && (key !in vars ==> Render(s, vars) == Err(MissingKey(key)))
            && (key in vars && Convert(conv, key, vars[key]).Ok? ==>
                  Render(s, vars) == Prepend(Convert(conv, key, vars[key]).value, Render(t, vars)))
  {
    var key := a + "(" + b + ")" + c;
    NestedKeyClose(a, b, c, [conv] + t);
    assert "%(" + a + "(" + b + ")" + c + ")" + ([conv] + t) == "%(" + key + ")" + [conv] + t;
    RenderAtKey(key, conv, t, vars);
  }

  /** A key whose parentheses do not balance raises "incomplete format
      key", whatever the mapping holds: `"%(()d" % {"(": 1}` is an error. */
  lemma UnbalancedKeyIsIncomplete(a: string, b: string, rest: string, vars: map<string, Value>)
    requires forall i :: 0 <= i < |a| ==> a[i] != '(' && a[i] != ')'
    requires forall i :: 0 <= i < |b| ==> b[i] != '(' && b[i] != ')'
    requires forall i :: 0 <= i < |rest| ==> rest[i] != '(' && rest[i] != ')'
    ensures Render("%(" + a + "(" + b + ")" + rest, vars) == Err(IncompleteKey)
  {
    var s := "%(" + a + "(" + b + ")" + rest;
    var o := 2 + |a|;
    var cb := o + 1 + |b|;
    assert forall k :: 2 <= k < o ==> s[k] == a[k - 2];
    assert forall k :: o + 1 <= k < cb ==> s[k] == b[k - o - 1];
    assert forall k :: cb + 1 <= k < |s| ==> s[k] == rest[k - cb - 1];
    assert s[o] == '(' && s[cb] == ')';
    KeyCloseRun(s, 2, o, 1);
    KeyCloseRun(s, o + 1, cb, 2);
    KeyCloseRun(s, cb + 1, |s|, 1);
  }

  /** `"%(()d" % {"(": 1}`: the inner `)` only closes the inner `(`, so the
      key never closes, even though `"("` is in the mapping. */
  lemma EmptyNestedKeyIsIncomplete()
    ensures Render("%(()d", map["(" := IntVal(1)]) == Err(IncompleteKey)
  {
    UnbalancedKeyIsIncomplete("", "", "d", map["(" := IntVal(1)]);
    assert "%(" + "" + "(" + "" + ")" + "d" == "%(()d";
  }
}
