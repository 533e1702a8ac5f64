/**
 * The few JavaScript string primitives the lookup client relies on:
 * `String.prototype.trim`, `String.prototype.toLowerCase` and the
 * `Number(s)` + `Number.isFinite` pair used to read numeric attributes.
 */
module JsText {
  import opened Wrappers

  /** ECMAScript WhiteSpace and LineTerminator: what `trim()` and `Number()` skip. */
  predicate IsSpace(c: char) {
    || c == ' ' || c == '\t' || c == '\n' || c == '\U{B}' || c == '\U{C}' || c == '\r'
    || c == '\U{A0}' || c == '\U{1680}' || ('\U{2000}' <= c <= '\U{200A}')
    || c == '\U{2028}' || c == '\U{2029}' || c == '\U{202F}' || c == '\U{205F}'
    || c == '\U{3000}' || c == '\U{FEFF}'
  }

  predicate AllSpace(s: string) {
    forall i :: 0 <= i < |s| ==> IsSpace(s[i])
  }

  /** Drops leading white space: the result is the longest suffix that does not start with a space. */
  function TrimStart(s: string): (r: string)
    ensures |r| <= |s| && r == s[|s| - |r|..]
    ensures AllSpace(s[..|s| - |r|])
    ensures |r| == 0 || !IsSpace(r[0])
  {
    if |s| > 0 && IsSpace(s[0]) then TrimStart(s[1..]) else s
  }

  /** Drops trailing white space: the result is the longest prefix that does not end with a space. */
  function TrimEnd(s: string): (r: string)
    ensures |r| <= |s| && r == s[..|r|]
    ensures AllSpace(s[|r|..])
    ensures |r| == 0 || !IsSpace(r[|r| - 1])
  {
    if |s| > 0 && IsSpace(s[|s| - 1]) then TrimEnd(s[..|s| - 1]) else s
  }

  /** `s.trim()`: neither end of the result is white space. */
  function Trim(s: string): (r: string)
    ensures |r| <= |s|
    ensures |r| == 0 || (!IsSpace(r[0]) && !IsSpace(r[|r| - 1]))
  {
    TrimEnd(TrimStart(s))
  }

  /** What `trim()` returns is the slice of `s` left once the white space around it is removed. */
  lemma TrimIsSlice(s: string)
    ensures var r := Trim(s);
      exists i :: 0 <= i <= |s| - |r| && r == s[i..i + |r|] && AllSpace(s[..i]) && AllSpace(s[i + |r|..])
  {
    var t := TrimStart(s);
    var r := TrimEnd(t);
    var i := |s| - |t|;
    assert r == s[i..][..|r|] == s[i..i + |r|];
    assert AllSpace(s[..i]);
    assert s[i + |r|..] == t[|r|..];
    assert AllSpace(s[i + |r|..]);
    assert 0 <= i <= |s| - |r| && r == s[i..i + |r|] && AllSpace(s[..i]) && AllSpace(s[i + |r|..]);
  }

  /** `toLowerCase()` on one character; only the ASCII letters are folded. */
  function LowerChar(c: char): char {
    if 'A' <= c <= 'Z' then (c as int + 32) as char else c
  }

  function ToLower(s: string): string {
    seq(|s|, i requires 0 <= i < |s| => LowerChar(s[i]))
  }

  lemma {:induction false} TrimStartPadded(a: string, m: string)
    requires AllSpace(a)
    ensures TrimStart(a + m) == TrimStart(m)
  {
    if a == [] {
      assert a + m == m;
    } else {
      assert (a + m)[1..] == a[1..] + m;
      TrimStartPadded(a[1..], m);
    }
  }

  lemma {:induction false} TrimEndPadded(m: string, b: string)
    requires AllSpace(b)
    ensures TrimEnd(m + b) == TrimEnd(m)
  {
    if b == [] {
      assert m + b == m;
    } else {
      assert (m + b)[..|m + b| - 1] == m + b[..|b| - 1];
      TrimEndPadded(m, b[..|b| - 1]);
    }
  }

  lemma {:induction false} TrimStartAppend(m: string, b: string)
    ensures TrimStart(m + b) == if AllSpace(m) then TrimStart(b) else TrimStart(m) + b
  {
    if m == [] {
      assert m + b == b;
    } else if IsSpace(m[0]) {
      assert (m + b)[1..] == m[1..] + b;
      assert AllSpace(m) <==> AllSpace(m[1..]);
      TrimStartAppend(m[1..], b);
    } else {
      assert (m + b)[0] == m[0];
    }
  }

  /** Surrounding white space never reaches the trimmed result. */
  lemma TrimIgnoresPadding(a: string, m: string, b: string)
    requires AllSpace(a) && AllSpace(b)
    ensures Trim(a + m + b) == Trim(m)
  {
    assert a + m + b == a + (m + b);
    TrimStartPadded(a, m + b);
    TrimStartAppend(m, b);
    if !AllSpace(m) {
      TrimEndPadded(TrimStart(m), b);
    }
  }

  /** Case folding happens character by character, so it distributes over concatenation. */
  lemma ToLowerAppend(a: string, b: string)
    ensures ToLower(a + b) == ToLower(a) + ToLower(b)
  {
  }

  /** White space is left alone by case folding. */
  lemma ToLowerKeepsSpace(a: string)
    requires AllSpace(a)
    ensures ToLower(a) == a
  {
  }

  predicate IsDigit(c: char) {
    '0' <= c <= '9'
  }

  predicate AllDigits(s: string) {
    forall i :: 0 <= i < |s| ==> IsDigit(s[i])
  }

  /** The value of a string of decimal digits. */
  function DigitsValue(s: string): nat
    requires AllDigits(s)
  {
    if s == [] then 0 else DigitsValue(s[..|s| - 1]) * 10 + (s[|s| - 1] as int - '0' as int)
  }

  /** The canonical decimal spelling of a natural number. */
  function DecimalString(n: nat): (s: string)
    ensures |s| > 0 && AllDigits(s)
  {
    var d := [('0' as int + n % 10) as char];
    if n < 10 then d else DecimalString(n / 10) + d
  }

  /**
   * `Number(s)` followed by `Number.isFinite`, restricted to integers:
   * surrounding white space is ignored, a blank string reads as 0, and an
   * optional sign may precede the decimal digits. Anything else (NaN in
   * JavaScript) is None.
   */
  function ParseNum(s: string): Option<int> {
    ParseTrimmed(Trim(s))
  }

  /** `Number` on a string that has already been trimmed. */
  function ParseTrimmed(t: string): Option<int> {
    if t == [] then Some(0)
    else if (t[0] == '-' || t[0] == '+') && |t| > 1 && AllDigits(t[1..]) then
      var v: int := DigitsValue(t[1..]);
      Some(if t[0] == '-' then -v else v)
    else if AllDigits(t) then Some(DigitsValue(t))
    else None
  }

  lemma {:induction false} DecimalStringValue(n: nat)
    ensures DigitsValue(DecimalString(n)) == n
  {
    var s := DecimalString(n);
    if n >= 10 {
      DecimalStringValue(n / 10);
      assert s[..|s| - 1] == DecimalString(n / 10);
    }
  }

  lemma TrimUnpadded(s: string)
    requires s == [] || (!IsSpace(s[0]) && !IsSpace(s[|s| - 1]))
    ensures Trim(s) == s
  {
  }

  lemma ParseNumOfTrimmed(s: string)
    requires Trim(s) == s
    ensures ParseNum(s) == ParseTrimmed(s)
  {
  }

  lemma ParseTrimmedDigits(s: string)
    requires |s| > 0 && AllDigits(s)
    ensures ParseTrimmed(s) == Some(DigitsValue(s) as int)
    ensures ParseTrimmed("-" + s) == Some(-(DigitsValue(s) as int))
  {
    assert IsDigit(s[0]);
    assert ("-" + s)[1..] == s;
  }

  lemma ParseNumDigits(s: string)
    requires |s| > 0 && AllDigits(s)
    ensures ParseNum(s) == Some(DigitsValue(s) as int)
    ensures ParseNum("-" + s) == Some(-(DigitsValue(s) as int))
  {
    var m := "-" + s;
    assert m[0] == '-' && m[|m| - 1] == s[|s| - 1];
    TrimUnpadded(s);
    TrimUnpadded(m);
    ParseNumOfTrimmed(s);
    ParseNumOfTrimmed(m);
    ParseTrimmedDigits(s);
  }

  /** Reading back the decimal spelling of an integer gives that integer. */
  lemma ParseNumDecimal(n: nat)
    ensures ParseNum(DecimalString(n)) == Some(n)
    ensures ParseNum("-" + DecimalString(n)) == Some(-(n as int))
  {
    var s := DecimalString(n);
    DecimalStringValue(n);
    ParseNumDigits(s);
    assert DigitsValue(s) as int == n;
  }
}
