/**
 * String operations the frontend and backend rely on: ASCII lower-casing,
 * substring search, the Python and JavaScript string orders, decimal rendering and
 * the two integer parsers (JavaScript `parseInt` and Python `int`).
 */
module Text {
  import opened Base
  import Seqs

  predicate IsDigit(c: char) { '0' <= c <= '9' }

  predicate AllDigits(s: string) { forall i :: 0 <= i < |s| ==> IsDigit(s[i]) }

  function LowerChar(c: char): char
  {
    if 'A' <= c <= 'Z' then (c as int + 32) as char else c
  }

  /** `toLowerCase`, on the ASCII letters. */
  function Lower(s: string): (r: string)
    ensures |r| == |s|
    ensures forall i :: 0 <= i < |s| ==> r[i] == LowerChar(s[i])
    ensures forall i :: 0 <= i < |s| ==> !('A' <= r[i] <= 'Z')
  {
    if s == [] then [] else [LowerChar(s[0])] + Lower(s[1..])
  }

  lemma LowerIdempotent(s: string)
    ensures Lower(Lower(s)) == Lower(s)
  {
  }

  /** `hay.includes(needle)`. */
  predicate Contains(hay: string, needle: string)
  {
    exists i :: 0 <= i <= |hay| - |needle| && needle <= hay[i..]
  }

  lemma ContainsEmpty(hay: string)
    ensures Contains(hay, "")
  {
    assert "" <= hay[0..];
  }

  lemma ContainsSelf(s: string)
    ensures Contains(s, s)
  {
    assert s <= s[0..];
  }

  // ---------------------------------------------------------------------------
  // Lexicographic string order. Python's `<` on `str` compares code points.
  // JavaScript's `<` and the default `Array.prototype.sort` compare UTF-16
  // code units, where a character above U+FFFF is a surrogate pair
  // (U+D800 to U+DFFF) and so comes before the characters U+E000 to U+FFFF.

  /** The number by which `lang` orders a character. */
  function OrderKey(lang: Lang, c: char): int
  {
    if lang.JavaScript? && '\U{E000}' <= c <= '\U{FFFF}' then c as int + 0x11_0000 else c as int
  }

  predicate StrLt(lang: Lang, a: string, b: string)
    decreases |a|
  {
    |b| > 0 && (|a| == 0 || OrderKey(lang, a[0]) < OrderKey(lang, b[0])
                || (a[0] == b[0] && StrLt(lang, a[1..], b[1..])))
  }

  predicate StrLe(lang: Lang, a: string, b: string) { a == b || StrLt(lang, a, b) }

  /** `a <= b` on JavaScript strings, the order of the default `sort()`. */
  predicate CodeUnitLe(a: string, b: string) { StrLe(JavaScript, a, b) }

  /** `a <= b` on Python strings. */
  predicate CodePointLe(a: string, b: string) { StrLe(Python, a, b) }

  lemma {:induction false} StrLtIrreflexive(lang: Lang, a: string)
    ensures !StrLt(lang, a, a)
  {
    if |a| > 0 { StrLtIrreflexive(lang, a[1..]); }
  }

  lemma {:induction false} StrLtTransitive(lang: Lang, a: string, b: string, c: string)
    requires StrLt(lang, a, b) && StrLt(lang, b, c)
    ensures StrLt(lang, a, c)
    decreases |a|
  {
    if |a| > 0 && a[0] == b[0] && b[0] == c[0] {
      StrLtTransitive(lang, a[1..], b[1..], c[1..]);
    }
  }

  lemma {:induction false} StrLtTrichotomy(lang: Lang, a: string, b: string)
    ensures StrLt(lang, a, b) || a == b || StrLt(lang, b, a)
    decreases |a|
  {
    if |a| > 0 && |b| > 0 && a[0] == b[0] {
      StrLtTrichotomy(lang, a[1..], b[1..]);
      if a[1..] == b[1..] {
        assert a == [a[0]] + a[1..] && b == [b[0]] + b[1..];
      }
    }
  }

  lemma StrLtAsymmetric(lang: Lang, a: string, b: string)
    requires StrLt(lang, a, b)
    ensures !StrLt(lang, b, a)
  {
    if StrLt(lang, b, a) {
      StrLtTransitive(lang, a, b, a);
      StrLtIrreflexive(lang, a);
    }
  }

  /** StrLe is a total order: the facts a sort by it needs. */
  lemma StrLeTotalOrder(lang: Lang, a: string, b: string, c: string)
    ensures StrLe(lang, a, b) || StrLe(lang, b, a)
    ensures StrLe(lang, a, b) && StrLe(lang, b, a) ==> a == b
    ensures StrLe(lang, a, b) && StrLe(lang, b, c) ==> StrLe(lang, a, c)
  {
    StrLtTrichotomy(lang, a, b);
    if StrLt(lang, a, b) && StrLt(lang, b, a) { StrLtAsymmetric(lang, a, b); }
    if StrLt(lang, a, b) && StrLt(lang, b, c) { StrLtTransitive(lang, a, b, c); }
  }

  /** The UTF-16 code units of one character: itself, or a surrogate pair. */
  function Utf16Units(c: char): (r: seq<int>)
    ensures 1 <= |r| <= 2
  {
    if c as int < 0x1_0000 then [c as int]
    else [0xD800 + (c as int - 0x1_0000) / 0x400, 0xDC00 + (c as int - 0x1_0000) % 0x400]
  }

  /** A string's UTF-16 code units, as JavaScript holds it. */
  function Utf16(s: string): seq<int>
  {
    if s == [] then [] else Utf16Units(s[0]) + Utf16(s[1..])
  }

  /** Lexicographic order on sequences of numbers. */
  predicate SeqLt(x: seq<int>, y: seq<int>)
    decreases |x|
  {
    |y| > 0 && (|x| == 0 || x[0] < y[0] || (x[0] == y[0] && SeqLt(x[1..], y[1..])))
  }

  lemma {:induction false} SeqLtCommonPrefix(p: seq<int>, x: seq<int>, y: seq<int>)
    ensures SeqLt(p + x, p + y) <==> SeqLt(x, y)
  {
    if p != [] {
      assert (p + x)[1..] == p[1..] + x && (p + y)[1..] == p[1..] + y;
      SeqLtCommonPrefix(p[1..], x, y);
    } else {
      assert p + x == x && p + y == y;
    }
  }

  /** Two different characters are ordered by their first differing code unit. */
  lemma UnitsDecide(c: char, d: char, x: seq<int>, y: seq<int>)
    requires c != d
    ensures SeqLt(Utf16Units(c) + x, Utf16Units(d) + y) <==> OrderKey(JavaScript, c) < OrderKey(JavaScript, d)
  {
    var u, v := Utf16Units(c) + x, Utf16Units(d) + y;
    assert u[0] == Utf16Units(c)[0] && v[0] == Utf16Units(d)[0];
    if c as int >= 0x1_0000 && d as int >= 0x1_0000 && u[0] == v[0] {
      assert u[1..] == [Utf16Units(c)[1]] + x && v[1..] == [Utf16Units(d)[1]] + y;
      assert u[1..][0] == Utf16Units(c)[1] && v[1..][0] == Utf16Units(d)[1];
    }
  }

  /** The JavaScript order is the lexicographic order of the UTF-16 code units. */
  lemma {:induction false} CodeUnitOrder(a: string, b: string)
    ensures StrLt(JavaScript, a, b) <==> SeqLt(Utf16(a), Utf16(b))
    decreases |a|
  {
    if |a| > 0 && |b| > 0 {
      assert Utf16(a) == Utf16Units(a[0]) + Utf16(a[1..]);
      assert Utf16(b) == Utf16Units(b[0]) + Utf16(b[1..]);
      if a[0] == b[0] {
        SeqLtCommonPrefix(Utf16Units(a[0]), Utf16(a[1..]), Utf16(b[1..]));
        CodeUnitOrder(a[1..], b[1..]);
      } else {
        UnitsDecide(a[0], b[0], Utf16(a[1..]), Utf16(b[1..]));
      }
    } else if |b| > 0 {
      assert Utf16(b) == Utf16Units(b[0]) + Utf16(b[1..]);
    }
  }

  /** A character above U+FFFF sorts before U+FF08 in JavaScript and after it in Python. */
  lemma SurrogatePairFirst()
    ensures StrLt(JavaScript, "\U{20BB7}", "\U{FF08}") && StrLt(Python, "\U{FF08}", "\U{20BB7}")
  {
  }

  // ---------------------------------------------------------------------------
  // Decimal rendering: `String(n)` / `str(n)` on an integer.

  function DigitChar(d: int): char
    requires 0 <= d < 10
  {
    ('0' as int + d) as char
  }

  function DigitValue(c: char): nat
    requires IsDigit(c)
  {
    c as int - '0' as int
  }

  function NatToString(n: nat): (s: string)
    ensures |s| >= 1 && AllDigits(s)
    ensures s[0] == '0' ==> n == 0
  {
    if n < 10 then [DigitChar(n)] else NatToString(n / 10) + [DigitChar(n % 10)]
  }

  function IntToString(n: int): (s: string)
  {
    if n < 0 then "-" + NatToString(-n) else NatToString(n)
  }

  /** The value of a string of decimal digits. */
  function DigitsValue(s: string): nat
    requires AllDigits(s)
  {
    if s == [] then 0 else DigitsValue(s[..|s| - 1]) * 10 + DigitValue(s[|s| - 1])
  }

  lemma {:induction false} DigitsValueOfNatToString(n: nat)
    ensures DigitsValue(NatToString(n)) == n
  {
    if n >= 10 {
      var s := NatToString(n);
      assert s[..|s| - 1] == NatToString(n / 10);
      DigitsValueOfNatToString(n / 10);
    }
  }

  /** `s.padStart(width, fill)` with a one-character fill. */
  function PadStart(s: string, width: int, fill: char): (r: string)
    ensures |r| == if |s| >= width then |s| else width
    ensures r[|r| - |s|..] == s
    ensures forall i :: 0 <= i < |r| - |s| ==> r[i] == fill
  {
    if |s| >= width then s else Repeat(fill, width - |s|) + s
  }

  function Repeat(c: char, n: nat): (r: string)
    ensures |r| == n && forall i :: 0 <= i < n ==> r[i] == c
  {
    if n == 0 then [] else [c] + Repeat(c, n - 1)
  }

  // ---------------------------------------------------------------------------
  // Parsers.

  /**
   * The characters `int()` strips from both ends. Below U+007F these are
   * only tab, line feed, vertical tab, form feed, carriage return and the
   * space: the separators U+001C to U+001F pass `str.isspace` but are kept
   * as they are, and then refused. Above it, the characters `str.isspace`
   * accepts are turned into spaces first and so are stripped too: NEL,
   * NBSP, the other Unicode space separators, and the line and paragraph
   * separators. The byte-order mark U+FEFF is not among them.
   */
  predicate IsPySpace(c: char)
  {
    ('\t' <= c <= '\r') || c == ' ' || c == '\U{0085}' || c == '\U{00A0}'
    || c == '\U{1680}' || ('\U{2000}' <= c <= '\U{200A}') || c == '\U{2028}' || c == '\U{2029}'
    || c == '\U{202F}' || c == '\U{205F}' || c == '\U{3000}'
  }

  /**
   * ECMAScript's WhiteSpace and LineTerminator characters, which `parseInt`
   * skips at the start: tab, vertical tab, form feed, the byte-order mark,
   * the Unicode space separators, and the four line terminators. NEL and
   * the controls 28 to 31 are not among them.
   */
  predicate IsJsSpace(c: char)
  {
    c == '\t' || c == '\U{000B}' || c == '\U{000C}' || c == '\U{FEFF}' || c == ' ' || c == '\U{00A0}'
    || c == '\U{1680}' || ('\U{2000}' <= c <= '\U{200A}') || c == '\U{202F}' || c == '\U{205F}'
    || c == '\U{3000}' || IsLineTerminator(c)
  }

  /** Whose rules a string operation follows: Python's or JavaScript's. */
  datatype Lang = Python | JavaScript

  predicate IsSpace(lang: Lang, c: char)
  {
    if lang.Python? then IsPySpace(c) else IsJsSpace(c)
  }

  /** `s` without its leading white space. */
  function TrimStart(s: string, lang: Lang): (r: string)
    ensures |r| <= |s| && r == s[|s| - |r|..]
    ensures forall i :: 0 <= i < |s| - |r| ==> IsSpace(lang, s[i])
    ensures |r| > 0 ==> !IsSpace(lang, r[0])
  {
    if |s| > 0 && IsSpace(lang, s[0]) then TrimStart(s[1..], lang) else s
  }

  /** `s` without its trailing white space. */
  function TrimEnd(s: string, lang: Lang): (r: string)
    ensures |r| <= |s| && r == s[..|r|]
    ensures forall i :: |r| <= i < |s| ==> IsSpace(lang, s[i])
    ensures |r| > 0 ==> !IsSpace(lang, r[|r| - 1])
  {
    if |s| > 0 && IsSpace(lang, s[|s| - 1]) then TrimEnd(s[..|s| - 1], lang) else s
  }

  lemma DigitNotSpace(c: char, lang: Lang)
    requires IsDigit(c) || c == '-' || c == '+'
    ensures !IsSpace(lang, c)
  {
  }

  /** Leading white space makes no difference to what is left after trimming. */
  lemma {:induction false} TrimStartSkips(pre: string, s: string, lang: Lang)
    requires forall i :: 0 <= i < |pre| ==> IsSpace(lang, pre[i])
    ensures TrimStart(pre + s, lang) == TrimStart(s, lang)
  {
    if pre == [] {
      assert pre + s == s;
    } else {
      assert (pre + s)[1..] == pre[1..] + s;
      TrimStartSkips(pre[1..], s, lang);
    }
  }

  /** Trailing white space makes no difference to what is left after trimming. */
  lemma {:induction false} TrimEndSkips(s: string, post: string, lang: Lang)
    requires forall i :: 0 <= i < |post| ==> IsSpace(lang, post[i])
    ensures TrimEnd(s + post, lang) == TrimEnd(s, lang)
  {
    if post == [] {
      assert s + post == s;
    } else {
      var p := post[..|post| - 1];
      assert (s + post)[..|s + post| - 1] == s + p;
      TrimEndSkips(s, p, lang);
    }
  }

  /** What `int()` reads: `s` with `str.isspace` white space stripped from both ends. */
  function PyStrip(s: string): string
  {
    TrimEnd(TrimStart(s, Python), Python)
  }

  /** Trailing white space does not change what trimming both ends leaves. */
  lemma {:induction false} TrimBothSkips(s: string, post: string, lang: Lang)
    requires forall i :: 0 <= i < |post| ==> IsSpace(lang, post[i])
    ensures TrimEnd(TrimStart(s + post, lang), lang) == TrimEnd(TrimStart(s, lang), lang)
  {
    if s == [] {
      assert s + post == post + [];
      TrimStartSkips(post, [], lang);
    } else if IsSpace(lang, s[0]) {
      assert (s + post)[1..] == s[1..] + post;
      TrimBothSkips(s[1..], post, lang);
    } else {
      TrimEndSkips(s, post, lang);
    }
  }

  /** A string that starts with a digit or a sign and ends with a digit has nothing to strip. */
  lemma PyStripBare(s: string)
    requires |s| > 0 && (IsDigit(s[0]) || s[0] == '-' || s[0] == '+') && IsDigit(s[|s| - 1])
    ensures PyStrip(s) == s
  {
    DigitNotSpace(s[0], Python);
    assert TrimStart(s, Python) == s;
    DigitNotSpace(s[|s| - 1], Python);
  }

  /** White space around a string does not change what `int()` reads. */
  lemma PyStripSkips(pre: string, s: string, post: string)
    requires forall i :: 0 <= i < |pre| ==> IsPySpace(pre[i])
    requires forall i :: 0 <= i < |post| ==> IsPySpace(post[i])
    ensures PyStrip(pre + s + post) == PyStrip(s)
  {
    assert pre + s + post == pre + (s + post);
    TrimStartSkips(pre, s + post, Python);
    TrimBothSkips(s, post, Python);
  }

  /** The text after one leading `+` or `-`, if there is one. */
  function Unsigned(t: string): (r: string)
    ensures r == t || (|t| > 0 && (t[0] == '-' || t[0] == '+') && r == t[1..])
  {
    if |t| > 0 && (t[0] == '-' || t[0] == '+') then t[1..] else t
  }

  predicate Negative(t: string) { |t| > 0 && t[0] == '-' }

  function SignOf(t: string): int { if Negative(t) then -1 else 1 }

  /**
   * The digits of a Python decimal integer (PEP 515): ASCII digits, with
   * single underscores allowed between two digits.
   */
  predicate PyDigits(b: string)
  {
    |b| > 0 && forall i :: 0 <= i < |b| ==> PyDigitAt(b, i)
  }

  /** Position `i` holds a digit, or an underscore between digits. */
  predicate PyDigitAt(b: string, i: int)
    requires 0 <= i < |b|
  {
    IsDigit(b[i]) || (b[i] == '_' && 0 < i && i + 1 < |b| && IsDigit(b[i + 1]))
  }

  /** The characters of `b` other than underscores. */
  function DropUnderscores(b: string): (r: string)
    ensures |r| <= |b|
    ensures forall i :: 0 <= i < |r| ==> r[i] != '_'
  {
    if b == [] then [] else (if b[0] == '_' then [] else [b[0]]) + DropUnderscores(b[1..])
  }

  /** A digit string has no underscore to drop. */
  lemma {:induction false} DropUnderscoresOfDigits(b: string)
    requires AllDigits(b)
    ensures DropUnderscores(b) == b
  {
    if b != [] { DropUnderscoresOfDigits(b[1..]); }
  }

  lemma {:induction false} DropUnderscoresAppend(a: string, b: string)
    ensures DropUnderscores(a + b) == DropUnderscores(a) + DropUnderscores(b)
  {
    if a == [] {
      assert a + b == b;
    } else {
      assert (a + b)[1..] == a[1..] + b;
      DropUnderscoresAppend(a[1..], b);
    }
  }

  /** Dropping the underscores of digits and underscores leaves digits. */
  lemma {:induction false} DigitsDropped(b: string)
    requires forall i :: 0 <= i < |b| ==> IsDigit(b[i]) || b[i] == '_'
    ensures AllDigits(DropUnderscores(b))
  {
    if b != [] { DigitsDropped(b[1..]); }
  }

  lemma PyDigitsDropped(b: string)
    requires PyDigits(b)
    ensures AllDigits(DropUnderscores(b))
  {
    forall i | 0 <= i < |b| ensures IsDigit(b[i]) || b[i] == '_' {
      assert PyDigitAt(b, i);
    }
    DigitsDropped(b);
  }

  /** The number a Python digit string stands for. */
  function PyDigitsValue(b: string): nat
    requires PyDigits(b)
  {
    PyDigitsDropped(b);
    DigitsValue(DropUnderscores(b))
  }

  /**
   * Python `int(s)` on a string: `str.isspace` white space is stripped from
   * both ends, one sign is allowed, and the rest must be ASCII digits with
   * single underscores between them; `None` stands for the ValueError it
   * raises otherwise.
   */
  function PyInt(s: string): (r: Option<int>)
    ensures !PyDigits(Unsigned(PyStrip(s))) ==> r == None
    ensures PyDigits(Unsigned(PyStrip(s))) ==> r == Some(SignOf(PyStrip(s)) * PyDigitsValue(Unsigned(PyStrip(s))))
  {
    var t := PyStrip(s);
    var body := Unsigned(t);
    if !PyDigits(body) then None else Some(SignOf(t) * PyDigitsValue(body))
  }

  /** White space in the sense of `str.isspace` around the text does not change what `int()` reads. */
  lemma PyIntStripsSpace(pre: string, s: string, post: string)
    requires forall i :: 0 <= i < |pre| ==> IsPySpace(pre[i])
    requires forall i :: 0 <= i < |post| ==> IsPySpace(post[i])
    ensures PyInt(pre + s + post) == PyInt(s)
  {
    PyStripSkips(pre, s, post);
  }

  lemma PyDigitsOfDigits(d: string)
    requires |d| > 0 && AllDigits(d)
    ensures PyDigits(d)
  {
    forall i | 0 <= i < |d| ensures PyDigitAt(d, i) { assert IsDigit(d[i]); }
  }

  lemma PyDigitsJoined(a: string, b: string)
    requires |a| > 0 && |b| > 0 && AllDigits(a) && AllDigits(b)
    ensures PyDigits(a + "_" + b)
  {
    var s := a + "_" + b;
    forall i | 0 <= i < |s|
      ensures PyDigitAt(s, i)
    {
      if i < |a| { assert s[i] == a[i]; }
      else if i == |a| { assert s[i + 1] == b[0]; }
      else { assert s[i] == b[i - |a| - 1]; }
    }
  }

  lemma DropJoined(a: string, b: string)
    requires AllDigits(a) && AllDigits(b)
    ensures DropUnderscores(a + "_" + b) == a + b
  {
    DropUnderscoresAppend(a + "_", b);
    DropUnderscoresAppend(a, "_");
    assert DropUnderscores("_") == [] + DropUnderscores([]);
    DropUnderscoresOfDigits(a);
    DropUnderscoresOfDigits(b);
  }

  /** An underscore between two digit groups is ignored: `int("1_000") == 1000`. */
  lemma PyIntUnderscoreSeparated(a: string, b: string)
    requires |a| > 0 && |b| > 0 && AllDigits(a) && AllDigits(b)
    ensures PyInt(a + "_" + b) == Some(DigitsValue(a + b))
  {
    var s := a + "_" + b;
    assert IsDigit(s[0]);
    assert s[|s| - 1] == b[|b| - 1];
    PyStripBare(s);
    assert Unsigned(s) == s;
    PyDigitsJoined(a, b);
    DropJoined(a, b);
  }

  /** The ASCII digits of the sexadecimal notation `parseInt` reads after `0x`. */
  predicate IsHexDigit(c: char) { IsDigit(c) || 'a' <= c <= 'f' || 'A' <= c <= 'F' }

  predicate AllHexDigits(s: string) { forall i :: 0 <= i < |s| ==> IsHexDigit(s[i]) }

  function HexDigitValue(c: char): nat
    requires IsHexDigit(c)
  {
    if IsDigit(c) then DigitValue(c)
    else if 'a' <= c <= 'f' then c as int - 'a' as int + 10
    else c as int - 'A' as int + 10
  }

  /** The value of a string of sexadecimal digits. */
  function HexValue(s: string): nat
    requires AllHexDigits(s)
  {
    if s == [] then 0 else HexValue(s[..|s| - 1]) * 16 + HexDigitValue(s[|s| - 1])
  }

  /** The longest prefix of sexadecimal digits. */
  function HexPrefix(s: string): (r: string)
    ensures |r| <= |s| && r == s[..|r|] && AllHexDigits(r)
    ensures |r| < |s| ==> !IsHexDigit(s[|r|])
  {
    if |s| > 0 && IsHexDigit(s[0]) then [s[0]] + HexPrefix(s[1..]) else []
  }

  /** The `0x` or `0X` that makes `parseInt` without a radix read base 16. */
  predicate HexMarked(body: string) { |body| >= 2 && body[0] == '0' && (body[1] == 'x' || body[1] == 'X') }

  /** The longest prefix of decimal digits. */
  function DigitPrefix(s: string): (r: string)
    ensures |r| <= |s| && r == s[..|r|] && AllDigits(r)
    ensures |r| < |s| ==> !IsDigit(s[|r|])
  {
    if |s| > 0 && IsDigit(s[0]) then [s[0]] + DigitPrefix(s[1..]) else []
  }

  /**
   * JavaScript `parseInt(s)` with no radix: leading WhiteSpace and
   * LineTerminator characters and one sign are skipped; after `0x` or `0X`
   * the longest run of sexadecimal digits is read, otherwise the longest run
   * of decimal digits. `None` stands for NaN (no digit at all).
   */
  function JsParseInt(s: string): (r: Option<int>)
    ensures var t := TrimStart(s, JavaScript); var body := Unsigned(t);
      && (HexMarked(body) ==> (r.None? <==> HexPrefix(body[2..]) == [])
                              && (r.Some? ==> r.value == SignOf(t) * HexValue(HexPrefix(body[2..]))))
      && (!HexMarked(body) ==> (r.None? <==> DigitPrefix(body) == [])
                               && (r.Some? ==> r.value == SignOf(t) * DigitsValue(DigitPrefix(body))))
  {
    var t := TrimStart(s, JavaScript);
    var body := Unsigned(t);
    if HexMarked(body) then
      var hs := HexPrefix(body[2..]);
      if hs == [] then None else Some(SignOf(t) * HexValue(hs))
    else
      var ds := DigitPrefix(body);
      if ds == [] then None else Some(SignOf(t) * DigitsValue(ds))
  }

  /** Leading white space does not change what `parseInt` reads. */
  lemma JsParseIntSkipsSpace(pre: string, s: string)
    requires forall i :: 0 <= i < |pre| ==> IsJsSpace(pre[i])
    ensures JsParseInt(pre + s) == JsParseInt(s)
  {
    TrimStartSkips(pre, s, JavaScript);
  }

  lemma DigitPrefixOfDigits(s: string)
    requires AllDigits(s)
    ensures DigitPrefix(s) == s
  {
    if |s| > 0 { DigitPrefixOfDigits(s[1..]); }
  }

  /** `parseInt` reads the leading digits and ignores what follows them: `parseInt("12px") == 12`. */
  lemma JsParseIntReadsPrefix(digits: string, rest: string)
    requires |digits| > 0 && AllDigits(digits)
    requires rest == [] || !IsDigit(rest[0])
    requires !HexMarked(digits + rest)
    ensures JsParseInt(digits + rest) == Some(DigitsValue(digits))
  {
    var s := digits + rest;
    assert IsDigit(s[0]);
    DigitNotSpace(s[0], JavaScript);
    assert TrimStart(s, JavaScript) == s;
    assert Unsigned(s) == s;
    if rest == [] {
      assert s == digits;
      DigitPrefixOfDigits(digits);
    } else {
      DigitPrefixStops(digits, rest);
    }
  }

  /** `int()` refuses a leading byte-order mark, which is not white space to it. */
  lemma PyByteOrderMark()
    ensures PyInt("\U{FEFF}8") == None
  {
    var s := "\U{FEFF}8";
    assert s[0] == '\U{FEFF}' && s[1] == '8' && |s| == 2;
    assert !IsPySpace(s[0]) && !IsPySpace(s[1]);
    assert PyStrip(s) == s;
    assert Unsigned(s) == s;
    assert !PyDigitAt(s, 0);
  }

  /**
   * `int()` refuses the information separators U+001C to U+001F around the
   * digits, although `str.isspace` accepts them.
   */
  lemma PyInformationSeparator()
    ensures PyInt("\U{001C}5") == None
  {
    var s := "\U{001C}5";
    assert s[0] == '\U{001C}' && s[1] == '5' && |s| == 2;
    assert !IsPySpace(s[0]) && !IsPySpace(s[1]);
    assert PyStrip(s) == s;
    assert Unsigned(s) == s;
    assert !PyDigitAt(s, 0);
  }

  /** `parseInt` skips a leading byte-order mark. */
  lemma JsByteOrderMark()
    ensures JsParseInt("\U{FEFF}8") == Some(8)
  {
    var s := "\U{FEFF}8";
    assert s[0] == '\U{FEFF}' && s[1] == '8' && |s| == 2;
    assert IsJsSpace(s[0]);
    JsParseIntSkipsSpace([s[0]], "8");
    assert [s[0]] + "8" == s;
    JsParseIntReadsPrefix("8", "");
    assert "8" + "" == "8";
    assert DigitsValue("8") == 8 by { assert "8"[..0] == ""; }
  }

  /** Without a radix, `parseInt` reads text after `0x` in base 16. */
  lemma HexNotation()
    ensures JsParseInt("0x1A") == Some(26)
  {
    var s := "0x1A";
    assert s[0] == '0' && s[1] == 'x' && |s| == 4;
    DigitNotSpace(s[0], JavaScript);
    assert TrimStart(s, JavaScript) == s;
    assert Unsigned(s) == s;
    assert HexMarked(s);
    var h := s[2..];
    assert h[0] == '1' && h[1] == 'A' && |h| == 2;
    assert HexPrefix(h[1..]) == h[1..];
    assert HexPrefix(h) == h;
    assert h[..1] == "1" && "1"[..0] == "";
    assert HexValue(h) == 26;
  }

  /** Rendering an integer and reading it back with `parseInt` gives the integer. */
  lemma JsParseIntOfIntToString(n: int)
    ensures JsParseInt(IntToString(n)) == Some(n)
  {
    var s := IntToString(n);
    var m: nat := if n < 0 then -n else n;
    var d := NatToString(m);
    DigitNotSpace(s[0], JavaScript);
    assert TrimStart(s, JavaScript) == s;
    if n < 0 {
      assert s[1..] == d;
    }
    assert Unsigned(s) == d;
    assert !HexMarked(d) by {
      if |d| >= 2 { assert IsDigit(d[1]); }
    }
    DigitPrefixOfDigits(d);
    DigitsValueOfNatToString(m);
    assert SignOf(s) * m == n;
  }

  /** Rendering an integer and reading it back with Python `int` gives the integer. */
  lemma PyIntOfIntToString(n: int)
    ensures PyInt(IntToString(n)) == Some(n)
  {
    var s := IntToString(n);
    var d := NatToString(if n < 0 then -n else n);
    PyStripBare(s);
    if n < 0 {
      assert s[1..] == d;
    }
    assert Unsigned(s) == d;
    PyDigitsOfDigits(d);
    DropUnderscoresOfDigits(d);
    DigitsValueOfNatToString(if n < 0 then -n else n);
    assert PyDigitsValue(d) == if n < 0 then -n else n;
  }

  // ---------------------------------------------------------------------------
  // Splitting and the two regular expressions on project codes.

  /** `s.split(c)[0]`: the text before the first `c`, or all of `s`. */
  function Before(s: string, c: char): (r: string)
    ensures |r| <= |s| && r == s[..|r|] && c !in r
    ensures |r| < |s| ==> s[|r|] == c
  {
    if s == [] || s[0] == c then [] else [s[0]] + Before(s[1..], c)
  }

  /** A text without the separator is its own first part. */
  lemma BeforeAbsent(s: string, c: char)
    requires c !in s
    ensures Before(s, c) == s
  {
  }

  /**
   * `s.match(/^(\d+)-/)`: the group of leading ASCII digits when a hyphen
   * follows it. The greedy group can only stop at the end of the digits, so
   * the hyphen must follow the longest digit prefix.
   */
  function LeadingNumber(s: string): (r: Option<string>)
    ensures r.Some? ==> |r.value| > 0 && AllDigits(r.value) && r.value + "-" <= s
  {
    var ds := DigitPrefix(s);
    if ds != [] && |ds| < |s| && s[|ds|] == '-' then
      assert s[..|ds| + 1] == ds + "-";
      Some(ds)
    else None
  }

  /** The match exists exactly for a non-empty digit run followed by a hyphen, and returns that run. */
  lemma LeadingNumberExactly(digits: string, rest: string)
    requires |digits| > 0 && AllDigits(digits)
    ensures LeadingNumber(digits + "-" + rest) == Some(digits)
  {
    var s := digits + "-" + rest;
    DigitPrefixStops(digits, "-" + rest);
    assert s == digits + ("-" + rest);
  }

  lemma {:induction false} DigitPrefixStops(digits: string, rest: string)
    requires AllDigits(digits) && |rest| > 0 && !IsDigit(rest[0])
    ensures DigitPrefix(digits + rest) == digits
  {
    if digits != [] {
      assert (digits + rest)[1..] == digits[1..] + rest;
      DigitPrefixStops(digits[1..], rest);
    }
  }

  /** The line terminators `.` does not match. */
  predicate IsLineTerminator(c: char)
  {
    c == '\n' || c == '\r' || c == '\U{2028}' || c == '\U{2029}'
  }

  predicate NoLineTerminator(s: string) { forall i :: 0 <= i < |s| ==> !IsLineTerminator(s[i]) }

  /**
   * `s.match(/-(.+)$/)`: the leftmost hyphen followed by at least one
   * character and no line terminator up to the end; the group is the text after it.
   */
  function AfterHyphen(s: string): (r: Option<string>)
    ensures r.Some? ==> |r.value| > 0 && NoLineTerminator(r.value)
                        && |r.value| < |s| && s[|s| - |r.value| - 1] == '-' && s[|s| - |r.value|..] == r.value
    ensures r.None? ==> forall i :: 0 <= i < |s| - 1 && s[i] == '-' ==> !NoLineTerminator(s[i + 1..])
    decreases |s|
  {
    if |s| < 2 then None
    else if s[0] == '-' && NoLineTerminator(s[1..]) then Some(s[1..])
    else
      var r := AfterHyphen(s[1..]);
      SuffixShift(s);
      r
  }

  lemma SuffixShift(s: string)
    requires |s| > 0
    ensures forall i :: 1 <= i < |s| ==> s[i..] == s[1..][i - 1..]
  {
  }

  /** In `prefix-number` with no hyphen in the prefix, the group is the number. */
  lemma {:induction false} AfterHyphenOf(prefix: string, number: string)
    requires '-' !in prefix && |number| > 0 && NoLineTerminator(number)
    ensures AfterHyphen(prefix + "-" + number) == Some(number)
    decreases |prefix|
  {
    var s := prefix + "-" + number;
    if prefix == [] {
      assert s[1..] == number;
    } else {
      assert s[0] == prefix[0] && s[0] != '-';
      assert s[1..] == prefix[1..] + "-" + number;
      AfterHyphenOf(prefix[1..], number);
    }
  }

  /** Both orders are total preorders, so sorting by them is well defined. */
  lemma StrLeTotal()
    ensures Seqs.TotalPreorder(CodeUnitLe) && Seqs.TotalPreorder(CodePointLe)
  {
    forall a: string, b: string, c: string
      ensures (CodeUnitLe(a, b) || CodeUnitLe(b, a)) && (CodeUnitLe(a, b) && CodeUnitLe(b, c) ==> CodeUnitLe(a, c))
      ensures (CodePointLe(a, b) || CodePointLe(b, a)) && (CodePointLe(a, b) && CodePointLe(b, c) ==> CodePointLe(a, c))
    {
      StrLeTotalOrder(JavaScript, a, b, c);
      StrLeTotalOrder(Python, a, b, c);
    }
  }
}
