/** The string operations of JavaScript that the core relies on: printing an
    integer, `Array.prototype.join(',')` on numbers, `String.prototype.trim`,
    `startsWith`/`endsWith`, and the global `parseInt` with no radix. */
module Text {
  import opened Wrappers

  predicate IsDigit(c: char) { '0' <= c <= '9' }

  predicate StartsWith(s: string, prefix: string) {
    |prefix| <= |s| && s[..|prefix|] == prefix
  }

  predicate EndsWith(s: string, suffix: string) {
    |suffix| <= |s| && s[|s| - |suffix|..] == suffix
  }

  function DigitChar(d: nat): (c: char)
    requires d < 10
    ensures IsDigit(c)
    ensures c as int - '0' as int == d
  {
    (48 + d) as char
  }

  /** Decimal text of a non-negative integer, as JavaScript prints integral numbers below 1e21. */
  function NatToString(n: nat): (s: string)
    ensures |s| >= 1
    ensures forall i :: 0 <= i < |s| ==> IsDigit(s[i])
    ensures n >= 1 ==> s[0] != '0'
  {
    if n < 10 then [DigitChar(n)] else NatToString(n / 10) + [DigitChar(n % 10)]
  }

  /** `String(n)` for an integral number. */
  function IntToString(n: int): (s: string)
    ensures |s| >= 1
    ensures n >= 0 ==> forall i :: 0 <= i < |s| ==> IsDigit(s[i])
    ensures n < 0 ==> s[0] == '-'
  {
    if n < 0 then "-" + NatToString(-n) else NatToString(n)
  }

  lemma {:induction false} NatToStringInjective(m: nat, n: nat)
    requires NatToString(m) == NatToString(n)
    ensures m == n
  {
    var s := NatToString(m);
    if m >= 10 && n >= 10 {
      assert NatToString(m / 10) == s[..|s| - 1];
      assert NatToString(n / 10) == s[..|s| - 1];
      NatToStringInjective(m / 10, n / 10);
      assert DigitChar(m % 10) == s[|s| - 1] == DigitChar(n % 10);
    } else if m < 10 && n < 10 {
      assert DigitChar(m) == s[0] == DigitChar(n);
    }
  }

  /** Distinct integers print differently. */
  lemma IntToStringInjective(m: int, n: int)
    requires IntToString(m) == IntToString(n)
    ensures m == n
  {
    var s := IntToString(m);
    if m < 0 && n < 0 {
      assert NatToString(-m) == s[1..] == NatToString(-n);
      NatToStringInjective(-m, -n);
    } else if m >= 0 && n >= 0 {
      NatToStringInjective(m, n);
    }
  }

  /** `xs.join(',')` for an array of integral numbers. */
  function Join(xs: seq<int>): (s: string)
    ensures s == [] <==> xs == []
  {
    if |xs| == 0 then ""
    else if |xs| == 1 then IntToString(xs[0])
    else IntToString(xs[0]) + "," + Join(xs[1..])
  }

  /** The text before the first separator. */
  function BeforeFirst(s: string, sep: char): string
  {
    if s == [] || s[0] == sep then [] else [s[0]] + BeforeFirst(s[1..], sep)
  }

  lemma {:induction false} BeforeFirstOf(a: string, b: string, sep: char)
    requires sep !in a
    requires b == [] || b[0] == sep
    ensures BeforeFirst(a + b, sep) == a
  {
    if a != [] {
      assert (a + b)[1..] == a[1..] + b;
      BeforeFirstOf(a[1..], b, sep);
    }
  }

  /** Two strings cut where their first separator stands give equal parts. */
  lemma SplitAtFirst(a: string, b: string, c: string, d: string, sep: char)
    requires a + b == c + d
    requires sep !in a && sep !in c
    requires b == [] || b[0] == sep
    requires d == [] || d[0] == sep
    ensures a == c && b == d
  {
    BeforeFirstOf(a, b, sep);
    BeforeFirstOf(c, d, sep);
    assert b == (a + b)[|a|..];
    assert d == (c + d)[|c|..];
  }

  /** The text after the last separator. */
  function AfterLast(s: string, sep: char): string
  {
    if s == [] || s[|s| - 1] == sep then [] else AfterLast(s[..|s| - 1], sep) + [s[|s| - 1]]
  }

  lemma {:induction false} AfterLastOf(a: string, b: string, sep: char)
    requires sep !in b
    ensures AfterLast(a + [sep] + b, sep) == b
  {
    if b != [] {
      assert (a + [sep] + b)[..|a| + |b|] == a + [sep] + b[..|b| - 1];
      AfterLastOf(a, b[..|b| - 1], sep);
    }
  }

  /** Two strings cut where their last separator stands give equal parts. */
  lemma SplitAtLast(a: string, b: string, c: string, d: string, sep: char)
    requires a + [sep] + b == c + [sep] + d
    requires sep !in b && sep !in d
    ensures a == c && b == d
  {
    AfterLastOf(a, b, sep);
    AfterLastOf(c, d, sep);
    var s := a + [sep] + b;
    assert a == s[..|a|];
    assert c == s[..|c|];
  }

  /** On non-negative numbers `join(',')` loses nothing: equal texts come from equal lists. */
  lemma NoCommaInNumber(n: int)
    requires n >= 0
    ensures ',' !in IntToString(n)
  {
    var a := IntToString(n);
    assert forall i :: 0 <= i < |a| ==> IsDigit(a[i]);
  }

  lemma ConcatAssoc<T>(a: seq<T>, b: seq<T>, c: seq<T>)
    ensures a + b + c == a + (b + c)
  {
  }

  /** One step of the join: the first number, then a comma and the rest if any. */
  lemma JoinUnfold(xs: seq<int>)
    requires xs != []
    ensures |xs| == 1 ==> Join(xs) == IntToString(xs[0])
    ensures |xs| > 1 ==> Join(xs) == IntToString(xs[0]) + "," + Join(xs[1..])
  {
  }

  /** The join of non-negative numbers holds only digits and commas. */
  lemma {:induction false} JoinDigits(xs: seq<int>)
    requires forall k :: 0 <= k < |xs| ==> xs[k] >= 0
    ensures forall i :: 0 <= i < |Join(xs)| ==> IsDigit(Join(xs)[i]) || Join(xs)[i] == ','
  {
    if xs != [] {
      JoinUnfold(xs);
      var a := IntToString(xs[0]);
      if |xs| > 1 {
        JoinDigits(xs[1..]);
        var rest := Join(xs[1..]);
        assert Join(xs) == a + "," + rest;
        forall i | 0 <= i < |Join(xs)|
          ensures IsDigit(Join(xs)[i]) || Join(xs)[i] == ','
        {
          if i < |a| {
            assert Join(xs)[i] == a[i];
          } else if i > |a| {
            assert Join(xs)[i] == rest[i - |a| - 1];
          }
        }
      }
    }
  }

  /** Equal joins of non-empty lists agree on the first number and on the rest. */
  lemma JoinHeads(xs: seq<int>, ys: seq<int>)
    requires xs != [] && ys != [] && xs[0] >= 0 && ys[0] >= 0
    requires Join(xs) == Join(ys)
    ensures xs[0] == ys[0]
    ensures |xs| == 1 <==> |ys| == 1
    ensures |xs| > 1 ==> Join(xs[1..]) == Join(ys[1..])
  {
    var a, c := IntToString(xs[0]), IntToString(ys[0]);
    var b := if |xs| == 1 then "" else "," + Join(xs[1..]);
    var d := if |ys| == 1 then "" else "," + Join(ys[1..]);
    JoinUnfold(xs);
    JoinUnfold(ys);
    if |xs| == 1 { assert a + b == a; } else { ConcatAssoc(a, ",", Join(xs[1..])); }
    if |ys| == 1 { assert c + d == c; } else { ConcatAssoc(c, ",", Join(ys[1..])); }
    NoCommaInNumber(xs[0]);
    NoCommaInNumber(ys[0]);
    SplitAtFirst(a, b, c, d, ',');
    IntToStringInjective(xs[0], ys[0]);
    assert |xs| == 1 <==> |b| == 0;
    assert |ys| == 1 <==> |d| == 0;
    if |xs| > 1 {
      assert Join(xs[1..]) == b[1..];
      assert Join(ys[1..]) == d[1..];
    }
  }

  lemma {:induction false} JoinInjective(xs: seq<int>, ys: seq<int>)
    requires forall k :: 0 <= k < |xs| ==> xs[k] >= 0
    requires forall k :: 0 <= k < |ys| ==> ys[k] >= 0
    requires Join(xs) == Join(ys)
    ensures xs == ys
  {
    if xs != [] && ys != [] {
      JoinHeads(xs, ys);
      if |xs| > 1 {
        JoinInjective(xs[1..], ys[1..]);
        assert xs == [xs[0]] + xs[1..];
        assert ys == [ys[0]] + ys[1..];
      }
    }
  }



  /** The characters `trim` and `parseInt` skip: ECMAScript WhiteSpace and LineTerminator. */
  predicate IsWhitespace(c: char) {
    || c == '\t' || c == '\n' || c == '\U{000B}' || c == '\U{000C}' || c == '\r'
    || c == ' ' || c == '\U{00A0}' || c == '\U{1680}'
    || ('\U{2000}' <= c <= '\U{200A}')
    || c == '\U{2028}' || c == '\U{2029}' || c == '\U{202F}' || c == '\U{205F}'
    || c == '\U{3000}' || c == '\U{FEFF}'
  }

  /** `trimStart`: drops the leading whitespace and keeps the rest. */
  function TrimStart(s: string): (r: string)
    ensures |r| <= |s| && r == s[|s| - |r|..]
    ensures forall k :: 0 <= k < |s| - |r| ==> IsWhitespace(s[k])
    ensures r == [] || !IsWhitespace(r[0])
  {
    if |s| > 0 && IsWhitespace(s[0]) then TrimStart(s[1..]) else s
  }

  /** `trimEnd`: drops the trailing whitespace and keeps the rest. */
  function TrimEnd(s: string): (r: string)
    ensures |r| <= |s| && r == s[..|r|]
    ensures forall k :: |r| <= k < |s| ==> IsWhitespace(s[k])
    ensures r == [] || !IsWhitespace(r[|r| - 1])
  {
    if |s| > 0 && IsWhitespace(s[|s| - 1]) then TrimEnd(s[..|s| - 1]) else s
  }

  /** `trim`: the text between the leading and the trailing whitespace. */
  function Trim(s: string): (r: string)
    ensures |r| <= |s|
    ensures r == [] || (!IsWhitespace(r[0]) && !IsWhitespace(r[|r| - 1]))
    ensures (s == [] || (!IsWhitespace(s[0]) && !IsWhitespace(s[|s| - 1]))) ==> r == s
  {
    var t := TrimStart(s);
    var r := TrimEnd(t);
    assert r != [] ==> r[0] == t[0];
    r
  }

  /** Trimming an already trimmed text changes nothing. */
  lemma TrimIdempotent(s: string)
    ensures Trim(Trim(s)) == Trim(s)
  {
  }

  /** The value of one character as a digit in the given radix (0-9, then letters). */
  function DigitValue(c: char, radix: nat): (r: Option<nat>)
    ensures r.Some? ==> r.value < radix
    ensures radix == 10 ==> (r.Some? <==> IsDigit(c))
    ensures IsDigit(c) && radix == 10 ==> r == Some(c as int - '0' as int)
  {
    var v := if '0' <= c <= '9' then c as int - '0' as int
             else if 'a' <= c <= 'z' then c as int - 'a' as int + 10
             else if 'A' <= c <= 'Z' then c as int - 'A' as int + 10
             else 36;
    if v < radix then Some(v) else None
  }

  /** The longest prefix made of digits of the radix. */
  function DigitPrefix(s: string, radix: nat): (r: string)
    ensures |r| <= |s| && r == s[..|r|]
    ensures forall i :: 0 <= i < |r| ==> DigitValue(r[i], radix).Some?
    ensures |r| < |s| ==> DigitValue(s[|r|], radix).None?
  {
    if |s| > 0 && DigitValue(s[0], radix).Some? then [s[0]] + DigitPrefix(s[1..], radix) else []
  }

  /** The number a digit string denotes, most significant digit first. */
  function DigitsValue(ds: string, radix: nat): nat
    requires radix == 10 || radix == 16
    requires forall i :: 0 <= i < |ds| ==> DigitValue(ds[i], radix).Some?
  {
    if ds == [] then 0
    else
      var init := ds[..|ds| - 1];
      assert forall i :: 0 <= i < |init| ==> init[i] == ds[i];
      var high: nat := DigitsValue(init, radix);
      var low: nat := DigitValue(ds[|ds| - 1], radix).value;
      if radix == 16 then high * 16 + low else high * 10 + low
  }

  /** The digits after the sign: `0x`/`0X` selects radix 16, anything else radix 10;
      None when no digit follows. */
  function ParseUnsigned(u: string): (r: Option<nat>)
  {
    var hex := |u| >= 2 && u[0] == '0' && (u[1] == 'x' || u[1] == 'X');
    var radix := if hex then 16 else 10;
    var ds := DigitPrefix(if hex then u[2..] else u, radix);
    if ds == [] then None else Some(DigitsValue(ds, radix))
  }

  /** The global `parseInt(s)` with no radix: leading whitespace, an optional
      sign, then what ParseUnsigned reads; None stands for NaN. */
  function ParseInt(s: string): Option<int>
  {
    var t := TrimStart(s);
    var signed := |t| > 0 && (t[0] == '-' || t[0] == '+');
    var u := if signed then t[1..] else t;
    match ParseUnsigned(u)
    case None => None
    case Some(n) => Some(if signed && t[0] == '-' then 0 - n else n)
  }

  lemma {:induction false} DigitPrefixOfDigits(s: string)
    requires forall i :: 0 <= i < |s| ==> IsDigit(s[i])
    ensures DigitPrefix(s, 10) == s
  {
    if |s| > 0 {
      DigitPrefixOfDigits(s[1..]);
    }
  }

  lemma {:induction false} DigitsValueOfNat(n: nat)
    ensures DigitsValue(NatToString(n), 10) == n
  {
    var s := NatToString(n);
    if n >= 10 {
      assert s[..|s| - 1] == NatToString(n / 10);
      DigitsValueOfNat(n / 10);
    }
  }

  lemma ParseUnsignedOfNat(m: nat)
    ensures ParseUnsigned(NatToString(m)) == Some(m)
  {
    var digits := NatToString(m);
    DigitPrefixOfDigits(digits);
    DigitsValueOfNat(m);
    assert !(|digits| >= 2 && digits[0] == '0');
  }

  /** A number's decimal text starts with a digit or a minus sign, so `parseInt`
      skips nothing. */
  lemma NumberTextNotSpaced(n: int)
    ensures TrimStart(IntToString(n)) == IntToString(n)
  {
    var s := IntToString(n);
    assert s[0] == '-' || IsDigit(s[0]);
    assert !IsWhitespace(s[0]);
  }

  /** `parseInt(String(n))` gives back `n`. */
  lemma ParseIntRoundTrip(n: int)
    ensures ParseInt(IntToString(n)) == Some(n)
  {
    var s := IntToString(n);
    NumberTextNotSpaced(n);
    if n < 0 {
      assert s == "-" + NatToString(-n);
      assert s[1..] == NatToString(-n);
      ParseUnsignedOfNat(-n);
    } else {
      assert s == NatToString(n);
      assert s[0] != '-' && s[0] != '+';
      ParseUnsignedOfNat(n);
    }
  }
}
