/** The handful of .NET string operations the users client relies on:
    interpolation of nullable strings, `String.Join`, `uint.ToString()` and
    `bool.ToString().ToLowerInvariant()`. `String.Join` and `uint.ToString()`
    each come with a partner that shows what the produced text means (a
    splitter, a decimal parser). */
module Text {
  import opened Wrappers

  /** A .NET `string` reference, which may be null. */
  type NullableString = Option<string>

  /** The .NET `uint` type: unsigned 32-bit integers. */
  newtype uint32 = x: int | 0 <= x < 0x1_0000_0000

  /** How both string interpolation and `String.Join` render a string
      reference: null becomes the empty string. */
  function OrEmpty(s: NullableString): string
  {
    match s
    case None => ""
    case Some(v) => v
  }

  // ---------------------------------------------------------------------------
  // String.Join and its inverse
  // ---------------------------------------------------------------------------

  /** `String.Join(sep, parts)`: the parts in order, separated by `sep`. */
  function Join(sep: string, parts: seq<string>): string
  {
    if |parts| == 0 then ""
    else if |parts| == 1 then parts[0]
    else parts[0] + sep + Join(sep, parts[1..])
  }

  /** Splitting at every occurrence of `c`; always yields at least one field. */
  function Split(s: string, c: char): (r: seq<string>)
    ensures |r| >= 1
    decreases |s|
  {
    if |s| == 0 then [""]
    else
      var rest := Split(s[1..], c);
      if s[0] == c then [""] + rest
      else [[s[0]] + rest[0]] + rest[1..]
  }

  /** Null elements of the joined array are rendered as empty strings. */
  function RenderAll(parts: seq<NullableString>): (r: seq<string>)
    ensures |r| == |parts|
    ensures forall i :: 0 <= i < |parts| ==> r[i] == OrEmpty(parts[i])
  {
    seq(|parts|, i requires 0 <= i < |parts| => OrEmpty(parts[i]))
  }

  /** Splitting at `c` and joining the fields back with `c` restores the text. */
  lemma {:induction false} JoinSplit(s: string, c: char)
    ensures Join([c], Split(s, c)) == s
    decreases |s|
  {
    if |s| > 0 {
      var rest := Split(s[1..], c);
      JoinSplit(s[1..], c);
      if s[0] == c {
        assert Join([c], [""] + rest) == "" + [c] + Join([c], rest);
        assert [s[0]] + s[1..] == s;
      } else {
        var fields := [[s[0]] + rest[0]] + rest[1..];
        if |rest| == 1 {
          assert Join([c], fields) == [s[0]] + rest[0];
          assert Join([c], rest) == rest[0];
        } else {
          assert fields[1..] == rest[1..];
          assert Join([c], fields) == [s[0]] + rest[0] + [c] + Join([c], rest[1..]);
          assert Join([c], rest) == rest[0] + [c] + Join([c], rest[1..]);
        }
        assert [s[0]] + s[1..] == s;
      }
    }
  }

  lemma {:induction false} SplitWithoutSeparator(p: string, c: char)
    requires c !in p
    ensures Split(p, c) == [p]
    decreases |p|
  {
    if |p| > 0 {
      SplitWithoutSeparator(p[1..], c);
      assert [p[0]] + p[1..] == p;
    }
  }

  lemma {:induction false} SplitAfterSeparator(p: string, s: string, c: char)
    requires c !in p
    ensures Split(p + [c] + s, c) == [p] + Split(s, c)
    decreases |p|
  {
    var x := p + [c] + s;
    if |p| == 0 {
      assert x == [c] + s;
      assert x[1..] == s;
    } else {
      assert x[1..] == p[1..] + [c] + s;
      SplitAfterSeparator(p[1..], s, c);
      assert [p[0]] + p[1..] == p;
    }
  }

  /** Joining with a one-character separator is undone by splitting at it,
      provided the separator occurs in no part and there is at least one part. */
  lemma {:induction false} SplitJoin(parts: seq<string>, c: char)
    requires |parts| >= 1
    requires forall i :: 0 <= i < |parts| ==> c !in parts[i]
    ensures Split(Join([c], parts), c) == parts
    decreases |parts|
  {
    if |parts| == 1 {
      SplitWithoutSeparator(parts[0], c);
    } else {
      SplitJoin(parts[1..], c);
      assert Join([c], parts) == parts[0] + [c] + Join([c], parts[1..]);
      SplitAfterSeparator(parts[0], Join([c], parts[1..]), c);
      assert [parts[0]] + parts[1..] == parts;
    }
  }

  // ---------------------------------------------------------------------------
  // Decimal rendering of unsigned integers
  // ---------------------------------------------------------------------------

  predicate IsDigit(ch: char)
  {
    '0' <= ch <= '9'
  }

  predicate AllDigits(s: string)
  {
    forall i :: 0 <= i < |s| ==> IsDigit(s[i])
  }

  /** Plain decimal text: at least one digit, no sign, and no
      leading zero unless the number is zero itself. */
  predicate CanonicalDecimal(s: string)
  {
    |s| >= 1 && AllDigits(s) && (|s| > 1 ==> s[0] != '0')
  }

  function DigitChar(d: nat): (ch: char)
    requires d < 10
    ensures IsDigit(ch)
  {
    ('0' as int + d) as char
  }

  function DigitValue(ch: char): (d: nat)
    requires IsDigit(ch)
    ensures d < 10
    ensures DigitChar(d) == ch
  {
    ch as int - '0' as int
  }

  /** The decimal text of `n`, most significant digit first. */
  function DecimalString(n: nat): (r: string)
    ensures CanonicalDecimal(r)
    ensures n > 0 ==> r[0] != '0'
    decreases n
  {
    if n < 10 then [DigitChar(n)]
    else DecimalString(n / 10) + [DigitChar(n % 10)]
  }

  /** The number a string of digits denotes. */
  function ParseDecimal(s: string): nat
    requires AllDigits(s)
    decreases |s|
  {
    if |s| == 0 then 0
    else ParseDecimal(s[..|s| - 1]) * 10 + DigitValue(s[|s| - 1])
  }

  lemma {:induction false} ParseDecimalString(n: nat)
    ensures ParseDecimal(DecimalString(n)) == n
    decreases n
  {
    var s := DecimalString(n);
    if n < 10 {
      assert s[..0] == [];
    } else {
      ParseDecimalString(n / 10);
      assert s[..|s| - 1] == DecimalString(n / 10);
    }
  }

  lemma {:induction false} ParseDecimalPositive(s: string)
    requires CanonicalDecimal(s) && s[0] != '0'
    ensures ParseDecimal(s) >= 1
    decreases |s|
  {
    var prefix := s[..|s| - 1];
    if |s| == 1 {
      assert prefix == [];
      assert s[|s| - 1] == s[0];
    } else {
      assert prefix[0] == s[0];
      ParseDecimalPositive(prefix);
    }
  }

  /** Every canonical decimal text is the rendering of the number it denotes,
      so rendering is a bijection between naturals and canonical texts. */
  lemma {:induction false} DecimalStringOfParse(s: string)
    requires CanonicalDecimal(s)
    ensures DecimalString(ParseDecimal(s)) == s
    decreases |s|
  {
    var prefix := s[..|s| - 1];
    var d := DigitValue(s[|s| - 1]);
    if |s| == 1 {
      assert prefix == [];
      assert s == [s[|s| - 1]];
    } else {
      assert prefix[0] == s[0];
      ParseDecimalPositive(prefix);
      DecimalStringOfParse(prefix);
      var n := ParseDecimal(s);
      assert n == ParseDecimal(prefix) * 10 + d;
      assert n / 10 == ParseDecimal(prefix) && n % 10 == d;
      assert s == prefix + [s[|s| - 1]];
    }
  }

  /** `uint.ToString()`: the canonical decimal text that denotes `x`. */
  function UIntToString(x: uint32): (r: string)
    ensures CanonicalDecimal(r)
    ensures ParseDecimal(r) == x as nat
  {
    ParseDecimalString(x as nat);
    DecimalString(x as nat)
  }

  // ---------------------------------------------------------------------------
  // Boolean literals
  // ---------------------------------------------------------------------------

  /** `bool.ToString()`, which yields .NET's `Boolean.TrueString` or `FalseString`. */
  function BoolToString(b: bool): string
  {
    if b then "True" else "False"
  }

  function LowerChar(ch: char): char
  {
    if 'A' <= ch <= 'Z' then (ch as int - 'A' as int + 'a' as int) as char else ch
  }

  /** `ToLowerInvariant()` restricted to ASCII letters. */
  function ToLowerInvariant(s: string): (r: string)
    ensures |r| == |s|
  {
    seq(|s|, i requires 0 <= i < |s| => LowerChar(s[i]))
  }

  /** `b.ToString().ToLowerInvariant()`: the lower-case JSON-style literal. */
  function BoolQueryValue(b: bool): (r: string)
    ensures r == (if b then "true" else "false")
  {
    var s := BoolToString(b);
    var r := ToLowerInvariant(s);
    assert r[0] == LowerChar(s[0]);
    r
  }
}
