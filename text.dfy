/**
 * The .NET string operations the core relies on: `String.Split(' ')`, `Int32.ToString()`
 * and `Int32.Parse`, written out so that their edge cases can be reasoned about.
 */
module Text {
  import opened Wrappers

  const Space: char := ' '

  /** The line break of the source files (CR LF), which verbatim string literals embed. */
  const NL: string := "\r\n"

  /** The number of occurrences of `c` in `s`. */
  function Count(s: string, c: char): nat {
    if s == [] then 0 else (if s[0] == c then 1 else 0) + Count(s[1..], c)
  }

  /** The number of occurrences of `c` in `a + b` is the sum of those in `a` and in `b`. */
  lemma {:induction false} CountConcat(a: string, b: string, c: char)
    ensures Count(a + b, c) == Count(a, c) + Count(b, c)
  {
    if a != [] {
      assert (a + b)[1..] == a[1..] + b;
      CountConcat(a[1..], b, c);
    } else {
      assert a + b == b;
    }
  }

  /**
   * `s.Split(sep)` with the default options: every `sep` ends a part, empty parts are
   * kept, and the empty string gives one empty part.
   */
  function Split(s: string, sep: char): (parts: seq<string>)
    ensures |parts| >= 1
  {
    if s == [] then [""]
    else
      var rest := Split(s[1..], sep);
      if s[0] == sep then [""] + rest else [[s[0]] + rest[0]] + rest[1..]
  }

  /** `string.Join(sep, parts)`: the parts with `sep` between neighbours; "" for no parts. */
  function JoinWith(parts: seq<string>, sep: string): string {
    if parts == [] then ""
    else if |parts| == 1 then parts[0]
    else parts[0] + sep + JoinWith(parts[1..], sep)
  }

  /** Text written as source lines, one `NL` between neighbours. */
  function Lines(ls: seq<string>): string {
    JoinWith(ls, NL)
  }

  /** The first part of `s.Split(' ')`, which always exists. */
  function FirstToken(s: string): string {
    Split(s, Space)[0]
  }

  /** The number of parts is the number of separators plus one. */
  lemma {:induction false} SplitLength(s: string, sep: char)
    ensures |Split(s, sep)| == Count(s, sep) + 1
  {
    if s != [] {
      SplitLength(s[1..], sep);
    }
  }

  /** No part contains the separator. */
  lemma {:induction false} SplitPartsHaveNoSeparator(s: string, sep: char)
    ensures forall k :: 0 <= k < |Split(s, sep)| ==> sep !in Split(s, sep)[k]
  {
    if s != [] {
      SplitPartsHaveNoSeparator(s[1..], sep);
      var rest := Split(s[1..], sep);
      if s[0] != sep {
        assert Split(s, sep) == [[s[0]] + rest[0]] + rest[1..];
        forall k | 0 <= k < |Split(s, sep)| ensures sep !in Split(s, sep)[k] {
          if k > 0 { assert Split(s, sep)[k] == rest[k]; }
        }
      }
    }
  }

  /** Joining the parts with the separator gives back the text: splitting loses nothing. */
  lemma {:induction false} JoinSplit(s: string, sep: char)
    ensures JoinWith(Split(s, sep), [sep]) == s
  {
    if s != [] {
      JoinSplit(s[1..], sep);
      var rest := Split(s[1..], sep);
      if s[0] == sep {
        assert Split(s, sep) == [""] + rest;
        assert Split(s, sep)[1..] == rest;
      } else {
        var parts := Split(s, sep);
        assert parts == [[s[0]] + rest[0]] + rest[1..];
        if |rest| == 1 {
          assert JoinWith(parts, [sep]) == [s[0]] + rest[0] == [s[0]] + JoinWith(rest, [sep]);
        } else {
          assert parts[1..] == rest[1..];
          assert JoinWith(parts, [sep]) == [s[0]] + rest[0] + [sep] + JoinWith(rest[1..], [sep]);
          assert JoinWith(rest, [sep]) == rest[0] + [sep] + JoinWith(rest[1..], [sep]);
        }
      }
    }
  }

  /** Text without the separator is one part. */
  lemma {:induction false} SplitWithout(s: string, sep: char)
    requires sep !in s
    ensures Split(s, sep) == [s]
  {
    if s != [] {
      assert sep !in s[1..] by {
        forall k | 0 <= k < |s[1..]| ensures s[1..][k] != sep { assert s[1..][k] == s[k + 1]; }
      }
      SplitWithout(s[1..], sep);
      assert [s[0]] + s[1..] == s;
    }
  }

  /** A field free of the separator, then the separator, splits off as the first part. */
  lemma {:induction false} SplitField(a: string, b: string, sep: char)
    requires sep !in a
    ensures Split(a + [sep] + b, sep) == [a] + Split(b, sep)
  {
    var s := a + [sep] + b;
    if a == [] {
      assert s[0] == sep && s[1..] == b;
    } else {
      assert sep !in a[1..] by {
        forall k | 0 <= k < |a[1..]| ensures a[1..][k] != sep { assert a[1..][k] == a[k + 1]; }
      }
      assert s[1..] == a[1..] + [sep] + b;
      SplitField(a[1..], b, sep);
      assert [a[0]] + a[1..] == a;
    }
  }

  /** Splitting parts joined by a separator none of them holds gives the parts back. */
  lemma {:induction false} SplitJoin(parts: seq<string>, sep: char)
    requires |parts| >= 1 && forall k :: 0 <= k < |parts| ==> sep !in parts[k]
    ensures Split(JoinWith(parts, [sep]), sep) == parts
  {
    if |parts| == 1 {
      SplitWithout(parts[0], sep);
    } else {
      SplitJoin(parts[1..], sep);
      SplitField(parts[0], JoinWith(parts[1..], [sep]), sep);
    }
  }

  /** A trailing separator adds one empty part. */
  lemma {:induction false} SplitTrailing(s: string, sep: char)
    ensures Split(s + [sep], sep) == Split(s, sep) + [""]
  {
    if s == [] {
      assert [sep][1..] == [];
    } else {
      assert (s + [sep])[1..] == s[1..] + [sep];
      SplitTrailing(s[1..], sep);
    }
  }

  /** A line with two separators, for instance a doubled or a trailing one after a pair, has at least three parts. */
  lemma SplitTwoSeparators(s: string, sep: char, i: nat, j: nat)
    requires i < j < |s| && s[i] == sep && s[j] == sep
    ensures |Split(s, sep)| >= 3
  {
    SplitLength(s, sep);
    CountAtLeastTwo(s, sep, i, j);
  }

  lemma {:induction false} CountAtLeastTwo(s: string, c: char, i: nat, j: nat)
    requires i < j < |s| && s[i] == c && s[j] == c
    ensures Count(s, c) >= 2
  {
    if i > 0 {
      CountAtLeastTwo(s[1..], c, i - 1, j - 1);
    } else {
      CountAtLeastOne(s[1..], c, j - 1);
    }
  }

  lemma {:induction false} CountAtLeastOne(s: string, c: char, j: nat)
    requires j < |s| && s[j] == c
    ensures Count(s, c) >= 1
  {
    if j > 0 {
      CountAtLeastOne(s[1..], c, j - 1);
    }
  }

  /** The strings that occur in a sequence. */
  function Elements(s: seq<string>): set<string> {
    set x | x in s
  }

  lemma ElementsSnoc(s: seq<string>, x: string)
    ensures Elements(s + [x]) == Elements(s) + {x}
  {
    assert x in s + [x];
    forall n | n in s ensures n in s + [x] { }
  }

  // ----- decimal rendering and parsing -----

  predicate IsDigit(c: char) {
    '0' <= c <= '9'
  }

  function DigitChar(d: nat): (c: char)
    requires d < 10
    ensures IsDigit(c)
  {
    "0123456789"[d]
  }

  function DigitValue(c: char): nat
    requires IsDigit(c)
  {
    (c as int - '0' as int) as nat
  }

  /** The decimal digits of `n`, most significant first, with no leading zeros. */
  function NatToString(n: nat): (s: string)
    ensures |s| >= 1 && forall k :: 0 <= k < |s| ==> IsDigit(s[k])
  {
    if n < 10 then [DigitChar(n)] else NatToString(n / 10) + [DigitChar(n % 10)]
  }

  /** `n.ToString()` for an integer: an optional minus sign, then the digits of |n|. */
  function IntToString(n: int): string {
    if n < 0 then "-" + NatToString(-n) else NatToString(n)
  }

  predicate AllDigits(s: string) {
    forall k :: 0 <= k < |s| ==> IsDigit(s[k])
  }

  /** The value of a string of digits. */
  function DigitsValue(s: string): nat
    requires AllDigits(s)
  {
    if s == [] then 0 else 10 * DigitsValue(s[..|s| - 1]) + DigitValue(s[|s| - 1])
  }

  /** An optional '+' or '-' followed by at least one digit; the value is unbounded. */
  function ParseDecimal(s: string): Option<int> {
    if |s| > 0 && (s[0] == '-' || s[0] == '+') then
      var digits := s[1..];
      if digits != [] && AllDigits(digits) then
        var v: int := DigitsValue(digits);
        Some(if s[0] == '-' then -v else v)
      else None
    else if s != [] && AllDigits(s) then Some(DigitsValue(s))
    else None
  }

  const Int32Min: int := -0x8000_0000
  const Int32Max: int := 0x7FFF_FFFF

  predicate IsInt32(n: int) {
    Int32Min <= n <= Int32Max
  }

  /**
   * `int.Parse(s)`: None where .NET throws (a FormatException for text that is not a signed
   * decimal, an OverflowException for a value outside the 32-bit range).
   */
  function ParseInt(s: string): (r: Option<int>)
    ensures r.Some? ==> IsInt32(r.value)
  {
    match ParseDecimal(s)
    case Some(v) => if IsInt32(v) then Some(v) else None
    case None => None
  }

  lemma {:induction false} DigitsValueOfNatToString(n: nat)
    ensures DigitsValue(NatToString(n)) == n
  {
    var s := NatToString(n);
    if n >= 10 {
      DigitsValueOfNatToString(n / 10);
      assert s[..|s| - 1] == NatToString(n / 10);
      assert DigitValue(s[|s| - 1]) == n % 10 by {
        assert s[|s| - 1] == DigitChar(n % 10);
        DigitRoundTrip(n % 10);
      }
    } else {
      DigitRoundTrip(n);
    }
  }

  lemma DigitRoundTrip(d: nat)
    requires d < 10
    ensures DigitValue(DigitChar(d)) == d
  {
  }

  /** Parsing the decimal rendering of any integer gives the integer back. */
  lemma ParseDecimalIntToString(n: int)
    ensures ParseDecimal(IntToString(n)) == Some(n)
  {
    var m: nat := if n < 0 then -n else n;
    var d := NatToString(m);
    DigitsValueOfNatToString(m);
    assert AllDigits(d);
    if n < 0 {
      var s := IntToString(n);
      assert s == "-" + d;
      assert s[0] == '-' && s[1..] == d;
    } else {
      assert IntToString(n) == d;
      assert IsDigit(d[0]);
    }
  }

  /** `int.Parse(n.ToString()) == n` for every 32-bit `n`. */
  lemma ParseIntToString(n: int)
    requires IsInt32(n)
    ensures ParseInt(IntToString(n)) == Some(n)
  {
    ParseDecimalIntToString(n);
  }

  /** Distinct integers have distinct decimal renderings. */
  lemma IntToStringInjective(m: int, n: int)
    requires IntToString(m) == IntToString(n)
    ensures m == n
  {
    ParseDecimalIntToString(m);
    ParseDecimalIntToString(n);
  }

  /** A decimal rendering contains no space, no comma and no quote, so it never splits a field. */
  lemma IntToStringPlain(n: int)
    ensures Space !in IntToString(n) && ',' !in IntToString(n) && '"' !in IntToString(n)
  {
    var s := IntToString(n);
    var d := if n < 0 then NatToString(-n) else NatToString(n);
    assert s == (if n < 0 then "-" else "") + d;
    assert forall k :: 0 <= k < |d| ==> IsDigit(d[k]);
  }

  // ----- text positions -----

  /** `t` occurs in `s` starting at index `i`. */
  predicate OccursAt(s: string, t: string, i: nat) {
    i + |t| <= |s| && s[i..i + |t|] == t
  }

  /** `t` occurs somewhere in `s`. */
  predicate Contains(s: string, t: string) {
    exists i: nat | i <= |s| :: OccursAt(s, t, i)
  }

  predicate StartsWith(s: string, t: string) {
    |t| <= |s| && s[..|t|] == t
  }

  predicate EndsWith(s: string, t: string) {
    |t| <= |s| && s[|s| - |t|..] == t
  }

  lemma {:induction false} JoinStartsWith(parts: seq<string>, sep: string, p: string)
    requires |parts| >= 1 && StartsWith(parts[0], p)
    ensures StartsWith(JoinWith(parts, sep), p)
  {
    if |parts| > 1 {
      assert JoinWith(parts, sep) == parts[0] + (sep + JoinWith(parts[1..], sep));
    }
  }

  lemma StartsWithAppend(s: string, t: string, u: string)
    requires StartsWith(s, t)
    ensures StartsWith(s + u, t)
  {
    assert (s + u)[..|t|] == s[..|t|];
  }

  /** Joining the first `k` parts gives a prefix of joining them all. */
  lemma {:induction false} JoinPrefix(parts: seq<string>, sep: string, k: nat)
    requires 1 <= k <= |parts|
    ensures StartsWith(JoinWith(parts, sep), JoinWith(parts[..k], sep))
  {
    if k == |parts| {
      assert parts[..k] == parts;
    } else if k == 1 {
      JoinStartsWith(parts, sep, parts[0]);
    } else {
      JoinPrefix(parts[1..], sep, k - 1);
      assert parts[..k][1..] == parts[1..][..k - 1];
      var x := JoinWith(parts[1..], sep);
      var y := JoinWith(parts[1..][..k - 1], sep);
      assert JoinWith(parts, sep) == (parts[0] + sep) + x;
      assert JoinWith(parts[..k], sep) == (parts[0] + sep) + y;
      assert ((parts[0] + sep) + x)[..|parts[0] + sep| + |y|] == (parts[0] + sep) + x[..|y|];
    }
  }

  lemma {:induction false} JoinEndsWith(parts: seq<string>, sep: string, p: string)
    requires |parts| >= 1 && EndsWith(parts[|parts| - 1], p)
    ensures EndsWith(JoinWith(parts, sep), p)
  {
    if |parts| > 1 {
      JoinEndsWith(parts[1..], sep, p);
      var rest := JoinWith(parts[1..], sep);
      assert JoinWith(parts, sep) == (parts[0] + sep) + rest;
      assert JoinWith(parts, sep)[|JoinWith(parts, sep)| - |p|..] == rest[|rest| - |p|..];
    }
  }

  /**
   * Text spliced raw between `a` and `c` is found in the result together with the end `p`
   * of `a` and the start `q` of `c`.
   */
  lemma SpliceContains(a: string, x: string, c: string, p: string, q: string)
    requires EndsWith(a, p) && StartsWith(c, q)
    ensures Contains(a + x + c, p + x + q)
  {
    var s := a + x + c;
    assert s == a[..|a| - |p|] + (p + x + q) + c[|q|..] by {
      assert a == a[..|a| - |p|] + p;
      assert c == q + c[|q|..];
    }
    assert OccursAt(s, p + x + q, |a| - |p|);
  }

  /** What a text contains, any text around it contains too. */
  lemma ContainsWithin(l: string, s: string, r: string, t: string)
    requires Contains(s, t)
    ensures Contains(l + s + r, t)
  {
    var i: nat :| i <= |s| && OccursAt(s, t, i);
    assert (l + s + r)[|l| + i..|l| + i + |t|] == s[i..i + |t|];
    assert OccursAt(l + s + r, t, |l| + i);
  }

  lemma ContainsLeft(a: string, b: string, t: string)
    requires Contains(a, t)
    ensures Contains(a + b, t)
  {
    ContainsWithin("", a, b, t);
    assert "" + a + b == a + b;
  }

  lemma ContainsRight(a: string, b: string, t: string)
    requires Contains(b, t)
    ensures Contains(a + b, t)
  {
    ContainsWithin(a, b, "", t);
    assert a + b + "" == a + b;
  }

  /** Text that ends one of the lines also occurs in the lines joined. */
  lemma {:induction false} LinesHaveLineEnd(ls: seq<string>, i: nat, t: string)
    requires i < |ls| && EndsWith(ls[i], t)
    ensures Contains(Lines(ls), t)
  {
    if |ls| == 1 {
      assert OccursAt(ls[0], t, |ls[0]| - |t|);
    } else if i == 0 {
      assert OccursAt(ls[0], t, |ls[0]| - |t|);
      ContainsLeft(ls[0], NL + Lines(ls[1..]), t);
      assert Lines(ls) == ls[0] + (NL + Lines(ls[1..]));
    } else {
      LinesHaveLineEnd(ls[1..], i - 1, t);
      ContainsRight(ls[0] + NL, Lines(ls[1..]), t);
    }
  }

  /** Each of the lines occurs in the lines joined. */
  lemma LinesHaveLine(ls: seq<string>, i: nat)
    requires i < |ls|
    ensures Contains(Lines(ls), ls[i])
  {
    assert ls[i][|ls[i]| - |ls[i]|..] == ls[i];
    LinesHaveLineEnd(ls, i, ls[i]);
  }

  /** The last of the lines `ls` ends with `p`. */
  predicate LastLineEndsWith(ls: seq<string>, p: string) {
    |ls| >= 1 && EndsWith(ls[|ls| - 1], p)
  }

  /** The first of the lines `ls` starts with `q`. */
  predicate FirstLineStartsWith(ls: seq<string>, q: string) {
    |ls| >= 1 && StartsWith(ls[0], q)
  }

  // The lemmas below locate the arguments of a template made of fixed line lists `l0`, `l1`, ...
  // with one, two or three arguments spliced between them, associated as the builders associate them.

  lemma Template1(l0: seq<string>, x: string, l1: seq<string>, p: string, q: string)
    requires LastLineEndsWith(l0, p) && FirstLineStartsWith(l1, q)
    ensures Contains(Lines(l0) + x + Lines(l1), p + x + q)
  {
    JoinEndsWith(l0, NL, p);
    JoinStartsWith(l1, NL, q);
    SpliceContains(Lines(l0), x, Lines(l1), p, q);
  }

  /** A template whose last fixed part is one empty line ends with its argument. */
  lemma TemplateEnd(l0: seq<string>, x: string, p: string)
    requires LastLineEndsWith(l0, p)
    ensures EndsWith(Lines(l0) + x + Lines([""]), p + x)
  {
    JoinEndsWith(l0, NL, p);
    var a := Lines(l0);
    assert Lines([""]) == "";
    assert a == a[..|a| - |p|] + p;
    assert a + x + "" == a[..|a| - |p|] + (p + x);
  }

  lemma Template2First(l0: seq<string>, x: string, l1: seq<string>, y: string, l2: seq<string>, p: string, q: string)
    requires LastLineEndsWith(l0, p) && FirstLineStartsWith(l1, q)
    ensures Contains(Lines(l0) + x + Lines(l1) + y + Lines(l2), p + x + q)
  {
    var s0, s1, s2 := Lines(l0), Lines(l1), Lines(l2);
    Template1(l0, x, l1, p, q);
    ContainsWithin("", s0 + x + s1, y + s2, p + x + q);
    assert s0 + x + s1 + y + s2 == "" + (s0 + x + s1) + (y + s2);
  }

  lemma Template2Second(l0: seq<string>, x: string, l1: seq<string>, y: string, l2: seq<string>, p: string, q: string)
    requires LastLineEndsWith(l1, p) && FirstLineStartsWith(l2, q)
    ensures Contains(Lines(l0) + x + Lines(l1) + y + Lines(l2), p + y + q)
  {
    var s0, s1, s2 := Lines(l0), Lines(l1), Lines(l2);
    Template1(l1, y, l2, p, q);
    ContainsWithin(s0 + x, s1 + y + s2, "", p + y + q);
    assert s0 + x + s1 + y + s2 == (s0 + x) + (s1 + y + s2) + "";
  }

  /** Both arguments, with the fixed text between them. */
  lemma Template2Both(l0: seq<string>, x: string, l1: seq<string>, y: string, l2: seq<string>, p: string, q: string)
    requires LastLineEndsWith(l0, p) && FirstLineStartsWith(l2, q)
    ensures Contains(Lines(l0) + x + Lines(l1) + y + Lines(l2), p + x + Lines(l1) + y + q)
  {
    var s0, s1, s2 := Lines(l0), Lines(l1), Lines(l2);
    Template1(l0, x + s1 + y, l2, p, q);
    assert s0 + x + s1 + y + s2 == s0 + (x + s1 + y) + s2;
    assert p + x + s1 + y + q == p + (x + s1 + y) + q;
  }

  lemma Template3First(l0: seq<string>, x: string, l1: seq<string>, y: string, l2: seq<string>, z: string, l3: seq<string>,
                       p: string, q: string)
    requires LastLineEndsWith(l0, p) && FirstLineStartsWith(l1, q)
    ensures Contains(Lines(l0) + x + Lines(l1) + y + Lines(l2) + z + Lines(l3), p + x + q)
  {
    var s0, s1, s2, s3 := Lines(l0), Lines(l1), Lines(l2), Lines(l3);
    Template1(l0, x, l1, p, q);
    ContainsWithin("", s0 + x + s1, y + s2 + z + s3, p + x + q);
    assert s0 + x + s1 + y + s2 + z + s3 == "" + (s0 + x + s1) + (y + s2 + z + s3);
  }

  lemma Template3Second(l0: seq<string>, x: string, l1: seq<string>, y: string, l2: seq<string>, z: string, l3: seq<string>,
                        p: string, q: string)
    requires LastLineEndsWith(l1, p) && FirstLineStartsWith(l2, q)
    ensures Contains(Lines(l0) + x + Lines(l1) + y + Lines(l2) + z + Lines(l3), p + y + q)
  {
    var s0, s1, s2, s3 := Lines(l0), Lines(l1), Lines(l2), Lines(l3);
    Template1(l1, y, l2, p, q);
    ContainsWithin(s0 + x, s1 + y + s2, z + s3, p + y + q);
    assert s0 + x + s1 + y + s2 + z + s3 == (s0 + x) + (s1 + y + s2) + (z + s3);
  }

  lemma Template3Third(l0: seq<string>, x: string, l1: seq<string>, y: string, l2: seq<string>, z: string, l3: seq<string>,
                       p: string, q: string)
    requires LastLineEndsWith(l2, p) && FirstLineStartsWith(l3, q)
    ensures Contains(Lines(l0) + x + Lines(l1) + y + Lines(l2) + z + Lines(l3), p + z + q)
  {
    var s0, s1, s2, s3 := Lines(l0), Lines(l1), Lines(l2), Lines(l3);
    Template1(l2, z, l3, p, q);
    ContainsWithin(s0 + x + s1 + y, s2 + z + s3, "", p + z + q);
    assert s0 + x + s1 + y + s2 + z + s3 == (s0 + x + s1 + y) + (s2 + z + s3) + "";
  }

  /** An unescaped template `prefix + x + suffix` determines `x`. */
  lemma Cancel(prefix: string, x: string, y: string, suffix: string)
    requires prefix + x + suffix == prefix + y + suffix
    ensures x == y
  {
    var a := prefix + x + suffix;
    assert |x| == |y|;
    assert x == a[|prefix|..|prefix| + |x|];
  }
}
