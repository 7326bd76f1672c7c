/**
 * String operations the engine relies on: the substring test behind pandas'
 * `str.contains` and Python's `in`, the character replacements applied to
 * invoice values, and the decimal parsing done by `float(...)`.
 */
module Text {
  import opened Wrappers

  predicate StartsWith(s: string, prefix: string)
  {
    |prefix| <= |s| && s[..|prefix|] == prefix
  }

  /** `part in s`: `part` occurs somewhere in `s` as a contiguous piece. */
  predicate Contains(s: string, part: string)
    ensures Contains(s, part) ==> |part| <= |s|
    decreases |s|
  {
    StartsWith(s, part) || (s != [] && Contains(s[1..], part))
  }

  /** `part` occurs in `s` starting at position `i`. */
  predicate OccursAt(s: string, part: string, i: int)
  {
    0 <= i <= |s| - |part| && s[i..i + |part|] == part
  }

  /** The recursive test agrees with the positional definition of a substring. */
  lemma {:induction false} ContainsAt(s: string, part: string)
    ensures Contains(s, part) <==> exists i :: OccursAt(s, part, i)
  {
    if StartsWith(s, part) {
      assert OccursAt(s, part, 0);
    } else if s == [] {
    } else {
      ContainsAt(s[1..], part);
      if Contains(s[1..], part) {
        var j :| OccursAt(s[1..], part, j);
        assert s[j + 1..j + 1 + |part|] == s[1..][j..j + |part|];
        assert OccursAt(s, part, j + 1);
      }
      if i :| OccursAt(s, part, i) {
        assert i != 0;
        assert s[1..][i - 1..i - 1 + |part|] == s[i..i + |part|];
        assert OccursAt(s[1..], part, i - 1);
      }
    }
  }

  /** A string cannot contain a piece whose first character it lacks. */
  lemma {:induction false} MissingFirstChar(s: string, part: string)
    requires part != [] && part[0] !in s
    ensures !Contains(s, part)
  {
    if s != [] {
      assert s[0] != part[0];
      assert part[0] !in s[1..];
      MissingFirstChar(s[1..], part);
    }
  }

  /** A string contains each of its own prefixes. */
  lemma PrefixContained(s: string, prefix: string)
    requires StartsWith(s, prefix)
    ensures Contains(s, prefix)
  {
  }

  /** `s.replace(from, to)` for single characters. */
  function Replace(s: string, from: char, to: char): (r: string)
    ensures |r| == |s|
    ensures forall i :: 0 <= i < |s| ==> r[i] == (if s[i] == from then to else s[i])
  {
    if s == [] then [] else [if s[0] == from then to else s[0]] + Replace(s[1..], from, to)
  }

  /** `s.replace(c, '')`: every occurrence of `c` removed, the rest kept in order. */
  function Delete(s: string, c: char): (r: string)
    ensures c !in r
    ensures |r| <= |s|
  {
    if s == [] then []
    else if s[0] == c then Delete(s[1..], c)
    else [s[0]] + Delete(s[1..], c)
  }

  /** Deleting keeps every other character as often as it occurred. */
  lemma {:induction false} DeleteCounts(s: string, c: char)
    ensures multiset(Delete(s, c)) == multiset(s)[c := 0]
  {
    if s != [] {
      DeleteCounts(s[1..], c);
      assert s == [s[0]] + s[1..];
    }
  }

  /** Deleting a character works piece by piece. */
  lemma {:induction false} DeleteAppend(a: string, b: string, c: char)
    ensures Delete(a + b, c) == Delete(a, c) + Delete(b, c)
  {
    if a != [] {
      assert (a + b)[1..] == a[1..] + b;
      DeleteAppend(a[1..], b, c);
    } else {
      assert a + b == b;
    }
  }

  /** The invoice-value clean-up: decimal commas become points, spaces (thousands
      separators) disappear. */
  function NormalizeValue(value: string): (r: string)
    ensures ',' !in r && ' ' !in r
  {
    var r := Delete(Replace(value, ',', '.'), ' ');
    assert ',' !in Replace(value, ',', '.');
    DeleteCounts(Replace(value, ',', '.'), ' ');
    assert multiset(r)[','] == 0;
    r
  }

  /** Every digit of the normalised value was a digit of the original. */
  lemma {:induction false} NormalizedDigits(value: string)
    ensures forall i :: 0 <= i < |NormalizeValue(value)| && IsDigit(NormalizeValue(value)[i]) ==>
              exists j :: 0 <= j < |value| && value[j] == NormalizeValue(value)[i]
  {
    var replaced := Replace(value, ',', '.');
    var n := NormalizeValue(value);
    DeleteCounts(replaced, ' ');
    forall i | 0 <= i < |n| && IsDigit(n[i])
      ensures exists j :: 0 <= j < |value| && value[j] == n[i]
    {
      assert n[i] in multiset(n);
      assert n[i] in replaced;
      var j :| 0 <= j < |replaced| && replaced[j] == n[i];
      assert value[j] == n[i];
    }
  }

  /** Normalizing an already normalized value changes nothing. */
  lemma {:induction false} NormalizeIdempotent(value: string)
    ensures NormalizeValue(NormalizeValue(value)) == NormalizeValue(value)
  {
    var n := NormalizeValue(value);
    NoChangeWithout(n);
  }

  lemma {:induction false} NoChangeWithout(s: string)
    requires ',' !in s && ' ' !in s
    ensures Replace(s, ',', '.') == s && Delete(s, ' ') == s
  {
    if s != [] {
      NoChangeWithout(s[1..]);
    }
  }

  predicate IsDigit(c: char)
  {
    '0' <= c <= '9'
  }

  predicate AllDigits(s: string)
  {
    forall i :: 0 <= i < |s| ==> IsDigit(s[i])
  }

  function DigitValue(c: char): (d: nat)
    requires IsDigit(c)
    ensures d < 10
  {
    c as int - '0' as int
  }

  function DigitChar(d: nat): (c: char)
    requires d < 10
    ensures IsDigit(c) && DigitValue(c) == d
  {
    ('0' as int + d) as char
  }

  /** The natural number written by a string of decimal digits. */
  function DigitsValue(s: string): nat
    requires AllDigits(s)
    decreases |s|
  {
    if s == [] then 0 else DigitsValue(s[..|s| - 1]) * 10 + DigitValue(s[|s| - 1])
  }

  function Pow10(n: nat): (r: nat)
    ensures r >= 1
  {
    if n == 0 then 1 else 10 * Pow10(n - 1)
  }

  /** The position of the first `c` in `s`, or `|s|` when there is none. */
  function IndexOf(s: string, c: char): (k: nat)
    ensures k <= |s|
    ensures k < |s| ==> s[k] == c
    ensures forall i :: 0 <= i < k ==> s[i] != c
  {
    if s == [] then 0 else if s[0] == c then 0 else 1 + IndexOf(s[1..], c)
  }

  /** Digits, optionally followed by a point and more digits, with at least one
      digit in all ("12", "12.5", "12.", ".5"). */
  function ParseUnsigned(s: string): (r: Option<real>)
    ensures r.Some? ==> exists i :: 0 <= i < |s| && IsDigit(s[i])
  {
    var k := IndexOf(s, '.');
    var whole := s[..k];
    var fraction := if k < |s| then s[k + 1..] else "";
    if AllDigits(whole) && AllDigits(fraction) && |whole| + |fraction| > 0 then
      assert |whole| > 0 ==> s[0] == whole[0];
      assert |whole| == 0 ==> s[k + 1] == fraction[0];
      Some(DecimalValue(whole, fraction))
    else
      None
  }

  /** The number written with `whole` before the point and `fraction` after it. */
  function DecimalValue(whole: string, fraction: string): real
    requires AllDigits(whole) && AllDigits(fraction)
  {
    DigitsValue(whole) as real + DigitsValue(fraction) as real / Pow10(|fraction|) as real
  }

  /** `float(s)` on a string without spaces: an optional sign, then an unsigned
      decimal; anything else is the ValueError case, `None`. */
  function ParseDecimal(s: string): (r: Option<real>)
    ensures r.Some? ==> exists i :: 0 <= i < |s| && IsDigit(s[i])
  {
    if s != [] && s[0] == '-' then
      match ParseUnsigned(s[1..])
      case Some(v) => Some(-v)
      case None => None
    else if s != [] && s[0] == '+' then ParseUnsigned(s[1..])
    else ParseUnsigned(s)
  }

  /** The decimal digits of a natural number, without leading zeros. */
  function NatDigits(n: nat): (s: string)
    ensures AllDigits(s) && s != []
    ensures '.' !in s
    decreases n
  {
    if n < 10 then [DigitChar(n)] else NatDigits(n / 10) + [DigitChar(n % 10)]
  }

  lemma {:induction false} NatDigitsValue(n: nat)
    ensures DigitsValue(NatDigits(n)) == n
    decreases n
  {
    if n >= 10 {
      NatDigitsValue(n / 10);
      var s := NatDigits(n);
      assert s[..|s| - 1] == NatDigits(n / 10);
    }
  }

  /** A non-negative amount written with two decimals: `units.hh`. */
  function ShowAmount(units: nat, hundredths: nat): (s: string)
    requires hundredths < 100
  {
    NatDigits(units) + "." + [DigitChar(hundredths / 10), DigitChar(hundredths % 10)]
  }

  /** An unsigned decimal written as digits, a point and digits is read as
      the whole part plus the scaled fraction. */
  lemma ParsePointed(whole: string, fraction: string)
    requires AllDigits(whole) && AllDigits(fraction) && |whole| + |fraction| > 0
    ensures ParseUnsigned(whole + "." + fraction) == Some(DecimalValue(whole, fraction))
  {
    var s := whole + "." + fraction;
    assert s[|whole|] == '.';
    assert forall i :: 0 <= i < |whole| ==> s[i] == whole[i];
    IndexOfFirst(s, '.', |whole|);
    var k := IndexOf(s, '.');
    assert s[..k] == whole;
    assert (if k < |s| then s[k + 1..] else "") == fraction;
  }

  lemma TwoDigits(a: nat, b: nat)
    requires a < 10 && b < 10
    ensures DigitsValue([DigitChar(a), DigitChar(b)]) == 10 * a + b
  {
    var f := [DigitChar(a), DigitChar(b)];
    var first := [DigitChar(a)];
    assert f[..|f| - 1] == first;
    assert first[..|first| - 1] == [];
    assert DigitsValue(first) == DigitValue(DigitChar(a)) == a;
    assert DigitsValue(f) == DigitsValue(first) * 10 + DigitValue(DigitChar(b));
  }

  /** The two written decimals of `hundredths` are worth `hundredths / 100`. */
  lemma HundredthsValue(units: nat, hundredths: nat)
    requires hundredths < 100
    ensures DecimalValue(NatDigits(units), [DigitChar(hundredths / 10), DigitChar(hundredths % 10)])
            == units as real + hundredths as real / 100.0
  {
    NatDigitsValue(units);
    TwoDigits(hundredths / 10, hundredths % 10);
    assert Pow10(2) == 100;
    assert 10 * (hundredths / 10) + hundredths % 10 == hundredths;
  }

  /** Parsing a written amount gives the amount back. */
  lemma ParseShowAmount(units: nat, hundredths: nat)
    requires hundredths < 100
    ensures ParseDecimal(ShowAmount(units, hundredths)) == Some(units as real + hundredths as real / 100.0)
  {
    var whole := NatDigits(units);
    var fraction := [DigitChar(hundredths / 10), DigitChar(hundredths % 10)];
    var s := ShowAmount(units, hundredths);
    assert s == whole + "." + fraction;
    assert s[0] == whole[0] && IsDigit(whole[0]);
    assert ParseDecimal(s) == ParseUnsigned(s);
    ParsePointed(whole, fraction);
    HundredthsValue(units, hundredths);
  }

  lemma IndexOfFirst(s: string, c: char, k: nat)
    requires k < |s| && s[k] == c
    requires forall i :: 0 <= i < k ==> s[i] != c
    ensures IndexOf(s, c) == k
  {
  }
}
