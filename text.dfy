/** String helpers the client relies on: Python's `sep.join(parts)` and its
    inverse `s.split(sep)`, the code-point order `sorted` uses on `str`
    keys, and `str(n)` for integers, each with the lemmas that make it
    usable (round trips and order laws). */
module Text {

  import opened Wrappers

  /** Python's `sep.join(parts)` for a one-character separator. */
  function Join(sep: char, parts: seq<string>): (s: string)
    ensures |parts| == 0 ==> s == ""
    ensures |parts| == 1 ==> s == parts[0]
  {
    if |parts| == 0 then ""
    else if |parts| == 1 then parts[0]
    else parts[0] + [sep] + Join(sep, parts[1..])
  }

  /** Python's `s.split(sep)`: the pieces between separators, always at least one. */
  function Split(s: string, sep: char): (parts: seq<string>)
    ensures |parts| >= 1
    decreases |s|
  {
    if s == [] then [""]
    else
      var rest := Split(s[1..], sep);
      if s[0] == sep then [""] + rest
      else [[s[0]] + rest[0]] + rest[1..]
  }

  /** Splitting a piece that holds no separator gives the piece back. */
  lemma {:induction false} SplitNoSeparator(p: string, sep: char)
    requires sep !in p
    ensures Split(p, sep) == [p]
    decreases |p|
  {
    if p != [] {
      SplitNoSeparator(p[1..], sep);
      assert [p[0]] + p[1..] == p;
    }
  }

  /** Splitting at a separator placed between `a` and `t` gives the pieces
      of `a` followed by the pieces of `t`. */
  lemma {:induction false} SplitConcat(a: string, sep: char, t: string)
    ensures Split(a + [sep] + t, sep) == Split(a, sep) + Split(t, sep)
    decreases |a|
  {
    var s := a + [sep] + t;
    if a == [] {
      assert s[1..] == t;
    } else {
      assert s[1..] == a[1..] + [sep] + t;
      SplitConcat(a[1..], sep, t);
    }
  }

  /** `sep.join` followed by `split(sep)` recovers the pieces, provided none
      of them holds the separator. */
  lemma {:induction false} SplitJoin(sep: char, parts: seq<string>)
    requires |parts| >= 1
    requires forall i :: 0 <= i < |parts| ==> sep !in parts[i]
    ensures Split(Join(sep, parts), sep) == parts
    decreases |parts|
  {
    SplitNoSeparator(parts[0], sep);
    if |parts| > 1 {
      SplitJoin(sep, parts[1..]);
      SplitConcat(parts[0], sep, Join(sep, parts[1..]));
      assert [parts[0]] + parts[1..] == parts;
    }
  }

  /** The first piece of a split join is the first piece joined, whatever
      the later pieces hold. */
  lemma SplitJoinFirst(sep: char, parts: seq<string>)
    requires |parts| >= 1 && sep !in parts[0]
    ensures Split(Join(sep, parts), sep)[0] == parts[0]
  {
    SplitNoSeparator(parts[0], sep);
    if |parts| > 1 {
      SplitConcat(parts[0], sep, Join(sep, parts[1..]));
    }
  }

  /** Python's `needle in haystack` for two strings. */
  predicate IsSubstring(needle: string, haystack: string)
    decreases |haystack|
  {
    needle <= haystack || (haystack != [] && IsSubstring(needle, haystack[1..]))
  }

  // ---------------------------------------------------------------------
  // Code-point order on strings, as Python compares `str` values

  /** `a <= b` for Python strings: lexicographic on code points, a prefix first. */
  predicate LexLe(a: string, b: string)
    decreases |a|
  {
    a == [] || (b != [] && (a[0] < b[0] || (a[0] == b[0] && LexLe(a[1..], b[1..]))))
  }

  /** `a < b` for Python strings. */
  predicate LexLt(a: string, b: string) {
    LexLe(a, b) && a != b
  }

  lemma {:induction false} LexLeReflexive(a: string)
    ensures LexLe(a, a)
    decreases |a|
  {
    if a != [] {
      LexLeReflexive(a[1..]);
    }
  }

  lemma {:induction false} LexLeTotal(a: string, b: string)
    ensures LexLe(a, b) || LexLe(b, a)
    decreases |a|
  {
    if a != [] && b != [] && a[0] == b[0] {
      LexLeTotal(a[1..], b[1..]);
    }
  }

  lemma {:induction false} LexLeAntisymmetric(a: string, b: string)
    requires LexLe(a, b) && LexLe(b, a)
    ensures a == b
    decreases |a|
  {
    if a != [] {
      LexLeAntisymmetric(a[1..], b[1..]);
      assert a == [a[0]] + a[1..] && b == [b[0]] + b[1..];
    }
  }

  lemma {:induction false} LexLeTransitive(a: string, b: string, c: string)
    requires LexLe(a, b) && LexLe(b, c)
    ensures LexLe(a, c)
    decreases |a|
  {
    if a != [] && a[0] == b[0] && b[0] == c[0] {
      LexLeTransitive(a[1..], b[1..], c[1..]);
    }
  }

  /** `m` is no greater than any member of `s`. */
  predicate IsLeast(m: string, s: set<string>) {
    m in s && forall k :: k in s ==> LexLe(m, k)
  }

  /** Every non-empty finite set of strings has a least member. */
  lemma {:induction false} LeastExists(s: set<string>)
    requires s != {}
    ensures exists m :: IsLeast(m, s)
    decreases |s|
  {
    var x :| x in s;
    if s != {x} {
      LeastExists(s - {x});
      var m :| IsLeast(m, s - {x});
      LexLeTotal(x, m);
      if LexLe(x, m) {
        forall k | k in s ensures LexLe(x, k) {
          if k == x {
            LexLeReflexive(x);
          } else {
            LexLeTransitive(x, m, k);
          }
        }
        assert IsLeast(x, s);
      } else {
        assert IsLeast(m, s);
      }
    } else {
      LexLeReflexive(x);
      assert IsLeast(x, s);
    }
  }

  /** The least member of a non-empty set of strings. */
  function Least(s: set<string>): (m: string)
    requires s != {}
    ensures IsLeast(m, s)
  {
    LeastExists(s);
    LeastUnique(s);
    var m :| IsLeast(m, s); m
  }

  lemma LeastUnique(s: set<string>)
    ensures forall m, n :: IsLeast(m, s) && IsLeast(n, s) ==> m == n
  {
    forall m, n | IsLeast(m, s) && IsLeast(n, s) ensures m == n {
      LexLeAntisymmetric(m, n);
    }
  }

  /** Every element comes strictly before the next, in code-point order. */
  predicate StrictlySorted(ks: seq<string>) {
    forall i, j :: 0 <= i < j < |ks| ==> LexLt(ks[i], ks[j])
  }

  /** Python's `sorted(keys)` for a set of `str` keys. */
  function SortedKeys(s: set<string>): (ks: seq<string>)
    ensures |ks| == |s|
    ensures forall k :: k in ks <==> k in s
    ensures StrictlySorted(ks)
    decreases |s|
  {
    if s == {} then []
    else
      var m := Least(s);
      var rest := SortedKeys(s - {m});
      assert forall j :: 0 <= j < |rest| ==> LexLt(m, rest[j]) by {
        forall j | 0 <= j < |rest| ensures LexLt(m, rest[j]) {
          assert rest[j] in s - {m};
        }
      }
      [m] + rest
  }

  /** A strictly ascending listing of a set is unique: `sorted` has only
      one possible answer. */
  lemma {:induction false} StrictlySortedUnique(xs: seq<string>, ys: seq<string>)
    requires StrictlySorted(xs) && StrictlySorted(ys)
    requires |xs| == |ys|
    requires forall k :: k in xs <==> k in ys
    ensures xs == ys
    decreases |xs|
  {
    if xs != [] {
      assert xs[0] in ys;
      assert ys[0] in xs;
      if xs[0] != ys[0] {
        var i :| 0 <= i < |xs| && xs[i] == ys[0];
        var j :| 0 <= j < |ys| && ys[j] == xs[0];
        assert LexLt(xs[0], ys[0]);
        assert LexLt(ys[0], xs[0]);
        LexLeAntisymmetric(xs[0], ys[0]);
      }
      assert xs == [xs[0]] + xs[1..] && ys == [ys[0]] + ys[1..];
      forall k ensures k in xs[1..] <==> k in ys[1..] {
        if k in xs[1..] {
          var i :| 0 <= i < |xs[1..]| && xs[1..][i] == k;
          assert LexLt(xs[0], xs[i + 1]);
          assert k in ys && k != ys[0];
        }
        if k in ys[1..] {
          var j :| 0 <= j < |ys[1..]| && ys[1..][j] == k;
          assert LexLt(ys[0], ys[j + 1]);
          assert k in xs && k != xs[0];
        }
      }
      StrictlySortedUnique(xs[1..], ys[1..]);
    }
  }

  /** `sorted` of two keys puts the smaller first. */
  lemma SortedKeysPair(a: string, b: string)
    requires LexLt(a, b)
    ensures SortedKeys({a, b}) == [a, b]
  {
    StrictlySortedUnique(SortedKeys({a, b}), [a, b]);
  }

  // ---------------------------------------------------------------------
  // Python's `str(n)` for integers, and its inverse

  function DigitChar(d: nat): (c: char)
    requires d < 10
    ensures '0' <= c <= '9'
  {
    "0123456789"[d]
  }

  predicate IsDigit(c: char) {
    '0' <= c <= '9'
  }

  function DigitValue(c: char): (d: nat)
    requires IsDigit(c)
    ensures d < 10
  {
    (c as int) - ('0' as int)
  }

  /** Decimal digits of `n`, most significant first, no leading zero. */
  function NatToDecimal(n: nat): (s: string)
    ensures |s| >= 1
    ensures forall i :: 0 <= i < |s| ==> IsDigit(s[i])
    ensures |s| > 1 ==> s[0] != '0'
  {
    if n < 10 then [DigitChar(n)]
    else NatToDecimal(n / 10) + [DigitChar(n % 10)]
  }

  /** `str(n)` for a Python `int`. */
  function IntToDecimal(n: int): string {
    if n < 0 then "-" + NatToDecimal(-n) else NatToDecimal(n)
  }

  /** `str(n)` holds only digits and a leading minus sign. */
  lemma IntToDecimalCharacters(n: int)
    ensures forall i :: 0 <= i < |IntToDecimal(n)| ==> IsDigit(IntToDecimal(n)[i]) || IntToDecimal(n)[i] == '-'
  {
    if n < 0 {
      var digits := NatToDecimal(-n);
      assert forall i :: 1 <= i < |IntToDecimal(n)| ==> IntToDecimal(n)[i] == digits[i - 1];
    }
  }

  /** The value of a non-empty string of decimal digits. */
  function ParseDigits(s: string): (n: nat)
    requires |s| >= 1
    requires forall i :: 0 <= i < |s| ==> IsDigit(s[i])
  {
    if |s| == 1 then DigitValue(s[0])
    else ParseDigits(s[..|s| - 1]) * 10 + DigitValue(s[|s| - 1])
  }

  /** Python's `int(s)` for an optional minus sign followed by decimal digits. */
  function ParseInt(s: string): (r: Option<int>) {
    if |s| >= 2 && s[0] == '-' && forall i :: 1 <= i < |s| ==> IsDigit(s[i]) then
      var magnitude: int := ParseDigits(s[1..]);
      Some(-magnitude)
    else if |s| >= 1 && forall i :: 0 <= i < |s| ==> IsDigit(s[i]) then
      Some(ParseDigits(s))
    else None
  }

  lemma {:induction false} ParseNatToDecimal(n: nat)
    ensures ParseDigits(NatToDecimal(n)) == n
  {
    if n >= 10 {
      var s := NatToDecimal(n);
      assert s[..|s| - 1] == NatToDecimal(n / 10);
      ParseNatToDecimal(n / 10);
      assert DigitValue(DigitChar(n % 10)) == n % 10 by {
        assert "0123456789"[n % 10] as int == '0' as int + n % 10;
      }
    } else {
      assert "0123456789"[n] as int == '0' as int + n;
    }
  }

  /** `int(str(n)) == n`. */
  lemma IntToDecimalRoundTrip(n: int)
    ensures ParseInt(IntToDecimal(n)) == Some(n)
  {
    if n < 0 {
      NegativeRoundTrip(n);
    } else {
      NaturalRoundTrip(n);
    }
  }

  lemma NaturalRoundTrip(n: nat)
    ensures ParseInt(IntToDecimal(n)) == Some(n)
  {
    var s := NatToDecimal(n);
    assert IntToDecimal(n) == s;
    assert !(|s| >= 2 && s[0] == '-');
    ParseNatToDecimal(n);
  }

  lemma NegativeRoundTrip(n: int)
    requires n < 0
    ensures ParseInt(IntToDecimal(n)) == Some(n)
  {
    var m: nat := -n;
    var digits := NatToDecimal(m);
    assert IntToDecimal(n) == "-" + digits;
    ParseNegative(digits);
    ParseNatToDecimal(m);
  }

  /** A minus sign before digits is read as the negated digits. */
  lemma ParseNegative(digits: string)
    requires |digits| >= 1 && forall i :: 0 <= i < |digits| ==> IsDigit(digits[i])
    ensures ParseInt("-" + digits) == Some(-(ParseDigits(digits) as int))
  {
    var s := "-" + digits;
    assert s[1..] == digits;
    forall i | 1 <= i < |s|
      ensures IsDigit(s[i])
    {
      assert s[i] == digits[i - 1];
    }
  }
}
