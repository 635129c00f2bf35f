/** The few string operations of .NET the plugin relies on: `Contains`, `Split`, integer formatting. */
module Text {
  import opened Wrappers
  import opened Search

  /** `w` occurs in `s` starting at index `i`. */
  predicate OccursAt(s: string, w: string, i: nat)
  {
    i + |w| <= |s| && s[i..i + |w|] == w
  }

  /** `String.Contains`: `w` occurs somewhere in `s`. */
  predicate Contains(s: string, w: string)
  {
    exists i: nat | i <= |s| :: OccursAt(s, w, i)
  }

  predicate IsChar(c: char, x: char) { x == c }

  /** `String.IndexOf(char)`: the first position of `c` in `s`. */
  function IndexOf(s: string, c: char): (r: Option<nat>)
    ensures r.Some? ==> r.value < |s| && s[r.value] == c
    ensures r.Some? ==> forall j :: 0 <= j < r.value ==> s[j] != c
    ensures r.None? ==> c !in s
  {
    var r := FirstIndex(s, x => IsChar(c, x));
    assert r.None? ==> forall j :: 0 <= j < |s| ==> s[j] != c;
    r
  }

  /** The position of `c` in `p + [c] + q` when `p` holds no `c`. */
  lemma IndexOfAfter(p: string, c: char, q: string)
    requires c !in p
    ensures IndexOf(p + [c] + q, c) == Some(|p|)
  {
    var s := p + [c] + q;
    assert s[|p|] == c;
    assert forall j :: 0 <= j < |p| ==> s[j] == p[j];
  }

  /** `String.Join(d, lines)`, the inverse of `Split`. */
  function Join(lines: seq<string>, d: char): string
  {
    if lines == [] then ""
    else if |lines| == 1 then lines[0]
    else lines[0] + [d] + Join(lines[1..], d)
  }

  /** `String.Split(char)`: the pieces of `s` between occurrences of `d`. */
  function Split(s: string, d: char): (lines: seq<string>)
    ensures |lines| >= 1
    ensures forall i :: 0 <= i < |lines| ==> d !in lines[i]
    ensures Join(lines, d) == s
    decreases |s|
  {
    match IndexOf(s, d)
    case None => [s]
    case Some(i) =>
      var rest := Split(s[i + 1..], d);
      assert s == s[..i] + [d] + s[i + 1..];
      [s[..i]] + rest
  }

  /** An occurrence inside a slice is an occurrence in the slice's own coordinates. */
  lemma OccursInSlice(s: string, w: string, k: nat, lo: nat, hi: nat)
    requires lo <= k && k + |w| <= hi <= |s| && OccursAt(s, w, k)
    ensures OccursAt(s[lo..hi], w, k - lo)
  {
    forall j | 0 <= j < |w|
      ensures s[lo..hi][k - lo..k - lo + |w|][j] == w[j]
    {
      assert s[k..k + |w|][j] == s[k + j];
    }
  }

  /** An occurrence in a slice is an occurrence in the whole string, shifted by the slice's start. */
  lemma OccursFromSlice(s: string, w: string, k: nat, lo: nat, hi: nat)
    requires lo <= hi <= |s| && OccursAt(s[lo..hi], w, k)
    ensures OccursAt(s, w, k + lo)
  {
    forall j | 0 <= j < |w|
      ensures s[k + lo..k + lo + |w|][j] == w[j]
    {
      assert s[lo..hi][k..k + |w|][j] == s[lo..hi][k + j];
    }
  }

  lemma {:induction false} ContainsSomeLine(s: string, w: string, d: char)
    requires d !in w && Contains(s, w)
    ensures exists line :: line in Split(s, d) && Contains(line, w)
    decreases |s|
  {
    match IndexOf(s, d)
    case None =>
      assert s in Split(s, d);
    case Some(i) =>
      var k: nat :| k <= |s| && OccursAt(s, w, k);
      assert forall j :: k <= j < k + |w| ==> w[j - k] == s[j];
      assert k + |w| <= i || k > i;
      if k + |w| <= i {
        OccursInSlice(s, w, k, 0, i);
        assert s[..i] in Split(s, d) && Contains(s[..i], w);
      } else {
        OccursInSlice(s, w, k, i + 1, |s|);
        assert s[i + 1..|s|] == s[i + 1..];
        assert Contains(s[i + 1..], w);
        ContainsSomeLine(s[i + 1..], w, d);
        var line :| line in Split(s[i + 1..], d) && Contains(line, w);
        assert line in Split(s, d);
      }
  }

  lemma {:induction false} SomeLineContains(s: string, w: string, d: char, line: string)
    requires line in Split(s, d) && Contains(line, w)
    ensures Contains(s, w)
    decreases |s|
  {
    match IndexOf(s, d)
    case None =>
    case Some(i) =>
      if line == s[..i] {
        var k: nat :| k <= |line| && OccursAt(line, w, k);
        OccursFromSlice(s, w, k, 0, i);
      } else {
        assert line in Split(s[i + 1..], d);
        SomeLineContains(s[i + 1..], w, d, line);
        var k: nat :| k <= |s| - i - 1 && OccursAt(s[i + 1..], w, k);
        assert s[i + 1..|s|] == s[i + 1..];
        OccursFromSlice(s, w, k, i + 1, |s|);
      }
  }

  /** A word without the delimiter occurs in a text exactly when it occurs in one of its lines. */
  lemma ContainsIffSomeLine(s: string, w: string, d: char)
    requires d !in w
    ensures Contains(s, w) <==> exists line :: line in Split(s, d) && Contains(line, w)
  {
    if Contains(s, w) {
      ContainsSomeLine(s, w, d);
    }
    if exists line :: line in Split(s, d) && Contains(line, w) {
      var line :| line in Split(s, d) && Contains(line, w);
      SomeLineContains(s, w, d, line);
    }
  }

  predicate IsDigit(c: char) { '0' <= c <= '9' }

  predicate AllDigits(s: string) { forall i :: 0 <= i < |s| ==> IsDigit(s[i]) }

  function DigitChar(d: nat): (c: char)
    requires d < 10
    ensures IsDigit(c) && c as int - '0' as int == d
  {
    ('0' as int + d) as char
  }

  function DigitValue(c: char): (d: nat)
    requires IsDigit(c)
    ensures d < 10 && DigitChar(d) == c
  {
    c as int - '0' as int
  }

  /** `Int32.ToString()` of a non-negative value: its decimal digits, no sign, no leading zero. */
  function NatToString(n: nat): (s: string)
    ensures |s| >= 1 && AllDigits(s)
    ensures |s| == 1 <==> n < 10
    ensures s[0] == '0' <==> n == 0
    decreases n
  {
    if n < 10 then [DigitChar(n)] else NatToString(n / 10) + [DigitChar(n % 10)]
  }

  /** The value of a string of decimal digits. */
  function DigitsValue(s: string): nat
    requires AllDigits(s)
    decreases |s|
  {
    if s == [] then 0 else DigitsValue(s[..|s| - 1]) * 10 + DigitValue(s[|s| - 1])
  }

  /** Reads a non-negative decimal number; `None` unless `s` is a non-empty run of digits. */
  function ParseNat(s: string): Option<nat>
  {
    if s != [] && AllDigits(s) then Some(DigitsValue(s)) else None
  }

  lemma {:induction false} ParseNatToString(n: nat)
    ensures ParseNat(NatToString(n)) == Some(n)
    decreases n
  {
    var s := NatToString(n);
    if n < 10 {
      assert s[..|s| - 1] == [];
      assert DigitsValue(s) == DigitValue(s[0]);
    } else {
      ParseNatToString(n / 10);
      assert s[..|s| - 1] == NatToString(n / 10);
    }
  }

  /** `$"\"{s}\""`: `s` between double quotes. */
  function Quote(s: string): string
  {
    "\"" + s + "\""
  }
}
