/**
 * String helpers shared by the server and the client: the parts of
 * JavaScript's String API that the application relies on, written out.
 */
module Text {
  import opened Wrappers

  // ---------------------------------------------------------------------
  // Case folding (ASCII letters only)
  // ---------------------------------------------------------------------

  predicate IsUpper(c: char) { 'A' <= c <= 'Z' }

  function LowerChar(c: char): char {
    if IsUpper(c) then (c as int + 32) as char else c
  }

  /** `s.toLowerCase()`, restricted to ASCII letters. */
  function Lower(s: string): (r: string)
    ensures |r| == |s|
    ensures forall i :: 0 <= i < |s| ==> r[i] == LowerChar(s[i])
  {
    seq(|s|, i requires 0 <= i < |s| => LowerChar(s[i]))
  }

  /** `a.toLowerCase() === b.toLowerCase()`. */
  predicate EqualsIgnoreCase(a: string, b: string) { Lower(a) == Lower(b) }

  lemma LowerAppend(a: string, b: string)
    ensures Lower(a + b) == Lower(a) + Lower(b)
  {
  }

  lemma LowerSlice(s: string, i: nat, j: nat)
    requires i <= j <= |s|
    ensures Lower(s[i..j]) == Lower(s)[i..j]
  {
  }

  // ---------------------------------------------------------------------
  // Substrings
  // ---------------------------------------------------------------------

  predicate StartsWith(s: string, prefix: string) {
    |prefix| <= |s| && s[..|prefix|] == prefix
  }

  predicate OccursAt(s: string, sub: string, i: nat) {
    i + |sub| <= |s| && s[i..i + |sub|] == sub
  }

  /** `s.includes(sub)`. */
  predicate Contains(s: string, sub: string) {
    exists i :: 0 <= i <= |s| && OccursAt(s, sub, i)
  }

  /** `s.toLowerCase().includes(sub.toLowerCase())`. */
  predicate ContainsIgnoreCase(s: string, sub: string) {
    Contains(Lower(s), Lower(sub))
  }

  lemma ContainsSelf(s: string)
    ensures Contains(s, s)
  {
    assert OccursAt(s, s, 0);
  }

  lemma ContainsEmpty(s: string)
    ensures Contains(s, "")
  {
    assert OccursAt(s, "", 0);
  }

  /** A substring of a substring is a substring. */
  lemma ContainsTransitive(s: string, mid: string, sub: string)
    requires Contains(s, mid) && Contains(mid, sub)
    ensures Contains(s, sub)
  {
    var i :| 0 <= i <= |s| && OccursAt(s, mid, i);
    var j :| 0 <= j <= |mid| && OccursAt(mid, sub, j);
    forall k | 0 <= k < |sub|
      ensures s[i + j + k] == sub[k]
    {
      assert sub[k] == mid[j + k];
      assert mid[j + k] == s[i + j + k];
    }
    assert s[i + j..i + j + |sub|] == sub;
    assert OccursAt(s, sub, i + j);
  }

  /** Lower-casing keeps substrings. */
  lemma ContainsLower(s: string, sub: string)
    requires Contains(s, sub)
    ensures Contains(Lower(s), Lower(sub))
  {
    var i :| 0 <= i <= |s| && OccursAt(s, sub, i);
    LowerSlice(s, i, i + |sub|);
    assert OccursAt(Lower(s), Lower(sub), i);
  }

  lemma ContainsSlice(s: string, i: nat, j: nat)
    requires i <= j <= |s|
    ensures Contains(s, s[i..j])
  {
    assert OccursAt(s, s[i..j], i);
  }

  // ---------------------------------------------------------------------
  // Whitespace and trim
  // ---------------------------------------------------------------------

  /**
   * The characters ECMAScript counts as WhiteSpace or LineTerminator:
   * what `trim()` removes and what the regular-expression class `\s`
   * matches.
   */
  predicate IsSpace(c: char) {
    c == '\t' || c == '\n' || c == '\U{000B}' || c == '\U{000C}' || c == '\r' ||
    c == ' ' || c == '\U{00A0}' || c == '\U{1680}' ||
    ('\U{2000}' <= c <= '\U{200A}') ||
    c == '\U{2028}' || c == '\U{2029}' || c == '\U{202F}' || c == '\U{205F}' ||
    c == '\U{3000}' || c == '\U{FEFF}'
  }

  function TrimStart(s: string): (r: string)
    ensures |r| <= |s| && r == s[|s| - |r|..]
    ensures r == [] || !IsSpace(r[0])
  {
    if |s| > 0 && IsSpace(s[0]) then TrimStart(s[1..]) else s
  }

  function TrimEnd(s: string): (r: string)
    ensures |r| <= |s| && r == s[..|r|]
    ensures r == [] || !IsSpace(r[|r| - 1])
  {
    if |s| > 0 && IsSpace(s[|s| - 1]) then TrimEnd(s[..|s| - 1]) else s
  }

  /** `s.trim()`: a slice of `s` with no white space at either end. */
  function Trim(s: string): (r: string)
    ensures |r| <= |s| && Contains(s, r)
    ensures r == [] || (!IsSpace(r[0]) && !IsSpace(r[|r| - 1]))
  {
    var t := TrimStart(s);
    var r := TrimEnd(t);
    assert r == s[|s| - |t|..|s| - |t| + |r|];
    assert OccursAt(s, r, |s| - |t|);
    r
  }

  lemma TrimWithoutSpace(s: string)
    requires forall k :: 0 <= k < |s| ==> !IsSpace(s[k])
    ensures Trim(s) == s
  {
  }

  // ---------------------------------------------------------------------
  // Split and join on a single separator character
  // ---------------------------------------------------------------------

  /** `s.split(sep)` for a one-character separator: never empty. */
  function Split(s: string, sep: char): (parts: seq<string>)
    ensures |parts| >= 1
    ensures forall p :: p in parts ==> sep !in p
  {
    if s == [] then [""]
    else if s[0] == sep then [""] + Split(s[1..], sep)
    else
      var t := Split(s[1..], sep);
      [[s[0]] + t[0]] + t[1..]
  }

  /** `parts.join(sep)`. */
  function Join(parts: seq<string>, sep: string): string {
    if |parts| == 0 then ""
    else if |parts| == 1 then parts[0]
    else parts[0] + sep + Join(parts[1..], sep)
  }

  /** Splitting and joining again gives back the original string. */
  lemma {:induction false} JoinSplit(s: string, sep: char)
    ensures Join(Split(s, sep), [sep]) == s
  {
    if s == [] {
    } else if s[0] == sep {
      JoinSplit(s[1..], sep);
    } else {
      var t := Split(s[1..], sep);
      JoinSplit(s[1..], sep);
      if |t| == 1 {
      } else {
        assert ([[s[0]] + t[0]] + t[1..])[1..] == t[1..];
        assert Join(t, [sep]) == t[0] + [sep] + Join(t[1..], [sep]);
      }
    }
  }

  /** Every part of a split is a substring of the original. */
  lemma {:induction false} SplitPartsAreSubstrings(s: string, sep: char, k: nat)
    requires k < |Split(s, sep)|
    ensures Contains(s, Split(s, sep)[k])
  {
    var parts := Split(s, sep);
    if s == [] {
      ContainsEmpty(s);
    } else if s[0] == sep {
      if k == 0 {
        ContainsEmpty(s);
      } else {
        SplitPartsAreSubstrings(s[1..], sep, k - 1);
        assert parts[k] == Split(s[1..], sep)[k - 1];
        ContainsSlice(s, 1, |s|);
        assert s[1..|s|] == s[1..];
        ContainsTransitive(s, s[1..], parts[k]);
      }
    } else {
      var t := Split(s[1..], sep);
      if k == 0 {
        // the first part is s[0] followed by the first part of the rest
        SplitFirstIsPrefix(s[1..], sep);
        assert parts[0] == s[..|parts[0]|];
        ContainsSlice(s, 0, |parts[0]|);
      } else {
        assert parts[k] == t[k];
        SplitPartsAreSubstrings(s[1..], sep, k);
        ContainsSlice(s, 1, |s|);
        assert s[1..|s|] == s[1..];
        ContainsTransitive(s, s[1..], parts[k]);
      }
    }
  }

  /** The first part is a prefix that runs up to the first separator, or to the end. */
  lemma {:induction false} SplitFirstIsPrefix(s: string, sep: char)
    ensures StartsWith(s, Split(s, sep)[0])
    ensures var n := |Split(s, sep)[0]|; n == |s| || s[n] == sep
  {
    if s != [] && s[0] != sep {
      SplitFirstIsPrefix(s[1..], sep);
      var t := Split(s[1..], sep);
      assert Split(s, sep)[0] == [s[0]] + t[0];
    }
  }

  /** A string without the separator splits into itself alone. */
  lemma {:induction false} SplitNoSeparator(s: string, sep: char)
    requires sep !in s
    ensures Split(s, sep) == [s]
  {
    if s != [] {
      assert s[0] in s;
      assert forall x :: x in s[1..] ==> x in s;
      SplitNoSeparator(s[1..], sep);
      assert [s[0]] + s[1..] == s;
    }
  }

  /** Splitting `a + [sep] + b` where `a` has no separator. */
  lemma {:induction false} SplitAfterFirst(a: string, sep: char, b: string)
    requires sep !in a
    ensures Split(a + [sep] + b, sep) == [a] + Split(b, sep)
  {
    if a == [] {
      assert a + [sep] + b == [sep] + b;
      assert ([sep] + b)[1..] == b;
    } else {
      assert (a + [sep] + b)[1..] == a[1..] + [sep] + b;
      SplitAfterFirst(a[1..], sep, b);
      assert [a[0]] + a[1..] == a;
    }
  }

  /** Joining parts free of the separator and splitting again gives the parts back. */
  lemma {:induction false} SplitJoin(parts: seq<string>, sep: char)
    requires |parts| >= 1
    requires forall i :: 0 <= i < |parts| ==> sep !in parts[i]
    ensures Split(Join(parts, [sep]), sep) == parts
  {
    if |parts| == 1 {
      SplitNoSeparator(parts[0], sep);
    } else {
      SplitJoin(parts[1..], sep);
      SplitAfterFirst(parts[0], sep, Join(parts[1..], [sep]));
      assert [parts[0]] + parts[1..] == parts;
    }
  }

  // ---------------------------------------------------------------------
  // Decimal numbers
  // ---------------------------------------------------------------------

  predicate IsDigit(c: char) { '0' <= c <= '9' }

  function DigitChar(d: nat): char
    requires d < 10
  {
    ('0' as int + d) as char
  }

  /** `String(n)` for a natural number. */
  function NatToString(n: nat): (r: string)
    ensures |r| >= 1
    ensures forall k :: 0 <= k < |r| ==> IsDigit(r[k])
  {
    if n < 10 then [DigitChar(n)] else NatToString(n / 10) + [DigitChar(n % 10)]
  }

  /** `String(n)` for an integer. */
  function IntToString(n: int): string {
    if n < 0 then "-" + NatToString(-n) else NatToString(n)
  }

  /** The value of a string of decimal digits (`parseInt(s, 10)`). */
  function DigitsValue(s: string): nat
    requires forall k :: 0 <= k < |s| ==> IsDigit(s[k])
  {
    if s == [] then 0
    else
      assert IsDigit(s[|s| - 1]);
      10 * DigitsValue(s[..|s| - 1]) + (s[|s| - 1] as int - '0' as int)
  }

  /** Reading back what NatToString wrote gives the number. */
  lemma {:induction false} NatToStringValue(n: nat)
    ensures DigitsValue(NatToString(n)) == n
  {
    if n >= 10 {
      var s := NatToString(n);
      assert s[..|s| - 1] == NatToString(n / 10);
      NatToStringValue(n / 10);
    }
  }

  predicate AllDigits(s: string) {
    forall k :: 0 <= k < |s| ==> IsDigit(s[k])
  }

  /**
   * `Number(s)` for the strings this model writes: an optional '-'
   * followed by at least one digit; anything else is not a number.
   */
  function ParseInteger(s: string): Option<int> {
    if |s| > 0 && AllDigits(s) then Some(DigitsValue(s))
    else if |s| > 1 && s[0] == '-' && AllDigits(s[1..]) then Some(-(DigitsValue(s[1..]) as int))
    else None
  }

  /** Writing an integer and reading it back gives the integer. */
  lemma ParseIntToString(n: int)
    ensures ParseInteger(IntToString(n)) == Some(n)
  {
    if n < 0 {
      NatToStringValue(-n);
      assert IntToString(n)[1..] == NatToString(-n);
    } else {
      NatToStringValue(n);
    }
  }

  /** The digits of `s` from its start up to the first non-digit. */
  function TakeDigits(s: string): (r: string)
    ensures |r| <= |s| && r == s[..|r|] && AllDigits(r)
    ensures |r| == |s| || !IsDigit(s[|r|])
  {
    if s != [] && IsDigit(s[0]) then [s[0]] + TakeDigits(s[1..]) else ""
  }

  /** `s.match(/\d+/)?.[0]`: the leftmost run of digits, taken whole. */
  function FirstDigitRun(s: string): (r: Option<string>)
    ensures r.Some? ==> |r.value| >= 1 && AllDigits(r.value) && Contains(s, r.value)
    ensures r.None? <==> forall k :: 0 <= k < |s| ==> !IsDigit(s[k])
  {
    if s == [] then None
    else if IsDigit(s[0]) then
      var d := TakeDigits(s);
      assert OccursAt(s, d, 0);
      Some(d)
    else
      var r := FirstDigitRun(s[1..]);
      if r.Some? then
        var i :| 0 <= i <= |s[1..]| && OccursAt(s[1..], r.value, i);
        assert OccursAt(s, r.value, i + 1);
        r
      else r
  }

  predicate NoDigits(s: string) {
    forall k :: 0 <= k < |s| ==> !IsDigit(s[k])
  }

  /** A run of digits stops where the digits stop. */
  lemma {:induction false} TakeDigitsConcat(d: string, w: string)
    requires AllDigits(d)
    requires w == [] || !IsDigit(w[0])
    ensures TakeDigits(d + w) == d
  {
    if d != [] {
      assert (d + w)[1..] == d[1..] + w;
      TakeDigitsConcat(d[1..], w);
      assert [d[0]] + d[1..] == d;
    }
  }

  /** Leading characters that are not digits do not change the first run. */
  lemma {:induction false} FirstDigitRunSkip(x: string, y: string)
    requires NoDigits(x)
    ensures FirstDigitRun(x + y) == FirstDigitRun(y)
  {
    if x != [] {
      assert (x + y)[0] == x[0] && !IsDigit(x[0]);
      assert (x + y)[1..] == x[1..] + y;
      FirstDigitRunSkip(x[1..], y);
      assert FirstDigitRun(x + y) == FirstDigitRun((x + y)[1..]);
    } else {
      assert x + y == y;
    }
  }

  /** Trailing characters that are not digits do not change the first run. */
  lemma {:induction false} FirstDigitRunTail(x: string, z: string)
    requires NoDigits(z)
    ensures FirstDigitRun(x + z) == FirstDigitRun(x)
  {
    if x == [] {
      assert x + z == z;
    } else {
      assert (x + z)[1..] == x[1..] + z;
      if IsDigit(x[0]) {
        TakeDigitsAppend(x, z);
      } else {
        FirstDigitRunTail(x[1..], z);
      }
    }
  }

  lemma {:induction false} TakeDigitsAppend(x: string, z: string)
    requires NoDigits(z)
    ensures TakeDigits(x + z) == TakeDigits(x)
  {
    if x == [] {
      assert x + z == z;
    } else {
      assert (x + z)[1..] == x[1..] + z;
      if IsDigit(x[0]) {
        TakeDigitsAppend(x[1..], z);
      }
    }
  }

  /** Trimming white space never changes which number a string's first digit run reads. */
  lemma TrimKeepsDigitRun(s: string)
    ensures FirstDigitRun(Trim(s)) == FirstDigitRun(s)
  {
    TrimStartKeepsDigitRun(s);
    TrimEndKeepsDigitRun(TrimStart(s));
  }

  lemma SpacesAreNotDigits(s: string)
    requires forall k :: 0 <= k < |s| ==> IsSpace(s[k])
    ensures NoDigits(s)
  {
  }

  lemma TrimStartKeepsDigitRun(s: string)
    ensures FirstDigitRun(TrimStart(s)) == FirstDigitRun(s)
  {
    var t := TrimStart(s);
    var front := s[..|s| - |t|];
    TrimStartDropsSpaces(s);
    SpacesAreNotDigits(front);
    assert s == front + t;
    FirstDigitRunSkip(front, t);
  }

  lemma TrimEndKeepsDigitRun(t: string)
    ensures FirstDigitRun(TrimEnd(t)) == FirstDigitRun(t)
  {
    var r := TrimEnd(t);
    var back := t[|r|..];
    TrimEndDropsSpaces(t);
    SpacesAreNotDigits(back);
    assert t == r + back;
    FirstDigitRunTail(r, back);
  }

  lemma {:induction false} TrimStartDropsSpaces(s: string)
    ensures forall k :: 0 <= k < |s| - |TrimStart(s)| ==> IsSpace(s[k])
  {
    if |s| > 0 && IsSpace(s[0]) {
      TrimStartDropsSpaces(s[1..]);
    }
  }

  lemma {:induction false} TrimEndDropsSpaces(s: string)
    ensures forall k :: |TrimEnd(s)| <= k < |s| ==> IsSpace(s[k])
  {
    if |s| > 0 && IsSpace(s[|s| - 1]) {
      TrimEndDropsSpaces(s[..|s| - 1]);
    }
  }

  // ---------------------------------------------------------------------
  // Math.round of a quotient
  // ---------------------------------------------------------------------

  /**
   * `Math.round(a / b)` for b > 0. Math.round rounds halves up, so the
   * result is floor(a/b + 1/2), which is exactly the integer r with
   * r <= a/b + 1/2 < r + 1.
   */
  function RoundDiv(a: int, b: int): (r: int)
    requires b > 0
    ensures (r as real) <= (a as real) / (b as real) + 0.5 < (r as real) + 1.0
  {
    var r := (2 * a + b) / (2 * b);
    assert 2 * b * r <= 2 * a + b < 2 * b * (r + 1);
    RoundDivBounds(a, b, r);
    r
  }

  lemma RoundDivBounds(a: int, b: int, r: int)
    requires b > 0
    requires 2 * b * r <= 2 * a + b < 2 * b * (r + 1)
    ensures (r as real) <= (a as real) / (b as real) + 0.5 < (r as real) + 1.0
  {
    var x := (a as real) / (b as real);
    assert x * (b as real) == a as real;
    assert (2 * b * r) as real == 2.0 * (b as real) * (r as real);
    assert (2 * a + b) as real == 2.0 * (b as real) * (x + 0.5);
    assert (2 * b * (r + 1)) as real == 2.0 * (b as real) * ((r as real) + 1.0);
    var m := 2.0 * (b as real);
    ScaleCancels(m, x + 0.5 - (r as real));
    ScaleCancels(m, (r as real) + 1.0 - (x + 0.5));
  }

  lemma ScaleCancels(m: real, y: real)
    requires m > 0.0
    ensures m * y >= 0.0 ==> y >= 0.0
    ensures m * y > 0.0 ==> y > 0.0
  {
    if y < 0.0 {
      assert m * y < 0.0;
    } else if y == 0.0 {
      assert m * y == 0.0;
    }
  }
}
