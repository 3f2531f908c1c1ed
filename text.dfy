/**
 * The JavaScript string operations the dashboard and the import scripts
 * rely on: `startsWith`, `split` with a non-empty separator, `join`,
 * `padStart(2, '0')`, `trim` and the leading-digits reading of `parseInt`.
 */
module Text {

  import opened Collections

  /** `s.startsWith(prefix)`. */
  predicate StartsWith(s: string, prefix: string)
  {
    |prefix| <= |s| && s[..|prefix|] == prefix
  }

  /** Whether `sep` occurs in `s` starting at index `k`. */
  predicate OccursAt(s: string, sep: string, k: int)
  {
    0 <= k && k + |sep| <= |s| && s[k..k + |sep|] == sep
  }

  /** `s.indexOf(sep)`, with `None` for -1. */
  function Find(s: string, sep: string): (r: Option<nat>)
    requires sep != []
    ensures r.Some? ==> OccursAt(s, sep, r.value)
    ensures r.Some? ==> forall j :: 0 <= j < r.value ==> !OccursAt(s, sep, j)
    ensures r.None? ==> forall j :: 0 <= j ==> !OccursAt(s, sep, j)
    decreases |s|
  {
    if |s| < |sep| then None
    else if s[..|sep|] == sep then Some(0)
    else
      match Find(s[1..], sep)
      case None =>
        assert forall j :: 1 <= j ==> (OccursAt(s, sep, j) <==> OccursAt(s[1..], sep, j - 1));
        None
      case Some(k) =>
        assert forall j :: 1 <= j ==> (OccursAt(s, sep, j) <==> OccursAt(s[1..], sep, j - 1));
        Some(k + 1)
  }

  /** An occurrence inside a prefix is an occurrence in the whole string. */
  lemma OccursInPrefix(s: string, sep: string, k: nat)
    requires k <= |s|
    ensures forall j :: OccursAt(s[..k], sep, j) ==> OccursAt(s, sep, j)
  {
    forall j | OccursAt(s[..k], sep, j)
      ensures OccursAt(s, sep, j)
    {
      assert s[..k][j..j + |sep|] == s[j..j + |sep|];
    }
  }

  /** `s.split(sep)` for a non-empty separator: the pieces between occurrences, scanned left to right. */
  function Split(s: string, sep: string): (parts: seq<string>)
    requires sep != []
    ensures |parts| >= 1
    decreases |s|
  {
    match Find(s, sep)
    case None => [s]
    case Some(k) => [s[..k]] + Split(s[k + |sep|..], sep)
  }

  /**
   * The first piece of a split is a prefix of `s`, `s` is cut at all
   * exactly when the separator occurs in it, and no piece contains the
   * separator.
   */
  lemma {:induction false} SplitPieces(s: string, sep: string)
    requires sep != []
    ensures StartsWith(s, Split(s, sep)[0])
    ensures |Split(s, sep)| == 1 <==> forall j :: 0 <= j ==> !OccursAt(s, sep, j)
    ensures forall i, j :: 0 <= i < |Split(s, sep)| && 0 <= j ==> !OccursAt(Split(s, sep)[i], sep, j)
    decreases |s|
  {
    match Find(s, sep)
    case None =>
    case Some(k) =>
      OccursInPrefix(s, sep, k);
      var rest := Split(s[k + |sep|..], sep);
      SplitPieces(s[k + |sep|..], sep);
      assert Split(s, sep) == [s[..k]] + rest;
      assert forall i :: 1 <= i < 1 + |rest| ==> ([s[..k]] + rest)[i] == rest[i - 1];
  }

  /** `parts.join(sep)`. */
  function Join(parts: seq<string>, sep: string): string
  {
    if |parts| == 0 then ""
    else if |parts| == 1 then parts[0]
    else parts[0] + sep + Join(parts[1..], sep)
  }

  /** No character of `sep` appears in `s`. */
  predicate Avoids(s: string, sep: string)
  {
    forall i :: 0 <= i < |s| ==> s[i] !in sep
  }

  /**
   * Splitting undoes joining when no part contains a character of the
   * separator: `parts.join(sep).split(sep)` gives back `parts`.
   */
  lemma {:induction false} SplitJoin(parts: seq<string>, sep: string)
    requires sep != [] && |parts| >= 1
    requires forall i :: 0 <= i < |parts| ==> Avoids(parts[i], sep)
    ensures Split(Join(parts, sep), sep) == parts
  {
    var p := parts[0];
    if |parts| == 1 {
      assert Find(p, sep).None? by {
        forall j | 0 <= j
          ensures !OccursAt(p, sep, j)
        {
          if j + |sep| <= |p| {
            assert p[j..j + |sep|][0] == p[j] && p[j] !in sep;
          }
        }
      }
    } else {
      var rest := Join(parts[1..], sep);
      var s := p + sep + rest;
      assert OccursAt(s, sep, |p|) by {
        assert s[|p|..|p| + |sep|] == sep;
      }
      forall j | 0 <= j < |p|
        ensures !OccursAt(s, sep, j)
      {
        if j + |sep| <= |s| {
          assert s[j..j + |sep|][0] == p[j] && p[j] !in sep;
        }
      }
      assert Find(s, sep) == Some(|p|);
      assert s[..|p|] == p;
      assert s[|p| + |sep|..] == rest;
      SplitJoin(parts[1..], sep);
    }
  }

  lemma AvoidsConcat(a: string, b: string, cs: string)
    requires Avoids(a, cs) && Avoids(b, cs)
    ensures Avoids(a + b, cs)
  {
    forall i | 0 <= i < |a + b|
      ensures (a + b)[i] !in cs
    {
      if i >= |a| {
        assert (a + b)[i] == b[i - |a|];
      }
    }
  }

  /** Joining parts that avoid some characters with a separator that avoids them too avoids them. */
  lemma {:induction false} JoinAvoids(parts: seq<string>, sep: string, cs: string)
    requires forall i :: 0 <= i < |parts| ==> Avoids(parts[i], cs)
    requires Avoids(sep, cs)
    ensures Avoids(Join(parts, sep), cs)
  {
    if |parts| > 1 {
      JoinAvoids(parts[1..], sep, cs);
      AvoidsConcat(parts[0], sep, cs);
      AvoidsConcat(parts[0] + sep, Join(parts[1..], sep), cs);
    }
  }

  /** A string that contains no occurrence of `sep` splits into itself. */
  lemma SplitNoSeparator(s: string, sep: string)
    requires sep != [] && Avoids(s, sep)
    ensures Split(s, sep) == [s]
  {
    SplitJoin([s], sep);
  }

  /** An optional string inside a template literal: a missing one shows as `undefined`. */
  function Interpolate(s: Option<string>): string
  {
    if s.Some? then s.value else "undefined"
  }

  /** `x.padStart(2, '0')`: strings shorter than two characters get leading zeros. */
  function PadStart2(x: string): (r: string)
    ensures |x| >= 2 ==> r == x
    ensures |x| < 2 ==> |r| == 2 && r[2 - |x|..] == x
    ensures |x| < 2 ==> forall i :: 0 <= i < 2 - |x| ==> r[i] == '0'
  {
    if |x| >= 2 then x
    else if |x| == 1 then "0" + x
    else "00"
  }

  /** Padding adds only zeros. */
  lemma PadStart2Avoids(x: string, cs: string)
    requires Avoids(x, cs) && '0' !in cs
    ensures Avoids(PadStart2(x), cs)
  {
    if |x| < 2 {
      var r := PadStart2(x);
      forall i | 0 <= i < |r| ensures r[i] !in cs {
        if i >= 2 - |x| { assert r[i] == r[2 - |x|..][i - (2 - |x|)] == x[i - (2 - |x|)]; }
      }
    }
  }

  /** The whitespace `String.prototype.trim` removes, restricted to ASCII. */
  predicate IsSpace(c: char)
  {
    c == ' ' || c == '\t' || c == '\n' || c == '\r' || c == '\U{000B}' || c == '\U{000C}'
  }

  /** `s.trimStart()`: the suffix of `s` after its leading whitespace. */
  function TrimStart(s: string): (r: string)
    ensures |r| <= |s| && r == s[|s| - |r|..]
    ensures forall i :: 0 <= i < |s| - |r| ==> IsSpace(s[i])
    ensures r != [] ==> !IsSpace(r[0])
  {
    if s != [] && IsSpace(s[0]) then
      var r := TrimStart(s[1..]);
      assert forall i :: 1 <= i < |s| ==> s[i] == s[1..][i - 1];
      r
    else s
  }

  /** `s.trimEnd()`: the prefix of `s` before its trailing whitespace. */
  function TrimEnd(s: string): (r: string)
    ensures |r| <= |s| && r == s[..|r|]
    ensures forall i :: |r| <= i < |s| ==> IsSpace(s[i])
    ensures r != [] ==> !IsSpace(r[|r| - 1])
  {
    if s != [] && IsSpace(s[|s| - 1]) then TrimEnd(s[..|s| - 1]) else s
  }

  /** `s[a..b]` is `s` with whitespace only cut off its two ends. */
  predicate CutAtEnds(s: string, a: int, b: int)
  {
    && 0 <= a <= b <= |s|
    && (forall i :: 0 <= i < a ==> IsSpace(s[i]))
    && (forall i :: b <= i < |s| ==> IsSpace(s[i]))
  }

  /**
   * `s.trim()`: the middle of `s` between its leading and its trailing
   * whitespace, with no whitespace left at either end.
   */
  function Trim(s: string): (r: string)
    ensures exists a, b :: CutAtEnds(s, a, b) && r == s[a..b]
    ensures r != [] ==> !IsSpace(r[0]) && !IsSpace(r[|r| - 1])
  {
    var t := TrimStart(s);
    TrimCuts(s, t, TrimEnd(t));
    TrimEnd(t)
  }

  /** Trimming the start and then the end cuts whitespace off the two ends only. */
  lemma TrimCuts(s: string, t: string, r: string)
    requires |t| <= |s| && t == s[|s| - |t|..] && forall i :: 0 <= i < |s| - |t| ==> IsSpace(s[i])
    requires |r| <= |t| && r == t[..|r|] && forall i :: |r| <= i < |t| ==> IsSpace(t[i])
    ensures CutAtEnds(s, |s| - |t|, |s| - |t| + |r|) && r == s[|s| - |t|..|s| - |t| + |r|]
  {
    var a := |s| - |t|;
    var b := a + |r|;
    assert s[a..][..|r|] == s[a..b];
    forall i | b <= i < |s|
      ensures IsSpace(s[i])
    {
      assert s[i] == t[i - a];
    }
  }

  /** A string with no whitespace at either end is its own trim. */
  lemma TrimUnchanged(s: string)
    requires s != [] ==> !IsSpace(s[0]) && !IsSpace(s[|s| - 1])
    ensures Trim(s) == s
  {
  }

  predicate IsDigit(c: char)
  {
    '0' <= c <= '9'
  }

  function DigitValue(c: char): nat
    requires IsDigit(c)
  {
    c as nat - '0' as nat
  }

  /** The longest prefix of `s` made of decimal digits. */
  function LeadingDigits(s: string): (d: string)
    ensures StartsWith(s, d)
    ensures forall i :: 0 <= i < |d| ==> IsDigit(d[i])
    ensures |d| < |s| ==> !IsDigit(s[|d|])
  {
    if s == [] || !IsDigit(s[0]) then ""
    else [s[0]] + LeadingDigits(s[1..])
  }

  /** The value of a string of decimal digits. */
  function DecimalValue(d: string): nat
    requires forall i :: 0 <= i < |d| ==> IsDigit(d[i])
  {
    if d == [] then 0
    else 10 * DecimalValue(d[..|d| - 1]) + DigitValue(d[|d| - 1])
  }

  /**
   * `parseInt(s)` for strings without leading blanks or sign: the value of
   * the leading digits, or `None` (NaN) when `s` does not start with one.
   */
  function ParseInt(s: string): (r: Option<nat>)
    ensures r.None? <==> (s == [] || !IsDigit(s[0]))
  {
    var d := LeadingDigits(s);
    if d == [] then None else Some(DecimalValue(d))
  }

  /** The two-digit decimal rendering of `n` with a leading zero, `01` to `99`. */
  function TwoDigits(n: nat): (r: string)
    requires n < 100
    ensures |r| == 2 && IsDigit(r[0]) && IsDigit(r[1])
    ensures DecimalValue(r) == n
  {
    var r := [('0' as nat + n / 10) as char, ('0' as nat + n % 10) as char];
    assert r[..1] == [r[0]] && r[..1][..0] == [];
    assert DigitValue(r[0]) == n / 10 && DigitValue(r[1]) == n % 10;
    assert DecimalValue(r[..1]) == 10 * DecimalValue(r[..1][..0]) + DigitValue(r[..1][0]) == n / 10;
    assert DecimalValue(r) == 10 * DecimalValue(r[..1]) + DigitValue(r[1]);
    r
  }
}
