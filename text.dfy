/** The Python string operations the pipeline applies to file paths:
    str.split, slicing, `in`, str.replace and int(). */
module Text {
  import opened Values

  /** `pat` occurs in `s` starting at index k. */
  predicate OccursAt(s: string, pat: string, k: int)
  {
    0 <= k && k + |pat| <= |s| && s[k..k + |pat|] == pat
  }

  /** Python's `pat in s`. */
  predicate Contains(s: string, pat: string)
  {
    exists k | 0 <= k <= |s| :: OccursAt(s, pat, k)
  }

  lemma ContainsItself(s: string)
    ensures Contains(s, s)
  {
    assert OccursAt(s, s, 0);
  }

  /** The first occurrence of `pat` at or after index `from`. */
  function FindFrom(s: string, pat: string, from: nat): (r: Option<nat>)
    requires |pat| > 0
    ensures r.Some? ==> from <= r.value && r.value + |pat| <= |s|
    decreases |s| - from
  {
    if from + |pat| > |s| then None
    else if s[from..from + |pat|] == pat then Some(from)
    else FindFrom(s, pat, from + 1)
  }

  /** FindFrom finds an occurrence, and no earlier one after `from`; None
      means there is none after `from`. */
  lemma {:induction false} FindFromMeans(s: string, pat: string, from: nat)
    requires |pat| > 0
    ensures FindFrom(s, pat, from).Some? ==> OccursAt(s, pat, FindFrom(s, pat, from).value)
    ensures FindFrom(s, pat, from).Some? ==> forall j :: from <= j < FindFrom(s, pat, from).value ==> !OccursAt(s, pat, j)
    ensures FindFrom(s, pat, from).None? ==> forall j :: from <= j ==> !OccursAt(s, pat, j)
    decreases |s| - from
  {
    if from + |pat| <= |s| && s[from..from + |pat|] != pat {
      FindFromMeans(s, pat, from + 1);
    }
  }

  /** Python's s.split(sep) for a non-empty separator: scan left to right,
      cutting at each occurrence that does not overlap an earlier cut. */
  function Split(s: string, sep: string): (parts: seq<string>)
    requires |sep| > 0
    ensures |parts| >= 1
    decreases |s|
  {
    match FindFrom(s, sep, 0)
    case None => [s]
    case Some(k) => [s[..k]] + Split(s[k + |sep|..], sep)
  }

  /** Python's sep.join(parts). */
  function Join(parts: seq<string>, sep: string): string
    requires |parts| >= 1
  {
    if |parts| == 1 then parts[0] else parts[0] + sep + Join(parts[1..], sep)
  }

  lemma ReassembleAround(s: string, sep: string, k: nat)
    requires OccursAt(s, sep, k)
    ensures s[..k] + sep + s[k + |sep|..] == s
  {
    assert s[k..] == s[k..k + |sep|] + s[k + |sep|..];
    assert s == s[..k] + s[k..];
  }

  /** One step of Split: the piece before the first separator, then the
      split of the rest. */
  lemma SplitStep(s: string, sep: string, k: nat)
    requires |sep| > 0 && FindFrom(s, sep, 0) == Some(k)
    ensures Split(s, sep) == [s[..k]] + Split(s[k + |sep|..], sep)
  {
  }

  lemma JoinCons(head: string, tail: seq<string>, sep: string)
    requires |tail| >= 1
    ensures Join([head] + tail, sep) == head + sep + Join(tail, sep)
  {
    assert ([head] + tail)[1..] == tail;
  }

  lemma DropDrop<T>(s: seq<T>, a: nat, b: nat)
    requires a + b <= |s|
    ensures s[a..][b..] == s[a + b..]
  {
  }

  /** Splitting and joining again gives back the original string. */
  lemma {:induction false} JoinSplit(s: string, sep: string)
    requires |sep| > 0
    ensures Join(Split(s, sep), sep) == s
    decreases |s|
  {
    match FindFrom(s, sep, 0)
    case None =>
    case Some(k) =>
      var rest := s[k + |sep|..];
      SplitStep(s, sep, k);
      JoinSplit(rest, sep);
      JoinCons(s[..k], Split(rest, sep), sep);
      FindFromMeans(s, sep, 0);
      ReassembleAround(s, sep, k);
  }

  lemma NoOccurrenceInPrefix(s: string, sep: string, k: nat)
    requires |sep| > 0 && k <= |s|
    requires forall j :: 0 <= j < k ==> !OccursAt(s, sep, j)
    ensures !Contains(s[..k], sep)
  {
    if Contains(s[..k], sep) {
      var j :| 0 <= j <= k && OccursAt(s[..k], sep, j);
      assert j + |sep| <= k;
      assert s[..k][j..j + |sep|] == s[j..j + |sep|];
      assert OccursAt(s, sep, j);
      assert false;
    }
  }

  /** No piece of a split contains the separator. */
  lemma {:induction false} SplitPartsFree(s: string, sep: string)
    requires |sep| > 0
    ensures forall i :: 0 <= i < |Split(s, sep)| ==> !Contains(Split(s, sep)[i], sep)
    decreases |s|
  {
    FindFromMeans(s, sep, 0);
    match FindFrom(s, sep, 0)
    case None =>
      NoOccurrenceInPrefix(s, sep, |s|);
      assert s[..|s|] == s;
    case Some(k) =>
      var rest := s[k + |sep|..];
      SplitStep(s, sep, k);
      SplitPartsFree(rest, sep);
      NoOccurrenceInPrefix(s, sep, k);
      var parts := Split(s, sep);
      forall i | 0 <= i < |parts| ensures !Contains(parts[i], sep) {
        if i > 0 {
          assert parts[i] == Split(rest, sep)[i - 1];
        }
      }
  }

  /** Python's s.split(sep)[0]. */
  function Before(s: string, sep: string): string
    requires |sep| > 0
  {
    Split(s, sep)[0]
  }

  /** The first piece holds no separator, and is the whole string or ends
      where the first separator starts. */
  lemma BeforeMeans(s: string, sep: string)
    requires |sep| > 0
    ensures Before(s, sep) <= s && !Contains(Before(s, sep), sep)
    ensures Before(s, sep) == s || OccursAt(s, sep, |Before(s, sep)|)
  {
    SplitPartsFree(s, sep);
    FindFromMeans(s, sep, 0);
    if FindFrom(s, sep, 0).None? {
      assert s[..|s|] == s;
    }
  }

  /** Python's s.split(sep)[-1]. */
  function After(s: string, sep: string): string
    requires |sep| > 0
  {
    Split(s, sep)[|Split(s, sep)| - 1]
  }

  /** The last piece is a suffix and holds no separator. */
  lemma AfterMeans(s: string, sep: string)
    requires |sep| > 0
    ensures |After(s, sep)| <= |s| && After(s, sep) == s[|s| - |After(s, sep)|..]
    ensures !Contains(After(s, sep), sep)
  {
    SplitPartsFree(s, sep);
    LastPartIsSuffix(s, sep);
  }

  /** The last part of a split is a suffix of the string. */
  lemma {:induction false} LastPartIsSuffix(s: string, sep: string)
    requires |sep| > 0
    ensures var last := Split(s, sep)[|Split(s, sep)| - 1]; |last| <= |s| && last == s[|s| - |last|..]
    decreases |s|
  {
    match FindFrom(s, sep, 0)
    case None =>
      assert s[|s| - |s|..] == s;
    case Some(k) =>
      var rest := s[k + |sep|..];
      SplitStep(s, sep, k);
      LastPartIsSuffix(rest, sep);
      var tail := Split(rest, sep);
      var last := tail[|tail| - 1];
      assert Split(s, sep)[|Split(s, sep)| - 1] == last;
      DropDrop(s, k + |sep|, |rest| - |last|);
  }

  /** A piece of a string free of `pat` is free of it too. */
  lemma SliceFree(s: string, pat: string, i: nat, j: nat)
    requires i <= j <= |s| && !Contains(s, pat)
    ensures !Contains(s[i..j], pat)
  {
    if Contains(s[i..j], pat) {
      var k :| 0 <= k <= j - i && OccursAt(s[i..j], pat, k);
      assert k + |pat| <= j - i;
      forall m | 0 <= m < |pat| ensures pat[m] == s[i + k + m] {
        assert pat[m] == s[i..j][k + m];
      }
      assert s[i + k..i + k + |pat|] == pat;
      assert OccursAt(s, pat, i + k);
    }
  }

  /** Python's s.split(sep)[1], which raises IndexError when `sep` does not
      occur in `s`. */
  function Second(s: string, sep: string): Option<string>
    requires |sep| > 0
  {
    var parts := Split(s, sep);
    if |parts| >= 2 then Some(parts[1]) else None
  }

  /** The second piece exists exactly when the separator occurs, and holds
      no separator. */
  lemma SecondMeans(s: string, sep: string)
    requires |sep| > 0
    ensures Second(s, sep).None? <==> !Contains(s, sep)
    ensures Second(s, sep).Some? ==> !Contains(Second(s, sep).value, sep)
  {
    SplitPartsFree(s, sep);
    FindFromMeans(s, sep, 0);
    match FindFrom(s, sep, 0)
    case None =>
    case Some(k) =>
      SplitStep(s, sep, k);
  }

  /** The text between the first `open` and the following `close`:
      s.split(open)[1].split(close)[0]. */
  function Between(s: string, open: string, close: string): Option<string>
    requires |open| > 0 && |close| > 0
  {
    match Second(s, open)
    case None => None
    case Some(t) => Some(Before(t, close))
  }

  /** Between yields a value exactly when `open` occurs, and the value
      holds neither marker. */
  lemma BetweenMeans(s: string, open: string, close: string)
    requires |open| > 0 && |close| > 0
    ensures Between(s, open, close).None? <==> !Contains(s, open)
    ensures Between(s, open, close).Some? ==>
      !Contains(Between(s, open, close).value, open) && !Contains(Between(s, open, close).value, close)
  {
    SecondMeans(s, open);
    match Second(s, open)
    case None =>
    case Some(t) =>
      var b := Before(t, close);
      BeforeMeans(t, close);
      if Contains(b, open) {
        var j :| 0 <= j <= |b| && OccursAt(b, open, j);
        assert j + |open| <= |b|;
        assert t[j..j + |open|] == b[j..j + |open|];
        assert OccursAt(t, open, j);
      }
  }

  /** Python's s[:n] for n >= 0. */
  function Take<T>(s: seq<T>, n: nat): (r: seq<T>)
    ensures |r| == if n <= |s| then n else |s|
  {
    if n <= |s| then s[..n] else s
  }

  /** Python's s[n:] for n >= 0. */
  function Drop(s: string, n: nat): (r: string)
    ensures |r| == if n <= |s| then |s| - n else 0
    ensures Take(s, n) + r == s
  {
    if n <= |s| then s[n..] else []
  }

  /** Python's s.replace(a, b) for one-character a and b. */
  function ReplaceChar(s: string, a: char, b: char): (r: string)
    ensures |r| == |s|
    ensures forall i :: 0 <= i < |s| ==> r[i] == if s[i] == a then b else s[i]
  {
    seq(|s|, i requires 0 <= i < |s| => if s[i] == a then b else s[i])
  }

  lemma ReplaceCharRemoves(s: string, a: char, b: char)
    requires a != b
    ensures forall i :: 0 <= i < |s| ==> ReplaceChar(s, a, b)[i] != a
  {
  }

  predicate IsDigit(c: char)
  {
    '0' <= c <= '9'
  }

  function DigitValue(c: char): nat
    requires IsDigit(c)
  {
    (c as int - '0' as int) as nat
  }

  function DigitChar(d: nat): (c: char)
    requires d < 10
    ensures IsDigit(c) && DigitValue(c) == d
  {
    ('0' as int + d) as char
  }

  /** Every character is a decimal digit, read from the right as
      DigitsValue reads it. */
  predicate AllDigits(s: string)
  {
    s == [] || (IsDigit(s[|s| - 1]) && AllDigits(s[..|s| - 1]))
  }

  lemma {:induction false} AllDigitsMeans(s: string)
    ensures AllDigits(s) <==> forall i :: 0 <= i < |s| ==> IsDigit(s[i])
  {
    if s != [] {
      AllDigitsMeans(s[..|s| - 1]);
      assert forall i :: 0 <= i < |s| - 1 ==> s[..|s| - 1][i] == s[i];
    }
  }

  /** The value of a string of decimal digits. */
  function DigitsValue(s: string): nat
    requires AllDigits(s)
  {
    if s == [] then 0
    else DigitsValue(s[..|s| - 1]) * 10 + DigitValue(s[|s| - 1])
  }

  /** Python's int(s) on a string of decimal digits; None stands for the
      ValueError that any other string raises. */
  function ParseNat(s: string): (r: Option<nat>)
    ensures r.Some? <==> |s| > 0 && AllDigits(s)
  {
    if |s| > 0 && AllDigits(s) then Some(DigitsValue(s)) else None
  }

  /** Python's str(n) for a natural number. */
  function ShowNat(n: nat): (s: string)
    ensures |s| > 0 && AllDigits(s)
  {
    if n < 10 then [DigitChar(n)]
    else
      var s := ShowNat(n / 10) + [DigitChar(n % 10)];
      assert s[..|s| - 1] == ShowNat(n / 10);
      s
  }

  /** int(str(n)) == n. */
  lemma {:induction false} ParseShow(n: nat)
    ensures ParseNat(ShowNat(n)) == Some(n)
  {
    var s := ShowNat(n);
    if n >= 10 {
      ParseShow(n / 10);
      assert s[..|s| - 1] == ShowNat(n / 10);
      assert DigitsValue(s) == DigitsValue(ShowNat(n / 10)) * 10 + n % 10;
    } else {
      assert s[..0] == [];
      assert DigitsValue(s) == DigitsValue([]) * 10 + n;
    }
  }

  /** The year encoded by the first four characters of a date: int(d[:4]). */
  function YearOf(date: string): (y: Option<nat>)
    ensures y.Some? ==> y.value < 10000
  {
    var y := ParseNat(Take(date, 4));
    if y.Some? then (YearBound(Take(date, 4)); y) else y
  }

  lemma {:induction false} YearBound(s: string)
    requires |s| <= 4 && AllDigits(s)
    ensures DigitsValue(s) < 10000
  {
    DigitsBound(s);
    if |s| == 4 { } else if |s| == 3 { } else if |s| == 2 { } else { }
  }

  function Pow10(k: nat): nat
  {
    if k == 0 then 1 else 10 * Pow10(k - 1)
  }

  lemma {:induction false} DigitsBound(s: string)
    requires AllDigits(s)
    ensures DigitsValue(s) < Pow10(|s|)
  {
    if s != [] {
      DigitsBound(s[..|s| - 1]);
    }
  }
}
