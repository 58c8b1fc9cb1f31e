/**
 * The JavaScript string operations the core relies on, over strings of
 * characters (`seq<char>`; UTF-16 surrogate pairs are not distinguished):
 * `startsWith`, `endsWith`, `includes`, `indexOf`,
 * `split` and `join`, plus the decimal rendering of a natural number.
 */
module Strings {

  predicate StartsWith(s: string, prefix: string) {
    |prefix| <= |s| && s[..|prefix|] == prefix
  }

  predicate EndsWith(s: string, suffix: string) {
    |suffix| <= |s| && s[|s| - |suffix|..] == suffix
  }

  /** `t` occurs in `s` starting at index `i`. */
  predicate OccursAt(s: string, t: string, i: int) {
    0 <= i && i + |t| <= |s| && s[i..i + |t|] == t
  }

  predicate Contains(s: string, t: string) {
    exists i | 0 <= i <= |s| :: OccursAt(s, t, i)
  }

  lemma OccursAtTail(s: string, t: string, j: int)
    requires |s| > 0 && 0 <= j
    ensures OccursAt(s, t, j + 1) <==> OccursAt(s[1..], t, j)
  {
    if 0 <= j && j + 1 + |t| <= |s| {
      assert s[1..][j..j + |t|] == s[j + 1..j + 1 + |t|];
    }
  }

  /** `s.indexOf(t)`: the first index at which `t` occurs, or -1. */
  function IndexOf(s: string, t: string): (r: int)
    ensures -1 <= r <= |s|
    ensures r >= 0 ==> OccursAt(s, t, r)
    ensures r >= 0 ==> forall j :: 0 <= j < r ==> !OccursAt(s, t, j)
    ensures r < 0 ==> forall j :: !OccursAt(s, t, j)
    decreases |s|
  {
    if StartsWith(s, t) then
      assert OccursAt(s, t, 0);
      0
    else if s == [] then
      -1
    else
      var k := IndexOf(s[1..], t);
      assert !OccursAt(s, t, 0);
      forall j | 0 <= j ensures OccursAt(s, t, j + 1) <==> OccursAt(s[1..], t, j) {
        OccursAtTail(s, t, j);
      }
      if k < 0 then
        assert forall j :: !OccursAt(s, t, j) by {
          forall j ensures !OccursAt(s, t, j) {
            if j > 0 { OccursAtTail(s, t, j - 1); }
          }
        }
        -1
      else
        assert forall j :: 0 <= j < k + 1 ==> !OccursAt(s, t, j) by {
          forall j | 0 < j < k + 1 ensures !OccursAt(s, t, j) { OccursAtTail(s, t, j - 1); }
        }
        k + 1
  }

  /** `s.split(sep)` for a non-empty separator: scan left to right; at each
      occurrence of `sep` close the current piece and resume after it. */
  function SplitOn(s: string, sep: string): (parts: seq<string>)
    requires sep != []
    ensures |parts| >= 1
    decreases |s|
  {
    if StartsWith(s, sep) then [[]] + SplitOn(s[|sep|..], sep)
    else if s == [] then [[]]
    else
      var r := SplitOn(s[1..], sep);
      [[s[0]] + r[0]] + r[1..]
  }

  /** `s.split("")`: one part per character. */
  function Chars(s: string): (parts: seq<string>)
    ensures |parts| == |s|
  {
    seq(|s|, i requires 0 <= i < |s| => [s[i]])
  }

  /** JavaScript `s.split(sep)`. */
  function Split(s: string, sep: string): seq<string> {
    if sep == [] then Chars(s) else SplitOn(s, sep)
  }

  /** JavaScript `parts.join(sep)`. */
  function Join(parts: seq<string>, sep: string): string
    decreases |parts|
  {
    if |parts| == 0 then ""
    else if |parts| == 1 then parts[0]
    else parts[0] + sep + Join(parts[1..], sep)
  }

  lemma JoinCons(a: string, rest: seq<string>, sep: string)
    requires |rest| >= 1
    ensures Join([a] + rest, sep) == a + sep + Join(rest, sep)
  {
    assert ([a] + rest)[1..] == rest;
  }

  /** Growing the first piece by one character grows the joined string the same way. */
  lemma JoinGrowHead(c: char, r: seq<string>, sep: string)
    requires |r| >= 1
    ensures Join([[c] + r[0]] + r[1..], sep) == [c] + Join(r, sep)
  {
    if |r| > 1 {
      JoinCons([c] + r[0], r[1..], sep);
      JoinCons(r[0], r[1..], sep);
      assert r == [r[0]] + r[1..];
    }
  }

  lemma {:induction false} JoinAppend(xs: seq<string>, ys: seq<string>, sep: string)
    requires |xs| >= 1 && |ys| >= 1
    ensures Join(xs + ys, sep) == Join(xs, sep) + sep + Join(ys, sep)
    decreases |xs|
  {
    if |xs| == 1 {
      JoinCons(xs[0], ys, sep);
      assert xs + ys == [xs[0]] + ys;
    } else {
      JoinAppend(xs[1..], ys, sep);
      assert xs + ys == [xs[0]] + (xs[1..] + ys);
      JoinCons(xs[0], xs[1..] + ys, sep);
      JoinCons(xs[0], xs[1..], sep);
      assert xs == [xs[0]] + xs[1..];
    }
  }

  /** The reference definition of a global replacement: scan left to right and
      replace every non-overlapping occurrence of `target` by `replacement`. */
  function ReplaceScan(s: string, target: string, replacement: string): string
    requires target != []
    decreases |s|
  {
    if StartsWith(s, target) then replacement + ReplaceScan(s[|target|..], target, replacement)
    else if s == [] then []
    else [s[0]] + ReplaceScan(s[1..], target, replacement)
  }

  /** The number of replacements `ReplaceScan` makes. */
  function CountScan(s: string, target: string): nat
    requires target != []
    decreases |s|
  {
    if StartsWith(s, target) then 1 + CountScan(s[|target|..], target)
    else if s == [] then 0
    else CountScan(s[1..], target)
  }

  /** `split(target).join(replacement)` is the left-to-right non-overlapping
      replacement, and the number of pieces minus one is the number of
      replacements made. */
  lemma {:induction false} SplitJoinIsReplaceScan(s: string, target: string, replacement: string)
    requires target != []
    ensures Join(SplitOn(s, target), replacement) == ReplaceScan(s, target, replacement)
    ensures |SplitOn(s, target)| - 1 == CountScan(s, target)
    decreases |s|
  {
    if StartsWith(s, target) {
      SplitJoinIsReplaceScan(s[|target|..], target, replacement);
      SplitJoinAtMatch(s, target, replacement);
    } else if s != [] {
      SplitJoinIsReplaceScan(s[1..], target, replacement);
      SplitJoinPastChar(s, target, replacement);
    }
  }

  lemma SplitJoinAtMatch(s: string, target: string, replacement: string)
    requires target != [] && StartsWith(s, target)
    requires var rest := s[|target|..];
             Join(SplitOn(rest, target), replacement) == ReplaceScan(rest, target, replacement) &&
             |SplitOn(rest, target)| - 1 == CountScan(rest, target)
    ensures Join(SplitOn(s, target), replacement) == ReplaceScan(s, target, replacement)
    ensures |SplitOn(s, target)| - 1 == CountScan(s, target)
  {
    var parts := SplitOn(s[|target|..], target);
    ScanAtMatch(s, target, replacement);
    JoinCons([], parts, replacement);
    assert [] + replacement == replacement;
  }

  lemma SplitJoinPastChar(s: string, target: string, replacement: string)
    requires target != [] && !StartsWith(s, target) && s != []
    requires Join(SplitOn(s[1..], target), replacement) == ReplaceScan(s[1..], target, replacement) &&
             |SplitOn(s[1..], target)| - 1 == CountScan(s[1..], target)
    ensures Join(SplitOn(s, target), replacement) == ReplaceScan(s, target, replacement)
    ensures |SplitOn(s, target)| - 1 == CountScan(s, target)
  {
    ScanPastChar(s, target, replacement);
    JoinGrowHead(s[0], SplitOn(s[1..], target), replacement);
  }

  /** The split and the scan at an occurrence of `target`, unfolded once. */
  lemma ScanAtMatch(s: string, target: string, replacement: string)
    requires target != [] && StartsWith(s, target)
    ensures SplitOn(s, target) == [[]] + SplitOn(s[|target|..], target)
    ensures ReplaceScan(s, target, replacement) == replacement + ReplaceScan(s[|target|..], target, replacement)
    ensures CountScan(s, target) == 1 + CountScan(s[|target|..], target)
  {
  }

  /** The split and the scan past a character that starts no occurrence, unfolded once. */
  lemma ScanPastChar(s: string, target: string, replacement: string)
    requires target != [] && !StartsWith(s, target) && s != []
    ensures var r := SplitOn(s[1..], target);
            SplitOn(s, target) == [[s[0]] + r[0]] + r[1..]
    ensures ReplaceScan(s, target, replacement) == [s[0]] + ReplaceScan(s[1..], target, replacement)
    ensures CountScan(s, target) == CountScan(s[1..], target)
  {
  }

  /** Each replacement changes the length by `|replacement| - |target|`. */
  lemma {:induction false} ReplaceScanLength(s: string, target: string, replacement: string)
    requires target != []
    ensures |ReplaceScan(s, target, replacement)| == |s| + CountScan(s, target) * (|replacement| - |target|)
    decreases |s|
  {
    if StartsWith(s, target) {
      var rest := s[|target|..];
      ReplaceScanLength(rest, target, replacement);
      ReplaceScanAtMatch(s, target, replacement);
      ShiftProduct(CountScan(rest, target), |replacement| - |target|);
    } else if s != [] {
      ReplaceScanLength(s[1..], target, replacement);
    }
  }

  /** One matching step of the scan, unfolded. */
  lemma ReplaceScanAtMatch(s: string, target: string, replacement: string)
    requires target != [] && StartsWith(s, target)
    ensures |ReplaceScan(s, target, replacement)| == |replacement| + |ReplaceScan(s[|target|..], target, replacement)|
    ensures CountScan(s, target) == 1 + CountScan(s[|target|..], target)
    ensures |s| == |target| + |s[|target|..]|
  {
  }

  lemma ShiftProduct(n: int, d: int)
    ensures (1 + n) * d == d + n * d
  {
  }

  /** With no occurrence, the replacement changes nothing and counts zero. */
  lemma {:induction false} ReplaceScanAbsent(s: string, target: string, replacement: string)
    requires target != [] && !Contains(s, target)
    ensures ReplaceScan(s, target, replacement) == s && CountScan(s, target) == 0
    decreases |s|
  {
    assert !OccursAt(s, target, 0);
    if s != [] {
      assert !Contains(s[1..], target) by {
        forall j | 0 <= j ensures !OccursAt(s[1..], target, j) { OccursAtTail(s, target, j); }
      }
      ReplaceScanAbsent(s[1..], target, replacement);
      assert [s[0]] + s[1..] == s;
    }
  }

  /** The decimal digits of `n`, as `String(n)` writes them. */
  function NatToString(n: nat): (r: string)
    ensures |r| >= 1
    ensures forall i :: 0 <= i < |r| ==> '0' <= r[i] <= '9'
    decreases n
  {
    if n < 10 then [DigitChar(n)] else NatToString(n / 10) + [DigitChar(n % 10)]
  }

  function DigitChar(d: nat): (c: char)
    requires d < 10
    ensures '0' <= c <= '9'
  {
    ['0', '1', '2', '3', '4', '5', '6', '7', '8', '9'][d]
  }

  predicate IsDigit(c: char) {
    '0' <= c <= '9'
  }

  /** The value of a string of decimal digits. */
  function DigitsValue(s: string): nat
    requires forall i :: 0 <= i < |s| ==> IsDigit(s[i])
    decreases |s|
  {
    if s == [] then 0
    else
      assert IsDigit(s[|s| - 1]);
      DigitsValue(s[..|s| - 1]) * 10 + (s[|s| - 1] as int - '0' as int)
  }

  /** Decimal rendering and reading back are inverse. */
  lemma {:induction false} DigitsValueOfNatToString(n: nat)
    ensures DigitsValue(NatToString(n)) == n
    decreases n
  {
    var r := NatToString(n);
    if n < 10 {
      assert r[..|r| - 1] == [];
    } else {
      DigitsValueOfNatToString(n / 10);
      assert r[..|r| - 1] == NatToString(n / 10);
    }
  }

  /** Splitting on a one-character separator that `a` does not contain: `a` is
      the first piece. */
  lemma {:induction false} SplitOnFreePrefix(a: string, c: char, rest: string)
    requires c !in a
    ensures SplitOn(a + [c] + rest, [c]) == [a] + SplitOn(rest, [c])
    ensures SplitOn(a, [c]) == [a]
    decreases |a|
  {
    if a == [] {
      assert ([] + [c] + rest)[1..] == rest;
    } else {
      SplitOnFreePrefix(a[1..], c, rest);
      assert (a + [c] + rest)[1..] == a[1..] + [c] + rest;
      assert [a[0]] + a[1..] == a;
    }
  }

  /** `join` then `split` on a one-character separator that no piece contains
      gives the pieces back. */
  lemma {:induction false} SplitOnJoin(xs: seq<string>, c: char)
    requires |xs| >= 1
    requires forall i :: 0 <= i < |xs| ==> c !in xs[i]
    ensures SplitOn(Join(xs, [c]), [c]) == xs
    decreases |xs|
  {
    if |xs| == 1 {
      SplitOnFreePrefix(xs[0], c, []);
    } else {
      SplitOnJoin(xs[1..], c);
      SplitOnFreePrefix(xs[0], c, Join(xs[1..], [c]));
      assert xs == [xs[0]] + xs[1..];
    }
  }

  /** No piece of a split on a one-character separator contains that character. */
  lemma {:induction false} SplitOnPiecesFree(s: string, c: char)
    ensures forall i :: 0 <= i < |SplitOn(s, [c])| ==> c !in SplitOn(s, [c])[i]
    decreases |s|
  {
    if StartsWith(s, [c]) {
      SplitOnPiecesFree(s[1..], c);
    } else if s != [] {
      SplitOnPiecesFree(s[1..], c);
      assert s[0] != c by { assert s[..1] == [s[0]]; }
    }
  }
}
