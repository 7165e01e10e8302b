/** Day 1, Trebuchet?!: each line's calibration value is ten times its
    first digit plus its last digit, where part one knows the digit
    characters and part two also the spelled-out digit names. Matches may
    overlap: in "twone" both "two" and "one" are found. */
module Trebuchet {
  import opened Common

  /** The patterns of part one: "0" to "9". */
  function DigitPatterns(): (ds: seq<string>)
    ensures |ds| == 10 && forall d :: 0 <= d < 10 ==> ds[d] == [DigitChar(d)]
  {
    seq(10, d requires 0 <= d < 10 => [DigitChar(d)])
  }

  const DIGITS: seq<string> := DigitPatterns()

  /** The spelled-out names, in the order of their values. */
  const NAMES: seq<string> := ["zero", "one", "two", "three", "four", "five", "six", "seven", "eight", "nine"]

  /** The patterns of part two. */
  const SPELLED: seq<string> := DIGITS + NAMES

  /** `to_digit`: "d" and the name of `d` both stand for `d`; anything else
      is an error. */
  function ToDigit(s: string): (r: Option<nat>)
    ensures r.Some? ==> r.value <= 9 && (s == DIGITS[r.value] || s == NAMES[r.value])
  {
    if s == "0" || s == "zero" then Some(0)
    else if s == "1" || s == "one" then Some(1)
    else if s == "2" || s == "two" then Some(2)
    else if s == "3" || s == "three" then Some(3)
    else if s == "4" || s == "four" then Some(4)
    else if s == "5" || s == "five" then Some(5)
    else if s == "6" || s == "six" then Some(6)
    else if s == "7" || s == "seven" then Some(7)
    else if s == "8" || s == "eight" then Some(8)
    else if s == "9" || s == "nine" then Some(9)
    else None
  }

  /** A digit character stands for its own value. */
  lemma {:induction false} DigitCharToDigit(c: char)
    requires IsDigit(c)
    ensures ToDigit([c]) == Some(DigitValue(c))
  {
  }

  lemma {:induction false} ToDigitOfDigit(d: nat)
    requires d < 10
    ensures ToDigit(DIGITS[d]) == Some(d)
  {
    DigitCharToDigit(DigitChar(d));
  }

  lemma {:induction false} ToDigitOfName(d: nat)
    requires d < 10
    ensures ToDigit(NAMES[d]) == Some(d)
  {
    if d < 5 {
      assert NAMES[d] == ["zero", "one", "two", "three", "four"][d];
    } else {
      assert NAMES[d] == ["five", "six", "seven", "eight", "nine"][d - 5];
    }
  }

  /** `to_digit` accepts exactly the patterns of part two. */
  lemma {:induction false} ToDigitDefined(s: string)
    ensures ToDigit(s).Some? <==> s in SPELLED
  {
    if s in SPELLED {
      var i :| 0 <= i < |SPELLED| && SPELLED[i] == s;
      if i < 10 {
        ToDigitOfDigit(i);
      } else {
        ToDigitOfName(i - 10);
      }
    }
  }

  // ---------------------------------------------------------------------
  // Matching

  /** Pattern `p` occurs in `line` ending just before position `e`. */
  predicate EndsAt(line: string, p: string, e: nat) {
    |p| <= e <= |line| && line[e - |p|..e] == p
  }

  /** A pattern ending at `e`; the automaton reports matches by their end
      position, and where two patterns end at the same position this takes
      the earlier one in the list (`SpelledSuffixFree` shows this never arises
      for the puzzle's patterns). */
  function MatchAt(line: string, pats: seq<string>, e: nat): (r: Option<string>)
    ensures r.Some? ==> r.value in pats && EndsAt(line, r.value, e)
    ensures r.None? ==> forall p :: p in pats ==> !EndsAt(line, p, e)
  {
    if pats == [] then None
    else if EndsAt(line, pats[0], e) then Some(pats[0])
    else MatchAt(line, pats[1..], e)
  }

  /** The first match ending at `e` or later: its end and its text
      (`find_overlapping_iter(line).next()`). */
  function FirstFrom(line: string, pats: seq<string>, e: nat): (r: Option<(nat, string)>)
    ensures r.Some? ==> e <= r.value.0 <= |line| && MatchAt(line, pats, r.value.0) == Some(r.value.1)
    ensures r.Some? ==> forall k :: e <= k < r.value.0 ==> MatchAt(line, pats, k).None?
    ensures r.None? ==> forall k :: e <= k <= |line| ==> MatchAt(line, pats, k).None?
    decreases |line| + 1 - e
  {
    if e > |line| then None
    else match MatchAt(line, pats, e)
      case Some(p) => Some((e, p))
      case None => FirstFrom(line, pats, e + 1)
  }

  /** The last match ending at `e` or earlier
      (`find_overlapping_iter(line).last()`). */
  function LastUpTo(line: string, pats: seq<string>, e: nat): (r: Option<(nat, string)>)
    requires e <= |line|
    ensures r.Some? ==> r.value.0 <= e && MatchAt(line, pats, r.value.0) == Some(r.value.1)
    ensures r.Some? ==> forall k :: r.value.0 < k <= e ==> MatchAt(line, pats, k).None?
    ensures r.None? ==> forall k :: 0 <= k <= e ==> MatchAt(line, pats, k).None?
  {
    match MatchAt(line, pats, e)
    case Some(p) => Some((e, p))
    case None => if e == 0 then None else LastUpTo(line, pats, e - 1)
  }

  /** The value of one line: `10 * first + last`; a line without any match
      is an error. */
  function CalibrationValue(line: string, pats: seq<string>): (r: Option<nat>)
    ensures r.Some? ==> r.value <= 99
  {
    Combine(FirstFrom(line, pats, 0), LastUpTo(line, pats, |line|))
  }

  /** Ten times the digit of the first match plus that of the last; an
      error if either is missing or no digit. */
  function Combine(first: Option<(nat, string)>, last: Option<(nat, string)>): (r: Option<nat>)
    ensures r.Some? ==> r.value <= 99
  {
    if first.None? || last.None? then None
    else
      var a, b := ToDigit(first.value.1), ToDigit(last.value.1);
      if a.None? || b.None? then None else Some(10 * a.value + b.value)
  }

  /** `sum_calibration_digits`: the sum over all lines. */
  function SumCalibration(lines: seq<string>, pats: seq<string>): Option<nat> {
    SumBy(lines, LineValue(pats))
  }

  /** The value of a line, as a function of the line. */
  function LineValue(pats: seq<string>): string -> Option<nat> {
    line => CalibrationValue(line, pats)
  }

  /** The total of `value` over the lines, unless it fails on one of them. */
  function SumBy(lines: seq<string>, value: string -> Option<nat>): Option<nat> {
    match CollectAll(lines, value)
    case None => None
    case Some(vals) => Some(Total(vals))
  }

  /** `part_one`: digit characters only. */
  function PartOne(lines: seq<string>): Option<nat> {
    SumCalibration(lines, DIGITS)
  }

  /** `part_two`: digit characters and digit names. */
  function PartTwo(lines: seq<string>): Option<nat> {
    SumCalibration(lines, SPELLED)
  }

  // ---------------------------------------------------------------------
  // Properties of matching

  /** `p` is a suffix of `q`. */
  predicate SuffixOf(p: string, q: string) {
    |p| <= |q| && q[|q| - |p|..] == p
  }

  /** No pattern of the list is a suffix of a different one. */
  predicate SuffixFree(pats: seq<string>) {
    forall p, q :: p in pats && q in pats && SuffixOf(p, q) ==> p == q
  }

  lemma {:induction false} NameNotSuffixOfDigit(p: string, q: string)
    requires p in NAMES && q in DIGITS
    ensures !SuffixOf(p, q)
  {
    assert |q| == 1 by {
      var d :| 0 <= d < 10 && DIGITS[d] == q;
    }
    assert |p| >= 3 by {
      var i :| 0 <= i < 10 && NAMES[i] == p;
      NameLength(i);
    }
  }

  /** Every name has at least three letters. */
  lemma NameLength(i: nat)
    requires i < 10
    ensures |NAMES[i]| >= 3
  {
    if i < 5 {
      assert NAMES[i] == ["zero", "one", "two", "three", "four"][i];
    } else {
      assert NAMES[i] == ["five", "six", "seven", "eight", "nine"][i - 5];
    }
  }

  lemma {:induction false} DigitNotSuffixOfName(p: string, q: string)
    requires p in DIGITS && q in NAMES
    ensures !SuffixOf(p, q)
  {
    var d :| 0 <= d < 10 && DIGITS[d] == p;
    assert IsDigit(p[0]);
  }

  /** A suffix shares the last character and, `|p|` places back, the first. */
  lemma {:induction false} SuffixEnds(p: string, q: string)
    requires p != [] && SuffixOf(p, q)
    ensures p[|p| - 1] == q[|q| - 1] && p[0] == q[|q| - |p|]
  {
    assert q[|q| - |p|..][0] == q[|q| - |p|];
    assert q[|q| - |p|..][|p| - 1] == q[|q| - 1];
  }

  /** Distinct names differ in their last character or in the character
      where the shorter one would start. */
  lemma {:induction false} NameEndsUnique(i: nat, j: nat)
    requires i < 10 && j < 10 && |NAMES[i]| <= |NAMES[j]|
    requires NAMES[i][|NAMES[i]| - 1] == NAMES[j][|NAMES[j]| - 1]
    requires NAMES[i][0] == NAMES[j][|NAMES[j]| - |NAMES[i]|]
    ensures i == j
  {
  }

  lemma {:induction false} NamesSuffixFree()
    ensures SuffixFree(NAMES)
  {
    forall p, q | p in NAMES && q in NAMES && SuffixOf(p, q) ensures p == q {
      var i :| 0 <= i < 10 && NAMES[i] == p;
      var j :| 0 <= j < 10 && NAMES[j] == q;
      NameSuffixUnique(i, j);
    }
  }

  /** A name that is a suffix of a name is that name. */
  lemma {:induction false} NameSuffixUnique(i: nat, j: nat)
    requires i < 10 && j < 10 && SuffixOf(NAMES[i], NAMES[j])
    ensures i == j
  {
    NameLength(i);
    SuffixEnds(NAMES[i], NAMES[j]);
    NameEndsUnique(i, j);
  }

  /** No pattern of either part is a suffix of another, so at most one
      pattern ends at any position and the order in which the automaton
      would report ties is moot. */
  lemma {:induction false} SpelledSuffixFree()
    ensures SuffixFree(DIGITS) && SuffixFree(SPELLED)
  {
    forall p, q | p in SPELLED && q in SPELLED && SuffixOf(p, q) ensures p == q {
      if p in DIGITS {
        if q in NAMES {
          DigitNotSuffixOfName(p, q);
        } else {
          assert |p| == 1 && |q| == 1;
        }
      } else {
        if q in DIGITS {
          NameNotSuffixOfDigit(p, q);
        } else {
          NamesSuffixFree();
        }
      }
    }
  }

  /** Patterns ending at the same position are suffixes of one another. */
  lemma {:induction false} EndsAtSuffix(line: string, e: nat, p: string, q: string)
    requires |p| <= |q| && EndsAt(line, p, e) && EndsAt(line, q, e)
    ensures SuffixOf(p, q)
  {
    assert q[|q| - |p|..] == line[e - |p|..e];
  }

  /** In a suffix-free list, any pattern ending at `e` is the match found
      there, whatever the order of the list. */
  lemma {:induction false} MatchAtUnique(line: string, pats: seq<string>, e: nat, p: string)
    requires SuffixFree(pats)
    requires p in pats && EndsAt(line, p, e)
    ensures MatchAt(line, pats, e) == Some(p)
  {
    var q := MatchAt(line, pats, e).value;
    if |p| <= |q| {
      EndsAtSuffix(line, e, p, q);
    } else {
      EndsAtSuffix(line, e, q, p);
    }
  }

  /** The first and the last match exist together; the first ends no later
      than the last, and when they end at the same place they are the same
      match. */
  lemma {:induction false} FirstAndLast(line: string, pats: seq<string>)
    ensures FirstFrom(line, pats, 0).Some? <==> LastUpTo(line, pats, |line|).Some?
    ensures FirstFrom(line, pats, 0).Some? ==>
      var first, last := FirstFrom(line, pats, 0).value, LastUpTo(line, pats, |line|).value;
      first.0 <= last.0 && (first.0 == last.0 ==> first.1 == last.1)
  {
  }

  /** A line has a value exactly when some pattern occurs in it; otherwise
      `unwrap` on the empty match iterator fails. */
  lemma {:induction false} ValueOfMatching(line: string, pats: seq<string>)
    requires forall p :: p in pats ==> p in SPELLED
    ensures CalibrationValue(line, pats).Some? <==> exists e: nat :: MatchAt(line, pats, e).Some?
  {
    if CalibrationValue(line, pats).Some? {
      assert MatchAt(line, pats, FirstFrom(line, pats, 0).value.0).Some?;
    }
    if exists e: nat :: MatchAt(line, pats, e).Some? {
      var e: nat :| MatchAt(line, pats, e).Some?;
      ValueOfMatch(line, pats, e);
    }
  }

  lemma {:induction false} ValueOfMatch(line: string, pats: seq<string>, e: nat)
    requires forall p :: p in pats ==> p in SPELLED
    requires MatchAt(line, pats, e).Some?
    ensures CalibrationValue(line, pats).Some?
  {
    assert e <= |line|;
    FirstAndLast(line, pats);
    var first := FirstFrom(line, pats, 0).value;
    var last := LastUpTo(line, pats, |line|).value;
    ToDigitDefined(first.1);
    ToDigitDefined(last.1);
  }

  /** In part one a match ending at `e` is the digit character before `e`. */
  lemma {:induction false} DigitMatch(line: string, e: nat)
    requires 1 <= e <= |line|
    ensures MatchAt(line, DIGITS, e) == if IsDigit(line[e - 1]) then Some([line[e - 1]]) else None
  {
    var c := line[e - 1];
    assert line[e - 1..e] == [c];
    if IsDigit(c) {
      var d := DigitValue(c);
      assert DIGITS[d] == [c];
      SpelledSuffixFree();
      MatchAtUnique(line, DIGITS, e, [c]);
    }
  }

  lemma {:induction false} NoDigitMatchAtStart(line: string)
    ensures MatchAt(line, DIGITS, 0).None?
  {
  }

  /** Part one: the first match is the first digit character. */
  lemma {:induction false} PartOneFirst(line: string, i: nat)
    requires i < |line| && IsDigit(line[i])
    requires forall k :: 0 <= k < i ==> !IsDigit(line[k])
    ensures FirstFrom(line, DIGITS, 0) == Some((i + 1, [line[i]]))
  {
    DigitMatch(line, i + 1);
    var r := FirstFrom(line, DIGITS, 0);
    assert r.Some? && r.value.0 <= i + 1;
    var f := r.value.0;
    assert f >= 1 by {
      NoDigitMatchAtStart(line);
    }
    DigitMatch(line, f);
    assert IsDigit(line[f - 1]);
  }

  /** Part one: the last match is the last digit character. */
  lemma {:induction false} PartOneLast(line: string, j: nat)
    requires j < |line| && IsDigit(line[j])
    requires forall k :: j < k < |line| ==> !IsDigit(line[k])
    ensures LastUpTo(line, DIGITS, |line|) == Some((j + 1, [line[j]]))
  {
    DigitMatch(line, j + 1);
    var r := LastUpTo(line, DIGITS, |line|);
    assert r.Some? && r.value.0 >= j + 1;
    var l := r.value.0;
    DigitMatch(line, l);
    assert IsDigit(line[l - 1]);
  }

  /** Part one: the value is ten times the first digit character of the line
      plus its last one. */
  lemma {:induction false} PartOneValue(line: string, i: nat, j: nat)
    requires i <= j < |line| && IsDigit(line[i]) && IsDigit(line[j])
    requires forall k :: 0 <= k < i ==> !IsDigit(line[k])
    requires forall k :: j < k < |line| ==> !IsDigit(line[k])
    ensures CalibrationValue(line, DIGITS) == Some(10 * DigitValue(line[i]) + DigitValue(line[j]))
  {
    PartOneFirst(line, i);
    PartOneLast(line, j);
    DigitCharToDigit(line[i]);
    DigitCharToDigit(line[j]);
  }

  // ---------------------------------------------------------------------
  // Sums over lines

  /** The sum of a list of values. */
  function Total(vals: seq<nat>): nat {
    if vals == [] then 0 else Total(vals[..|vals| - 1]) + vals[|vals| - 1]
  }

  /** The sum exists exactly when every line has a value. */
  lemma {:induction false} SumCalibrationDefined(lines: seq<string>, pats: seq<string>)
    ensures SumCalibration(lines, pats).Some? <==>
      forall k :: 0 <= k < |lines| ==> CalibrationValue(lines[k], pats).Some?
  {
    CollectAllMeaning(lines, LineValue(pats));
  }

  /** The sum over the lines is the total of their values. */
  lemma {:induction false} SumByOf(lines: seq<string>, value: string -> Option<nat>, vals: seq<nat>)
    requires |vals| == |lines|
    requires forall k :: 0 <= k < |lines| ==> value(lines[k]) == Some(vals[k])
    ensures SumBy(lines, value) == Some(Total(vals))
  {
    CollectAllOf(lines, value, vals);
  }

  lemma {:induction false} SumByFour(value: string -> Option<nat>, a: string, b: string, c: string, d: string, va: nat, vb: nat, vc: nat, vd: nat)
    requires value(a) == Some(va) && value(b) == Some(vb) && value(c) == Some(vc) && value(d) == Some(vd)
    ensures SumBy([a, b, c, d], value) == Some(va + vb + vc + vd)
  {
    SumByOf([a, b, c, d], value, [va, vb, vc, vd]);
    TotalOfFour(va, vb, vc, vd);
  }

  lemma {:induction false} SumByThree(value: string -> Option<nat>, a: string, b: string, c: string, va: nat, vb: nat, vc: nat)
    requires value(a) == Some(va) && value(b) == Some(vb) && value(c) == Some(vc)
    ensures SumBy([a, b, c], value) == Some(va + vb + vc)
  {
    SumByOf([a, b, c], value, [va, vb, vc]);
    TotalOfThree(va, vb, vc);
  }

  lemma FourThree<T>(a: T, b: T, c: T, d: T, e: T, f: T, g: T)
    ensures [a, b, c, d] + [e, f, g] == [a, b, c, d, e, f, g]
  {
  }

  /** Totals add up over concatenation. */
  lemma {:induction false} TotalAppend(xs: seq<nat>, ys: seq<nat>)
    ensures Total(xs + ys) == Total(xs) + Total(ys)
    decreases |ys|
  {
    if ys == [] {
      assert xs + ys == xs;
    } else {
      var init := ys[..|ys| - 1];
      assert (xs + ys)[..|xs + ys| - 1] == xs + init;
      TotalAppend(xs, init);
    }
  }

  /** The sum over two blocks of lines is the sum of their sums. */
  lemma {:induction false} SumByAppend(xs: seq<string>, ys: seq<string>, value: string -> Option<nat>)
    requires SumBy(xs, value).Some? && SumBy(ys, value).Some?
    ensures SumBy(xs + ys, value) == Some(SumBy(xs, value).value + SumBy(ys, value).value)
  {
    CollectAllMeaning(xs, value);
    CollectAllMeaning(ys, value);
    var vx, vy := CollectAll(xs, value).value, CollectAll(ys, value).value;
    forall k | 0 <= k < |xs + ys| ensures value((xs + ys)[k]) == Some((vx + vy)[k]) {
      if k < |xs| {
        assert (xs + ys)[k] == xs[k] && (vx + vy)[k] == vx[k];
      } else {
        assert (xs + ys)[k] == ys[k - |xs|] && (vx + vy)[k] == vy[k - |xs|];
      }
    }
    SumByOf(xs + ys, value, vx + vy);
    TotalAppend(vx, vy);
  }

  lemma {:induction false} TotalSnoc(vals: seq<nat>, v: nat)
    ensures Total(vals + [v]) == Total(vals) + v
  {
    assert (vals + [v])[..|vals|] == vals;
  }

  lemma {:induction false} TotalOfThree(a: nat, b: nat, c: nat)
    ensures Total([a, b, c]) == a + b + c
  {
    TotalSnoc([], a);
    TotalSnoc([a], b);
    TotalSnoc([a, b], c);
    assert [] + [a] == [a] && [a] + [b] == [a, b] && [a, b] + [c] == [a, b, c];
  }

  lemma {:induction false} TotalOfFour(a: nat, b: nat, c: nat, d: nat)
    ensures Total([a, b, c, d]) == a + b + c + d
  {
    TotalSnoc([], a);
    TotalSnoc([a], b);
    TotalSnoc([a, b], c);
    TotalSnoc([a, b, c], d);
    assert [] + [a] == [a] && [a] + [b] == [a, b] && [a, b] + [c] == [a, b, c] && [a, b, c] + [d] == [a, b, c, d];
  }

  // ---------------------------------------------------------------------
  // Locating the first and the last match

  /** No pattern of `pats` ends anywhere in `lo..hi`. */
  predicate NoMatchBetween(line: string, pats: seq<string>, lo: nat, hi: nat) {
    forall k: nat, p :: lo <= k < hi && p in pats ==> !EndsAt(line, p, k)
  }

  /** The first match, given where it ends. */
  lemma {:induction false} FirstIs(line: string, pats: seq<string>, i: nat, p: string)
    requires SuffixFree(pats)
    requires p in pats && EndsAt(line, p, i) && NoMatchBetween(line, pats, 0, i)
    ensures FirstFrom(line, pats, 0) == Some((i, p))
  {
    MatchAtUnique(line, pats, i, p);
  }

  /** The last match, given where it ends. */
  lemma {:induction false} LastIs(line: string, pats: seq<string>, j: nat, q: string)
    requires SuffixFree(pats)
    requires q in pats && EndsAt(line, q, j) && NoMatchBetween(line, pats, j + 1, |line| + 1)
    ensures LastUpTo(line, pats, |line|) == Some((j, q))
  {
    MatchAtUnique(line, pats, j, q);
  }

  /** The value of a line, given where its first and its last match end:
      ten times the first match's digit plus the last match's. */
  lemma {:induction false} ValueOfFirstLast(line: string, pats: seq<string>, i: nat, p: string, j: nat, q: string)
    requires SuffixFree(pats)
    requires p in pats && EndsAt(line, p, i) && NoMatchBetween(line, pats, 0, i)
    requires q in pats && EndsAt(line, q, j) && NoMatchBetween(line, pats, j + 1, |line| + 1)
    requires ToDigit(p).Some? && ToDigit(q).Some?
    ensures CalibrationValue(line, pats) == Some(10 * ToDigit(p).value + ToDigit(q).value)
  {
    assert FirstFrom(line, pats, 0) == Some((i, p)) by {
      FirstIs(line, pats, i, p);
    }
    assert LastUpTo(line, pats, |line|) == Some((j, q)) by {
      LastIs(line, pats, j, q);
    }
    ValueOf(line, pats, i, p, j, q);
  }

  lemma {:induction false} ValueOf(line: string, pats: seq<string>, i: nat, p: string, j: nat, q: string)
    requires FirstFrom(line, pats, 0) == Some((i, p)) && LastUpTo(line, pats, |line|) == Some((j, q))
    requires ToDigit(p).Some? && ToDigit(q).Some?
    ensures CalibrationValue(line, pats) == Some(10 * ToDigit(p).value + ToDigit(q).value)
  {
    CombineDigits(i, p, j, q);
    assert CalibrationValue(line, pats) == Combine(FirstFrom(line, pats, 0), LastUpTo(line, pats, |line|));
  }

  lemma CombineDigits(i: nat, p: string, j: nat, q: string)
    requires ToDigit(p).Some? && ToDigit(q).Some?
    ensures Combine(Some((i, p)), Some((j, q))) == Some(10 * ToDigit(p).value + ToDigit(q).value)
  {
  }

  /** A cheap sufficient test that no pattern of part two ends at `k`: the
      character before `k` is no digit, and no name both ends with it and
      starts with the character `|name|` places back. */
  predicate Clear(line: string, k: nat)
    requires k <= |line|
  {
    k == 0 ||
    (!IsDigit(line[k - 1]) &&
     forall d :: 0 <= d < 10 && |NAMES[d]| <= k ==>
       line[k - 1] != NAMES[d][|NAMES[d]| - 1] || line[k - |NAMES[d]|] != NAMES[d][0])
  }

  lemma {:induction false} ClearAt(line: string, k: nat, p: string)
    requires k <= |line| && Clear(line, k) && p in SPELLED
    ensures !EndsAt(line, p, k)
  {
  }

  lemma {:induction false} ClearBetween(line: string, lo: nat, hi: nat)
    requires hi <= |line| + 1
    requires forall k :: lo <= k < hi ==> Clear(line, k)
    ensures NoMatchBetween(line, SPELLED, lo, hi)
  {
    forall k: nat, p | lo <= k < hi && p in SPELLED ensures !EndsAt(line, p, k) {
      ClearAt(line, k, p);
    }
  }

  // ---------------------------------------------------------------------
  // The puzzle's examples

  /** The value of a line of part two, given where its first and its last
      match end. */
  lemma {:induction false} SpelledValue(line: string, i: nat, p: string, j: nat, q: string)
    requires p in SPELLED && EndsAt(line, p, i) && NoMatchBetween(line, SPELLED, 0, i)
    requires q in SPELLED && EndsAt(line, q, j) && NoMatchBetween(line, SPELLED, j + 1, |line| + 1)
    ensures ToDigit(p).Some? && ToDigit(q).Some?
    ensures CalibrationValue(line, SPELLED) == Some(10 * ToDigit(p).value + ToDigit(q).value)
  {
    SpelledSuffixFree();
    ToDigitDefined(p);
    ToDigitDefined(q);
    ValueOfFirstLast(line, SPELLED, i, p, j, q);
  }

  /** The names spelled out, in a context of their own. */
  lemma NameTexts()
    ensures NAMES[0] == "zero" && NAMES[1] == "one" && NAMES[2] == "two" && NAMES[3] == "three"
    ensures NAMES[4] == "four" && NAMES[5] == "five" && NAMES[6] == "six" && NAMES[7] == "seven"
    ensures NAMES[8] == "eight" && NAMES[9] == "nine"
  {
  }

  /** The first and the last match of a line of part two, given where
      they end. */
  lemma {:induction false} SpelledFirstLast(line: string, i: nat, p: string, j: nat, q: string)
    requires p in SPELLED && EndsAt(line, p, i) && NoMatchBetween(line, SPELLED, 0, i)
    requires q in SPELLED && EndsAt(line, q, j) && NoMatchBetween(line, SPELLED, j + 1, |line| + 1)
    ensures FirstFrom(line, SPELLED, 0) == Some((i, p)) && LastUpTo(line, SPELLED, |line|) == Some((j, q))
  {
    SpelledSuffixFree();
    FirstIs(line, SPELLED, i, p);
    LastIs(line, SPELLED, j, q);
  }

  /** Where the first and the last match of "two1nine" end, and that
      nothing matches before the first. */
  lemma ExampleTwoAEnds(line: string)
    requires line == "two1nine"
    ensures NAMES[2] in SPELLED && EndsAt(line, NAMES[2], 3) && NoMatchBetween(line, SPELLED, 0, 3)
    ensures NAMES[9] in SPELLED && EndsAt(line, NAMES[9], 8) && NoMatchBetween(line, SPELLED, 9, |line| + 1)
  {
    NameTexts();
    assert line[0..3] == "two" && line[4..8] == "nine";
    assert NAMES[2] == SPELLED[12] && NAMES[9] == SPELLED[19];
    ClearBetween(line, 0, 3);
  }

  lemma ExampleTwoA(line: string)
    requires line == "two1nine"
    ensures CalibrationValue(line, SPELLED) == Some(29)
  {
    ExampleTwoAEnds(line);
    SpelledValue(line, 3, NAMES[2], 8, NAMES[9]);
    ToDigitOfName(2);
    ToDigitOfName(9);
  }

  /** Where the first and the last match of "eightwothree" end, and that
      nothing matches before the first. */
  lemma ExampleTwoBEnds(line: string)
    requires line == "eightwothree"
    ensures NAMES[8] in SPELLED && EndsAt(line, NAMES[8], 5) && NoMatchBetween(line, SPELLED, 0, 5)
    ensures NAMES[3] in SPELLED && EndsAt(line, NAMES[3], 12) && NoMatchBetween(line, SPELLED, 13, |line| + 1)
  {
    NameTexts();
    assert line[0..5] == "eight" && line[7..12] == "three";
    assert NAMES[8] == SPELLED[18] && NAMES[3] == SPELLED[13];
    ClearBetween(line, 0, 5);
  }

  lemma ExampleTwoB(line: string)
    requires line == "eightwothree"
    ensures CalibrationValue(line, SPELLED) == Some(83)
  {
    ExampleTwoBEnds(line);
    SpelledValue(line, 5, NAMES[8], 12, NAMES[3]);
    ToDigitOfName(8);
    ToDigitOfName(3);
  }

  /** Where the first and the last match of "abcone2threexyz" end, and that
      nothing matches before the first. */
  lemma ExampleTwoCEnds(line: string)
    requires line == "abcone2threexyz"
    ensures NAMES[1] in SPELLED && EndsAt(line, NAMES[1], 6) && NoMatchBetween(line, SPELLED, 0, 6)
    ensures NAMES[3] in SPELLED && EndsAt(line, NAMES[3], 12)
  {
    NameTexts();
    assert line[3..6] == "one" && line[7..12] == "three";
    assert NAMES[1] == SPELLED[11] && NAMES[3] == SPELLED[13];
    ClearBetween(line, 0, 6);
  }

  /** Nothing matches after the last match of "abcone2threexyz". */
  lemma ExampleTwoCTail(line: string)
    requires line == "abcone2threexyz"
    ensures NoMatchBetween(line, SPELLED, 13, 16)
  {
    ClearBetween(line, 13, 16);
  }

  lemma ExampleTwoC(line: string)
    requires line == "abcone2threexyz"
    ensures CalibrationValue(line, SPELLED) == Some(13)
  {
    ExampleTwoCEnds(line);
    ExampleTwoCTail(line);
    SpelledValue(line, 6, NAMES[1], 12, NAMES[3]);
    ToDigitOfName(1);
    ToDigitOfName(3);
  }

  /** Where the first and the last match of "xtwone3four" end, and that
      nothing matches before the first. */
  lemma ExampleTwoDEnds(line: string)
    requires line == "xtwone3four"
    ensures NAMES[2] in SPELLED && EndsAt(line, NAMES[2], 4) && NoMatchBetween(line, SPELLED, 0, 4)
    ensures NAMES[4] in SPELLED && EndsAt(line, NAMES[4], 11) && NoMatchBetween(line, SPELLED, 12, |line| + 1)
  {
    NameTexts();
    assert line[1..4] == "two" && line[7..11] == "four";
    assert NAMES[2] == SPELLED[12] && NAMES[4] == SPELLED[14];
    ClearBetween(line, 0, 4);
  }

  lemma ExampleTwoD(line: string)
    requires line == "xtwone3four"
    ensures CalibrationValue(line, SPELLED) == Some(24)
  {
    ExampleTwoDEnds(line);
    SpelledValue(line, 4, NAMES[2], 11, NAMES[4]);
    ToDigitOfName(2);
    ToDigitOfName(4);
  }

  /** Matches overlap: in "xtwone3four" the first match is "two", "one"
      is found too although it shares its "o", and the last is "four". */
  lemma ExampleOverlap(line: string)
    requires line == "xtwone3four"
    ensures FirstFrom(line, SPELLED, 0) == Some((4, "two"))
    ensures MatchAt(line, SPELLED, 6) == Some("one")
    ensures LastUpTo(line, SPELLED, |line|) == Some((11, "four"))
  {
    ExampleTwoDEnds(line);
    ExampleOverlapMiddle(line);
    SpelledFirstLast(line, 4, NAMES[2], 11, NAMES[4]);
    NameTexts();
  }

  lemma ExampleOverlapMiddle(line: string)
    requires line == "xtwone3four"
    ensures MatchAt(line, SPELLED, 6) == Some("one")
  {
    NameTexts();
    assert NAMES[1] == SPELLED[11];
    assert line[3..6] == "one";
    SpelledSuffixFree();
    MatchAtUnique(line, SPELLED, 6, NAMES[1]);
  }

  /** Where the first and the last match of "4nineeightseven2" end, and that
      nothing matches before the first. */
  lemma ExampleTwoEEnds(line: string)
    requires line == "4nineeightseven2"
    ensures DIGITS[4] in SPELLED && EndsAt(line, DIGITS[4], 1) && NoMatchBetween(line, SPELLED, 0, 1)
    ensures DIGITS[2] in SPELLED && EndsAt(line, DIGITS[2], 16) && NoMatchBetween(line, SPELLED, 17, |line| + 1)
  {
    assert DIGITS[4] == "4" && DIGITS[2] == "2";
    assert line[0..1] == "4" && line[15..16] == "2";
    assert DIGITS[4] == SPELLED[4] && DIGITS[2] == SPELLED[2];
    ClearBetween(line, 0, 1);
  }

  lemma ExampleTwoE(line: string)
    requires line == "4nineeightseven2"
    ensures CalibrationValue(line, SPELLED) == Some(42)
  {
    ExampleTwoEEnds(line);
    SpelledValue(line, 1, DIGITS[4], 16, DIGITS[2]);
    ToDigitOfDigit(4);
    ToDigitOfDigit(2);
  }

  /** Where the first and the last match of "zoneight234" end, and that
      nothing matches before the first. */
  lemma ExampleTwoFEnds(line: string)
    requires line == "zoneight234"
    ensures NAMES[1] in SPELLED && EndsAt(line, NAMES[1], 4) && NoMatchBetween(line, SPELLED, 0, 4)
    ensures DIGITS[4] in SPELLED && EndsAt(line, DIGITS[4], 11) && NoMatchBetween(line, SPELLED, 12, |line| + 1)
  {
    NameTexts();
    assert DIGITS[4] == "4";
    assert line[1..4] == "one" && line[10..11] == "4";
    assert NAMES[1] == SPELLED[11] && DIGITS[4] == SPELLED[4];
    ClearBetween(line, 0, 4);
  }

  lemma ExampleTwoF(line: string)
    requires line == "zoneight234"
    ensures CalibrationValue(line, SPELLED) == Some(14)
  {
    ExampleTwoFEnds(line);
    SpelledValue(line, 4, NAMES[1], 11, DIGITS[4]);
    ToDigitOfName(1);
    ToDigitOfDigit(4);
  }

  /** Where the first and the last match of "7pqrstsixteen" end, and that
      nothing matches before the first. */
  lemma ExampleTwoGEnds(line: string)
    requires line == "7pqrstsixteen"
    ensures DIGITS[7] in SPELLED && EndsAt(line, DIGITS[7], 1) && NoMatchBetween(line, SPELLED, 0, 1)
    ensures NAMES[6] in SPELLED && EndsAt(line, NAMES[6], 9)
  {
    NameTexts();
    assert DIGITS[7] == "7";
    assert line[0..1] == "7" && line[6..9] == "six";
    assert DIGITS[7] == SPELLED[7] && NAMES[6] == SPELLED[16];
    ClearBetween(line, 0, 1);
  }

  /** Nothing matches after the last match of "7pqrstsixteen". */
  lemma ExampleTwoGTail(line: string)
    requires line == "7pqrstsixteen"
    ensures NoMatchBetween(line, SPELLED, 10, 14)
  {
    ClearBetween(line, 10, 14);
  }

  lemma ExampleTwoG(line: string)
    requires line == "7pqrstsixteen"
    ensures CalibrationValue(line, SPELLED) == Some(76)
  {
    ExampleTwoGEnds(line);
    ExampleTwoGTail(line);
    SpelledValue(line, 1, DIGITS[7], 9, NAMES[6]);
    ToDigitOfDigit(7);
    ToDigitOfName(6);
  }

  lemma ExampleOneA(line: string)
    requires line == "1abc2"
    ensures CalibrationValue(line, DIGITS) == Some(12)
  {
    PartOneValue(line, 0, 4);
  }

  lemma ExampleOneB(line: string)
    requires line == "pqr3stu8vwx"
    ensures CalibrationValue(line, DIGITS) == Some(38)
  {
    PartOneValue(line, 3, 7);
  }

  lemma ExampleOneC(line: string)
    requires line == "a1b2c3d4e5f"
    ensures CalibrationValue(line, DIGITS) == Some(15)
  {
    PartOneValue(line, 1, 9);
  }

  /** A line with a single digit uses it as both first and last. */
  lemma ExampleOneD(line: string)
    requires line == "treb7uchet"
    ensures CalibrationValue(line, DIGITS) == Some(77)
  {
    PartOneValue(line, 4, 4);
  }

  /** The example of part one sums to 142. */
  lemma ExamplePartOne(a: string, b: string, c: string, d: string)
    requires a == "1abc2" && b == "pqr3stu8vwx" && c == "a1b2c3d4e5f" && d == "treb7uchet"
    ensures PartOne([a, b, c, d]) == Some(142)
  {
    ExampleOneA(a);
    ExampleOneB(b);
    ExampleOneC(c);
    ExampleOneD(d);
    var value := LineValue(DIGITS);
    assert value(a) == Some(12) && value(b) == Some(38) && value(c) == Some(15) && value(d) == Some(77);
    SumByFour(value, a, b, c, d, 12, 38, 15, 77);
  }

  lemma ExampleTwoValues(a: string, b: string, c: string, d: string, e: string, f: string, g: string)
    requires a == "two1nine" && b == "eightwothree" && c == "abcone2threexyz" && d == "xtwone3four"
    requires e == "4nineeightseven2" && f == "zoneight234" && g == "7pqrstsixteen"
    ensures var value := LineValue(SPELLED);
      value(a) == Some(29) && value(b) == Some(83) && value(c) == Some(13) && value(d) == Some(24) &&
      value(e) == Some(42) && value(f) == Some(14) && value(g) == Some(76)
  {
    ExampleTwoA(a);
    ExampleTwoB(b);
    ExampleTwoC(c);
    ExampleTwoD(d);
    ExampleTwoE(e);
    ExampleTwoF(f);
    ExampleTwoG(g);
  }

  /** The example of part two sums to 281. */
  lemma ExamplePartTwo(a: string, b: string, c: string, d: string, e: string, f: string, g: string)
    requires a == "two1nine" && b == "eightwothree" && c == "abcone2threexyz" && d == "xtwone3four"
    requires e == "4nineeightseven2" && f == "zoneight234" && g == "7pqrstsixteen"
    ensures PartTwo([a, b, c, d, e, f, g]) == Some(281)
  {
    ExampleTwoValues(a, b, c, d, e, f, g);
    var value := LineValue(SPELLED);
    SumByFour(value, a, b, c, d, 29, 83, 13, 24);
    SumByThree(value, e, f, g, 42, 14, 76);
    SumByAppend([a, b, c, d], [e, f, g], value);
    FourThree(a, b, c, d, e, f, g);
  }
}
