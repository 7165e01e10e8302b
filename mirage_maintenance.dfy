/** Day 9, Mirage Maintenance: each history is a list of readings; the next
    reading is predicted by taking differences until they are all zero and
    adding the last values back up, and the previous reading likewise from
    the front. */
module MirageMaintenance {
  import opened Common

  // ---------------------------------------------------------------------
  // Differences

  /** `seq.windows(2).map(|w| w[1] - w[0])`: the differences of neighbours. */
  function Diffs(s: seq<int>): (d: seq<int>)
    requires |s| > 0
    ensures |d| == |s| - 1
    ensures forall i :: 0 <= i < |d| ==> d[i] == s[i + 1] - s[i]
  {
    seq(|s| - 1, i requires 0 <= i < |s| - 1 => s[i + 1] - s[i])
  }

  /** `seq.windows(2).rev().map(|w| w[0] - w[1])`: the differences taken
      from the back. */
  function BackDiffs(s: seq<int>): (d: seq<int>)
    requires |s| > 0
    ensures |d| == |s| - 1
    ensures forall i :: 0 <= i < |d| ==> d[i] == s[|s| - 2 - i] - s[|s| - 1 - i]
  {
    seq(|s| - 1, i requires 0 <= i < |s| - 1 => s[|s| - 2 - i] - s[|s| - 1 - i])
  }

  predicate AllZero(d: seq<int>) {
    forall i :: 0 <= i < |d| ==> d[i] == 0
  }

  function Reverse(s: seq<int>): (r: seq<int>)
    ensures |r| == |s| && forall i :: 0 <= i < |s| ==> r[i] == s[|s| - 1 - i]
  {
    seq(|s|, i requires 0 <= i < |s| => s[|s| - 1 - i])
  }

  /** Taking the differences from the back is taking those of the reversed
      history. */
  lemma BackDiffsReverse(s: seq<int>)
    requires |s| > 0
    ensures BackDiffs(s) == Diffs(Reverse(s))
  {
  }

  /** When all differences vanish, every reading equals the first. */
  lemma {:induction false} ConstantOfZeroDiffs(s: seq<int>, i: nat)
    requires i < |s| && AllZero(Diffs(s))
    ensures s[i] == s[0]
  {
    if i > 0 {
      ConstantOfZeroDiffs(s, i - 1);
      assert Diffs(s)[i - 1] == s[i] - s[i - 1];
    }
  }

  // ---------------------------------------------------------------------
  // Prediction

  /** `predict_1`: the next reading. The history must not be empty; a
      history of one reading has no differences and predicts itself. */
  function Predict1(s: seq<int>): int
    requires |s| > 0
    decreases |s|
  {
    var d := Diffs(s);
    if AllZero(d) then s[0] else s[|s| - 1] + Predict1(d)
  }

  /** `predict_2`: the previous reading. */
  function Predict2(s: seq<int>): int
    requires |s| > 0
  {
    var d := BackDiffs(s);
    if AllZero(d) then s[0] else s[0] + Predict1(d)
  }

  /** A history whose differences vanish is constant and predicts its last
      reading again. */
  lemma Predict1Constant(s: seq<int>)
    requires |s| > 0 && AllZero(Diffs(s))
    ensures Predict1(s) == s[|s| - 1] == s[0]
  {
    ConstantOfZeroDiffs(s, |s| - 1);
  }

  /** The prediction is the last reading plus the prediction of the
      differences, also when the early exit is taken. */
  lemma Predict1Last(s: seq<int>)
    requires |s| >= 2
    ensures Predict1(s) == s[|s| - 1] + Predict1(Diffs(s))
  {
    var d := Diffs(s);
    if AllZero(d) {
      Predict1Constant(s);
      assert AllZero(Diffs(d));
    }
  }

  /** The prediction extends every row of the difference table at once: the
      differences of the extended history are the differences extended by
      their own prediction. */
  lemma Predict1Extends(s: seq<int>)
    requires |s| >= 2
    ensures Diffs(s + [Predict1(s)]) == Diffs(s) + [Predict1(Diffs(s))]
  {
    var d := Diffs(s);
    var q := Predict1(d);
    Predict1Last(s);
    var e := s + [Predict1(s)];
    var de := Diffs(e);
    forall i | 0 <= i < |de| ensures de[i] == (d + [q])[i] {
      if i < |d| {
        assert e[i] == s[i] && e[i + 1] == s[i + 1];
      }
    }
  }

  lemma StepDistributes(i: int, k: int)
    ensures (i + 1) * k == i * k + k
  {
  }

  /** An arithmetic history with step `k` continues with step `k`. */
  lemma Predict1Arithmetic(s: seq<int>, k: int)
    requires |s| >= 2 && forall i :: 0 <= i < |s| ==> s[i] == s[0] + i * k
    ensures Predict1(s) == s[|s| - 1] + k
  {
    var d := Diffs(s);
    forall i | 0 <= i < |d| ensures d[i] == k {
      assert d[i] == s[i + 1] - s[i];
      assert s[i + 1] == s[0] + (i + 1) * k && s[i] == s[0] + i * k;
      StepDistributes(i, k);
    }
    if k != 0 {
      assert d[0] != 0;
      assert AllZero(Diffs(d));
    }
  }

  /** Predicting backwards is predicting forwards on the reversed history. */
  lemma Predict2Reversed(s: seq<int>)
    requires |s| > 0
    ensures Predict2(s) == Predict1(Reverse(s))
  {
    var r := Reverse(s);
    BackDiffsReverse(s);
    if AllZero(BackDiffs(s)) {
      Predict1Constant(r);
    }
  }

  /** An arithmetic history with step `k` extends backwards with step `k`. */
  lemma Predict2Arithmetic(s: seq<int>, k: int)
    requires |s| >= 2 && forall i :: 0 <= i < |s| ==> s[i] == s[0] + i * k
    ensures Predict2(s) == s[0] - k
  {
    var r := Reverse(s);
    forall i | 0 <= i < |r| ensures r[i] == r[0] + i * (-k) {
      assert r[i] == s[0] + (|s| - 1 - i) * k;
    }
    Predict1Arithmetic(r, -k);
    Predict2Reversed(s);
  }

  // ---------------------------------------------------------------------
  // Parts

  predicate NonEmpty(hs: seq<seq<int>>) {
    forall i :: 0 <= i < |hs| ==> |hs[i]| > 0
  }

  /** `part_one`: the sum of the next readings. */
  function PartOne(hs: seq<seq<int>>): int
    requires NonEmpty(hs)
  {
    if hs == [] then 0 else PartOne(hs[..|hs| - 1]) + Predict1(hs[|hs| - 1])
  }

  /** `part_two`: the sum of the previous readings. */
  function PartTwo(hs: seq<seq<int>>): int
    requires NonEmpty(hs)
  {
    if hs == [] then 0 else PartTwo(hs[..|hs| - 1]) + Predict2(hs[|hs| - 1])
  }

  function ReverseAll(hs: seq<seq<int>>): (rs: seq<seq<int>>)
    ensures |rs| == |hs| && forall i :: 0 <= i < |hs| ==> rs[i] == Reverse(hs[i])
  {
    seq(|hs|, i requires 0 <= i < |hs| => Reverse(hs[i]))
  }

  /** Part two is part one on the reversed histories. */
  lemma {:induction false} PartTwoReversed(hs: seq<seq<int>>)
    requires NonEmpty(hs)
    ensures NonEmpty(ReverseAll(hs)) && PartTwo(hs) == PartOne(ReverseAll(hs))
  {
    if hs != [] {
      var init := hs[..|hs| - 1];
      PartTwoReversed(init);
      assert ReverseAll(hs)[..|hs| - 1] == ReverseAll(init);
      Predict2Reversed(hs[|hs| - 1]);
    }
  }

  // ---------------------------------------------------------------------
  // Parsing

  /** `parse`, one line: every word is an `i32`. */
  function ParseHistory(line: string): Option<seq<int>> {
    CollectAll(Words(line), ParseI32)
  }

  /** A history written out, one space after each reading. */
  function HistoryText(h: seq<int>): string {
    Unwords(SignedStrings(h))
  }

  function SignedStrings(h: seq<int>): (ws: seq<string>)
    ensures |ws| == |h| && forall i :: 0 <= i < |h| ==> ws[i] == SignedString(h[i])
  {
    seq(|h|, i requires 0 <= i < |h| => SignedString(h[i]))
  }

  /** A history of `i32` readings is read back from its text. */
  lemma ParseHistoryRoundTrip(h: seq<int>)
    requires forall i :: 0 <= i < |h| ==> I32_MIN <= h[i] <= I32_MAX
    ensures ParseHistory(HistoryText(h)) == Some(h)
  {
    var ws := SignedStrings(h);
    WordsOfUnwords(ws);
    forall i | 0 <= i < |ws| ensures ParseI32(ws[i]) == Some(h[i]) {
      ParseI32RoundTrip(h[i]);
    }
    CollectAllOf(ws, ParseI32, h);
  }

  // ---------------------------------------------------------------------
  // The example of the puzzle statement

  /** `0 3 6 9 12 15` continues with 18 and starts from -3. */
  lemma ExampleFirst(s: seq<int>)
    requires s == [0, 3, 6, 9, 12, 15]
    ensures Predict1(s) == 18 && Predict2(s) == -3
  {
    Predict1Arithmetic(s, 3);
    Predict2Arithmetic(s, 3);
  }

  /** `1 3 6 10 15 21` continues with 28. */
  lemma ExampleSecondNext(s: seq<int>)
    requires s == [1, 3, 6, 10, 15, 21]
    ensures Predict1(s) == 28
  {
    var d := Diffs(s);
    assert d == [2, 3, 4, 5, 6];
    Predict1Arithmetic(d, 1);
    assert d[0] != 0;
  }

  /** `1 3 6 10 15 21` starts from 0. */
  lemma ExampleSecondPrevious(s: seq<int>)
    requires s == [1, 3, 6, 10, 15, 21]
    ensures Predict2(s) == 0
  {
    var b := BackDiffs(s);
    assert b[0] == -6 && b[1] == -5 && b[2] == -4 && b[3] == -3 && b[4] == -2;
    Predict1Arithmetic(b, 1);
    assert b[0] != 0;
  }

  /** The differences of `10 13 16 21 30 45`. */
  lemma ExampleThirdDiffs(s: seq<int>)
    requires s == [10, 13, 16, 21, 30, 45]
    ensures Diffs(s) == [3, 3, 5, 9, 15]
  {
  }

  /** `3 3 5 9 15` continues with 23. */
  lemma ExampleThirdDiffsNext(d: seq<int>)
    requires d == [3, 3, 5, 9, 15]
    ensures Predict1(d) == 23
  {
    var dd := Diffs(d);
    assert dd == [0, 2, 4, 6];
    Predict1Arithmetic(dd, 2);
    assert dd[1] != 0;
  }

  /** `10 13 16 21 30 45` continues with 68. */
  lemma ExampleThirdNext(s: seq<int>)
    requires s == [10, 13, 16, 21, 30, 45]
    ensures Predict1(s) == 68
  {
    ExampleThirdDiffs(s);
    ExampleThirdDiffsNext(Diffs(s));
    assert Diffs(s)[0] != 0;
  }

  /** The differences of `10 13 16 21 30 45` taken from the back. */
  lemma ExampleThirdBack(s: seq<int>)
    requires s == [10, 13, 16, 21, 30, 45]
    ensures BackDiffs(s) == [-15, -9, -5, -3, -3]
  {
  }

  lemma ExampleThirdBackDiffs(b: seq<int>)
    requires b == [-15, -9, -5, -3, -3]
    ensures Diffs(b) == [6, 4, 2, 0]
  {
  }

  /** `-15 -9 -5 -3 -3` continues with -5. */
  lemma ExampleThirdBackNext(b: seq<int>)
    requires b == [-15, -9, -5, -3, -3]
    ensures Predict1(b) == -5
  {
    ExampleThirdBackDiffs(b);
    var bb := Diffs(b);
    Predict1Arithmetic(bb, -2);
    assert bb[0] != 0;
  }

  /** `10 13 16 21 30 45` starts from 5. */
  lemma ExampleThirdPrevious(s: seq<int>)
    requires s == [10, 13, 16, 21, 30, 45]
    ensures Predict2(s) == 5
  {
    ExampleThirdBack(s);
    ExampleThirdBackNext(BackDiffs(s));
    assert BackDiffs(s)[0] != 0;
  }

  /** Appending a history adds its predictions to both parts. */
  lemma PartsSnoc(hs: seq<seq<int>>, h: seq<int>)
    requires NonEmpty(hs) && |h| > 0
    ensures NonEmpty(hs + [h])
    ensures PartOne(hs + [h]) == PartOne(hs) + Predict1(h)
    ensures PartTwo(hs + [h]) == PartTwo(hs) + Predict2(h)
  {
    assert (hs + [h])[..|hs|] == hs;
  }

  /** The parts of three histories are the sums of their predictions. */
  lemma PartsOfThree(a: seq<int>, b: seq<int>, c: seq<int>)
    requires |a| > 0 && |b| > 0 && |c| > 0
    ensures NonEmpty([a, b, c])
    ensures PartOne([a, b, c]) == Predict1(a) + Predict1(b) + Predict1(c)
    ensures PartTwo([a, b, c]) == Predict2(a) + Predict2(b) + Predict2(c)
  {
    PartsSnoc([], a);
    assert [] + [a] == [a];
    PartsSnoc([a], b);
    assert [a] + [b] == [a, b];
    PartsSnoc([a, b], c);
    assert [a, b] + [c] == [a, b, c];
  }

  /** The example's parts: 114 and 2. */
  lemma ExampleParts(a: seq<int>, b: seq<int>, c: seq<int>)
    requires a == [0, 3, 6, 9, 12, 15]
    requires b == [1, 3, 6, 10, 15, 21]
    requires c == [10, 13, 16, 21, 30, 45]
    ensures NonEmpty([a, b, c]) && PartOne([a, b, c]) == 114 && PartTwo([a, b, c]) == 2
  {
    PartsOfThree(a, b, c);
    ExampleFirst(a);
    ExampleSecondNext(b);
    ExampleSecondPrevious(b);
    ExampleThirdNext(c);
    ExampleThirdPrevious(c);
  }
}
