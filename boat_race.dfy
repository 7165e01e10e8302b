/** Day 6, Wait For It: a boat race lasts `time` milliseconds; holding the
    button for `hold` of them charges the boat to speed `hold`, so it
    travels `hold * (time - hold)`. A race is won by beating its record
    distance, and the answer counts the winning hold times. */
module BoatRace {
  import opened Common

  datatype Race = Race(time: nat, record: nat)

  // ---------------------------------------------------------------------
  // Winning hold times

  /** Holding for `hold` (with `1 <= hold < time`, the range the solver
      tries) beats the record. */
  predicate Wins(time: nat, record: nat, hold: nat) {
    0 < hold < time && hold * (time - hold) > record
  }

  /** The number of winning hold times in `1..hi`. */
  function WinningHolds(time: nat, record: nat, hi: nat): (n: nat)
    ensures n <= if hi == 0 then 0 else hi - 1
  {
    if hi <= 1 then 0
    else WinningHolds(time, record, hi - 1) + (if Wins(time, record, hi - 1) then 1 else 0)
  }

  /** The answer for one race: winning hold times among `1..time`. */
  function WinCount(r: Race): nat {
    WinningHolds(r.time, r.record, r.time)
  }

  /** `winning_distances`: tries every hold time in `1..time`. */
  method WinningDistances(time: nat, record: nat) returns (count: nat)
    ensures count == WinningHolds(time, record, time)
    ensures count <= if time == 0 then 0 else time - 1
  {
    count := 0;
    var hold := 1;
    while hold < time
      invariant 1 <= hold <= if time == 0 then 1 else time
      invariant count == WinningHolds(time, record, hold)
    {
      var movement := time - hold;
      var distance := hold * movement;
      assert distance > record <==> Wins(time, record, hold);
      if distance > record {
        count := count + 1;
      }
      hold := hold + 1;
    }
  }

  /** Holding for `hold` and for `time - hold` travel the same distance. */
  lemma WinsSymmetric(time: nat, record: nat, hold: nat)
    requires 0 < hold < time
    ensures Wins(time, record, hold) <==> Wins(time, record, time - hold)
  {
    assert hold * (time - hold) == (time - hold) * (time - (time - hold));
  }

  /** Every hold time between a winning `hold` and its mirror `time - hold`
      wins too: the winning hold times form one interval. */
  lemma WinsBetween(time: nat, record: nat, hold: nat, other: nat)
    requires Wins(time, record, hold) && hold <= other <= time - hold
    ensures Wins(time, record, other)
  {
    var a, b := other - hold, time - hold - other;
    assert other * (time - other) == hold * (time - hold) + a * b by {
      assert other == hold + a && time - other == (time - hold) - a;
      assert time - hold == a + b + hold;
    }
    assert a * b >= 0;
  }

  /** Counting over `1..hi` when exactly the hold times in `lo..up` win. */
  lemma {:induction false} CountOfInterval(time: nat, record: nat, lo: nat, up: nat, hi: nat)
    requires 1 <= lo <= up
    requires forall h :: 1 <= h < hi ==> (Wins(time, record, h) <==> lo <= h < up)
    ensures WinningHolds(time, record, hi) == if hi <= lo then 0 else if hi <= up then hi - lo else up - lo
  {
    if hi > 1 {
      CountOfInterval(time, record, lo, up, hi - 1);
    }
  }

  /** With `first` the smallest winning hold time, the race has
      `time + 1 - 2 * first` winning hold times, from `first` up to
      `time - first`. */
  lemma WinCountOfFirst(time: nat, record: nat, first: nat)
    requires 1 <= first && 2 * first <= time
    requires Wins(time, record, first)
    requires first == 1 || !Wins(time, record, first - 1)
    ensures WinningHolds(time, record, time) == time + 1 - 2 * first
  {
    forall h | 1 <= h < time
      ensures Wins(time, record, h) <==> first <= h < time - first + 1
    {
      if first <= h <= time - first {
        WinsBetween(time, record, first, h);
      } else if h < first {
        if Wins(time, record, h) {
          WinsBetween(time, record, h, first - 1);
        }
      } else {
        WinsSymmetric(time, record, h);
        if Wins(time, record, time - h) {
          WinsBetween(time, record, time - h, first - 1);
        }
      }
    }
    CountOfInterval(time, record, first, time - first + 1, time);
  }

  // ---------------------------------------------------------------------
  // Part one: the product over all races

  function Product(races: seq<Race>): nat {
    if races == [] then 1 else Product(races[..|races| - 1]) * WinCount(races[|races| - 1])
  }

  /** `part_one`: multiplies the counts of all races, starting from 1. */
  method PartOne(races: seq<Race>) returns (product: nat)
    ensures product == Product(races)
  {
    product := 1;
    for i := 0 to |races|
      invariant product == Product(races[..i])
    {
      var count := WinningDistances(races[i].time, races[i].record);
      assert races[..i + 1][..i] == races[..i];
      product := product * count;
    }
    assert races[..|races|] == races;
  }

  /** The product vanishes exactly when some race cannot be won. */
  lemma {:induction false} ProductZero(races: seq<Race>)
    ensures Product(races) == 0 <==> exists i :: 0 <= i < |races| && WinCount(races[i]) == 0
  {
    if races != [] {
      var init := races[..|races| - 1];
      ProductZero(init);
      if exists i :: 0 <= i < |init| && WinCount(init[i]) == 0 {
        var i :| 0 <= i < |init| && WinCount(init[i]) == 0;
        assert races[i] == init[i];
      }
      if exists i :: 0 <= i < |races| && WinCount(races[i]) == 0 {
        var i :| 0 <= i < |races| && WinCount(races[i]) == 0;
        if i < |init| {
          assert init[i] == races[i];
        }
      }
    }
  }

  // ---------------------------------------------------------------------
  // Parsing

  /** `parse_line_1`: the numbers after `prefix`, each a `u64`. A missing
      prefix or a malformed number is `None`. */
  function ParseLineOne(line: string, prefix: string): Option<seq<nat>> {
    match StripPrefix(line, prefix)
    case None => None
    case Some(rest) => ParseNumbers(Words(Trim(rest)), U64_MAX)
  }

  /** `Iterator::zip`: pairs up to the shorter of the two. */
  function Zip(times: seq<nat>, records: seq<nat>): (races: seq<Race>)
    ensures |races| == if |times| <= |records| then |times| else |records|
    ensures forall i :: 0 <= i < |races| ==> races[i] == Race(times[i], records[i])
  {
    if times == [] || records == [] then []
    else [Race(times[0], records[0])] + Zip(times[1..], records[1..])
  }

  /** `parse_1`: times from the first line, records from the second. */
  function ParseRaces(lines: seq<string>): Option<seq<Race>> {
    if |lines| < 2 then None
    else
      var times := ParseLineOne(lines[0], "Time:");
      var records := ParseLineOne(lines[1], "Distance:");
      if times.None? || records.None? then None
      else Some(Zip(times.value, records.value))
  }

  /** `parse_line_2`: the words after `prefix` written one after another
      and read as a single `u64`. */
  function ParseLineTwo(line: string, prefix: string): Option<nat> {
    match StripPrefix(line, prefix)
    case None => None
    case Some(rest) => ParseUnsigned(Flatten(Words(Trim(rest))), U64_MAX)
  }

  /** `parse_2`: the single race of part two. */
  function ParseRace(lines: seq<string>): Option<Race> {
    if |lines| < 2 then None
    else match (ParseLineTwo(lines[0], "Time:"), ParseLineTwo(lines[1], "Distance:"))
      case (Some(time), Some(record)) => Some(Race(time, record))
      case _ => None
  }

  /** Number of decimal digits of `n`. */
  function DigitCount(n: nat): (k: nat)
    ensures k >= 1
  {
    if n < 10 then 1 else 1 + DigitCount(n / 10)
  }

  /** The number whose decimal digits are those of `ns`, one after another
      (the kerning of part two: 7, 15 and 30 read as 71530). */
  function Juxtapose(ns: seq<nat>): nat {
    if ns == [] then 0
    else Juxtapose(ns[..|ns| - 1]) * Pow10(DigitCount(ns[|ns| - 1])) + ns[|ns| - 1]
  }

  lemma {:induction false} DigitCountLength(n: nat)
    ensures |DecimalString(n)| == DigitCount(n)
  {
    if n >= 10 {
      DigitCountLength(n / 10);
    }
  }

  lemma NumeralsSnoc(ns: seq<nat>)
    requires ns != []
    ensures Numerals(ns) == Numerals(ns[..|ns| - 1]) + [DecimalString(ns[|ns| - 1])]
  {
    var init := ns[..|ns| - 1];
    forall i | 0 <= i < |init| ensures Numerals(ns)[i] == Numerals(init)[i] {
      assert init[i] == ns[i];
    }
    SnocOf(Numerals(ns), Numerals(init), DecimalString(ns[|ns| - 1]));
  }

  /** The numerals of `ns` written one after another denote `Juxtapose(ns)`. */
  lemma {:induction false} JuxtaposeDigits(ns: seq<nat>)
    ensures AllDigits(Flatten(Numerals(ns)))
    ensures DecimalValue(Flatten(Numerals(ns))) == Juxtapose(ns)
  {
    if ns != [] {
      var init, last := ns[..|ns| - 1], ns[|ns| - 1];
      JuxtaposeDigits(init);
      NumeralsSnoc(ns);
      FlattenAppend(Numerals(init), DecimalString(last));
      DecimalValueConcat(Flatten(Numerals(init)), DecimalString(last));
      DecimalStringValue(last);
      DigitCountLength(last);
    } else {
      assert Flatten(Numerals(ns)) == [];
    }
  }

  lemma NumbersTextWhiteSpace(ns: seq<nat>)
    ensures AsciiWhiteSpaceOnly(" " + NumbersText(ns))
  {
    NumbersTextChars(ns);
    var s := " " + NumbersText(ns);
    forall i | 0 <= i < |s| ensures IsWhiteSpace(s[i]) ==> IsAsciiSpace(s[i]) {
      if i > 0 {
        assert s[i] == NumbersText(ns)[i - 1];
      }
    }
  }

  lemma NumbersTextWords(ns: seq<nat>)
    ensures Words(Trim(" " + NumbersText(ns))) == Numerals(ns)
  {
    NumbersTextWhiteSpace(ns);
    TrimmedWords(" " + NumbersText(ns));
    assert (" " + NumbersText(ns))[1..] == NumbersText(ns);
    forall i | 0 <= i < |Numerals(ns)| ensures Numerals(ns)[i] != [] && NoSpace(Numerals(ns)[i]) {
      NumeralHasNoSpace(ns[i]);
    }
    WordsOfUnwords(Numerals(ns));
  }

  /** A line of numbers after its prefix splits into their numerals. */
  lemma NumbersLine(prefix: string, ns: seq<nat>)
    ensures StripPrefix(prefix + " " + NumbersText(ns), prefix) == Some(" " + NumbersText(ns))
    ensures Words(Trim(" " + NumbersText(ns))) == Numerals(ns)
  {
    assert prefix + " " + NumbersText(ns) == prefix + (" " + NumbersText(ns));
    StripPrefixOf(prefix, " " + NumbersText(ns));
    NumbersTextWords(ns);
  }

  /** Part one reads back the numbers of a line written as the prefix and
      the numbers separated by spaces. */
  lemma ParseLineOneRoundTrip(prefix: string, ns: seq<nat>)
    requires forall i :: 0 <= i < |ns| ==> ns[i] <= U64_MAX
    ensures ParseLineOne(prefix + " " + NumbersText(ns), prefix) == Some(ns)
  {
    NumbersLine(prefix, ns);
    ParseNumbersOf(Numerals(ns), ns, U64_MAX);
  }

  /** Part two reads the same line as one number: the digits of all the
      numbers one after another. */
  lemma ParseLineTwoJuxtaposes(prefix: string, ns: seq<nat>)
    requires ns != [] && Juxtapose(ns) <= U64_MAX
    ensures ParseLineTwo(prefix + " " + NumbersText(ns), prefix) == Some(Juxtapose(ns))
  {
    NumbersLine(prefix, ns);
    JuxtaposeDigits(ns);
    var digits := Flatten(Numerals(ns));
    assert digits != [] by {
      assert digits == DecimalString(ns[0]) + Flatten(Numerals(ns)[1..]);
    }
  }

  /** Two lines of numbers are read as the races pairing them up. */
  lemma ParseRacesOf(times: seq<nat>, records: seq<nat>)
    requires forall i :: 0 <= i < |times| ==> times[i] <= U64_MAX
    requires forall i :: 0 <= i < |records| ==> records[i] <= U64_MAX
    ensures ParseRaces(["Time:" + " " + NumbersText(times), "Distance:" + " " + NumbersText(records)])
      == Some(Zip(times, records))
  {
    ParseLineOneRoundTrip("Time:", times);
    ParseLineOneRoundTrip("Distance:", records);
  }

  /** Whatever the spacing, part two reads the line as its characters
      after the prefix with the white space taken out. */
  lemma ParseLineTwoRemovesSpaces(line: string, prefix: string)
    requires prefix <= line && AsciiWhiteSpaceOnly(line[|prefix|..])
    ensures ParseLineTwo(line, prefix) == ParseUnsigned(RemoveSpaces(line[|prefix|..]), U64_MAX)
  {
    TrimmedWords(line[|prefix|..]);
    WordsJoin(line[|prefix|..]);
  }

  // ---------------------------------------------------------------------
  // The example of the puzzle statement

  lemma ExampleRaces()
    ensures WinCount(Race(7, 9)) == 4
    ensures WinCount(Race(15, 40)) == 8
    ensures WinCount(Race(30, 200)) == 9
  {
    WinCountOfFirst(7, 9, 2);
    WinCountOfFirst(15, 40, 4);
    WinCountOfFirst(30, 200, 11);
  }

  /** Part one of the example: 4 * 8 * 9 = 288. */
  lemma ExamplePartOne(races: seq<Race>)
    requires races == [Race(7, 9), Race(15, 40), Race(30, 200)]
    ensures Product(races) == 288
  {
    ExampleRaces();
    var one, two := [Race(7, 9)], [Race(7, 9), Race(15, 40)];
    assert one[..0] == [] && two[..1] == one && races[..2] == two;
    assert Product(one) == 4;
    assert Product(two) == 32;
  }

  /** The example's lines, with single spaces, in part one. */
  lemma ExampleLinesOne(times: seq<nat>, records: seq<nat>)
    requires times == [7, 15, 30] && records == [9, 40, 200]
    ensures ParseRaces(["Time:" + " " + NumbersText(times), "Distance:" + " " + NumbersText(records)])
      == Some([Race(7, 9), Race(15, 40), Race(30, 200)])
  {
    ParseRacesOf(times, records);
    var z := Zip(times, records);
    assert |z| == 3 && z[0] == Race(7, 9) && z[1] == Race(15, 40) && z[2] == Race(30, 200);
    assert z == [Race(7, 9), Race(15, 40), Race(30, 200)];
  }

  /** The example's lines, with single spaces, in part two. */
  lemma ExampleLinesTwo(times: seq<nat>, records: seq<nat>)
    requires times == [7, 15, 30] && records == [9, 40, 200]
    ensures ParseRace(["Time:" + " " + NumbersText(times), "Distance:" + " " + NumbersText(records)])
      == Some(Race(71530, 940200))
  {
    ExamplePartTwo();
    ParseLineTwoJuxtaposes("Time:", times);
    ParseLineTwoJuxtaposes("Distance:", records);
  }

  /** Part two of the example: the numbers 7, 15, 30 and 9, 40, 200 read as
      one race of 71530 milliseconds with record 940200, won in 71503 ways. */
  lemma ExamplePartTwo()
    ensures Juxtapose([7, 15, 30]) == 71530 && Juxtapose([9, 40, 200]) == 940200
    ensures WinCount(Race(71530, 940200)) == 71503
  {
    assert [7, 15, 30][..2] == [7, 15] && [7, 15][..1] == [7];
    assert [9, 40, 200][..2] == [9, 40] && [9, 40][..1] == [9];
    WinCountOfFirst(71530, 940200, 14);
  }
}
