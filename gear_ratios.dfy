/** Day 3, Gear Ratios: an engine schematic is a grid of digits, dots and
    symbols. Part one adds, for every symbol, the distinct values of the
    numbers touching its eight neighbours; part two adds, for every `*`
    touching exactly two distinct values, their product. */
module GearRatios {

  import opened Common

  /** The schematic, one row of characters per input line. */
  type Grid = seq<seq<char>>

  /** `is_symbol`: neither an ASCII digit nor a dot. */
  predicate IsSymbol(c: char) {
    !(IsDigit(c) || c == '.')
  }

  /** A symbol is any character outside the ten digits and the dot: `*` and
      `#` are symbols, `.` and `5` are not. */
  lemma IsSymbolMeaning(c: char)
    ensures IsSymbol(c) <==> c !in "0123456789."
    ensures IsSymbol('*') && IsSymbol('#') && !IsSymbol('.') && !IsSymbol('5')
  {
  }

  /** The two scans differ only in which cells they look around. */
  datatype Scan = Symbols | Gears

  predicate Marked(scan: Scan, c: char) {
    if scan == Symbols then IsSymbol(c) else c == '*'
  }

  /** Every row is as long as the first, which fixes `cols`. */
  predicate Rectangular(g: Grid) {
    |g| >= 1 && forall r :: 0 <= r < |g| ==> |g[r]| == |g[0]|
  }

  /** A cell whose eight neighbours all lie on the grid. */
  predicate Interior(g: Grid, r: nat, c: nat) {
    1 <= r && r + 1 < |g| && 1 <= c && c + 1 < |g[0]|
  }

  /** The neighbour indexing of a marked cell stays on the grid: the
      source casts `row - 1` to `usize`, so a marked cell on the edge makes
      the indexing panic. */
  predicate EdgeFree(g: Grid, scan: Scan)
    requires Rectangular(g)
  {
    forall r, c :: 0 <= r < |g| && 0 <= c < |g[0]| && Marked(scan, g[r][c]) ==> Interior(g, r, c)
  }

  // ---------------------------------------------------------------------
  // The digit run through a cell

  /** Where the left expansion loop stops: the first column of the run of
      digits that ends at `c`. */
  function RunStart(row: seq<char>, c: nat): (s: nat)
    requires c < |row|
    ensures s <= c && forall i :: s <= i < c ==> IsDigit(row[i])
    ensures s == 0 || !IsDigit(row[s - 1])
  {
    if c > 0 && IsDigit(row[c - 1]) then RunStart(row, c - 1) else c
  }

  /** Where the right expansion loop stops: one past the run of digits
      that starts at `c`. */
  function RunEnd(row: seq<char>, c: nat): (e: nat)
    requires c <= |row|
    ensures c <= e <= |row| && forall i :: c <= i < e ==> IsDigit(row[i])
    ensures e == |row| || !IsDigit(row[e])
    decreases |row| - c
  {
    if c < |row| && IsDigit(row[c]) then RunEnd(row, c + 1) else c
  }

  /** `start_col..end_col` is a maximal run of digits containing `c`. */
  predicate MaximalRun(row: seq<char>, s: nat, e: nat, c: nat) {
    s <= c < e <= |row| && (forall i :: s <= i < e ==> IsDigit(row[i])) &&
    (s == 0 || !IsDigit(row[s - 1])) && (e == |row| || !IsDigit(row[e]))
  }

  /** The two loops find the maximal run through a digit, and there is only
      one such run. */
  lemma RunIsMaximal(row: seq<char>, c: nat, s: nat, e: nat)
    requires c < |row| && IsDigit(row[c])
    ensures MaximalRun(row, RunStart(row, c), RunEnd(row, c), c)
    ensures MaximalRun(row, s, e, c) ==> s == RunStart(row, c) && e == RunEnd(row, c)
  {
  }

  /** Every digit of a run sees the same run, so a number touching a
      symbol through several neighbour cells is read the same each time. */
  lemma RunShared(row: seq<char>, c: nat, d: nat)
    requires c < |row| && IsDigit(row[c])
    requires RunStart(row, c) <= d < RunEnd(row, c)
    ensures RunStart(row, d) == RunStart(row, c) && RunEnd(row, d) == RunEnd(row, c)
  {
    RunIsMaximal(row, c, 0, 0);
    RunIsMaximal(row, d, RunStart(row, c), RunEnd(row, c));
  }

  /** The number a digit belongs to. */
  function RunValue(row: seq<char>, c: nat): nat
    requires c < |row| && IsDigit(row[c])
  {
    DecimalValue(row[RunStart(row, c)..RunEnd(row, c)])
  }

  /** The two expansion loops. */
  method ExpandRun(row: seq<char>, c: nat) returns (s: nat, e: nat)
    requires c < |row| && IsDigit(row[c])
    ensures s == RunStart(row, c) && e == RunEnd(row, c)
  {
    s := c;
    while s > 0 && IsDigit(row[s - 1])
      invariant s <= c && RunStart(row, s) == RunStart(row, c)
    {
      s := s - 1;
    }
    e := c;
    while e < |row| && IsDigit(row[e])
      invariant c <= e <= |row| && RunEnd(row, e) == RunEnd(row, c)
      decreases |row| - e
    {
      e := e + 1;
    }
  }

  /** Expanding around a digit, copying the run into a string and parsing
      it. */
  method NumberAt(row: seq<char>, c: nat) returns (v: nat)
    requires c < |row| && IsDigit(row[c])
    ensures v == RunValue(row, c)
  {
    var s, e := ExpandRun(row, c);
    RunIsMaximal(row, c, s, e);
    var digits := "";
    var i := s;
    while i < e
      invariant s <= i <= e && digits == row[s..i]
    {
      digits := digits + [row[i]];
      i := i + 1;
    }
    v := DecimalValue(digits);
  }

  // ---------------------------------------------------------------------
  // The numbers around a cell

  /** The eight neighbour offsets, in the source's order. */
  const NEIGHBORS: seq<(int, int)> := [(-1, -1), (-1, 0), (-1, 1), (0, -1), (0, 1), (1, -1), (1, 0), (1, 1)]

  /** The `k`-th neighbour of an interior cell. */
  function Neighbor(g: Grid, r: nat, c: nat, k: nat): (n: (nat, nat))
    requires Rectangular(g) && Interior(g, r, c) && k < 8
    ensures n.0 < |g| && n.1 < |g[n.0]|
    ensures -1 <= n.0 - r <= 1 && -1 <= n.1 - c <= 1 && (n.0, n.1) != (r, c)
  {
    (r + NEIGHBORS[k].0, c + NEIGHBORS[k].1)
  }

  /** The values read through the first `k` neighbours, as a set. */
  function NeighborValues(g: Grid, r: nat, c: nat, k: nat): set<nat>
    requires Rectangular(g) && Interior(g, r, c) && k <= 8
  {
    if k == 0 then {}
    else
      var (nr, nc) := Neighbor(g, r, c, k - 1);
      NeighborValues(g, r, c, k - 1) + if IsDigit(g[nr][nc]) then {RunValue(g[nr], nc)} else {}
  }

  /** The distinct values of the numbers touching a cell. */
  function AdjacentValues(g: Grid, r: nat, c: nat): set<nat>
    requires Rectangular(g) && Interior(g, r, c)
  {
    NeighborValues(g, r, c, 8)
  }

  /** A value is adjacent exactly when one of the eight neighbours is a
      digit of a number with that value. */
  lemma {:induction false} NeighborValuesMeaning(g: Grid, r: nat, c: nat, k: nat, v: nat)
    requires Rectangular(g) && Interior(g, r, c) && k <= 8
    ensures v in NeighborValues(g, r, c, k) <==>
      exists j :: 0 <= j < k && IsDigit(g[Neighbor(g, r, c, j).0][Neighbor(g, r, c, j).1]) &&
        RunValue(g[Neighbor(g, r, c, j).0], Neighbor(g, r, c, j).1) == v
  {
    if k > 0 {
      NeighborValuesMeaning(g, r, c, k - 1, v);
    }
  }

  /** The loop over the neighbours that fills `part_numbers`. */
  method AdjacentNumbers(g: Grid, r: nat, c: nat) returns (partNumbers: set<nat>)
    requires Rectangular(g) && Interior(g, r, c)
    ensures partNumbers == AdjacentValues(g, r, c)
  {
    partNumbers := {};
    var k := 0;
    while k < 8
      invariant k <= 8 && partNumbers == NeighborValues(g, r, c, k)
    {
      var (nr, nc) := Neighbor(g, r, c, k);
      if IsDigit(g[nr][nc]) {
        var v := NumberAt(g[nr], nc);
        partNumbers := partNumbers + {v};
      }
      k := k + 1;
    }
  }

  // ---------------------------------------------------------------------
  // Sums and products over a set

  /** The sum of a set, in no particular order. */
  ghost function SetSum(s: set<nat>): nat {
    if s == {} then 0 else var x :| x in s; x + SetSum(s - {x})
  }

  /** The product of a set, in no particular order. */
  ghost function SetProduct(s: set<nat>): nat {
    if s == {} then 1 else var x :| x in s; x * SetProduct(s - {x})
  }

  /** Any element can be taken out first: the sum does not depend on the
      order a hash set yields its elements in. */
  lemma {:induction false} SetSumRemove(s: set<nat>, y: nat)
    requires y in s
    ensures SetSum(s) == y + SetSum(s - {y})
    decreases |s|
  {
    var x :| x in s && SetSum(s) == x + SetSum(s - {x});
    if x != y {
      SetSumRemove(s - {x}, y);
      SetSumRemove(s - {y}, x);
      assert s - {x} - {y} == s - {y} - {x};
    }
  }

  lemma {:induction false} SetProductRemove(s: set<nat>, y: nat)
    requires y in s
    ensures SetProduct(s) == y * SetProduct(s - {y})
    decreases |s|
  {
    var x :| x in s && SetProduct(s) == x * SetProduct(s - {x});
    if x != y {
      SetProductRemove(s - {x}, y);
      SetProductRemove(s - {y}, x);
      assert s - {x} - {y} == s - {y} - {x};
    }
  }

  /** The sum and the product of two distinct values. */
  lemma PairSumProduct(a: nat, b: nat)
    requires a != b
    ensures SetSum({a, b}) == a + b && SetProduct({a, b}) == a * b
  {
    SetSumRemove({a, b}, a);
    SetProductRemove({a, b}, a);
    assert {a, b} - {a} == {b};
    SetSumRemove({b}, b);
    SetProductRemove({b}, b);
    assert {b} - {b} == {};
  }

  /** `part_numbers.iter().sum()` */
  method SumSet(s: set<nat>) returns (total: nat)
    ensures total == SetSum(s)
  {
    total := 0;
    var left := s;
    while left != {}
      invariant left <= s && total + SetSum(left) == SetSum(s)
      decreases left
    {
      var x :| x in left;
      SetSumRemove(left, x);
      total := total + x;
      left := left - {x};
    }
  }

  lemma MulAssoc(a: nat, b: nat, c: nat)
    ensures a * (b * c) == (a * b) * c
  {
  }

  /** `part_numbers.iter().product()` */
  method ProductSet(s: set<nat>) returns (p: nat)
    ensures p == SetProduct(s)
  {
    p := 1;
    var left := s;
    while left != {}
      invariant left <= s && p * SetProduct(left) == SetProduct(s)
      decreases left
    {
      var x :| x in left;
      SetProductRemove(left, x);
      MulAssoc(p, x, SetProduct(left - {x}));
      p := p * x;
      left := left - {x};
    }
  }

  // ---------------------------------------------------------------------
  // Scanning the grid

  /** What one cell adds to the running sum: nothing unless it is marked;
      a symbol adds the sum of its adjacent values; a `*` adds their
      product when there are exactly two of them. */
  ghost function CellScore(g: Grid, scan: Scan, r: nat, c: nat): nat
    requires Rectangular(g) && EdgeFree(g, scan) && r < |g| && c < |g[0]|
  {
    if !Marked(scan, g[r][c]) then 0
    else
      var vs := AdjacentValues(g, r, c);
      match scan
      case Symbols => SetSum(vs)
      case Gears => if |vs| == 2 then SetProduct(vs) else 0
  }

  /** The scores of the first `n` cells of row `r`. */
  ghost function RowTotal(g: Grid, scan: Scan, r: nat, n: nat): nat
    requires Rectangular(g) && EdgeFree(g, scan) && r < |g| && n <= |g[0]|
  {
    if n == 0 then 0 else RowTotal(g, scan, r, n - 1) + CellScore(g, scan, r, n - 1)
  }

  /** The scores of the first `m` rows. */
  ghost function GridTotal(g: Grid, scan: Scan, m: nat): nat
    requires Rectangular(g) && EdgeFree(g, scan) && m <= |g|
  {
    if m == 0 then 0 else GridTotal(g, scan, m - 1) + RowTotal(g, scan, m - 1, |g[0]|)
  }

  /** The nested `row`/`col` loops shared by both parts, with what a marked
      cell adds. */
  method ScanGrid(g: Grid, scan: Scan) returns (sum: nat)
    requires Rectangular(g) && EdgeFree(g, scan)
    ensures sum == GridTotal(g, scan, |g|)
  {
    var rows, cols := |g|, |g[0]|;
    sum := 0;
    for row := 0 to rows
      invariant sum == GridTotal(g, scan, row)
    {
      for col := 0 to cols
        invariant sum == GridTotal(g, scan, row) + RowTotal(g, scan, row, col)
      {
        if Marked(scan, g[row][col]) {
          var partNumbers := AdjacentNumbers(g, row, col);
          if scan == Symbols {
            var s := SumSet(partNumbers);
            sum := sum + s;
          } else if |partNumbers| == 2 {
            var p := ProductSet(partNumbers);
            sum := sum + p;
          }
        }
      }
    }
  }

  /** `part_one`: the sum over all symbols of their distinct adjacent
      values. */
  method PartOne(lines: seq<string>) returns (sum: nat)
    requires Rectangular(lines) && EdgeFree(lines, Symbols)
    ensures sum == GridTotal(lines, Symbols, |lines|)
  {
    sum := ScanGrid(lines, Symbols);
  }

  /** `part_two`: the sum of the gear ratios. */
  method PartTwo(lines: seq<string>) returns (sum: nat)
    requires Rectangular(lines) && EdgeFree(lines, Gears)
    ensures sum == GridTotal(lines, Gears, |lines|)
  {
    sum := ScanGrid(lines, Gears);
  }

  /** A `*` with exactly two distinct adjacent values adds their product;
      any other cell adds nothing in part two. */
  lemma GearRule(g: Grid, r: nat, c: nat)
    requires Rectangular(g) && EdgeFree(g, Gears) && r < |g| && c < |g[0]|
    ensures g[r][c] != '*' ==> CellScore(g, Gears, r, c) == 0
    ensures g[r][c] == '*' ==> forall a, b :: a != b && AdjacentValues(g, r, c) == {a, b} ==> CellScore(g, Gears, r, c) == a * b
    ensures g[r][c] == '*' && |AdjacentValues(g, r, c)| != 2 ==> CellScore(g, Gears, r, c) == 0
  {
    if g[r][c] == '*' {
      forall a, b | a != b && AdjacentValues(g, r, c) == {a, b} ensures CellScore(g, Gears, r, c) == a * b {
        PairSumProduct(a, b);
      }
    }
  }

  // ---------------------------------------------------------------------
  // Totals over unmarked stretches

  /** Cells that are not marked add nothing. */
  lemma {:induction false} RowTotalZero(g: Grid, scan: Scan, r: nat, n: nat)
    requires Rectangular(g) && EdgeFree(g, scan) && r < |g| && n <= |g[0]|
    requires forall c :: 0 <= c < n ==> !Marked(scan, g[r][c])
    ensures RowTotal(g, scan, r, n) == 0
  {
    if n > 0 {
      RowTotalZero(g, scan, r, n - 1);
    }
  }

  /** The total of a row up to `n` is the total up to a marked cell `m`,
      plus that cell's score, when nothing between them is marked. */
  lemma {:induction false} RowTotalFrom(g: Grid, scan: Scan, r: nat, m: nat, n: nat)
    requires Rectangular(g) && EdgeFree(g, scan) && r < |g| && m < n <= |g[0]|
    requires forall c :: m < c < n ==> !Marked(scan, g[r][c])
    ensures RowTotal(g, scan, r, n) == RowTotal(g, scan, r, m) + CellScore(g, scan, r, m)
  {
    if n > m + 1 {
      RowTotalFrom(g, scan, r, m, n - 1);
    }
  }

  /** Rows without marked cells add nothing to the grid total. */
  lemma {:induction false} GridTotalFrom(g: Grid, scan: Scan, m: nat, n: nat)
    requires Rectangular(g) && EdgeFree(g, scan) && m <= n <= |g|
    requires forall r, c :: m <= r < n && 0 <= c < |g[0]| ==> !Marked(scan, g[r][c])
    ensures GridTotal(g, scan, n) == GridTotal(g, scan, m)
  {
    if n > m {
      GridTotalFrom(g, scan, m, n - 1);
      RowTotalZero(g, scan, n - 1, |g[0]|);
    }
  }

  // ---------------------------------------------------------------------
  // Examples

  /** The numbers around the symbol of the example below. */
  lemma EqualValuesAdjacent(g: Grid)
    requires Rectangular(g) && |g| == 3 && g[0] == "....." && g[1] == "1*1.." && g[2] == "....."
    ensures Interior(g, 1, 1) && AdjacentValues(g, 1, 1) == {1}
  {
    assert RunStart(g[1], 0) == 0 && RunEnd(g[1], 0) == 1;
    assert RunStart(g[1], 2) == 2 && RunEnd(g[1], 2) == 3;
    assert g[1][0..1] == "1" && g[1][2..3] == "1";
    assert DecimalValue("1") == 1;
    assert RunValue(g[1], 0) == 1 && RunValue(g[1], 2) == 1;
    assert Neighbor(g, 1, 1, 0) == (0, 0) && g[0][0] == '.';
    assert NeighborValues(g, 1, 1, 1) == {};
    assert Neighbor(g, 1, 1, 1) == (0, 1) && g[0][1] == '.';
    assert NeighborValues(g, 1, 1, 2) == {};
    assert Neighbor(g, 1, 1, 2) == (0, 2) && g[0][2] == '.';
    assert NeighborValues(g, 1, 1, 3) == {};
    assert Neighbor(g, 1, 1, 3) == (1, 0) && IsDigit(g[1][0]);
    assert NeighborValues(g, 1, 1, 4) == {1};
    assert Neighbor(g, 1, 1, 4) == (1, 2) && IsDigit(g[1][2]);
    assert NeighborValues(g, 1, 1, 5) == {1};
    assert Neighbor(g, 1, 1, 5) == (2, 0) && g[2][0] == '.';
    assert NeighborValues(g, 1, 1, 6) == {1};
    assert Neighbor(g, 1, 1, 6) == (2, 1) && g[2][1] == '.';
    assert NeighborValues(g, 1, 1, 7) == {1};
    assert Neighbor(g, 1, 1, 7) == (2, 2) && g[2][2] == '.';
  }

  /** Two different numbers of equal value around one symbol are counted
      once, because the values are collected in a set. */
  lemma EqualValuesCountOnce(g: Grid)
    requires g == [".....", "1*1..", "....."]
    ensures Rectangular(g) && EdgeFree(g, Symbols) && GridTotal(g, Symbols, 3) == 1
  {
    assert EdgeFree(g, Symbols) by {
      forall r, c | 0 <= r < 3 && 0 <= c < 5 && Marked(Symbols, g[r][c]) ensures Interior(g, r, c) {
        assert r == 1 && c == 1;
      }
    }
    EqualValuesAdjacent(g);
    SetSumRemove({1}, 1);
    assert {1} - {1} == {};
    GridTotalFrom(g, Symbols, 2, 3);
    RowTotalFrom(g, Symbols, 1, 1, 5);
    RowTotalZero(g, Symbols, 1, 1);
    GridTotalFrom(g, Symbols, 0, 1);
  }

  /** A maximal run with a known decimal value. */
  lemma RunValueOf(row: seq<char>, c: nat, s: nat, e: nat)
    requires MaximalRun(row, s, e, c)
    ensures RunValue(row, c) == DecimalValue(row[s..e])
  {
    RunIsMaximal(row, c, s, e);
  }

  lemma Decimal2(s: string)
    requires |s| == 2 && AllDigits(s)
    ensures DecimalValue(s) == 10 * DigitValue(s[0]) + DigitValue(s[1])
  {
    assert s[1..][1..] == [];
  }

  lemma Decimal3(s: string)
    requires |s| == 3 && AllDigits(s)
    ensures DecimalValue(s) == 100 * DigitValue(s[0]) + 10 * DigitValue(s[1]) + DigitValue(s[2])
  {
    Decimal2(s[1..]);
  }

  // The example schematic: the numbers around each of its six symbols.

  lemma FixtureNumber467(row: seq<char>)
    requires row == "467..114.."
    ensures RunValue(row, 2) == 467
  {
    assert row[0..3] == "467";
    Decimal3("467");
    RunValueOf(row, 2, 0, 3);
  }

  lemma FixtureNumber35(row: seq<char>)
    requires row == "..35..633."
    ensures RunValue(row, 2) == 35 && RunValue(row, 3) == 35
  {
    assert row[2..4] == "35";
    Decimal2("35");
    RunValueOf(row, 2, 2, 4);
    RunValueOf(row, 3, 2, 4);
  }

  lemma FixtureNumber633(row: seq<char>)
    requires row == "..35..633."
    ensures RunValue(row, 6) == 633 && RunValue(row, 7) == 633
  {
    assert row[6..9] == "633";
    Decimal3("633");
    RunValueOf(row, 6, 6, 9);
    RunValueOf(row, 7, 6, 9);
  }

  lemma FixtureNumber617(row: seq<char>)
    requires row == "617*......"
    ensures RunValue(row, 2) == 617
  {
    assert row[0..3] == "617";
    Decimal3("617");
    RunValueOf(row, 2, 0, 3);
  }

  lemma FixtureNumber592(row: seq<char>)
    requires row == "..592....."
    ensures RunValue(row, 4) == 592
  {
    assert row[2..5] == "592";
    Decimal3("592");
    RunValueOf(row, 4, 2, 5);
  }

  lemma FixtureNumber755(row: seq<char>)
    requires row == "......755."
    ensures RunValue(row, 6) == 755
  {
    assert row[6..9] == "755";
    Decimal3("755");
    RunValueOf(row, 6, 6, 9);
  }

  lemma FixtureNumber664(row: seq<char>)
    requires row == ".664.598.."
    ensures RunValue(row, 2) == 664 && RunValue(row, 3) == 664
  {
    assert row[1] == '6' && row[2] == '6' && row[3] == '4';
    assert row[1..4] == "664";
    Decimal3("664");
    RunValueOf(row, 2, 1, 4);
    RunValueOf(row, 3, 1, 4);
  }

  lemma FixtureNumber598(row: seq<char>)
    requires row == ".664.598.."
    ensures RunValue(row, 5) == 598 && RunValue(row, 6) == 598
  {
    assert row[5..8] == "598";
    Decimal3("598");
    RunValueOf(row, 5, 5, 8);
    RunValueOf(row, 6, 5, 8);
  }

  lemma FixtureAround13(g: Grid)
    requires Rectangular(g) && |g| == 10 && g[0] == "467..114.." && g[1] == "...*......" && g[2] == "..35..633."
    ensures Interior(g, 1, 3) && AdjacentValues(g, 1, 3) == {35, 467}
  {
    FixtureNumber467(g[0]);
    FixtureNumber35(g[2]);
    assert Neighbor(g, 1, 3, 0) == (0, 2) && IsDigit(g[0][2]);
    assert NeighborValues(g, 1, 3, 1) == {467};
    assert Neighbor(g, 1, 3, 1) == (0, 3) && g[0][3] == '.';
    assert NeighborValues(g, 1, 3, 2) == {467};
    assert Neighbor(g, 1, 3, 2) == (0, 4) && g[0][4] == '.';
    assert NeighborValues(g, 1, 3, 3) == {467};
    assert Neighbor(g, 1, 3, 3) == (1, 2) && g[1][2] == '.';
    assert NeighborValues(g, 1, 3, 4) == {467};
    assert Neighbor(g, 1, 3, 4) == (1, 4) && g[1][4] == '.';
    assert NeighborValues(g, 1, 3, 5) == {467};
    assert Neighbor(g, 1, 3, 5) == (2, 2) && IsDigit(g[2][2]);
    assert NeighborValues(g, 1, 3, 6) == {35, 467};
    assert Neighbor(g, 1, 3, 6) == (2, 3) && IsDigit(g[2][3]);
    assert NeighborValues(g, 1, 3, 7) == {35, 467};
    assert Neighbor(g, 1, 3, 7) == (2, 4) && g[2][4] == '.';
  }

  lemma FixtureAround36(g: Grid)
    requires Rectangular(g) && |g| == 10 && g[2] == "..35..633." && g[3] == "......#..." && g[4] == "617*......"
    ensures Interior(g, 3, 6) && AdjacentValues(g, 3, 6) == {633}
  {
    FixtureNumber633(g[2]);
    assert Neighbor(g, 3, 6, 0) == (2, 5) && g[2][5] == '.';
    assert NeighborValues(g, 3, 6, 1) == {};
    assert Neighbor(g, 3, 6, 1) == (2, 6) && IsDigit(g[2][6]);
    assert NeighborValues(g, 3, 6, 2) == {633};
    assert Neighbor(g, 3, 6, 2) == (2, 7) && IsDigit(g[2][7]);
    assert NeighborValues(g, 3, 6, 3) == {633};
    assert Neighbor(g, 3, 6, 3) == (3, 5) && g[3][5] == '.';
    assert NeighborValues(g, 3, 6, 4) == {633};
    assert Neighbor(g, 3, 6, 4) == (3, 7) && g[3][7] == '.';
    assert NeighborValues(g, 3, 6, 5) == {633};
    assert Neighbor(g, 3, 6, 5) == (4, 5) && g[4][5] == '.';
    assert NeighborValues(g, 3, 6, 6) == {633};
    assert Neighbor(g, 3, 6, 6) == (4, 6) && g[4][6] == '.';
    assert NeighborValues(g, 3, 6, 7) == {633};
    assert Neighbor(g, 3, 6, 7) == (4, 7) && g[4][7] == '.';
  }

  lemma FixtureAround43(g: Grid)
    requires Rectangular(g) && |g| == 10 && g[3] == "......#..." && g[4] == "617*......" && g[5] == ".....+.58."
    ensures Interior(g, 4, 3) && AdjacentValues(g, 4, 3) == {617}
  {
    FixtureNumber617(g[4]);
    assert Neighbor(g, 4, 3, 0) == (3, 2) && g[3][2] == '.';
    assert NeighborValues(g, 4, 3, 1) == {};
    assert Neighbor(g, 4, 3, 1) == (3, 3) && g[3][3] == '.';
    assert NeighborValues(g, 4, 3, 2) == {};
    assert Neighbor(g, 4, 3, 2) == (3, 4) && g[3][4] == '.';
    assert NeighborValues(g, 4, 3, 3) == {};
    assert Neighbor(g, 4, 3, 3) == (4, 2) && IsDigit(g[4][2]);
    assert NeighborValues(g, 4, 3, 4) == {617};
    assert Neighbor(g, 4, 3, 4) == (4, 4) && g[4][4] == '.';
    assert NeighborValues(g, 4, 3, 5) == {617};
    assert Neighbor(g, 4, 3, 5) == (5, 2) && g[5][2] == '.';
    assert NeighborValues(g, 4, 3, 6) == {617};
    assert Neighbor(g, 4, 3, 6) == (5, 3) && g[5][3] == '.';
    assert NeighborValues(g, 4, 3, 7) == {617};
    assert Neighbor(g, 4, 3, 7) == (5, 4) && g[5][4] == '.';
  }

  lemma FixtureAround55(g: Grid)
    requires Rectangular(g) && |g| == 10 && g[4] == "617*......" && g[5] == ".....+.58." && g[6] == "..592....."
    ensures Interior(g, 5, 5) && AdjacentValues(g, 5, 5) == {592}
  {
    FixtureNumber592(g[6]);
    assert Neighbor(g, 5, 5, 0) == (4, 4) && g[4][4] == '.';
    assert NeighborValues(g, 5, 5, 1) == {};
    assert Neighbor(g, 5, 5, 1) == (4, 5) && g[4][5] == '.';
    assert NeighborValues(g, 5, 5, 2) == {};
    assert Neighbor(g, 5, 5, 2) == (4, 6) && g[4][6] == '.';
    assert NeighborValues(g, 5, 5, 3) == {};
    assert Neighbor(g, 5, 5, 3) == (5, 4) && g[5][4] == '.';
    assert NeighborValues(g, 5, 5, 4) == {};
    assert Neighbor(g, 5, 5, 4) == (5, 6) && g[5][6] == '.';
    assert NeighborValues(g, 5, 5, 5) == {};
    assert Neighbor(g, 5, 5, 5) == (6, 4) && IsDigit(g[6][4]);
    assert NeighborValues(g, 5, 5, 6) == {592};
    assert Neighbor(g, 5, 5, 6) == (6, 5) && g[6][5] == '.';
    assert NeighborValues(g, 5, 5, 7) == {592};
    assert Neighbor(g, 5, 5, 7) == (6, 6) && g[6][6] == '.';
  }

  lemma FixtureAround83(g: Grid)
    requires Rectangular(g) && |g| == 10 && g[7] == "......755." && g[8] == "...$.*...." && g[9] == ".664.598.."
    ensures Interior(g, 8, 3) && AdjacentValues(g, 8, 3) == {664}
  {
    FixtureNumber664(g[9]);
    assert Neighbor(g, 8, 3, 0) == (7, 2) && g[7][2] == '.';
    assert NeighborValues(g, 8, 3, 1) == {};
    assert Neighbor(g, 8, 3, 1) == (7, 3) && g[7][3] == '.';
    assert NeighborValues(g, 8, 3, 2) == {};
    assert Neighbor(g, 8, 3, 2) == (7, 4) && g[7][4] == '.';
    assert NeighborValues(g, 8, 3, 3) == {};
    assert Neighbor(g, 8, 3, 3) == (8, 2) && g[8][2] == '.';
    assert NeighborValues(g, 8, 3, 4) == {};
    assert Neighbor(g, 8, 3, 4) == (8, 4) && g[8][4] == '.';
    assert NeighborValues(g, 8, 3, 5) == {};
    assert Neighbor(g, 8, 3, 5) == (9, 2) && IsDigit(g[9][2]);
    assert NeighborValues(g, 8, 3, 6) == {664};
    assert Neighbor(g, 8, 3, 6) == (9, 3) && IsDigit(g[9][3]);
    assert NeighborValues(g, 8, 3, 7) == {664};
    assert Neighbor(g, 8, 3, 7) == (9, 4) && g[9][4] == '.';
  }

  lemma FixtureAround85(g: Grid)
    requires Rectangular(g) && |g| == 10 && g[7] == "......755." && g[8] == "...$.*...." && g[9] == ".664.598.."
    ensures Interior(g, 8, 5) && AdjacentValues(g, 8, 5) == {598, 755}
  {
    FixtureNumber755(g[7]);
    FixtureNumber598(g[9]);
    assert Neighbor(g, 8, 5, 0) == (7, 4) && g[7][4] == '.';
    assert NeighborValues(g, 8, 5, 1) == {};
    assert Neighbor(g, 8, 5, 1) == (7, 5) && g[7][5] == '.';
    assert NeighborValues(g, 8, 5, 2) == {};
    assert Neighbor(g, 8, 5, 2) == (7, 6) && IsDigit(g[7][6]);
    assert NeighborValues(g, 8, 5, 3) == {755};
    assert Neighbor(g, 8, 5, 3) == (8, 4) && g[8][4] == '.';
    assert NeighborValues(g, 8, 5, 4) == {755};
    assert Neighbor(g, 8, 5, 4) == (8, 6) && g[8][6] == '.';
    assert NeighborValues(g, 8, 5, 5) == {755};
    assert Neighbor(g, 8, 5, 5) == (9, 4) && g[9][4] == '.';
    assert NeighborValues(g, 8, 5, 6) == {755};
    assert Neighbor(g, 8, 5, 6) == (9, 5) && IsDigit(g[9][5]);
    assert NeighborValues(g, 8, 5, 7) == {598, 755};
    assert Neighbor(g, 8, 5, 7) == (9, 6) && IsDigit(g[9][6]);
  }

  /** The example schematic of both parts. */
  function ExampleSchematic(): Grid {
    ["467..114..",
     "...*......",
     "..35..633.",
     "......#...",
     "617*......",
     ".....+.58.",
     "..592.....",
     "......755.",
     "...$.*....",
     ".664.598.."]
  }

  lemma ExampleRow0(row: seq<char>)
    requires row == "467..114.."
    ensures forall c :: 0 <= c < |row| ==> !Marked(Symbols, row[c]) && !Marked(Gears, row[c])
  {
  }

  lemma ExampleRow1(row: seq<char>)
    requires row == "...*......"
    ensures forall c :: 0 <= c < |row| ==> (Marked(Symbols, row[c]) <==> c == 3) && (Marked(Gears, row[c]) <==> c == 3)
  {
  }

  lemma ExampleRow2(row: seq<char>)
    requires row == "..35..633."
    ensures forall c :: 0 <= c < |row| ==> !Marked(Symbols, row[c]) && !Marked(Gears, row[c])
  {
  }

  lemma ExampleRow3(row: seq<char>)
    requires row == "......#..."
    ensures forall c :: 0 <= c < |row| ==> (Marked(Symbols, row[c]) <==> c == 6) && !Marked(Gears, row[c])
  {
  }

  lemma ExampleRow4(row: seq<char>)
    requires row == "617*......"
    ensures forall c :: 0 <= c < |row| ==> (Marked(Symbols, row[c]) <==> c == 3) && (Marked(Gears, row[c]) <==> c == 3)
  {
  }

  lemma ExampleRow5(row: seq<char>)
    requires row == ".....+.58."
    ensures forall c :: 0 <= c < |row| ==> (Marked(Symbols, row[c]) <==> c == 5) && !Marked(Gears, row[c])
  {
  }

  lemma ExampleRow6(row: seq<char>)
    requires row == "..592....."
    ensures forall c :: 0 <= c < |row| ==> !Marked(Symbols, row[c]) && !Marked(Gears, row[c])
  {
  }

  lemma ExampleRow7(row: seq<char>)
    requires row == "......755."
    ensures forall c :: 0 <= c < |row| ==> !Marked(Symbols, row[c]) && !Marked(Gears, row[c])
  {
  }

  lemma ExampleRow8(row: seq<char>)
    requires row == "...$.*...."
    ensures forall c :: 0 <= c < |row| ==> (Marked(Symbols, row[c]) <==> c == 3 || c == 5) && (Marked(Gears, row[c]) <==> c == 5)
  {
  }

  lemma ExampleRow9(row: seq<char>)
    requires row == ".664.598.."
    ensures forall c :: 0 <= c < |row| ==> !Marked(Symbols, row[c]) && !Marked(Gears, row[c])
  {
  }

  /** The example is rectangular and has no marked cell on its edge. */
  lemma ExampleShape(g: Grid)
    requires g == ExampleSchematic()
    ensures Rectangular(g) && |g| == 10 && |g[0]| == 10 && EdgeFree(g, Symbols) && EdgeFree(g, Gears)
    ensures g[0] == "467..114.." && g[1] == "...*......" && g[2] == "..35..633." && g[3] == "......#..." && g[4] == "617*......" && g[5] == ".....+.58." && g[6] == "..592....." && g[7] == "......755." && g[8] == "...$.*...." && g[9] == ".664.598.."
  {
    ExampleRow0(g[0]);
    ExampleRow1(g[1]);
    ExampleRow2(g[2]);
    ExampleRow3(g[3]);
    ExampleRow4(g[4]);
    ExampleRow5(g[5]);
    ExampleRow6(g[6]);
    ExampleRow7(g[7]);
    ExampleRow8(g[8]);
    ExampleRow9(g[9]);
  }

  lemma SingletonSumProduct(v: nat)
    ensures SetSum({v}) == v && SetProduct({v}) == v
  {
    SetSumRemove({v}, v);
    SetProductRemove({v}, v);
    assert {v} - {v} == {};
  }

  lemma ExampleScore13(g: Grid)
    requires Rectangular(g) && |g| == 10 && |g[0]| == 10 && EdgeFree(g, Symbols) && EdgeFree(g, Gears)
    requires g[0] == "467..114.." && g[1] == "...*......" && g[2] == "..35..633."
    ensures CellScore(g, Symbols, 1, 3) == 502 && CellScore(g, Gears, 1, 3) == 16345
  {
    FixtureAround13(g);
    PairSumProduct(35, 467);
  }

  lemma ExampleScore36(g: Grid)
    requires Rectangular(g) && |g| == 10 && |g[0]| == 10 && EdgeFree(g, Symbols) && EdgeFree(g, Gears)
    requires g[2] == "..35..633." && g[3] == "......#..." && g[4] == "617*......"
    ensures CellScore(g, Symbols, 3, 6) == 633 && CellScore(g, Gears, 3, 6) == 0
  {
    FixtureAround36(g);
    SingletonSumProduct(633);
  }

  lemma ExampleScore43(g: Grid)
    requires Rectangular(g) && |g| == 10 && |g[0]| == 10 && EdgeFree(g, Symbols) && EdgeFree(g, Gears)
    requires g[3] == "......#..." && g[4] == "617*......" && g[5] == ".....+.58."
    ensures CellScore(g, Symbols, 4, 3) == 617 && CellScore(g, Gears, 4, 3) == 0
  {
    FixtureAround43(g);
    SingletonSumProduct(617);
  }

  lemma ExampleScore55(g: Grid)
    requires Rectangular(g) && |g| == 10 && |g[0]| == 10 && EdgeFree(g, Symbols) && EdgeFree(g, Gears)
    requires g[4] == "617*......" && g[5] == ".....+.58." && g[6] == "..592....."
    ensures CellScore(g, Symbols, 5, 5) == 592 && CellScore(g, Gears, 5, 5) == 0
  {
    FixtureAround55(g);
    SingletonSumProduct(592);
  }

  lemma ExampleScore83(g: Grid)
    requires Rectangular(g) && |g| == 10 && |g[0]| == 10 && EdgeFree(g, Symbols) && EdgeFree(g, Gears)
    requires g[7] == "......755." && g[8] == "...$.*...." && g[9] == ".664.598.."
    ensures CellScore(g, Symbols, 8, 3) == 664 && CellScore(g, Gears, 8, 3) == 0
  {
    FixtureAround83(g);
    SingletonSumProduct(664);
  }

  lemma ExampleScore85(g: Grid)
    requires Rectangular(g) && |g| == 10 && |g[0]| == 10 && EdgeFree(g, Symbols) && EdgeFree(g, Gears)
    requires g[7] == "......755." && g[8] == "...$.*...." && g[9] == ".664.598.."
    ensures CellScore(g, Symbols, 8, 5) == 1353 && CellScore(g, Gears, 8, 5) == 451490
  {
    FixtureAround85(g);
    PairSumProduct(598, 755);
  }

  lemma ExampleRowTotal0(g: Grid)
    requires Rectangular(g) && |g| == 10 && |g[0]| == 10 && EdgeFree(g, Symbols) && EdgeFree(g, Gears)
    requires g[0] == "467..114.."
    ensures RowTotal(g, Symbols, 0, 10) == 0 && RowTotal(g, Gears, 0, 10) == 0
  {
    ExampleRow0(g[0]);
    RowTotalZero(g, Symbols, 0, 10);
    RowTotalZero(g, Gears, 0, 10);
  }

  lemma ExampleRowTotal1(g: Grid)
    requires Rectangular(g) && |g| == 10 && |g[0]| == 10 && EdgeFree(g, Symbols) && EdgeFree(g, Gears)
    requires g[1] == "...*......"
    requires CellScore(g, Symbols, 1, 3) == 502 && CellScore(g, Gears, 1, 3) == 16345
    ensures RowTotal(g, Symbols, 1, 10) == 502 && RowTotal(g, Gears, 1, 10) == 16345
  {
    ExampleRow1(g[1]);
    RowTotalFrom(g, Symbols, 1, 3, 10);
    RowTotalZero(g, Symbols, 1, 3);
    RowTotalFrom(g, Gears, 1, 3, 10);
    RowTotalZero(g, Gears, 1, 3);
  }

  lemma ExampleRowTotal2(g: Grid)
    requires Rectangular(g) && |g| == 10 && |g[0]| == 10 && EdgeFree(g, Symbols) && EdgeFree(g, Gears)
    requires g[2] == "..35..633."
    ensures RowTotal(g, Symbols, 2, 10) == 0 && RowTotal(g, Gears, 2, 10) == 0
  {
    ExampleRow2(g[2]);
    RowTotalZero(g, Symbols, 2, 10);
    RowTotalZero(g, Gears, 2, 10);
  }

  lemma ExampleRowTotal3(g: Grid)
    requires Rectangular(g) && |g| == 10 && |g[0]| == 10 && EdgeFree(g, Symbols) && EdgeFree(g, Gears)
    requires g[3] == "......#..."
    requires CellScore(g, Symbols, 3, 6) == 633 && CellScore(g, Gears, 3, 6) == 0
    ensures RowTotal(g, Symbols, 3, 10) == 633 && RowTotal(g, Gears, 3, 10) == 0
  {
    ExampleRow3(g[3]);
    RowTotalFrom(g, Symbols, 3, 6, 10);
    RowTotalZero(g, Symbols, 3, 6);
    RowTotalZero(g, Gears, 3, 10);
  }

  lemma ExampleRowTotal4(g: Grid)
    requires Rectangular(g) && |g| == 10 && |g[0]| == 10 && EdgeFree(g, Symbols) && EdgeFree(g, Gears)
    requires g[4] == "617*......"
    requires CellScore(g, Symbols, 4, 3) == 617 && CellScore(g, Gears, 4, 3) == 0
    ensures RowTotal(g, Symbols, 4, 10) == 617 && RowTotal(g, Gears, 4, 10) == 0
  {
    ExampleRow4(g[4]);
    RowTotalFrom(g, Symbols, 4, 3, 10);
    RowTotalZero(g, Symbols, 4, 3);
    RowTotalFrom(g, Gears, 4, 3, 10);
    RowTotalZero(g, Gears, 4, 3);
  }

  lemma ExampleRowTotal5(g: Grid)
    requires Rectangular(g) && |g| == 10 && |g[0]| == 10 && EdgeFree(g, Symbols) && EdgeFree(g, Gears)
    requires g[5] == ".....+.58."
    requires CellScore(g, Symbols, 5, 5) == 592 && CellScore(g, Gears, 5, 5) == 0
    ensures RowTotal(g, Symbols, 5, 10) == 592 && RowTotal(g, Gears, 5, 10) == 0
  {
    ExampleRow5(g[5]);
    RowTotalFrom(g, Symbols, 5, 5, 10);
    RowTotalZero(g, Symbols, 5, 5);
    RowTotalZero(g, Gears, 5, 10);
  }

  lemma ExampleRowTotal6(g: Grid)
    requires Rectangular(g) && |g| == 10 && |g[0]| == 10 && EdgeFree(g, Symbols) && EdgeFree(g, Gears)
    requires g[6] == "..592....."
    ensures RowTotal(g, Symbols, 6, 10) == 0 && RowTotal(g, Gears, 6, 10) == 0
  {
    ExampleRow6(g[6]);
    RowTotalZero(g, Symbols, 6, 10);
    RowTotalZero(g, Gears, 6, 10);
  }

  lemma ExampleRowTotal7(g: Grid)
    requires Rectangular(g) && |g| == 10 && |g[0]| == 10 && EdgeFree(g, Symbols) && EdgeFree(g, Gears)
    requires g[7] == "......755."
    ensures RowTotal(g, Symbols, 7, 10) == 0 && RowTotal(g, Gears, 7, 10) == 0
  {
    ExampleRow7(g[7]);
    RowTotalZero(g, Symbols, 7, 10);
    RowTotalZero(g, Gears, 7, 10);
  }

  lemma ExampleRowTotal8(g: Grid)
    requires Rectangular(g) && |g| == 10 && |g[0]| == 10 && EdgeFree(g, Symbols) && EdgeFree(g, Gears)
    requires g[8] == "...$.*...."
    requires CellScore(g, Symbols, 8, 3) == 664 && CellScore(g, Gears, 8, 3) == 0
    requires CellScore(g, Symbols, 8, 5) == 1353 && CellScore(g, Gears, 8, 5) == 451490
    ensures RowTotal(g, Symbols, 8, 10) == 2017 && RowTotal(g, Gears, 8, 10) == 451490
  {
    ExampleRow8(g[8]);
    RowTotalFrom(g, Symbols, 8, 5, 10);
    RowTotalFrom(g, Symbols, 8, 3, 5);
    RowTotalZero(g, Symbols, 8, 3);
    RowTotalFrom(g, Gears, 8, 5, 10);
    RowTotalZero(g, Gears, 8, 5);
  }

  lemma ExampleRowTotal9(g: Grid)
    requires Rectangular(g) && |g| == 10 && |g[0]| == 10 && EdgeFree(g, Symbols) && EdgeFree(g, Gears)
    requires g[9] == ".664.598.."
    ensures RowTotal(g, Symbols, 9, 10) == 0 && RowTotal(g, Gears, 9, 10) == 0
  {
    ExampleRow9(g[9]);
    RowTotalZero(g, Symbols, 9, 10);
    RowTotalZero(g, Gears, 9, 10);
  }

  /** Adding up the rows of the example. */
  lemma ExampleGridTotals(g: Grid)
    requires Rectangular(g) && |g| == 10 && |g[0]| == 10 && EdgeFree(g, Symbols) && EdgeFree(g, Gears)
    requires RowTotal(g, Symbols, 0, 10) == 0 && RowTotal(g, Gears, 0, 10) == 0
    requires RowTotal(g, Symbols, 1, 10) == 502 && RowTotal(g, Gears, 1, 10) == 16345
    requires RowTotal(g, Symbols, 2, 10) == 0 && RowTotal(g, Gears, 2, 10) == 0
    requires RowTotal(g, Symbols, 3, 10) == 633 && RowTotal(g, Gears, 3, 10) == 0
    requires RowTotal(g, Symbols, 4, 10) == 617 && RowTotal(g, Gears, 4, 10) == 0
    requires RowTotal(g, Symbols, 5, 10) == 592 && RowTotal(g, Gears, 5, 10) == 0
    requires RowTotal(g, Symbols, 6, 10) == 0 && RowTotal(g, Gears, 6, 10) == 0
    requires RowTotal(g, Symbols, 7, 10) == 0 && RowTotal(g, Gears, 7, 10) == 0
    requires RowTotal(g, Symbols, 8, 10) == 2017 && RowTotal(g, Gears, 8, 10) == 451490
    requires RowTotal(g, Symbols, 9, 10) == 0 && RowTotal(g, Gears, 9, 10) == 0
    ensures GridTotal(g, Symbols, 10) == 4361 && GridTotal(g, Gears, 10) == 467835
  {
    assert GridTotal(g, Symbols, 0) == 0 && GridTotal(g, Gears, 0) == 0;
    assert GridTotal(g, Symbols, 1) == 0 && GridTotal(g, Gears, 1) == 0;
    assert GridTotal(g, Symbols, 2) == 502 && GridTotal(g, Gears, 2) == 16345;
    assert GridTotal(g, Symbols, 3) == 502 && GridTotal(g, Gears, 3) == 16345;
    assert GridTotal(g, Symbols, 4) == 1135 && GridTotal(g, Gears, 4) == 16345;
    assert GridTotal(g, Symbols, 5) == 1752 && GridTotal(g, Gears, 5) == 16345;
    assert GridTotal(g, Symbols, 6) == 2344 && GridTotal(g, Gears, 6) == 16345;
    assert GridTotal(g, Symbols, 7) == 2344 && GridTotal(g, Gears, 7) == 16345;
    assert GridTotal(g, Symbols, 8) == 2344 && GridTotal(g, Gears, 8) == 16345;
    assert GridTotal(g, Symbols, 9) == 4361 && GridTotal(g, Gears, 9) == 467835;
  }

  /** Both parts of the example: 4361 and 467835. */
  lemma ExampleTotals(g: Grid)
    requires g == ExampleSchematic()
    ensures Rectangular(g) && |g| == 10 && |g[0]| == 10 && EdgeFree(g, Symbols) && EdgeFree(g, Gears)
    ensures GridTotal(g, Symbols, |g|) == 4361 && GridTotal(g, Gears, |g|) == 467835
  {
    ExampleShape(g);
    ExampleScore13(g);
    ExampleScore36(g);
    ExampleScore43(g);
    ExampleScore55(g);
    ExampleScore83(g);
    ExampleScore85(g);
    ExampleRowTotal0(g);
    ExampleRowTotal1(g);
    ExampleRowTotal2(g);
    ExampleRowTotal3(g);
    ExampleRowTotal4(g);
    ExampleRowTotal5(g);
    ExampleRowTotal6(g);
    ExampleRowTotal7(g);
    ExampleRowTotal8(g);
    ExampleRowTotal9(g);
    ExampleGridTotals(g);
  }

  /** Both parts on the example schematic. */
  method ExampleParts() returns (one: nat, two: nat)
    ensures one == 4361 && two == 467835
  {
    var g := ExampleSchematic();
    ExampleTotals(g);
    one := PartOne(g);
    two := PartTwo(g);
  }
}
