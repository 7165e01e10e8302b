# Advent of Code 2023, days 1 to 9, in Dafny

A model of the nine puzzle solvers in `src/bin/01.rs` to `src/bin/09.rs`.
Each solver reads the puzzle input as text and prints the answers to its two parts.
Each is modelled in its own module, and the model takes the solver's own form:

- parsing and the pure helpers become functions over datatypes and strings;
- the solvers' loops become methods with loop invariants, proved against specification functions;
- properties the code relies on or promises are proved as lemmas.

| file | module | puzzle |
|---|---|---|
| `common.dfy` | `Common` | Rust's number parsing and printing, `split_ascii_whitespace`, `split_once`, `split`, `trim`, `strip_prefix`, `collect` into `Option` |
| `sorting.dfy` | `Sorting` | `sort`/`sort_by_key`, as a sort that yields a sorted permutation |
| `trebuchet.dfy` | `Trebuchet` | day 1: first and last digit of each line, digit names included in part two |
| `cube_conundrum.dfy` | `CubeConundrum` | day 2: possible games and the power of the fewest cubes |
| `gear_ratios.dfy` | `GearRatios` | day 3: part numbers next to symbols, gear ratios |
| `scratchcards.dfy` | `Scratchcards` | day 4: card points and the cascade of copies |
| `seed_almanac.dfy` | `SeedAlmanac` | day 5: maps normalised into tilings of `[0, u64::MAX)`, lowest location |
| `boat_race.dfy` | `BoatRace` | day 6: counting winning hold times |
| `camel_cards.dfy` | `CamelCards` | day 7: hand kinds with and without jokers, the ranking, total winnings |
| `haunted_wasteland.dfy` | `HauntedWasteland` | day 8: walking the network, `gcd`/`lcm`, the fold over the start nodes |
| `mirage_maintenance.dfy` | `MirageMaintenance` | day 9: extrapolating histories forwards and backwards |

Each day also has its puzzle example worked out as lemmas, with the answers the source's tests expect.

## Notes on the code

Day 5's normalisation is not idempotent.
A normalised map's last source ends at `u64::MAX`, so normalising it again appends the empty pair `u64::MAX..u64::MAX` (`src/bin/05.rs:51`).
`SeedAlmanac.RenormaliseAppendsEmptyPair` states this.
The extra pair contains no value, so lookups are unaffected.

## Model

| member | source | states |
|---|---|---|
| Trebuchet.ToDigit | src/bin/01.rs:5-19 | a result `d` is at most 9 and the input is the digit character or the English name of `d`; every other text is the error case (the source's panic) |
| Trebuchet.ToDigitDefined | src/bin/01.rs:5-19 | `to_digit` succeeds exactly on the twenty patterns of part two |
| Trebuchet.ToDigitOfDigit | src/bin/01.rs:7-16 | the digit character `d` stands for `d` |
| Trebuchet.ToDigitOfName | src/bin/01.rs:7-16 | the name of `d` stands for `d` |
| Trebuchet.DigitCharToDigit | src/bin/01.rs:7-16 | a digit character stands for its own decimal value |
| Trebuchet.MatchAt | src/bin/01.rs:27-29 | a match reported at end position `e` is one of the patterns and occurs in the line ending at `e`; no match means no pattern ends there |
| Trebuchet.FirstFrom | src/bin/01.rs:31 | `matches_iter().next()`: the match with the smallest end position at or after `e`, with nothing matching before it; none when nothing matches |
| Trebuchet.LastUpTo | src/bin/01.rs:32 | `matches_iter().last()`: the match with the largest end position up to `e`, with nothing matching after it; none when nothing matches |
| Trebuchet.CalibrationValue | src/bin/01.rs:25-34 | a line's value is at most 99 |
| Trebuchet.Combine | src/bin/01.rs:31-33 | `first * 10 + last` is at most 99, and is an error when a match is missing |
| Trebuchet.SpelledSuffixFree | src/bin/01.rs:39-50 | no pattern of part one or of part two is a suffix of another, so at most one pattern ends at any position |
| Trebuchet.NamesSuffixFree | src/bin/01.rs:48-49 | no digit name is a suffix of another digit name |
| Trebuchet.NameSuffixUnique | src/bin/01.rs:48-49 | a digit name that is a suffix of a digit name is that name |
| Trebuchet.NameNotSuffixOfDigit | src/bin/01.rs:48-49 | no name is a suffix of a digit character |
| Trebuchet.DigitNotSuffixOfName | src/bin/01.rs:48-49 | no digit character is a suffix of a name (names end in letters) |
| Trebuchet.NameLength | src/bin/01.rs:48-49 | every digit name has at least three letters |
| Trebuchet.MatchAtUnique | src/bin/01.rs:27-29 | with suffix-free patterns, the match reported at a position does not depend on the order of the pattern list |
| Trebuchet.FirstAndLast | src/bin/01.rs:31-32 | the first and the last match exist together, the first ends no later than the last, and they coincide when they end at the same place |
| Trebuchet.ValueOfMatching | src/bin/01.rs:25-34 | a line has a value if and only if some pattern occurs in it (otherwise `unwrap` fails) |
| Trebuchet.ValueOfMatch | src/bin/01.rs:25-34 | a line in which some pattern occurs has a value |
| Trebuchet.DigitMatch | src/bin/01.rs:39 | with the patterns of part one, a match ending at `e` is exactly the digit character before `e` |
| Trebuchet.PartOneFirst | src/bin/01.rs:31-39 | in part one the first match is the first digit character of the line |
| Trebuchet.PartOneLast | src/bin/01.rs:32-39 | in part one the last match is the last digit character of the line |
| Trebuchet.PartOneValue | src/bin/01.rs:31-42 | in part one a line's value is ten times its first digit character plus its last |
| Trebuchet.SumCalibrationDefined | src/bin/01.rs:21-36 | the sum exists exactly when every line has a value |
| Trebuchet.SumByOf | src/bin/01.rs:23-35 | the sum over the lines is the total of the lines' values |
| Trebuchet.SumByAppend | src/bin/01.rs:23-35 | the sum over two blocks of lines is the sum of the two sums |
| Trebuchet.TotalAppend | src/bin/01.rs:35 | totals add up over concatenation |
| Trebuchet.ValueOfFirstLast | src/bin/01.rs:31-33 | given where the first and the last match end, the value is ten times the first match's digit plus the last match's |
| Trebuchet.SpelledValue | src/bin/01.rs:31-54 | the same, for part two's patterns |
| Trebuchet.SpelledFirstLast | src/bin/01.rs:31-54 | the first and the last match of a part two line, given the positions where they end and that nothing matches before or after them |
| Trebuchet.ExampleOverlap | src/bin/01.rs:79 | matches overlap: in "xtwone3four" the match "one" shares its "o" with "two" and is still reported |
| Trebuchet.ExampleOneD | src/bin/01.rs:67 | a line with a single digit uses it as both the first and the last digit (77) |
| Trebuchet.ExamplePartOne | src/bin/01.rs:61-71 | the example of part one sums to 142 |
| Trebuchet.ExampleTwoValues | src/bin/01.rs:75-83 | the seven lines of the second example are worth 29, 83, 13, 24, 42, 14 and 76 |
| Trebuchet.ExamplePartTwo | src/bin/01.rs:73-86 | the example of part two sums to 281 |
| Trebuchet.SumCalibration | src/bin/01.rs:21-36 | `sum_calibration_digits`: the total of the lines' calibration values, failing when some line has none; `SumCalibrationDefined` and `SumByOf` state its meaning |
| Trebuchet.PartOne | src/bin/01.rs:38-42 | part one: the sum with the ten digit characters as patterns; `PartOneValue` gives each line's value |
| Trebuchet.PartTwo | src/bin/01.rs:44-54 | part two: the sum with the digit characters and the ten English names as patterns; `SpelledValue` gives each line's value |
| CubeConundrum.ColorOf | src/bin/02.rs:20-24 | only "red", "green" and "blue" name a colour, and a recognised name is that colour's name; any other word is the error case (the source's panic) |
| CubeConundrum.ParseCubeSet | src/bin/02.rs:12-29 | the loop leaves every colour at 0 unless an item names it, and a later item naming a colour overrides earlier ones; it fails when an item does not parse |
| CubeConundrum.LastQtyAbsent | src/bin/02.rs:13-15 | a colour that no item names counts 0 |
| CubeConundrum.LastQtyLatest | src/bin/02.rs:20-23 | a colour's count is that of the last item naming it |
| CubeConundrum.ParsedPrefix | src/bin/02.rs:17-19 | parsing one more item extends the parsed items by it |
| CubeConundrum.SetTextRoundTrip | src/bin/02.rs:12-29 | a handful written as "r red, g green, b blue" with `u32` counts is read back exactly |
| CubeConundrum.SetTextPieces | src/bin/02.rs:17 | splitting a written handful on ", " gives its three items |
| CubeConundrum.ParseCubeOf | src/bin/02.rs:18-19 | an item "qty colour" is read as that count and colour |
| CubeConundrum.GameLineRoundTrip | src/bin/02.rs:31-41 | a game written as "Game id: handful; handful…" is read back exactly |
| CubeConundrum.MentionsRoundTrip | src/bin/02.rs:12-29 | any nonempty list of items, in any colour order, with repeats and omissions, written as "qty colour, …" with `u32` counts is read as each colour's last count, 0 for a colour left out |
| CubeConundrum.MentionsAvoid | src/bin/02.rs:17 | a written handful contains no character outside digits, spaces, commas and the colour names, so no "; " separator |
| CubeConundrum.HandfulOf | src/bin/02.rs:12-33 | a written handful reads back as its tallied counts and cannot be split by the handful separator |
| CubeConundrum.GameOfTexts | src/bin/02.rs:31-41 | "Game id: " followed by handful texts joined with "; " reads as the game whose handfuls are what the texts read as, for a `u32` id |
| CubeConundrum.WrittenGameRoundTrip | src/bin/02.rs:12-41 | a game written from any nonempty handfuls of items, in any colour order, reads back as the game of their tallies |
| CubeConundrum.IsGamePossible | src/bin/02.rs:47-60 | the result is the game's id if and only if no handful exceeds 12 red, 13 green or 14 blue, and none otherwise |
| CubeConundrum.FewestCovers | src/bin/02.rs:62-72 | the running maxima cover every handful |
| CubeConundrum.FewestIsLeast | src/bin/02.rs:62-72 | every set of cubes covering all handfuls covers the running maxima, so they are the fewest cubes that make the game possible |
| CubeConundrum.FewestAttained | src/bin/02.rs:68-72 | each colour's maximum is 0 or is the count of some handful |
| CubeConundrum.PowerOfGame | src/bin/02.rs:62-75 | the loop computes the product of the three per-colour maxima over the handfuls |
| CubeConundrum.PowerZeroOfAbsent | src/bin/02.rs:74 | a colour that no handful shows makes the power 0 |
| CubeConundrum.AbsentOfPowerZero | src/bin/02.rs:74 | a power of 0 means some colour is missing from every handful |
| CubeConundrum.ExamplePossible | src/bin/02.rs:96-101 | of the example games, 1, 2 and 5 are possible and 3 and 4 are not |
| CubeConundrum.ExamplePowers | src/bin/02.rs:110-115 | the example games' powers are 48, 12, 1560, 630 and 36 |
| CubeConundrum.ExampleParts | src/bin/02.rs:94-119 | on the example, part one is 8 and part two is 2286 |
| CubeConundrum.ParseCube | src/bin/02.rs:18-25 | one item: a `u32` count, a single space and a colour name; a missing space, a bad count or an unknown colour is the error case; `ParseCubeOf` gives the round trip |
| CubeConundrum.CubeSetOf | src/bin/02.rs:12-29 | what `parse_cube_set` computes: every item must parse, and each colour takes the count of its last item, 0 without one (`LastQtyAbsent`, `LastQtyLatest`) |
| CubeConundrum.ParseBag | src/bin/02.rs:31-33 | `parse_bag`: handfuls separated by "; ", every one of which must parse |
| CubeConundrum.ParseGame | src/bin/02.rs:35-41 | `parse_game`: "Game ", a `u32` id, ": " and the handfuls; `GameLineRoundTrip` gives the round trip |
| CubeConundrum.ParseGames | src/bin/02.rs:43-45 | `parse`: one game per line, every line must parse |
| CubeConundrum.Possible | src/bin/02.rs:47-60 | no handful shows more than 12 red, 13 green or 14 blue cubes; `IsGamePossible` is proved against it |
| CubeConundrum.PartOne | src/bin/02.rs:77-81 | part one: the sum of the ids of the possible games |
| CubeConundrum.Fewest | src/bin/02.rs:62-72 | the largest count of each colour over the handfuls, 0 for none; `FewestCovers`, `FewestIsLeast` and `FewestAttained` make it the least covering set |
| CubeConundrum.Power | src/bin/02.rs:62-75 | the product of the fewest counts; `PowerOfGame` computes it |
| CubeConundrum.PartTwo | src/bin/02.rs:83-87 | part two: the sum of the games' powers |
| GearRatios.RunStart | src/bin/03.rs:40-43 | the left expansion stops at the first column of the run of digits through the cell: all cells between are digits and the cell before is not |
| GearRatios.RunEnd | src/bin/03.rs:44-47 | the right expansion stops one past the run: all cells passed are digits and the stopping cell is past the row or not a digit |
| GearRatios.RunIsMaximal | src/bin/03.rs:40-47 | the two expansions find a maximal run through the digit, and the only one |
| GearRatios.RunShared | src/bin/03.rs:36-54 | every digit of a run expands to the same run, so a number touching a cell through several neighbours is read the same each time |
| GearRatios.ExpandRun | src/bin/03.rs:40-47 | the two `while` loops compute the run's start and end |
| GearRatios.NumberAt | src/bin/03.rs:39-52 | expanding, copying the run into a string and parsing it gives the decimal value of the maximal run through the digit |
| GearRatios.Neighbor | src/bin/03.rs:21-38 | a neighbour of an interior cell lies on the grid, differs from the cell and is at most one row and one column away |
| GearRatios.NeighborValuesMeaning | src/bin/03.rs:36-54 | a value is collected exactly when one of the eight neighbours is a digit of a number with that value |
| GearRatios.AdjacentNumbers | src/bin/03.rs:35-55 | the loop over the eight neighbours collects exactly the set of the adjacent numbers' values |
| GearRatios.SetSumRemove | src/bin/03.rs:56 | the sum of a set may take any element first, so it does not depend on the hash set's iteration order |
| GearRatios.SetProductRemove | src/bin/03.rs:106 | the same for the product |
| GearRatios.PairSumProduct | src/bin/03.rs:105-107 | a set of two distinct values sums to their sum and multiplies to their product |
| GearRatios.SumSet | src/bin/03.rs:56 | `part_numbers.iter().sum()` computes the set's sum |
| GearRatios.ProductSet | src/bin/03.rs:106 | `part_numbers.iter().product()` computes the set's product |
| GearRatios.ScanGrid | src/bin/03.rs:32-59 | the nested row and column loops add every marked cell's score, in row-major order |
| GearRatios.PartOne | src/bin/03.rs:15-62 | part one is the total, over all symbol cells, of the sum of their distinct adjacent values |
| GearRatios.PartTwo | src/bin/03.rs:64-113 | part two is the total, over all `*` cells, of the product of their adjacent values when there are exactly two |
| GearRatios.GearRule | src/bin/03.rs:83-107 | a `*` with exactly two distinct adjacent values adds their product; any other cell adds nothing in part two |
| GearRatios.RowTotalZero | src/bin/03.rs:33-34 | cells that are not marked add nothing |
| GearRatios.RowTotalFrom | src/bin/03.rs:33-58 | a row's total is the total up to its last marked cell plus that cell's score |
| GearRatios.GridTotalFrom | src/bin/03.rs:32-59 | rows without marked cells add nothing to the grid's total |
| GearRatios.EqualValuesCountOnce | src/bin/03.rs:35-53 | two different numbers with equal values around one symbol are counted once, because the values are kept in a set |
| GearRatios.FixtureAround13 | src/bin/03.rs:123-125 | the values around the `*` in row 1 of the example are 467 and 35 |
| GearRatios.ExampleShape | src/bin/03.rs:122-133 | the example is a 10 by 10 grid with no marked cell on its edge |
| GearRatios.ExampleTotals | src/bin/03.rs:120-154 | on the example, part one's total is 4361 and part two's is 467835 |
| GearRatios.ExampleParts | src/bin/03.rs:120-154 | the two parts compute 4361 and 467835 on the example schematic |
| GearRatios.IsSymbol | src/bin/03.rs:9-13 | `is_symbol`: a character that is neither an ASCII digit nor a dot |
| GearRatios.IsSymbolMeaning | src/bin/03.rs:9-13 | a symbol is exactly a character outside the ten digits and the dot; `*` and `#` are symbols, `.` and `5` are not |
| GearRatios.RunValue | src/bin/03.rs:39-52 | the decimal value of the maximal run of digits through a cell; `RunIsMaximal` and `NumberAt` tie it to the expansion loops |
| GearRatios.AdjacentValues | src/bin/03.rs:35-55 | the set of values read through a cell's eight neighbours; `NeighborValuesMeaning` states its members |
| GearRatios.CellScore | src/bin/03.rs:34-57 | what a cell adds: nothing unless marked; a symbol adds the sum of its adjacent values, a `*` (lines 83-107) their product when there are exactly two (`GearRule`) |
| GearRatios.GridTotal | src/bin/03.rs:32-59 | the cell scores added row by row, column by column; `ScanGrid` computes it |
| Scratchcards.Matches | src/bin/04.rs:25-30 | a card's matches are at most its picked numbers; they are 0 exactly when no picked number wins and all of them exactly when every picked number wins |
| Scratchcards.MatchCountBounds | src/bin/04.rs:26-29 | the same bounds and both if-and-only-if directions, for the counting filter |
| Scratchcards.Points | src/bin/04.rs:11-23 | the loop scores 0 for no match, 1 for the first match and doubles for every further one, so the result is 2^(matches-1); it is 0 exactly when nothing matches |
| Scratchcards.PartOne | src/bin/04.rs:62-69 | part one is the sum of the cards' scores |
| Scratchcards.Entries | src/bin/04.rs:72-76 | the vector `part_two` starts from pairs each card's number with its matches, in order |
| Scratchcards.Yield | src/bin/04.rs:78-83 | one instance of a card ends up as at least one card: itself plus what the copies it wins yield |
| Scratchcards.YieldRange | src/bin/04.rs:78-83 | a range of cards yields at least as many cards as it holds |
| Scratchcards.CopyQueue | src/bin/04.rs:77-83 | the `while` loop ends, keeps the original entries in front, appends only copies of them, and its final length is the total yield of the cards |
| Scratchcards.QueueStart | src/bin/04.rs:73-76 | the loop invariant holds for the vector `part_two` starts from, before any entry is scanned |
| Scratchcards.QueueNext | src/bin/04.rs:79-81 | while entries remain, the cards the entry at `pos` wins lie inside the queue, so the pushes never index past its end |
| Scratchcards.QueueEnd | src/bin/04.rs:77-85 | when `pos` reaches the end of the queue, its length is the total yield of the cards |
| Scratchcards.PushWon | src/bin/04.rs:79-81 | the inner `for` loop appends copies of the `m` entries from index `num` on, in order |
| Scratchcards.QueueAdvance | src/bin/04.rs:78-82 | one turn of the outer loop keeps its invariant: the originals stay in front, only copies are appended, and `pos` plus the remaining work stays the final length |
| Scratchcards.QueueStep | src/bin/04.rs:79-82 | scanning an entry replaces its yield by the yields of the copies it appends, which add up to one less |
| Scratchcards.QueueCopies | src/bin/04.rs:79-81 | the entries appended are copies of entries of the table |
| Scratchcards.CopyBounds | src/bin/04.rs:80 | the cards an entry wins lie among the original entries, so the index `cards[pos].0 + i` stays in bounds |
| Scratchcards.WorkOfOriginals | src/bin/04.rs:73-76 | the original entries yield the total yield of the cards |
| Scratchcards.PartTwo | src/bin/04.rs:71-86 | part two is the total yield of the cards, which is at least the number of cards |
| Scratchcards.ParseCardRoundTrip | src/bin/04.rs:33-60 | a card written as "Card n: winning | picked", with a `usize` number and `u32` numbers, is read back exactly |
| Scratchcards.LeadingSpace | src/bin/04.rs:44-52 | white space in front of the number lists does not change the numbers read |
| Scratchcards.ExampleMatches | src/bin/04.rs:95-102 | the example's cards are numbered 1 to 6 and have 4, 2, 2, 1, 0 and 0 matches |
| Scratchcards.ExampleScores | src/bin/04.rs:93-105 | part one on the example is 13, and part two starts from (1,4), (2,2), (3,2), (4,1), (5,0), (6,0) |
| Scratchcards.ExampleYields | src/bin/04.rs:107-119 | in the example the cards yield 15, 7, 4, 2, 1 and 1 cards, 30 in all |
| Scratchcards.MatchCount | src/bin/04.rs:25-30 | the picked numbers, counted with repetition, that are among the winning ones; `MatchCountBounds` states its bounds |
| Scratchcards.Score | src/bin/04.rs:11-23 | no match scores 0, the first scores 1 and each further match doubles it; `Points` proves the loop computes it |
| Scratchcards.TotalScore | src/bin/04.rs:62-69 | the sum of the cards' scores, in order; `PartOne` computes it |
| Scratchcards.ParseCard | src/bin/04.rs:36-58 | one line: "Card", the number after optional white space, ":", the winning numbers, a vertical bar, the picked numbers; every failed `unwrap` is the error case; `ParseCardRoundTrip` gives the round trip |
| Scratchcards.ParseCards | src/bin/04.rs:33-60 | `parse_cards`: every line must parse |
| SeedAlmanac.FromTripleShifts | src/bin/05.rs:22-26 | the line `dst src len` gives two ranges of length `len`, and the `k`-th value of the source goes to the `k`-th value of the destination |
| SeedAlmanac.ParseSeeds | src/bin/05.rs:7-14 | the seeds line, once parsed, holds only `u64` values |
| SeedAlmanac.ParseLines | src/bin/05.rs:20-28 | a parsed block has one pair per line, each the parse of its line |
| SeedAlmanac.ParseLinesFails | src/bin/05.rs:20-28 | a block fails to parse exactly when one of its lines does |
| SeedAlmanac.ParseMaps | src/bin/05.rs:34 | every block of the input is parsed, in order, each to its own stage |
| SeedAlmanac.WordsOfFormatLine | src/bin/05.rs:22-25 | the words of a written line are its three numerals |
| SeedAlmanac.ParseFormatLine | src/bin/05.rs:21-27 | a line written from three `u64` numbers is read back as its pair |
| SeedAlmanac.LookupFirst | src/bin/05.rs:66-71 | the first pair whose source contains the value decides where it goes |
| SeedAlmanac.LookupMiss | src/bin/05.rs:66-71 | a value no pair contains passes through unchanged |
| SeedAlmanac.ShiftKeepsOffset | src/bin/05.rs:67-68 | a moved value lands in the destination of its pair, as far from its start as it was from the source's start |
| SeedAlmanac.LocateAppend | src/bin/05.rs:65-72 | going through the stages of `a` and then of `b` is going through `a + b` |
| SeedAlmanac.Normalise | src/bin/05.rs:36-53 | normalising a non-empty map yields its pairs sorted by source start plus the added identity pairs; for disjoint, bounded pairs this is exactly their tiling of `[0, u64::MAX)` |
| SeedAlmanac.CollectHoles | src/bin/05.rs:40-46 | the windows loop records exactly the holes between neighbours whose sources do not abut |
| SeedAlmanac.ExtendFrom | src/bin/05.rs:47 | extending the map from the passthrough table adds each of its pairs once, in whatever order |
| SeedAlmanac.NormaliseFinish | src/bin/05.rs:47-52 | sorting the extended map gives a normalisation of the declared pairs |
| SeedAlmanac.HolesAreIdentities | src/bin/05.rs:44 | every hole pair maps its range to itself |
| SeedAlmanac.AddedAreIdentities | src/bin/05.rs:44-51 | every pair the normalisation adds maps its range to itself |
| SeedAlmanac.NormalisedPairs | src/bin/05.rs:36-53 | a pair of the normalised map that was not declared leaves values where they are |
| SeedAlmanac.SortOrdered | src/bin/05.rs:37 | sorting declared pairs with disjoint sources lists them in increasing, non-overlapping order |
| SeedAlmanac.FillAbuts | src/bin/05.rs:41-47 | after the holes are filled, each source ends where the next one starts |
| SeedAlmanac.HolesBounds | src/bin/05.rs:41-46 | every hole lies between the end of the first source and the start of the last |
| SeedAlmanac.FillMultiset | src/bin/05.rs:41-47 | filling the holes adds exactly the hole pairs |
| SeedAlmanac.TilingPartition | src/bin/05.rs:36-53 | the filled map, with the leading and trailing pairs, tiles `[0, u64::MAX)` without gaps or overlaps |
| SeedAlmanac.TilingMultiset | src/bin/05.rs:36-53 | the tiling holds the declared pairs plus the added pairs, and nothing else |
| SeedAlmanac.PartitionIncreases | src/bin/05.rs:52 | the sources of a tiling start at strictly increasing values |
| SeedAlmanac.PartitionChain | src/bin/05.rs:52 | in a tiling every pair ends at or before the start of every later pair |
| SeedAlmanac.SortedUnique | src/bin/05.rs:52 | two lists of the same pairs, one sorted and one strictly increasing by source start, are the same list, so the final sort has one outcome |
| SeedAlmanac.NormalisedIsTiling | src/bin/05.rs:47-52 | the sorted, extended map of well-formed declared pairs is their tiling |
| SeedAlmanac.PartitionCovers | src/bin/05.rs:36-53 | every value from a pair's start up to `u64::MAX` lies in that pair or a later one |
| SeedAlmanac.PartitionUnique | src/bin/05.rs:36-53 | in a normalised map each value below `u64::MAX` lies in exactly one source, and `u64::MAX` lies in none |
| SeedAlmanac.TilingOfDeclared | src/bin/05.rs:36-53 | the tiling of well-formed declared pairs is a partition holding the declared and added pairs |
| SeedAlmanac.LookupDeclared | src/bin/05.rs:66-71 | in a well-formed map the declared pair containing a value is the only one that can move it |
| SeedAlmanac.NoDeclaredAtMax | src/bin/05.rs:51 | no declared source of a well-formed map contains `u64::MAX` |
| SeedAlmanac.NoDeclaredInHole | src/bin/05.rs:44 | a value inside an added pair lies in no declared source |
| SeedAlmanac.LookupAgrees | src/bin/05.rs:66-71 | a lookup in a partition holding the declared pairs and only identities besides gives the same value as the declared pairs |
| SeedAlmanac.TilingExtrasAreIdentities | src/bin/05.rs:44-51 | every pair of the tiling that was not declared is an identity |
| SeedAlmanac.NormalisedLookup | src/bin/05.rs:36-71 | normalising a well-formed map does not change where it sends any value |
| SeedAlmanac.IdentityOutsideDeclared | src/bin/05.rs:44-51 | a value no declared source contains goes through the normalised map unchanged |
| SeedAlmanac.LookupBounded | src/bin/05.rs:68 | a `u64` value stays a `u64` value through a map whose pairs are in range, so `value - src.start + dst.start` does not overflow |
| SeedAlmanac.TilingOrdered | src/bin/05.rs:48-52 | the tiling of ordered pairs whose last source ends below `u64::MAX` is itself well formed |
| SeedAlmanac.RenormaliseAppendsEmptyPair | src/bin/05.rs:51 | normalising such a tiling again is not a no-op: it gains the empty pair `u64::MAX..u64::MAX` |
| SeedAlmanac.TilingOfPartition | src/bin/05.rs:41-52 | the tiling of a partition is the partition plus the empty trailing pair |
| SeedAlmanac.FillOfAbutting | src/bin/05.rs:41-46 | pairs whose sources already abut have no holes to fill |
| SeedAlmanac.Parse | src/bin/05.rs:31-56 | parsing succeeds exactly when the seeds line and every block parse and no block is empty, and then every map is the normalisation of its block |
| SeedAlmanac.NormaliseAll | src/bin/05.rs:36-53 | every map is normalised in place, and the loop fails exactly when some map has no pairs |
| SeedAlmanac.ApplyStage | src/bin/05.rs:66-71 | one stage of the inner loop gives the lookup of the value in that map |
| SeedAlmanac.Location | src/bin/05.rs:64-72 | a seed's final value is the result of all the stages in order |
| SeedAlmanac.LowestLocationAppend | src/bin/05.rs:73-75 | one more value lowers the minimum to its location when that is smaller |
| SeedAlmanac.LowestLocationIsMinimum | src/bin/05.rs:61-76 | the lowest location is at most `u64::MAX` and at most every value's location, and is either `u64::MAX` or one of them |
| SeedAlmanac.Lowest | src/bin/05.rs:61-76 | the shared loop computes the lowest location of its values |
| SeedAlmanac.PartOne | src/bin/05.rs:58-79 | part one is the lowest location of the seeds |
| SeedAlmanac.SeedRanges | src/bin/05.rs:83 | the seeds read in pairs are the ranges `start..start + len` |
| SeedAlmanac.Points | src/bin/05.rs:87 | a range yields its values in increasing order, none when it is empty |
| SeedAlmanac.AllPointsMembers | src/bin/05.rs:87 | the flattened ranges hold exactly the values some range contains |
| SeedAlmanac.PartTwo | src/bin/05.rs:81-103 | part two is the lowest location of every value of every seed range |
| SeedAlmanac.LocateNormalised | src/bin/05.rs:36-72 | the normalised maps of well-formed blocks send every value where the declared maps do |
| SeedAlmanac.LowestNormalised | src/bin/05.rs:58-103 | so the lowest location is the same with or without normalisation |
| SeedAlmanac.ExampleWellFormed | src/bin/05.rs:112-146 | the maps of the example have disjoint, bounded sources |
| SeedAlmanac.ExampleSeed79 | src/bin/05.rs:112-148 | seed 79 ends at location 82 |
| SeedAlmanac.ExampleSeed14 | src/bin/05.rs:112-148 | seed 14 ends at location 43 |
| SeedAlmanac.ExampleSeed55 | src/bin/05.rs:112-148 | seed 55 ends at location 86 |
| SeedAlmanac.ExampleSeed13 | src/bin/05.rs:112-148 | seed 13 ends at location 35 |
| SeedAlmanac.ExamplePartOne | src/bin/05.rs:110-149 | part one on the example is 35, through any normalisation of the example maps |
| SeedAlmanac.ExampleFirstRange | src/bin/05.rs:152-188 | every value of the range `79..93` ends at location 46 or above |
| SeedAlmanac.ExampleSecondRange | src/bin/05.rs:152-188 | every value of the range `55..68` ends at location 46 or above |
| SeedAlmanac.ExampleSeed82 | src/bin/05.rs:152-188 | seed 82 ends at location 46 |
| SeedAlmanac.LowestLocationAtLeast | src/bin/05.rs:85-100 | a lower bound on every value's location bounds the lowest location |
| SeedAlmanac.ExampleRangesLowest | src/bin/05.rs:152-188 | the lowest location over the ranges `79..93` and `55..68` is 46 |
| SeedAlmanac.ExampleSeedRanges | src/bin/05.rs:153 | the example seeds read in pairs are the ranges `79..93` and `55..68` |
| SeedAlmanac.ExamplePartTwo | src/bin/05.rs:150-189 | part two on the example is 46, through any normalisation of the example maps |
| SeedAlmanac.FromTriple | src/bin/05.rs:23-26 | the line `dst src len` as the pair `src..src+len` to `dst..dst+len`; `FromTripleShifts` states the offsets |
| SeedAlmanac.ParseLine | src/bin/05.rs:21-27 | the first three words must be `u64` numerals, and further words are ignored; fewer words or a bad numeral is the error case |
| SeedAlmanac.ParseMap | src/bin/05.rs:16-29 | `parse_map`: the label line is discarded, an empty block is the error case, and every further line is a pair (`ParseLines`, `ParseLinesFails`) |
| SeedAlmanac.Lookup | src/bin/05.rs:66-71 | the first pair whose source contains the value moves it; a value no pair contains is unchanged (`LookupFirst`, `LookupMiss`) |
| SeedAlmanac.Locate | src/bin/05.rs:64-72 | the value passed through every stage in order (`LocateAppend`) |
| SeedAlmanac.LowestLocation | src/bin/05.rs:61-76 | the smallest final value of the seeds, `u64::MAX` without seeds (`LowestLocationIsMinimum`) |
| SeedAlmanac.AllPoints | src/bin/05.rs:87 | `seeds.iter().cloned().flatten()`: every value of every range, range by range (`AllPointsMembers`) |
| BoatRace.WinningHolds | src/bin/06.rs:39-45 | at most `hi - 1` hold times in `1..hi` win |
| BoatRace.WinningDistances | src/bin/06.rs:37-47 | the loop counts the hold times in `1..time` that beat the record, at most `time - 1` of them; `part_two` (lines 57-61) is this count for the single race |
| BoatRace.WinsSymmetric | src/bin/06.rs:40-42 | holding for `hold` wins exactly when holding for `time - hold` does |
| BoatRace.WinsBetween | src/bin/06.rs:40-42 | every hold time between a winning one and its mirror image wins too |
| BoatRace.CountOfInterval | src/bin/06.rs:39-45 | when the winning hold times form an interval, the count is its length |
| BoatRace.WinCountOfFirst | src/bin/06.rs:37-47 | with `first` the shortest winning hold, exactly `time + 1 - 2 * first` hold times win |
| BoatRace.PartOne | src/bin/06.rs:49-55 | part one is the product of the races' counts, starting from 1 |
| BoatRace.ProductZero | src/bin/06.rs:50-53 | the product is 0 exactly when some race cannot be won |
| BoatRace.Zip | src/bin/06.rs:16 | the races pair the i-th time with the i-th record, as many as the shorter line has |
| BoatRace.DigitCount | src/bin/06.rs:25 | every number is written with at least one digit |
| BoatRace.DigitCountLength | src/bin/06.rs:25 | the decimal numeral of a number has that many digits |
| BoatRace.JuxtaposeDigits | src/bin/06.rs:24-26 | the numerals written one after another are all digits and read as the numbers juxtaposed |
| BoatRace.NumbersTextWhiteSpace | src/bin/06.rs:7-8 | the only white space in a spaced list of numbers is ASCII white space, so trimming and ASCII splitting agree |
| BoatRace.NumbersTextWords | src/bin/06.rs:7-8 | the words of a spaced list of numbers are their numerals |
| BoatRace.NumbersLine | src/bin/06.rs:5-8 | a line made of a prefix and spaced numbers loses the prefix and splits into the numerals |
| BoatRace.ParseLineOneRoundTrip | src/bin/06.rs:3-10 | a line of `u64` numbers after its prefix is read back as those numbers |
| BoatRace.ParseLineTwoJuxtaposes | src/bin/06.rs:19-28 | the same line read the second way is the number its numerals spell one after another, when that fits a `u64` |
| BoatRace.ParseRacesOf | src/bin/06.rs:12-17 | the two lines of times and records give the zipped races |
| BoatRace.ParseLineTwoRemovesSpaces | src/bin/06.rs:19-28 | after the prefix, reading the second way drops the white space and parses what is left as one `u64` |
| BoatRace.ExampleRaces | src/bin/06.rs:70-75 | the example races can be won in 4, 8 and 9 ways |
| BoatRace.ExamplePartOne | src/bin/06.rs:69-76 | part one on the example is 288 |
| BoatRace.ExampleLinesOne | src/bin/06.rs:70-73 | the example lines read the first way are the races (7, 9), (15, 40) and (30, 200) |
| BoatRace.ExampleLinesTwo | src/bin/06.rs:80-83 | read the second way they are the race (71530, 940200) |
| BoatRace.ExamplePartTwo | src/bin/06.rs:79-86 | the juxtaposed numbers are 71530 and 940200, and that race can be won in 71503 ways |
| BoatRace.Wins | src/bin/06.rs:39-44 | a hold time in `1..time` whose distance `hold * (time - hold)` beats the record |
| BoatRace.WinCount | src/bin/06.rs:37-47 | the number of winning hold times of a race; `WinCountOfFirst` gives its closed form |
| BoatRace.Product | src/bin/06.rs:49-55 | the product of the races' counts, from 1; `PartOne` computes it and `ProductZero` says when it vanishes |
| BoatRace.ParseLineOne | src/bin/06.rs:3-10 | after the prefix, trimmed and split on ASCII white space, every word a `u64`; a missing prefix or a bad numeral is the error case (`ParseLineOneRoundTrip`) |
| BoatRace.ParseRaces | src/bin/06.rs:12-17 | the times of the first line zipped with the records of the second (`ParseRacesOf`) |
| BoatRace.ParseLineTwo | src/bin/06.rs:19-28 | the words after the prefix written one after another and read as one `u64` (`ParseLineTwoRemovesSpaces`, `ParseLineTwoJuxtaposes`) |
| BoatRace.ParseRace | src/bin/06.rs:30-35 | `parse_2`: the single race of part two, which `part_two` (lines 57-61) counts; `ExamplePartTwo` applies it |
| BoatRace.Juxtapose | src/bin/06.rs:24-26 | the number whose digits are those of the numbers one after another (`JuxtaposeDigits`) |
| CamelCards.Strength | src/bin/07.rs:6-21 | every card's discriminant lies between 1 (Joker) and 15 (Ace) |
| CamelCards.CardOrder | src/bin/07.rs:5-21 | the derived order ranks Joker below Two and then up to Ace, and no two cards share a value |
| CamelCards.Rank | src/bin/07.rs:26-34 | the kinds' discriminants run from 0 (HighCard) to 6 (FiveOfAKind) |
| CamelCards.CompareInt | src/bin/07.rs:95 | integer comparison answers Equal exactly on equal values and Less exactly when the first is smaller |
| CamelCards.CountPositive | src/bin/07.rs:39-41 | a card is counted at least once exactly when it is in the hand |
| CamelCards.CountAppend | src/bin/07.rs:40 | one more card adds one to its own count and nothing to the others |
| CamelCards.OccursExists | src/bin/07.rs:68-74 | `count.values().any(c == n)` holds exactly when some card of the hand occurs `n` times |
| CamelCards.DistinctElements | src/bin/07.rs:72-78 | the number of different cards is the size of the set of cards |
| CamelCards.TallyMeaning | src/bin/07.rs:38-41 | the count table has one key per different card, and holds the value `n` exactly when some card occurs `n` times |
| CamelCards.TallyStep | src/bin/07.rs:40 | one turn of the counting loop inserts 1 for a new card and adds 1 to a known card |
| CamelCards.CountCards | src/bin/07.rs:38-41 | the counting loop builds the table that maps each card of the hand to its count, and nothing else |
| CamelCards.Substitute | src/bin/07.rs:51-61 | replacing the jokers keeps the hand's length |
| CamelCards.SubstituteCount | src/bin/07.rs:51-61 | after the jokers become `b` there are no jokers, `b` gains the jokers' count, and every other card keeps its count |
| CamelCards.FacesAreNonJokers | src/bin/07.rs:46 | the candidate cards are exactly the non-jokers |
| CamelCards.MostCommonInMeaning | src/bin/07.rs:44-49 | the chosen card is Joker exactly when the hand holds only jokers, and otherwise a card of the hand no other non-joker outnumbers |
| CamelCards.SubstituteMember | src/bin/07.rs:51-61 | after substitution the hand holds exactly its non-joker cards |
| CamelCards.HasCountSwap | src/bin/07.rs:44-67 | two equally common choices give the same multiset of counts |
| CamelCards.HasCountSame | src/bin/07.rs:44-67 | a count occurs after one most common substitution exactly when it occurs after another |
| CamelCards.TieIndependent | src/bin/07.rs:44-49 | which of several equally common cards `max_by` returns does not change the kind |
| CamelCards.WildKind | src/bin/07.rs:42-82 | with jokers wild, the kind is that of the hand with every joker replaced by any most common other card |
| CamelCards.NoJokers | src/bin/07.rs:42-67 | a hand without jokers has the same kind whether jokers are wild or not |
| CamelCards.AllJokers | src/bin/07.rs:48-49 | a hand of jokers only keeps its kind, so five jokers are five of a kind |
| CamelCards.MostCommon | src/bin/07.rs:44-49 | scanning the table finds a non-joker card no other non-joker outnumbers, or Joker when there is none |
| CamelCards.Kind | src/bin/07.rs:37-83 | `kind` gives the kind of the hand, with jokers wild or tame |
| CamelCards.DistinctBounds | src/bin/07.rs:72-78 | a non-empty hand holds between 1 and its length different cards |
| CamelCards.CountsBounded | src/bin/07.rs:68-78 | a card occurring `n` times leaves room for at most `|hand| + 1 - n` different cards |
| CamelCards.TwoCards | src/bin/07.rs:72-73 | a hand of two different cards has exactly their two counts, adding up to its length |
| CamelCards.FiveCardKinds | src/bin/07.rs:68-82 | on five cards the ordered tests give the usual kinds: five alike, four alike, a triple and a pair, a triple and two singles, two pairs, one pair, all different; each in both directions |
| CamelCards.Cmp | src/bin/07.rs:87-102 | `cmp` orders by kind, and for equal kinds by the first differing card, Equal when none differs |
| CamelCards.FirstDifference | src/bin/07.rs:90-96 | after a common prefix, the first differing card decides |
| CamelCards.CompareCardsFlip | src/bin/07.rs:90-98 | comparing card by card the other way round flips the answer |
| CamelCards.CompareCardsEqual | src/bin/07.rs:90-98 | hands of one length compare Equal card by card exactly when they are equal |
| CamelCards.CompareCardsTransitive | src/bin/07.rs:90-98 | card-by-card comparison of hands of one length is transitive |
| CamelCards.CompareHandsFlip | src/bin/07.rs:87-102 | `cmp` is antisymmetric: swapping the hands flips the answer |
| CamelCards.CompareHandsEqual | src/bin/07.rs:87-102 | hands of one length compare Equal exactly when they are equal, so `cmp` agrees with `==` |
| CamelCards.CompareHandsTransitive | src/bin/07.rs:87-102 | `cmp` is transitive on hands of one length |
| CamelCards.ParseCardMeaning | src/bin/07.rs:117-138 | exactly the thirteen card characters parse, anything else is "invalid card", and 'J' is a joker when wild and a jack when tame |
| CamelCards.CardCharRoundTrip | src/bin/07.rs:117-163 | every card of the mode writes and reads back as itself, and every parsed character is written back as itself |
| CamelCards.ParseHandMeaning | src/bin/07.rs:114-141 | a hand parses exactly when each of its characters does, one card per character, and fails with "invalid card" otherwise |
| CamelCards.HandString | src/bin/07.rs:144-166 | `to_string` writes one character per card, in order |
| CamelCards.PrintThenParse | src/bin/07.rs:114-166 | a hand written out is read back as itself, when it has no card of the other mode |
| CamelCards.ParseThenPrint | src/bin/07.rs:114-166 | a parsed hand is written back as its text |
| CamelCards.ParseEntryMeaning | src/bin/07.rs:171-174 | a parsed line is the hand's text, a space and the bid's numeral; every such line with a `u32` bid parses |
| CamelCards.PrintedEntry | src/bin/07.rs:171-174 | a line written from a hand and a `u32` bid reads back as that entry |
| CamelCards.EntryOrderTotal | src/bin/07.rs:180 | the order on (hand, bid) pairs is total, transitive and antisymmetric on hands of one length, so sorting is well defined |
| CamelCards.EntryTransitive | src/bin/07.rs:180 | comparing by hand and then by bid is transitive |
| CamelCards.TotalWinnings | src/bin/07.rs:178-198 | both parts fail exactly when a line does not parse, and otherwise give the sum of bid times rank of every ranking of the entries |
| CamelCards.RankingUnique | src/bin/07.rs:180 | entries of one hand size have one ranking, the one sorting gives |
| CamelCards.KindExamples | src/bin/07.rs:206-235 | AAAAA, AA8AA, 23332, TTT98, 23432, A23A4 and 23456 parse and are five of a kind down to high card |
| CamelCards.TameChain | src/bin/07.rs:238-246 | the example hands with jokers tame go up as 32T3K, KTJJT, KK677, T55J5, QQQJA |
| CamelCards.WildChain | src/bin/07.rs:262-272 | with jokers wild they go up as 32T3K, KK677, T55J5, QQQJA, KTJJT |
| CamelCards.ChainRanking | src/bin/07.rs:180 | entries whose hands go strictly up in a given order have that order as their only ranking |
| CamelCards.ExamplePartOne | src/bin/07.rs:248-259 | the example has one ranking with jokers tame, and it wins 6440 |
| CamelCards.ExamplePartTwo | src/bin/07.rs:261-272 | the example has one ranking with jokers wild, and it wins 5905 |
| CamelCards.Tally | src/bin/07.rs:38-41 | the count table: each card of the hand mapped to its number of copies (`TallyMeaning`, `CountCards`) |
| CamelCards.ClassifyCards | src/bin/07.rs:68-82 | the kind tests in the source's order on the hand's counts; `FiveCardKinds` characterises each kind for five cards |
| CamelCards.MostCommonIn | src/bin/07.rs:43-49 | a most frequent non-joker card, or Joker when the hand has none (`MostCommonInMeaning`) |
| CamelCards.KindOf | src/bin/07.rs:37-83 | the kind of a hand; with jokers wild, the kind after the jokers become the most common other card (`WildKind`, `TieIndependent`, `Kind`) |
| CamelCards.CompareCards | src/bin/07.rs:90-98 | the zip loop: the first differing card decides, and Equal when one hand runs out (`FirstDifference`, `CompareCardsTransitive`) |
| CamelCards.CompareHands | src/bin/07.rs:86-102 | by kind, then card by card (`CompareHandsFlip`, `CompareHandsEqual`, `CompareHandsTransitive`) |
| CamelCards.ParseCard | src/bin/07.rs:117-138 | one character to a card, 'J' by wildness, anything else "invalid card" (`ParseCardMeaning`) |
| CamelCards.CardChar | src/bin/07.rs:148-163 | the character `to_string` writes for a card (`CardCharRoundTrip`) |
| CamelCards.ParseHand | src/bin/07.rs:114-141 | `from_str`: every character a card, the first bad one an error (`ParseHandMeaning`, `ParseThenPrint`) |
| CamelCards.ParseEntry | src/bin/07.rs:171-174 | one line: the hand, a space and a `u32` bid (`ParseEntryMeaning`, `PrintedEntry`) |
| CamelCards.ParseEntries | src/bin/07.rs:168-176 | `parse`: every line must parse |
| CamelCards.CompareEntries | src/bin/07.rs:179-180 | the order `sort` uses on `(Hand, u32)` pairs: by hand, then by bid (`EntryOrderTotal`, `EntryTransitive`) |
| CamelCards.Winnings | src/bin/07.rs:181-185 | the sum of bid times rank, the weakest hand ranked 1 (`RankingUnique`, `TotalWinnings`) |
| HauntedWasteland.DividesMod | src/bin/08.rs:39 | a common divisor of `a` and `b` divides `a % b` |
| HauntedWasteland.DividesFromMod | src/bin/08.rs:39 | a common divisor of `b` and `a % b` divides `a` |
| HauntedWasteland.GcdDivides | src/bin/08.rs:37-42 | the result of Euclid's loop divides both arguments |
| HauntedWasteland.GcdGreatest | src/bin/08.rs:37-42 | every common divisor divides it, so it is the greatest common divisor |
| HauntedWasteland.GcdZero | src/bin/08.rs:37-42 | it is 0 exactly when both arguments are 0, and `gcd(a, 0)` is `a` |
| HauntedWasteland.ComputeGcd | src/bin/08.rs:37-42 | the `while` loop computes the greatest common divisor |
| HauntedWasteland.LcmProducts | src/bin/08.rs:44-50 | for non-zero arguments `(a * b) / gcd` divides exactly: it equals `(a / g) * b` and `a * (b / g)` and is at least 1 |
| HauntedWasteland.LcmMultiple | src/bin/08.rs:44-50 | `lcm` is a multiple of both arguments, and it is 0 exactly when one of them is 0 |
| HauntedWasteland.ComputeLcm | src/bin/08.rs:44-50 | `lcm` returns 0 for a zero argument and `(a * b) / gcd(a, b)` otherwise |
| HauntedWasteland.FoldLcmMultiple | src/bin/08.rs:94 | the fold from 1 is a multiple of every step count, and it is 0 exactly when one of them is 0 |
| HauntedWasteland.FoldLcmLoop | src/bin/08.rs:94 | the fold over the step counts, left to right from 1 |
| HauntedWasteland.FirstArrivalUnique | src/bin/08.rs:57-67 | the step count at which a walk first reaches a goal is unique |
| HauntedWasteland.PositionStep | src/bin/08.rs:57-63 | step `n + 1` follows instruction `n` modulo the number of instructions |
| HauntedWasteland.NextIndex | src/bin/08.rs:57 | the cyclic iterator's next index is the step count plus one, modulo the length |
| HauntedWasteland.PositionGone | src/bin/08.rs:58 | a walk that has left the network stays gone |
| HauntedWasteland.MissingNoArrival | src/bin/08.rs:58 | a walk that reaches a node missing from the network before any goal never arrives, where the source panics |
| HauntedWasteland.Walk | src/bin/08.rs:55-67 | the loop reports the first arrival, within the step bound; a missing node or running out of steps means no arrival within the bound; with no instructions the loop never runs |
| HauntedWasteland.PartOneAnswerUnique | src/bin/08.rs:52-70 | once the walk from AAA arrives within the bound, part one's answer is that step count and nothing else |
| HauntedWasteland.PartOne | src/bin/08.rs:52-70 | part one fails on unparsable input, answers 0 without instructions, and otherwise answers the first arrival at ZZZ from AAA |
| HauntedWasteland.WalkAll | src/bin/08.rs:75-92 | each start node is walked once, in some order, until a node ending in Z; every step count recorded is that start's first arrival, and the loop reports the start that does not arrive |
| HauntedWasteland.PartTwoCommonMultiple | src/bin/08.rs:94 | part two's answer is positive and a multiple of every start's step count |
| HauntedWasteland.PartTwo | src/bin/08.rs:72-96 | part two answers the fold of `lcm` over the first arrivals from every start node, or fails when the input does not parse or a start never arrives |
| HauntedWasteland.ParseDirection | src/bin/08.rs:19-23 | a direction parses exactly from 'L' or 'R' |
| HauntedWasteland.DirectionsText | src/bin/08.rs:15-24 | the instruction line has one letter per direction |
| HauntedWasteland.DirectionsRoundTrip | src/bin/08.rs:15-24 | written directions are read back as themselves |
| HauntedWasteland.ParseNode | src/bin/08.rs:27-32 | a node line parses exactly when it has at least 15 characters, into three names of three characters |
| HauntedWasteland.NodeRoundTrip | src/bin/08.rs:27-32 | a line "AAA = (BBB, CCC)" is read back as its node and neighbours |
| HauntedWasteland.ParseNetworkDefined | src/bin/08.rs:26-33 | the network parses exactly when every node line is long enough |
| HauntedWasteland.ParseNetworkKeys | src/bin/08.rs:26-33 | the nodes of the network are the names of its lines |
| HauntedWasteland.ParseNetworkLast | src/bin/08.rs:33 | a name maps to the neighbours of the last line carrying it, as `collect` into a hash map keeps the last |
| HauntedWasteland.ParseMeaning | src/bin/08.rs:13-35 | parsing succeeds exactly when there are two lines, the first holds only L and R, and every node line is long enough; there is one direction per letter |
| HauntedWasteland.EntryLines | src/bin/08.rs:27-32 | one line per node, written as the input writes it |
| HauntedWasteland.EntryMapLookup | src/bin/08.rs:33 | the last entry for a name decides its neighbours |
| HauntedWasteland.EntryMapKeys | src/bin/08.rs:33 | the map's keys are the entries' names |
| HauntedWasteland.NetworkRoundTrip | src/bin/08.rs:26-33 | node lines written from entries of three-character names are read back as their map |
| HauntedWasteland.ExampleOneParse | src/bin/08.rs:105-115 | the first example parses to the instructions RL and its seven nodes |
| HauntedWasteland.ExampleOneWalk | src/bin/08.rs:105-117 | from AAA the first example reaches ZZZ first after 2 steps |
| HauntedWasteland.ExamplePartOne | src/bin/08.rs:104-117 | part one on the first example answers 2 |
| HauntedWasteland.ExampleTwoWalk | src/bin/08.rs:118-126 | the second example reaches ZZZ first after 6 steps |
| HauntedWasteland.ExamplePartOneTwice | src/bin/08.rs:118-126 | part one on the second example answers 6 |
| HauntedWasteland.ExampleThreeWalkOne | src/bin/08.rs:131-142 | from 11A the third example reaches a Z node first after 2 steps |
| HauntedWasteland.ExampleThreeWalkTwo | src/bin/08.rs:131-142 | from 22A it takes 3 steps |
| HauntedWasteland.ExampleThreeStarts | src/bin/08.rs:75 | the start nodes of the third example are 11A and 22A |
| HauntedWasteland.ExampleThreeFold | src/bin/08.rs:94 | the fold of `lcm` over 2 and 3 is 6 in either order |
| HauntedWasteland.StartOfOrder | src/bin/08.rs:75-77 | every node walked is a start node |
| HauntedWasteland.TwoStartsAnswer | src/bin/08.rs:72-96 | with exactly two start nodes, both arriving within the bound, part two answers the fold over their two step counts, in either order |
| HauntedWasteland.ExampleThreeAnswer | src/bin/08.rs:130-145 | every answer part two may give on the third example is 6, whatever order the map yields its keys in |
| HauntedWasteland.ExamplePartTwo | src/bin/08.rs:130-145 | part two on the third example answers 6 |
| HauntedWasteland.Gcd | src/bin/08.rs:37-42 | Euclid's algorithm as a recursive definition; `GcdDivides` and `GcdGreatest` make it the greatest common divisor and `ComputeGcd` the loop's result |
| HauntedWasteland.Lcm | src/bin/08.rs:44-50 | 0 for a zero argument, otherwise `a * b / gcd(a, b)` (`LcmMultiple`, `ComputeLcm`) |
| HauntedWasteland.FoldLcm | src/bin/08.rs:94 | `lcm` folded over the step counts from 1 (`FoldLcmMultiple`, `FoldLcmLoop`) |
| HauntedWasteland.Move | src/bin/08.rs:58-62 | one step left or right; a node missing from the network is the `unwrap` failure |
| HauntedWasteland.Position | src/bin/08.rs:57-63 | where a walk stands after `n` steps, taking the instructions cyclically (`PositionStep`, `PositionGone`) |
| HauntedWasteland.FirstArrival | src/bin/08.rs:63-66 | `n` is the first step count from 1 on at which the walk stands on a goal (`FirstArrivalUnique`) |
| HauntedWasteland.Starts | src/bin/08.rs:75 | the nodes of the network whose names end in 'A' |
| HauntedWasteland.PartOneAnswer | src/bin/08.rs:52-70 | what part one answers: 0 without instructions, otherwise the first arrival at ZZZ from AAA (`PartOne`, `PartOneAnswerUnique`) |
| HauntedWasteland.PartTwoAnswer | src/bin/08.rs:72-96 | what part two answers: every start visited once, and the fold of `lcm` over their first arrivals at a node ending in 'Z' (`PartTwo`, `PartTwoCommonMultiple`) |
| HauntedWasteland.ParseNetwork | src/bin/08.rs:26-33 | the node lines collected into a map, a later line replacing an earlier one (`ParseNetworkDefined`, `ParseNetworkKeys`, `ParseNetworkLast`) |
| HauntedWasteland.Parse | src/bin/08.rs:13-35 | the instructions, a skipped line and the network (`ParseMeaning`) |
| MirageMaintenance.Diffs | src/bin/09.rs:15 | the differences of a history are one shorter, the i-th being `s[i + 1] - s[i]` |
| MirageMaintenance.BackDiffs | src/bin/09.rs:24 | the backward differences are one shorter, the i-th being the i-th difference counted from the end, with its sign flipped |
| MirageMaintenance.BackDiffsReverse | src/bin/09.rs:24 | the backward differences are the differences of the reversed history |
| MirageMaintenance.ConstantOfZeroDiffs | src/bin/09.rs:16 | a history whose differences are all zero is constant |
| MirageMaintenance.Predict1Constant | src/bin/09.rs:16-17 | so `predict_1` answering `seq[0]` there is also answering the last reading |
| MirageMaintenance.Predict1Last | src/bin/09.rs:14-21 | the prediction is the last reading plus the prediction for the differences, in both branches |
| MirageMaintenance.Predict1Extends | src/bin/09.rs:14-21 | appending the prediction extends the differences by their own prediction, so the prediction continues every level of the difference table |
| MirageMaintenance.Predict1Arithmetic | src/bin/09.rs:14-21 | an arithmetic history with step `k` is continued by `k` |
| MirageMaintenance.Predict2Reversed | src/bin/09.rs:23-30 | `predict_2` is `predict_1` on the reversed history |
| MirageMaintenance.Predict2Arithmetic | src/bin/09.rs:23-30 | an arithmetic history with step `k` is extended backwards by `-k` |
| MirageMaintenance.ReverseAll | src/bin/09.rs:37-40 | reversing every history keeps their number and order |
| MirageMaintenance.PartTwoReversed | src/bin/09.rs:32-40 | part two is part one on the reversed histories |
| MirageMaintenance.SignedStrings | src/bin/09.rs:7-8 | one numeral per reading, in order |
| MirageMaintenance.ParseHistoryRoundTrip | src/bin/09.rs:3-12 | a history of `i32` readings written with spaces is read back as itself |
| MirageMaintenance.ExampleFirst | src/bin/09.rs:50-66 | `0 3 6 9 12 15` continues with 18 and starts from -3 |
| MirageMaintenance.ExampleSecondNext | src/bin/09.rs:51-55 | `1 3 6 10 15 21` continues with 28 |
| MirageMaintenance.ExampleSecondPrevious | src/bin/09.rs:62-66 | and starts from 0 |
| MirageMaintenance.ExampleThirdNext | src/bin/09.rs:52-55 | `10 13 16 21 30 45` continues with 68 |
| MirageMaintenance.ExampleThirdPrevious | src/bin/09.rs:63-66 | and starts from 5 |
| MirageMaintenance.PartsSnoc | src/bin/09.rs:32-40 | one more history adds its predictions to both sums |
| MirageMaintenance.PartsOfThree | src/bin/09.rs:32-40 | for three histories the sums are their three predictions added |
| MirageMaintenance.ExampleParts | src/bin/09.rs:47-67 | on the example part one is 114 and part two is 2 |
| MirageMaintenance.Predict1 | src/bin/09.rs:14-21 | `predict_1`: the next reading (`Predict1Last`, `Predict1Extends`, `Predict1Arithmetic`) |
| MirageMaintenance.Predict2 | src/bin/09.rs:23-30 | `predict_2`: the previous reading (`Predict2Reversed`, `Predict2Arithmetic`) |
| MirageMaintenance.PartOne | src/bin/09.rs:32-35 | part one: the sum of the next readings (`PartsSnoc`) |
| MirageMaintenance.PartTwo | src/bin/09.rs:37-40 | part two: the sum of the previous readings (`PartTwoReversed`) |
| MirageMaintenance.ParseHistory | src/bin/09.rs:6-9 | one line: every word an `i32` (`ParseHistoryRoundTrip`) |
| Common.DigitChar | src/bin/03.rs:52 | the digit character of `d` is a digit whose value is `d` |
| Common.Pow10Add | src/bin/06.rs:25-26 | powers of ten multiply as their exponents add |
| Common.DecimalValue | src/bin/03.rs:52 | a run of `n` digits is worth less than `10^n` |
| Common.DecimalValueConcat | src/bin/06.rs:25-26 | digits written one after another are worth the first part shifted by the length of the second, plus the second |
| Common.DecimalString | src/bin/05.rs:78 | `to_string` of a number writes a non-empty run of digits |
| Common.DecimalStringValue | src/bin/05.rs:78 | the numeral of `n` is worth `n` |
| Common.ParseUnsignedMeaning | src/bin/05.rs:12 | `str::parse` of an unsigned integer stays within the type's maximum, fails on the empty text, on a value past the maximum and on any character that is neither a digit nor a leading `+` |
| Common.ParseUnsignedRoundTrip | src/bin/05.rs:12 | the numeral of a value within the maximum parses back to it |
| Common.SignedString | src/bin/09.rs:8 | the numeral of a signed reading is one non-empty word |
| Common.ParseI32RoundTrip | src/bin/09.rs:8 | parsing an `i32` gives a value in range, and the numeral of `n` parses back to `n` exactly when `n` fits in an `i32` |
| Common.CollectAllMeaning | src/bin/02.rs:44 | collecting into an `Option` or `Result` succeeds exactly when every element does, and then keeps one result per element, in order |
| Common.CollectAllOf | src/bin/02.rs:44 | when every element gives its value, the collection gives all of them |
| Common.CollectAllSnoc | src/bin/02.rs:44 | collecting one more element appends its result, or fails when it or the earlier ones fail |
| Common.SplitOnceMeaning | src/bin/07.rs:172 | `split_once` on a character fails exactly when the character is absent, and otherwise cuts at its first occurrence |
| Common.SplitAtFirst | src/bin/07.rs:172 | a text whose first part avoids the separator splits right after that part |
| Common.WordLength | src/bin/05.rs:11 | a word runs up to the first ASCII white space |
| Common.Words | src/bin/05.rs:11 | `split_ascii_whitespace` gives non-empty words without white space |
| Common.WordsJoin | src/bin/06.rs:24-25 | the words written one after another are the text with its white space removed |
| Common.WordsOfSingleWord | src/bin/05.rs:11 | a text without white space is a single word |
| Common.WordsSpaceSeparated | src/bin/05.rs:11 | a word, a space and more text split into the word and the words of the rest |
| Common.ParseNumbers | src/bin/05.rs:11-13 | a list of numbers parses to one value per word, each the parse of its word |
| Common.WordsOfUnwords | src/bin/05.rs:11 | words written with a space after each split back into themselves |
| Common.Numerals | src/bin/06.rs:25 | one numeral per number, in order |
| Common.NumbersTextRoundTrip | src/bin/04.rs:44-52 | numbers within the type's maximum written with spaces parse back to themselves |
| Common.ParseNumbersOf | src/bin/05.rs:11-13 | words that are the numerals of values within the maximum parse to those values |
| Common.TrimStart | src/bin/06.rs:7 | `trim_start` removes the leading white space and nothing else |
| Common.TrimEnd | src/bin/06.rs:7 | `trim_end` removes the trailing white space and nothing else |
| Common.WordsDropLeading | src/bin/06.rs:7-8 | leading ASCII white space does not change the words |
| Common.WordsDropTrailing | src/bin/06.rs:7-8 | trailing ASCII white space does not change the words |
| Common.TrimmedWords | src/bin/06.rs:7-8 | on text whose white space is ASCII, trimming before splitting changes nothing |
| Common.FindFrom | src/bin/02.rs:36 | the search finds the first occurrence of the separator from a position on, or reports that there is none |
| Common.SplitOnceOn | src/bin/02.rs:36 | `split_once` on a string cuts at the separator's first occurrence and fails exactly when it does not occur |
| Common.SplitOnceOnAt | src/bin/02.rs:36 | a text whose first part cannot start the separator splits right after that part |
| Common.Split | src/bin/02.rs:17 | `split` gives at least one part |
| Common.JoinSplit | src/bin/02.rs:17 | joining the parts with the separator gives back the text |
| Common.SplitJoin | src/bin/02.rs:32 | parts that cannot start the separator, joined with it, split back into themselves |
| Common.StripPrefix | src/bin/02.rs:37 | `strip_prefix` succeeds exactly when the text starts with the prefix, and returns the rest |
| Common.StripPrefixOf | src/bin/02.rs:37 | a prefix followed by a rest strips to the rest |
| Common.TrimSpaceBeforeDigits | src/bin/04.rs:44-52 | a space before a numeral is trimmed away |
| Common.ParseUnsigned | src/bin/05.rs:12 | `str::parse` for an unsigned type with the given maximum (`ParseUnsignedMeaning`, `ParseUnsignedRoundTrip`) |
| Common.ParseI32 | src/bin/09.rs:8 | `str::parse::<i32>` (`ParseI32RoundTrip`) |
| Common.CollectAll | src/bin/02.rs:44 | `collect` into an `Option` or `Result`: the first failure fails the whole (`CollectAllMeaning`) |
| Common.SplitOnce | src/bin/07.rs:172 | `split_once` on a character (`SplitOnceMeaning`) |
| Common.Trim | src/bin/06.rs:7 | `trim`: `trim_start` and then `trim_end` (`TrimStart`, `TrimEnd`) |
| Sorting.Insert | src/bin/07.rs:180 | inserting adds exactly the new element |
| Sorting.SortBy | src/bin/07.rs:180 | sorting permutes its input |
| Sorting.InsertSorted | src/bin/07.rs:180 | inserting into a sorted list keeps it sorted under a total preorder |
| Sorting.SortBySorted | src/bin/07.rs:180 | under a total preorder the result is sorted |
| Sorting.ChainSorted | src/bin/07.rs:243 | a list each of whose neighbours are in order is sorted |
| Sorting.SortedUnique | src/bin/07.rs:180 | two sorted permutations of the same list under an antisymmetric order are equal |

## Left out

- Input handling: the `advent_of_code::solution!` macro, reading the input and turning answers into `Option<String>` are not modelled. The model takes the input already split into lines, and for day 5 into its seeds line and map blocks. Day 3 takes the lines as the rows of the grid. Answers are integers.
- Text is a sequence of Unicode characters rather than UTF-8 bytes. Day 8's `line[0..3]`, `line[7..10]` and `line[12..15]` slice characters, where the source slices bytes and panics on a multi-byte character.
- Fixed-width arithmetic: sums, products and step counts are unbounded `nat`/`int` values. The source's `u32`, `u64` and `i32` can overflow, and the model does not capture the panic or wrap-around. This covers the sums of every day, the product in day 2's power and day 3's gear ratio, day 4's doubling `points *= 2` on a `u32` (`src/bin/04.rs:18`), day 6's distance `hold_time * movement_time` on a `u64` (`src/bin/06.rs:41`) and its product, day 7's `(i + 1) * bid`, day 9's differences and sums, `src + len` and `start + len` in day 5, and `a * b` in day 8's `lcm`. The bounds of parsing are modelled: a number past its type's maximum fails to parse.
- GearRatios.NumberAt: the digit run is parsed as an unbounded number. A run whose value exceeds `u32::MAX` makes the source's `parse().unwrap()` panic; the model does not capture that.
- `unwrap` and `panic!` on malformed text become `None` or `Err` results: a missing separator, a bad number, an unknown colour, card or direction, a short node line, a missing line. Day 8's `network.get(node).unwrap()` on a node missing from the network (`src/bin/08.rs:58` and `81`) is not a precondition either: the walk ends with `Missing`, part one answers `None` and part two fails. The other panics that do not come from parsing become preconditions, listed next.
- GearRatios.PartOne: requires every row to be exactly as long as the first and every marked cell to be interior, with all eight neighbours on the grid. The source takes the width `cols` from the first row (`src/bin/03.rs:18`). It panics on an empty input, on a row too short for a column it reads, and on a marked cell in the top row, bottom row or first column (`row - 1` or `col - 1` cast to `usize`). It accepts rows longer than the first: it scans and expands numbers only within `cols` columns, so a number crossing that width is read cut short, and a digit just past it can even be read as an empty number, whose parse panics. The model excludes such grids and does not capture that behaviour. GearRatios.PartTwo requires the same.
- Scratchcards.PartTwo: requires the cards to be numbered 1, 2, … in order, and every card's copies to exist. Otherwise the source indexes past the vector or copies the wrong card.
- MirageMaintenance.PartOne: requires every history to be non-empty; on an empty line the source's `seq[0]` panics. MirageMaintenance.PartTwo requires the same.
- SeedAlmanac.PartTwo: requires an even number of seeds. With an odd count, the source's `win[1]` panics on the last chunk.
- SeedAlmanac.Normalise: requires a map with at least one pair; on an empty map the source's `unwrap` panics. `SeedAlmanac.Parse` turns that case into `None`.
- BoatRace.Zip: the model parses every number of both lines before zipping. The source's iterators are lazy, so a malformed number past the end of the shorter line is never read there.
- CamelCards.TotalWinnings: the ranking is stated for hands of one length, as in the puzzle. For hands of different lengths, the source's `cmp` truncates at the shorter hand and is not a total order.
- Aho-Corasick (day 1) is a foreign library whose automaton is not modelled. Its overlapping matches are specified by the position where they end. The first match is the one ending earliest, and the last match the one ending latest. The model proves that no pattern of either part is a suffix of another, so at most one pattern ends at any position and the automaton's tie-breaking never arises.
- Hash-table iteration order is left unspecified, and no order is assumed:
  - day 3's set sums, which are proved independent of the order;
  - day 5's passthrough pairs, appended in any order before the final sort;
  - day 7's `max_by` on ties, which is proved not to change the kind;
  - day 8's start nodes, walked in any order.
- HauntedWasteland.PartTwo: the fold of `lcm` is proved to be a common multiple of the step counts and to equal their fold in the order visited. The model does not prove that its value is independent of that order in general; it proves this only for the example. Nor does it prove that the value is when all walks first stand on Z nodes together, which holds only for inputs whose walks cycle back at once.
- HauntedWasteland.LcmMultiple: states that `lcm` is a common multiple and equals `a * b / gcd(a, b)`, not that it is the least one.
- HauntedWasteland.Walk: the source's loops run forever when no goal is reachable. The model walks at most `fuel` steps and reports `OutOfFuel` beyond that, so an answer longer than the bound is not captured.
- Examples given as parsed values: the examples of days 2, 4, 5, 7 and 9 are stated as parsed games, cards, seeds and maps, entries and histories, not parsed from their raw text. No whole example input of these days is parsed. Round-trip lemmas cover their parsers on written values instead. Day 2's cover handfuls and game lines; `CubeConundrum.WrittenGameRoundTrip` reads back game lines whose handfuls name colours in any order and leave some out, the form of the example lines. Day 4's cover card lines and day 9's history lines. Day 7's cover cards, hands and entry lines (`CamelCards.CardCharRoundTrip`, `PrintThenParse`, `ParseThenPrint`, `PrintedEntry`). Day 5's cover single map lines (`SeedAlmanac.ParseFormatLine`). Days 1, 3 and 6 parse or scan their examples' text, and day 8 parses its examples' node lines as written out from the nodes.
- Day 5's part two enumerates every value of every seed range, like the source. Splitting ranges is not part of the code and is not modelled.
- The test modules serve only as the concrete examples proved about the model.
