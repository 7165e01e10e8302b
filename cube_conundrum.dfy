/** Day 2, Cube Conundrum: each game shows a few handfuls of red, green
    and blue cubes drawn from a bag. Part one sums the ids of the games
    possible with 12 red, 13 green and 14 blue cubes; part two sums the
    powers of the fewest cubes that make each game possible. */
module CubeConundrum {
  import opened Common

  /** `CubeSet`: one handful, a count per colour. */
  datatype CubeSet = CubeSet(red: nat, green: nat, blue: nat)

  /** `Game`: the id and the handfuls shown. */
  datatype Game = Game(id: nat, bag: seq<CubeSet>)

  datatype Color = Red | Green | Blue

  /** One "`qty` `colour`" item of a handful. */
  datatype Mention = Mention(qty: nat, color: Color)

  function Count(cs: CubeSet, c: Color): nat {
    match c
    case Red => cs.red
    case Green => cs.green
    case Blue => cs.blue
  }

  // ---------------------------------------------------------------------
  // Parsing one handful

  function ColorName(c: Color): string {
    match c
    case Red => "red"
    case Green => "green"
    case Blue => "blue"
  }

  /** The colour names the solver accepts; any other is an error. */
  function ColorOf(name: string): (r: Option<Color>)
    ensures r.Some? ==> ColorName(r.value) == name
    ensures r.None? ==> forall c: Color :: ColorName(c) != name
  {
    if name == "red" then Some(Red)
    else if name == "green" then Some(Green)
    else if name == "blue" then Some(Blue)
    else None
  }

  /** One item: a `u32` count, a single space and a colour name. */
  function ParseCube(cube: string): Option<Mention> {
    match SplitOnce(cube, ' ')
    case None => None
    case Some((qty, name)) =>
      match ParseUnsigned(qty, U32_MAX)
      case None => None
      case Some(n) =>
        match ColorOf(name)
        case None => None
        case Some(c) => Some(Mention(n, c))
  }

  /** The count of the last item naming `c`, or 0 when none does. */
  function LastQty(ms: seq<Mention>, c: Color): nat {
    if ms == [] then 0
    else if ms[|ms| - 1].color == c then ms[|ms| - 1].qty
    else LastQty(ms[..|ms| - 1], c)
  }

  /** A colour no item names counts 0. */
  lemma {:induction false} LastQtyAbsent(ms: seq<Mention>, c: Color)
    requires forall i :: 0 <= i < |ms| ==> ms[i].color != c
    ensures LastQty(ms, c) == 0
  {
    if ms != [] {
      var init := ms[..|ms| - 1];
      assert forall i :: 0 <= i < |init| ==> init[i] == ms[i];
      LastQtyAbsent(init, c);
    }
  }

  /** A later item naming a colour overrides the earlier ones: the count is
      that of the last item naming it. */
  lemma {:induction false} LastQtyLatest(ms: seq<Mention>, c: Color, k: nat)
    requires k < |ms| && ms[k].color == c
    requires forall j :: k < j < |ms| ==> ms[j].color != c
    ensures LastQty(ms, c) == ms[k].qty
  {
    if k < |ms| - 1 {
      var init := ms[..|ms| - 1];
      assert forall i :: 0 <= i < |init| ==> init[i] == ms[i];
      LastQtyLatest(init, c, k);
    }
  }

  lemma LastQtyOfThree(r: nat, g: nat, b: nat)
    ensures var ms := [Mention(r, Red), Mention(g, Green), Mention(b, Blue)];
      LastQty(ms, Red) == r && LastQty(ms, Green) == g && LastQty(ms, Blue) == b
  {
    var ms := [Mention(r, Red), Mention(g, Green), Mention(b, Blue)];
    LastQtyLatest(ms, Red, 0);
    LastQtyLatest(ms, Green, 1);
    LastQtyLatest(ms, Blue, 2);
  }

  /** What `parse_cube_set` computes: every item must parse, and each
      colour takes the count of its last item, 0 when it has none. */
  function CubeSetOf(s: string): Option<CubeSet> {
    match CollectAll(Split(s, ", "), ParseCube)
    case None => None
    case Some(ms) => Some(CubeSet(LastQty(ms, Red), LastQty(ms, Green), LastQty(ms, Blue)))
  }

  /** `parse_cube_set`: starts every colour at 0 and assigns each item's
      count to its colour in turn. */
  method ParseCubeSet(s: string) returns (r: Option<CubeSet>)
    ensures r == CubeSetOf(s)
  {
    var cubes := Split(s, ", ");
    var red, green, blue := 0, 0, 0;
    ghost var ms: seq<Mention> := [];
    for i := 0 to |cubes|
      invariant CollectAll(cubes[..i], ParseCube) == Some(ms)
      invariant red == LastQty(ms, Red) && green == LastQty(ms, Green) && blue == LastQty(ms, Blue)
    {
      var m := ParseCube(cubes[i]);
      if m.None? {
        CollectAllMeaning(cubes, ParseCube);
        return None;
      }
      ParsedPrefix(cubes, i, ms);
      match m.value.color {
        case Red => red := m.value.qty;
        case Green => green := m.value.qty;
        case Blue => blue := m.value.qty;
      }
      ms := ms + [m.value];
    }
    assert cubes[..|cubes|] == cubes;
    r := Some(CubeSet(red, green, blue));
  }

  /** One more item parsed. */
  lemma ParsedPrefix(cubes: seq<string>, i: nat, ms: seq<Mention>)
    requires i < |cubes| && CollectAll(cubes[..i], ParseCube) == Some(ms) && ParseCube(cubes[i]).Some?
    ensures CollectAll(cubes[..i + 1], ParseCube) == Some(ms + [ParseCube(cubes[i]).value])
  {
    assert cubes[..i + 1] == cubes[..i] + [cubes[i]];
    CollectAllSnoc(cubes[..i], ParseCube, cubes[i]);
  }

  // ---------------------------------------------------------------------
  // Parsing games

  /** `parse_bag`: handfuls separated by "; ". */
  function ParseBag(s: string): Option<seq<CubeSet>> {
    CollectAll(Split(s, "; "), CubeSetOf)
  }

  /** `parse_game`: "Game ", a `u32` id, ": " and the handfuls. */
  function ParseGame(line: string): Option<Game> {
    match SplitOnceOn(line, ": ")
    case None => None
    case Some((head, rest)) =>
      match StripPrefix(head, "Game ")
      case None => None
      case Some(idText) =>
        match ParseUnsigned(idText, U32_MAX)
        case None => None
        case Some(id) =>
          match ParseBag(rest)
          case None => None
          case Some(bag) => Some(Game(id, bag))
  }

  /** `parse`: one game per line. */
  function ParseGames(lines: seq<string>): Option<seq<Game>> {
    CollectAll(lines, ParseGame)
  }

  // ---------------------------------------------------------------------
  // Part one: possible games

  const RED_MAX: nat := 12
  const GREEN_MAX: nat := 13
  const BLUE_MAX: nat := 14

  predicate WithinLimits(cs: CubeSet) {
    cs.red <= RED_MAX && cs.green <= GREEN_MAX && cs.blue <= BLUE_MAX
  }

  predicate Possible(g: Game) {
    forall i :: 0 <= i < |g.bag| ==> WithinLimits(g.bag[i])
  }

  /** `is_game_possible`: the id exactly when no handful exceeds the
      limits. */
  method IsGamePossible(g: Game) returns (r: Option<nat>)
    ensures r.Some? <==> forall i :: 0 <= i < |g.bag| ==> WithinLimits(g.bag[i])
    ensures r.Some? ==> r.value == g.id
  {
    for i := 0 to |g.bag|
      invariant forall j :: 0 <= j < i ==> WithinLimits(g.bag[j])
    {
      var cs := g.bag[i];
      if cs.red > RED_MAX || cs.green > GREEN_MAX || cs.blue > BLUE_MAX {
        return None;
      }
    }
    return Some(g.id);
  }

  /** `part_one`: the sum of the ids of the possible games. */
  function PartOne(games: seq<Game>): nat {
    if games == [] then 0
    else PartOne(games[..|games| - 1]) + (if Possible(games[|games| - 1]) then games[|games| - 1].id else 0)
  }

  // ---------------------------------------------------------------------
  // Part two: the fewest cubes

  function Max(a: nat, b: nat): nat {
    if a >= b then a else b
  }

  /** The largest count of each colour over the handfuls, 0 for none. */
  function Fewest(bag: seq<CubeSet>): CubeSet {
    if bag == [] then CubeSet(0, 0, 0)
    else
      var f, cs := Fewest(bag[..|bag| - 1]), bag[|bag| - 1];
      CubeSet(Max(f.red, cs.red), Max(f.green, cs.green), Max(f.blue, cs.blue))
  }

  predicate Covers(big: CubeSet, small: CubeSet) {
    small.red <= big.red && small.green <= big.green && small.blue <= big.blue
  }

  /** `Fewest` covers every handful. */
  lemma {:induction false} FewestCovers(bag: seq<CubeSet>)
    ensures forall i :: 0 <= i < |bag| ==> Covers(Fewest(bag), bag[i])
  {
    if bag != [] {
      var init := bag[..|bag| - 1];
      FewestCovers(init);
      forall i | 0 <= i < |bag| ensures Covers(Fewest(bag), bag[i]) {
        if i < |init| {
          assert bag[i] == init[i];
        }
      }
    }
  }

  /** Every set covering all handfuls covers `Fewest`: it is the fewest
      cubes that make the game possible. */
  lemma {:induction false} FewestIsLeast(bag: seq<CubeSet>, b: CubeSet)
    requires forall i :: 0 <= i < |bag| ==> Covers(b, bag[i])
    ensures Covers(b, Fewest(bag))
  {
    if bag != [] {
      var init := bag[..|bag| - 1];
      assert forall i :: 0 <= i < |init| ==> init[i] == bag[i];
      FewestIsLeast(init, b);
      assert Covers(b, bag[|bag| - 1]);
    }
  }

  /** Each colour's largest count is 0 or is the count of some handful. */
  lemma {:induction false} FewestAttained(bag: seq<CubeSet>, c: Color)
    ensures Count(Fewest(bag), c) == 0 || exists i :: 0 <= i < |bag| && Count(bag[i], c) == Count(Fewest(bag), c)
  {
    if bag != [] {
      var init := bag[..|bag| - 1];
      FewestAttained(init, c);
      if Count(Fewest(bag), c) != Count(bag[|bag| - 1], c) && Count(Fewest(init), c) != 0 {
        var i :| 0 <= i < |init| && Count(init[i], c) == Count(Fewest(init), c);
        assert bag[i] == init[i];
      }
    }
  }

  /** The power of a game: the product of the fewest counts. */
  function Power(bag: seq<CubeSet>): nat {
    var f := Fewest(bag);
    f.red * f.green * f.blue
  }

  /** `power_of_game`: running maxima of the three colours, multiplied. */
  method PowerOfGame(g: Game) returns (power: nat)
    ensures power == Power(g.bag)
  {
    var minRed, minGreen, minBlue := 0, 0, 0;
    for i := 0 to |g.bag|
      invariant CubeSet(minRed, minGreen, minBlue) == Fewest(g.bag[..i])
    {
      assert g.bag[..i + 1][..i] == g.bag[..i];
      var cs := g.bag[i];
      minRed := Max(minRed, cs.red);
      minGreen := Max(minGreen, cs.green);
      minBlue := Max(minBlue, cs.blue);
    }
    assert g.bag[..|g.bag|] == g.bag;
    power := minRed * minGreen * minBlue;
  }

  /** A colour that no handful shows makes the power 0 ... */
  lemma PowerZeroOfAbsent(bag: seq<CubeSet>, c: Color)
    requires forall i :: 0 <= i < |bag| ==> Count(bag[i], c) == 0
    ensures Power(bag) == 0
  {
    FewestAttained(bag, c);
    var f := Fewest(bag);
    assert Count(f, c) == 0;
  }

  /** ... and a power of 0 means some colour is absent from every handful. */
  lemma AbsentOfPowerZero(bag: seq<CubeSet>) returns (c: Color)
    requires Power(bag) == 0
    ensures forall i :: 0 <= i < |bag| ==> Count(bag[i], c) == 0
  {
    var f := Fewest(bag);
    FewestCovers(bag);
    c := if f.red == 0 then Red else if f.green == 0 then Green else Blue;
    forall i | 0 <= i < |bag| ensures Count(bag[i], c) == 0 {
      assert Covers(f, bag[i]);
    }
  }

  /** `part_two`: the sum of the powers. */
  function PartTwo(games: seq<Game>): nat {
    if games == [] then 0 else PartTwo(games[..|games| - 1]) + Power(games[|games| - 1].bag)
  }

  // ---------------------------------------------------------------------
  // Printing, and parsing what was printed

  function CubeText(qty: nat, c: Color): string {
    DecimalString(qty) + " " + ColorName(c)
  }

  /** A handful with all three colours written out. */
  function SetText(cs: CubeSet): string {
    Join([CubeText(cs.red, Red), CubeText(cs.green, Green), CubeText(cs.blue, Blue)], ", ")
  }

  function SetTexts(bag: seq<CubeSet>): (ts: seq<string>)
    ensures |ts| == |bag| && forall i :: 0 <= i < |bag| ==> ts[i] == SetText(bag[i])
  {
    seq(|bag|, i requires 0 <= i < |bag| => SetText(bag[i]))
  }

  function GameLine(g: Game): string
    requires |g.bag| >= 1
  {
    "Game " + DecimalString(g.id) + ": " + Join(SetTexts(g.bag), "; ")
  }

  lemma DigitsAvoid(n: nat, c: char)
    requires !IsDigit(c)
    ensures c !in DecimalString(n)
  {
  }

  lemma ParseCubeOf(qty: nat, c: Color)
    requires qty <= U32_MAX
    ensures ParseCube(CubeText(qty, c)) == Some(Mention(qty, c))
  {
    DigitsAvoid(qty, ' ');
    SplitAtFirst(DecimalString(qty), ColorName(c), ' ');
    ParseUnsignedRoundTrip(qty, U32_MAX);
  }

  lemma CubeTextAvoids(qty: nat, c: Color, x: char)
    requires !IsDigit(x) && x != ' ' && x !in ColorName(c)
    ensures x !in CubeText(qty, c)
  {
    DigitsAvoid(qty, x);
  }

  lemma SetTextPieces(cs: CubeSet)
    ensures Split(SetText(cs), ", ") == [CubeText(cs.red, Red), CubeText(cs.green, Green), CubeText(cs.blue, Blue)]
  {
    CubeTextAvoids(cs.red, Red, ',');
    CubeTextAvoids(cs.green, Green, ',');
    CubeTextAvoids(cs.blue, Blue, ',');
    SplitJoin([CubeText(cs.red, Red), CubeText(cs.green, Green), CubeText(cs.blue, Blue)], ", ");
  }

  /** A handful written out is read back. */
  lemma SetTextRoundTrip(cs: CubeSet)
    requires cs.red <= U32_MAX && cs.green <= U32_MAX && cs.blue <= U32_MAX
    ensures CubeSetOf(SetText(cs)) == Some(cs)
  {
    SetTextPieces(cs);
    var ts := [CubeText(cs.red, Red), CubeText(cs.green, Green), CubeText(cs.blue, Blue)];
    var ms := [Mention(cs.red, Red), Mention(cs.green, Green), Mention(cs.blue, Blue)];
    ParseCubeOf(cs.red, Red);
    ParseCubeOf(cs.green, Green);
    ParseCubeOf(cs.blue, Blue);
    CollectAllOf(ts, ParseCube, ms);
    LastQtyOfThree(cs.red, cs.green, cs.blue);
  }

  lemma SetTextAvoids(cs: CubeSet, x: char)
    requires !IsDigit(x) && x != ' ' && x != ',' && x !in "red" && x !in "green" && x !in "blue"
    ensures x !in SetText(cs)
  {
    var ts := [CubeText(cs.red, Red), CubeText(cs.green, Green), CubeText(cs.blue, Blue)];
    CubeTextAvoids(cs.red, Red, x);
    CubeTextAvoids(cs.green, Green, x);
    CubeTextAvoids(cs.blue, Blue, x);
    JoinAvoids(ts, ", ", x);
  }

  /** A game written out is read back. */
  lemma GameLineRoundTrip(g: Game)
    requires |g.bag| >= 1 && g.id <= U32_MAX
    requires forall i :: 0 <= i < |g.bag| ==> g.bag[i].red <= U32_MAX && g.bag[i].green <= U32_MAX && g.bag[i].blue <= U32_MAX
    ensures ParseGame(GameLine(g)) == Some(g)
  {
    var head, ts := "Game " + DecimalString(g.id), SetTexts(g.bag);
    var rest := Join(ts, "; ");
    DigitsAvoid(g.id, ':');
    SplitOnceOnAt(head, ": ", rest);
    StripPrefixOf("Game ", DecimalString(g.id));
    ParseUnsignedRoundTrip(g.id, U32_MAX);
    forall i | 0 <= i < |ts| ensures ';' !in ts[i] && CubeSetOf(ts[i]) == Some(g.bag[i]) {
      SetTextAvoids(g.bag[i], ';');
      SetTextRoundTrip(g.bag[i]);
    }
    SplitJoin(ts, "; ");
    CollectAllOf(ts, CubeSetOf, g.bag);
  }

  /** The text of a handful as the input writes it: its items in any
      order, a colour named once, twice or not at all. */
  function MentionsText(ms: seq<Mention>): string
    requires |ms| >= 1
  {
    Join(MentionTexts(ms), ", ")
  }

  function MentionTexts(ms: seq<Mention>): (ts: seq<string>)
    ensures |ts| == |ms| && forall i :: 0 <= i < |ms| ==> ts[i] == CubeText(ms[i].qty, ms[i].color)
  {
    seq(|ms|, i requires 0 <= i < |ms| => CubeText(ms[i].qty, ms[i].color))
  }

  /** The counts a handful's items leave: the last one of each colour. */
  function Tallied(ms: seq<Mention>): CubeSet {
    CubeSet(LastQty(ms, Red), LastQty(ms, Green), LastQty(ms, Blue))
  }

  /** A handful written in any order is read as the last count of each
      colour, 0 for a colour it does not name. */
  lemma MentionsRoundTrip(ms: seq<Mention>)
    requires |ms| >= 1 && forall i :: 0 <= i < |ms| ==> ms[i].qty <= U32_MAX
    ensures CubeSetOf(MentionsText(ms)) == Some(Tallied(ms))
  {
    var ts := MentionTexts(ms);
    forall i | 0 <= i < |ts| ensures ',' !in ts[i] && ParseCube(ts[i]) == Some(ms[i]) {
      CubeTextAvoids(ms[i].qty, ms[i].color, ',');
      ParseCubeOf(ms[i].qty, ms[i].color);
    }
    SplitJoin(ts, ", ");
    CollectAllOf(ts, ParseCube, ms);
  }

  lemma MentionsAvoid(ms: seq<Mention>, x: char)
    requires |ms| >= 1
    requires !IsDigit(x) && x != ' ' && x != ',' && x !in "red" && x !in "green" && x !in "blue"
    ensures x !in MentionsText(ms)
  {
    var ts := MentionTexts(ms);
    forall i | 0 <= i < |ts| ensures x !in ts[i] {
      CubeTextAvoids(ms[i].qty, ms[i].color, x);
    }
    JoinAvoids(ts, ", ", x);
  }

  predicate NonEmptyHandfuls(hs: seq<seq<Mention>>) {
    |hs| >= 1 && forall i :: 0 <= i < |hs| ==> |hs[i]| >= 1
  }

  function HandfulTexts(hs: seq<seq<Mention>>): (ts: seq<string>)
    requires NonEmptyHandfuls(hs)
    ensures |ts| == |hs| && forall i :: 0 <= i < |hs| ==> ts[i] == MentionsText(hs[i])
  {
    seq(|hs|, i requires 0 <= i < |hs| => MentionsText(hs[i]))
  }

  function TalliedAll(hs: seq<seq<Mention>>): (bag: seq<CubeSet>)
    ensures |bag| == |hs| && forall i :: 0 <= i < |hs| ==> bag[i] == Tallied(hs[i])
  {
    seq(|hs|, i requires 0 <= i < |hs| => Tallied(hs[i]))
  }

  /** A game line as the input writes it, each handful's items in any order. */
  function WrittenGameLine(id: nat, hs: seq<seq<Mention>>): string
    requires NonEmptyHandfuls(hs)
  {
    "Game " + DecimalString(id) + ": " + Join(HandfulTexts(hs), "; ")
  }

  /** A game line written with its items in any order is read as the game
      whose handfuls hold the last count of each colour. */
  lemma WrittenGameRoundTrip(id: nat, hs: seq<seq<Mention>>)
    requires NonEmptyHandfuls(hs) && id <= U32_MAX
    requires forall i, j :: 0 <= i < |hs| && 0 <= j < |hs[i]| ==> hs[i][j].qty <= U32_MAX
    ensures ParseGame(WrittenGameLine(id, hs)) == Some(Game(id, TalliedAll(hs)))
  {
    var ts := HandfulTexts(hs);
    forall i | 0 <= i < |ts| ensures ';' !in ts[i] && CubeSetOf(ts[i]) == Some(TalliedAll(hs)[i]) {
      HandfulOf(ts[i], hs[i], TalliedAll(hs)[i]);
    }
    GameOfTexts(id, ts, TalliedAll(hs));
  }

  /** A handful's text read back, and free of the game separator. */
  lemma HandfulOf(t: string, ms: seq<Mention>, cs: CubeSet)
    requires |ms| >= 1 && forall i :: 0 <= i < |ms| ==> ms[i].qty <= U32_MAX
    requires t == MentionsText(ms) && cs == Tallied(ms)
    ensures ';' !in t && CubeSetOf(t) == Some(cs)
  {
    MentionsAvoid(ms, ';');
    MentionsRoundTrip(ms);
  }

  /** A game line whose handful texts read as `bag` reads as the game. */
  lemma GameOfTexts(id: nat, ts: seq<string>, bag: seq<CubeSet>)
    requires |ts| >= 1 && |ts| == |bag| && id <= U32_MAX
    requires forall i :: 0 <= i < |ts| ==> ';' !in ts[i] && CubeSetOf(ts[i]) == Some(bag[i])
    ensures ParseGame("Game " + DecimalString(id) + ": " + Join(ts, "; ")) == Some(Game(id, bag))
  {
    var head, rest := "Game " + DecimalString(id), Join(ts, "; ");
    DigitsAvoid(id, ':');
    SplitOnceOnAt(head, ": ", rest);
    StripPrefixOf("Game ", DecimalString(id));
    ParseUnsignedRoundTrip(id, U32_MAX);
    SplitJoin(ts, "; ");
    CollectAllOf(ts, CubeSetOf, bag);
  }

  // ---------------------------------------------------------------------
  // The example of the puzzle statement

  predicate ExampleGames(games: seq<Game>) {
    games == [
      Game(1, [CubeSet(4, 0, 3), CubeSet(1, 2, 6), CubeSet(0, 2, 0)]),
      Game(2, [CubeSet(0, 2, 1), CubeSet(1, 3, 4), CubeSet(0, 1, 1)]),
      Game(3, [CubeSet(20, 8, 6), CubeSet(4, 13, 5), CubeSet(1, 5, 0)]),
      Game(4, [CubeSet(3, 1, 6), CubeSet(6, 3, 0), CubeSet(14, 3, 15)]),
      Game(5, [CubeSet(6, 3, 1), CubeSet(1, 2, 2)])]
  }

  lemma FewestOfThree(a: CubeSet, b: CubeSet, c: CubeSet)
    ensures Fewest([a, b, c]) == CubeSet(Max(Max(a.red, b.red), c.red), Max(Max(a.green, b.green), c.green), Max(Max(a.blue, b.blue), c.blue))
  {
    FewestOfTwo(a, b);
    assert [a, b, c][..2] == [a, b];
  }

  lemma FewestOfTwo(a: CubeSet, b: CubeSet)
    ensures Fewest([a, b]) == CubeSet(Max(a.red, b.red), Max(a.green, b.green), Max(a.blue, b.blue))
  {
    assert [a][..0] == [];
    assert Fewest([a]) == a;
    assert [a, b][..1] == [a];
  }

  lemma ExamplePowers(games: seq<Game>)
    requires ExampleGames(games)
    ensures Power(games[0].bag) == 48 && Power(games[1].bag) == 12 && Power(games[2].bag) == 1560
    ensures Power(games[3].bag) == 630 && Power(games[4].bag) == 36
  {
    FewestOfThree(CubeSet(4, 0, 3), CubeSet(1, 2, 6), CubeSet(0, 2, 0));
    FewestOfThree(CubeSet(0, 2, 1), CubeSet(1, 3, 4), CubeSet(0, 1, 1));
    FewestOfThree(CubeSet(20, 8, 6), CubeSet(4, 13, 5), CubeSet(1, 5, 0));
    FewestOfThree(CubeSet(3, 1, 6), CubeSet(6, 3, 0), CubeSet(14, 3, 15));
    FewestOfTwo(CubeSet(6, 3, 1), CubeSet(1, 2, 2));
  }

  lemma ExamplePossible(games: seq<Game>)
    requires ExampleGames(games)
    ensures Possible(games[0]) && Possible(games[1]) && !Possible(games[2])
    ensures !Possible(games[3]) && Possible(games[4])
  {
    assert !WithinLimits(games[2].bag[0]);
    assert !WithinLimits(games[3].bag[2]);
  }

  /** Games 1, 2 and 5 are possible, with ids summing to 8; the powers are
      48, 12, 1560, 630 and 36, summing to 2286. */
  lemma ExampleParts(games: seq<Game>)
    requires ExampleGames(games)
    ensures PartOne(games) == 8 && PartTwo(games) == 2286
  {
    ExamplePowers(games);
    ExamplePossible(games);
    assert games[..1][..0] == [];
    assert PartOne(games[..1]) == 1 && PartTwo(games[..1]) == 48;
    assert games[..2][..1] == games[..1];
    assert PartOne(games[..2]) == 3 && PartTwo(games[..2]) == 60;
    assert games[..3][..2] == games[..2];
    assert PartOne(games[..3]) == 3 && PartTwo(games[..3]) == 1620;
    assert games[..4][..3] == games[..3];
    assert PartOne(games[..4]) == 3 && PartTwo(games[..4]) == 2250;
    assert games[..5][..4] == games[..4];
    assert games[..5] == games;
  }
}
