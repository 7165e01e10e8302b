/** Day 4, Scratchcards: each card lists winning numbers and picked
    numbers. Part one scores each card by doubling per match; part two
    wins copies of the cards that follow and counts the cards in the end. */
module Scratchcards {

  import opened Common

  datatype Card = Card(num: nat, winning: seq<nat>, picked: seq<nat>)

  // ---------------------------------------------------------------------
  // Matches and points

  /** How many entries of `picked`, counted with repetition, occur in
      `winning`. */
  function MatchCount(picked: seq<nat>, winning: seq<nat>): nat {
    if picked == [] then 0
    else MatchCount(picked[..|picked| - 1], winning) + (if picked[|picked| - 1] in winning then 1 else 0)
  }

  /** `Card::matches`: the picked numbers that win. */
  function Matches(card: Card): (m: nat)
    ensures m <= |card.picked|
    ensures m == 0 <==> forall i :: 0 <= i < |card.picked| ==> card.picked[i] !in card.winning
    ensures m == |card.picked| <==> forall i :: 0 <= i < |card.picked| ==> card.picked[i] in card.winning
  {
    MatchCountBounds(card.picked, card.winning);
    MatchCount(card.picked, card.winning)
  }

  lemma {:induction false} MatchCountBounds(picked: seq<nat>, winning: seq<nat>)
    ensures MatchCount(picked, winning) <= |picked|
    ensures MatchCount(picked, winning) == 0 <==> forall i :: 0 <= i < |picked| ==> picked[i] !in winning
    ensures MatchCount(picked, winning) == |picked| <==> forall i :: 0 <= i < |picked| ==> picked[i] in winning
  {
    if picked != [] {
      var init := picked[..|picked| - 1];
      MatchCountBounds(init, winning);
      assert forall i :: 0 <= i < |init| ==> init[i] == picked[i];
    }
  }

  function Pow2(n: nat): (p: nat)
    ensures p >= 1
  {
    if n == 0 then 1 else 2 * Pow2(n - 1)
  }

  /** The score of a card with `k` matches: none scores 0, the first match
      scores 1 and every further match doubles the score. */
  function Score(k: nat): nat {
    if k == 0 then 0 else Pow2(k - 1)
  }

  /** `Card::points`: the loop over the picked numbers. */
  method Points(card: Card) returns (points: nat)
    ensures points == Score(Matches(card))
    ensures points == 0 <==> Matches(card) == 0
  {
    points := 0;
    for i := 0 to |card.picked|
      invariant points == Score(MatchCount(card.picked[..i], card.winning))
    {
      assert card.picked[..i + 1][..i] == card.picked[..i];
      if card.picked[i] in card.winning {
        if points == 0 {
          points := 1;
        } else {
          points := points * 2;
        }
      }
    }
    assert card.picked[..|card.picked|] == card.picked;
  }

  /** Sum of the scores of the cards. */
  function TotalScore(cards: seq<Card>): nat {
    if cards == [] then 0 else TotalScore(cards[..|cards| - 1]) + Score(Matches(cards[|cards| - 1]))
  }

  /** `part_one`: the sum of the cards' points. */
  method PartOne(cards: seq<Card>) returns (sum: nat)
    ensures sum == TotalScore(cards)
  {
    sum := 0;
    for i := 0 to |cards|
      invariant sum == TotalScore(cards[..i])
    {
      assert cards[..i + 1][..i] == cards[..i];
      var p := Points(cards[i]);
      sum := sum + p;
    }
    assert cards[..|cards|] == cards;
  }

  // ---------------------------------------------------------------------
  // Copies

  /** An entry of `part_two`'s vector: a card number and its matches. */
  type Entry = (nat, nat)

  /** The vector `part_two` starts from: each card's number and matches. */
  function Entries(cards: seq<Card>): (es: seq<Entry>)
    ensures |es| == |cards| && forall k :: 0 <= k < |cards| ==> es[k] == (cards[k].num, Matches(cards[k]))
  {
    seq(|cards|, k requires 0 <= k < |cards| => (cards[k].num, Matches(cards[k])))
  }

  /** Entry `k` (0-based) is card `k + 1`, and the cards it wins,
      `k + 1 .. k + matches`, all exist. */
  predicate WellFormed(table: seq<Entry>) {
    forall k :: 0 <= k < |table| ==> table[k].0 == k + 1 && k + 1 + table[k].1 <= |table|
  }

  /** The input's cards are numbered 1, 2, ... in order and every card's
      copies exist. */
  predicate WellNumbered(cards: seq<Card>) {
    WellFormed(Entries(cards))
  }

  /** The number of cards one instance of card `k + 1` ends up as: itself
      and everything its won copies yield in turn. */
  function Yield(table: seq<Entry>, k: nat): (n: nat)
    requires WellFormed(table) && k < |table|
    ensures n >= 1
    decreases |table| - k, 1
  {
    1 + YieldRange(table, k + 1, k + 1 + table[k].1)
  }

  /** The yields of cards `a + 1 .. b` added up. */
  function YieldRange(table: seq<Entry>, a: nat, b: nat): (n: nat)
    requires WellFormed(table) && a <= b <= |table|
    ensures n >= b - a
    decreases |table| - a, 2
  {
    if a == b then 0 else Yield(table, a) + YieldRange(table, a + 1, b)
  }

  /** The yield of one queue entry: that of the card it names. */
  function Weight(table: seq<Entry>, q: Entry): nat
    requires WellFormed(table)
  {
    if 1 <= q.0 <= |table| then Yield(table, q.0 - 1) else 0
  }

  /** The yields of the entries of a queue added up. */
  function Work(table: seq<Entry>, queue: seq<Entry>): nat
    requires WellFormed(table)
  {
    if queue == [] then 0 else Work(table, queue[..|queue| - 1]) + Weight(table, queue[|queue| - 1])
  }

  /** Every entry of the queue is a copy of an entry of the table. */
  ghost predicate CopiesOf(queue: seq<Entry>, table: seq<Entry>) {
    forall q :: q in queue ==> 1 <= q.0 <= |table| && q == table[q.0 - 1]
  }

  /** The loop of `part_two`: the queue grows while `pos` scans it; each
      entry appends copies of the entries of the cards it wins. The final
      queue keeps the table in front, holds only copies of its entries, and
      has as many entries as the cards yield. */
  method CopyQueue(table: seq<Entry>) returns (queue: seq<Entry>)
    requires WellFormed(table)
    ensures |table| <= |queue| && queue[..|table|] == table
    ensures |queue| == YieldRange(table, 0, |table|)
    ensures CopiesOf(queue, table)
  {
    queue := table;
    QueueStart(table);
    var pos := 0;
    while pos < |queue|
      invariant QueueInvariant(table, queue, pos)
      decreases YieldRange(table, 0, |table|) - pos
    {
      QueueNext(table, queue, pos);
      ghost var before := queue;
      queue := PushWon(queue, queue[pos].0, queue[pos].1);
      QueueAdvance(table, before, queue, pos);
      pos := pos + 1;
    }
    QueueEnd(table, queue, pos);
  }

  /** What the loop of `part_two` keeps: the table in front, only copies
      of its entries, and `pos` plus the yields of the entries not yet
      scanned adding up to the final length. */
  ghost predicate QueueInvariant(table: seq<Entry>, queue: seq<Entry>, pos: nat) {
    && WellFormed(table) && pos <= |queue| && |table| <= |queue|
    && queue[..|table|] == table && CopiesOf(queue, table)
    && pos + Work(table, queue[pos..]) == YieldRange(table, 0, |table|)
  }

  /** The queue starts as the table, with nothing scanned. */
  lemma QueueStart(table: seq<Entry>)
    requires WellFormed(table)
    ensures QueueInvariant(table, table, 0)
  {
    WorkOfOriginals(table, 0, |table|);
    assert table[0..|table|] == table[0..];
  }

  /** Once every entry is scanned, the queue is as long as the cards yield. */
  lemma QueueEnd(table: seq<Entry>, queue: seq<Entry>, pos: nat)
    requires QueueInvariant(table, queue, pos) && pos >= |queue|
    ensures |queue| == YieldRange(table, 0, |table|)
  {
    assert queue[pos..] == [];
  }

  /** The cards the entry at `pos` wins lie inside the queue. */
  lemma QueueNext(table: seq<Entry>, queue: seq<Entry>, pos: nat)
    requires QueueInvariant(table, queue, pos) && pos < |queue|
    ensures queue[pos].0 + queue[pos].1 <= |queue|
  {
    CopyBounds(table, queue, pos);
  }

  /** The inner loop of `part_two`: appends copies of the `m` entries
      from index `num` on. */
  method PushWon(queue: seq<Entry>, num: nat, m: nat) returns (grown: seq<Entry>)
    requires num + m <= |queue|
    ensures grown == queue + queue[num..num + m]
  {
    grown := queue;
    for i := 0 to m
      invariant grown == queue + queue[num..num + i]
    {
      assert queue[num..num + i + 1] == queue[num..num + i] + [queue[num + i]];
      grown := grown + [grown[num + i]];
    }
  }

  /** The entry at `pos` is a copy of a table entry, and names the cards it
      wins, which lie among the table entries at the front of the queue. */
  lemma {:induction false} CopyBounds(table: seq<Entry>, queue: seq<Entry>, pos: nat)
    requires WellFormed(table) && pos < |queue| && |table| <= |queue|
    requires queue[..|table|] == table && CopiesOf(queue, table)
    ensures 1 <= queue[pos].0 <= |table| && queue[pos] == table[queue[pos].0 - 1]
    ensures queue[pos].0 + queue[pos].1 <= |table|
    ensures queue[queue[pos].0..queue[pos].0 + queue[pos].1] == table[queue[pos].0..queue[pos].0 + queue[pos].1]
  {
    assert queue[pos] in queue;
    assert queue[..|table|][queue[pos].0..queue[pos].0 + queue[pos].1] == queue[queue[pos].0..queue[pos].0 + queue[pos].1];
  }

  /** One turn of the loop of `part_two` keeps its invariant and uses up
      one unit of the remaining work. */
  lemma QueueAdvance(table: seq<Entry>, before: seq<Entry>, after: seq<Entry>, pos: nat)
    requires QueueInvariant(table, before, pos) && pos < |before|
    requires before[pos].0 + before[pos].1 <= |before|
    requires after == before + before[before[pos].0..before[pos].0 + before[pos].1]
    ensures QueueInvariant(table, after, pos + 1)
  {
    CopyBounds(table, before, pos);
    QueueCopies(table, before, after, pos);
    QueueStep(table, before, after, pos);
  }

  /** Processing one entry keeps the table in front and appends only copies
      of entries already in the queue. */
  lemma {:induction false} QueueCopies(table: seq<Entry>, before: seq<Entry>, after: seq<Entry>, pos: nat)
    requires pos < |before| && |table| <= |before|
    requires before[..|table|] == table && CopiesOf(before, table)
    requires before[pos].0 + before[pos].1 <= |table|
    requires after == before + table[before[pos].0..before[pos].0 + before[pos].1]
    ensures |table| <= |after| && after[..|table|] == table && CopiesOf(after, table)
  {
    var won := table[before[pos].0..before[pos].0 + before[pos].1];
    assert after[..|table|] == before[..|table|];
    forall q | q in after ensures q in before {
      if q in won {
        var j :| 0 <= j < |won| && won[j] == q;
        assert q == before[..|table|][before[pos].0 + j];
      }
    }
  }

  /** Processing one entry replaces its yield by the yields of the entries
      it appends, which add up to one less. */
  lemma {:induction false} QueueStep(table: seq<Entry>, before: seq<Entry>, after: seq<Entry>, pos: nat)
    requires WellFormed(table) && pos < |before|
    requires 1 <= before[pos].0 <= |table| && before[pos] == table[before[pos].0 - 1]
    requires after == before + table[before[pos].0..before[pos].0 + before[pos].1]
    ensures Work(table, after[pos + 1..]) + 1 == Work(table, before[pos..])
  {
    var k := before[pos].0 - 1;
    var rest := before[pos + 1..];
    assert after[pos + 1..] == rest + table[k + 1..k + 1 + table[k].1];
    WonWork(table, rest, k);
    assert before[pos..] == [before[pos]] + rest;
    HeadWork(table, before[pos], rest);
  }

  /** The won entries appended behind `rest` add their yields. */
  lemma {:induction false} WonWork(table: seq<Entry>, rest: seq<Entry>, k: nat)
    requires WellFormed(table) && k < |table|
    ensures Work(table, rest + table[k + 1..k + 1 + table[k].1]) == Work(table, rest) + YieldRange(table, k + 1, k + 1 + table[k].1)
  {
    WorkAppend(table, rest, table[k + 1..k + 1 + table[k].1]);
    WorkOfOriginals(table, k + 1, k + 1 + table[k].1);
  }

  /** An entry in front of `rest` adds the yield of its card. */
  lemma {:induction false} HeadWork(table: seq<Entry>, x: Entry, rest: seq<Entry>)
    requires WellFormed(table) && 1 <= x.0 <= |table|
    ensures Work(table, [x] + rest) == Yield(table, x.0 - 1) + Work(table, rest)
  {
    WorkAppend(table, [x], rest);
    assert [x][..0] == rest[..0];
  }

  /** The yields of a queue split where the queue is split. */
  lemma {:induction false} WorkAppend(table: seq<Entry>, a: seq<Entry>, b: seq<Entry>)
    requires WellFormed(table)
    ensures Work(table, a + b) == Work(table, a) + Work(table, b)
    decreases |b|
  {
    if b != [] {
      var init := b[..|b| - 1];
      assert (a + b)[..|a + b| - 1] == a + init;
      WorkAppend(table, a, init);
    } else {
      assert a + b == a;
    }
  }

  /** The table entries at `a .. b - 1` yield `YieldRange(a, b)`. */
  lemma {:induction false} WorkOfOriginals(table: seq<Entry>, a: nat, b: nat)
    requires WellFormed(table) && a <= b <= |table|
    ensures Work(table, table[a..b]) == YieldRange(table, a, b)
    decreases b - a
  {
    if a < b {
      WorkOfOriginals(table, a + 1, b);
      var rest := table[a + 1..b];
      assert table[a..b] == [table[a]] + rest;
      WorkAppend(table, [table[a]], rest);
      assert Work(table, [table[a]]) == Weight(table, table[a]) by {
        assert [table[a]][..0] == table[a..a];
      }
    }
  }

  /** `part_two`: the number of cards at the end, which counts every card
      of the input at least once. */
  method PartTwo(cards: seq<Card>) returns (total: nat)
    requires WellNumbered(cards)
    ensures total == YieldRange(Entries(cards), 0, |cards|)
    ensures total >= |cards|
  {
    var queue := CopyQueue(Entries(cards));
    total := |queue|;
  }

  // ---------------------------------------------------------------------
  // Parsing

  /** `parse_cards`, one line: `Card`, the number after optional white
      space, `:`, the winning numbers, `|`, the picked numbers. Every step
      that unwraps in the source fails here with `None`. */
  function ParseCard(line: string): Option<Card> {
    match SplitOnce(line, ':')
    case None => None
    case Some((head, numbers)) =>
      match StripPrefix(head, "Card")
      case None => None
      case Some(rest) =>
        match ParseUnsigned(TrimStart(rest), U64_MAX)
        case None => None
        case Some(num) =>
          match SplitOnce(numbers, '|')
          case None => None
          case Some((w, p)) =>
            match (ParseNumbers(Words(w), U32_MAX), ParseNumbers(Words(p), U32_MAX))
            case (Some(winning), Some(picked)) => Some(Card(num, winning, picked))
            case _ => None
  }

  /** `parse_cards`: every line must parse. */
  function ParseCards(lines: seq<string>): Option<seq<Card>> {
    CollectAll(lines, ParseCard)
  }

  /** A card written out as the puzzle input shows it. */
  function CardLine(c: Card): string {
    "Card " + DecimalString(c.num) + ": " + NumbersText(c.winning) + "| " + NumbersText(c.picked)
  }

  /** A card whose numbers fit their Rust types is read back from its line. */
  lemma ParseCardRoundTrip(c: Card)
    requires c.num <= U64_MAX
    requires forall i :: 0 <= i < |c.winning| ==> c.winning[i] <= U32_MAX
    requires forall i :: 0 <= i < |c.picked| ==> c.picked[i] <= U32_MAX
    ensures ParseCard(CardLine(c)) == Some(c)
  {
    var d, tw, tp := DecimalString(c.num), NumbersText(c.winning), NumbersText(c.picked);
    var numbers := " " + tw + "| " + tp;
    SplitHead(d, numbers);
    assert CardLine(c) == "Card " + d + [':'] + numbers;
    ReadNumber(c.num);
    SplitNumbers(tw, tp, c.winning);
    LeadingSpace(tw);
    LeadingSpace(tp);
    NumbersTextRoundTrip(c.winning, U32_MAX);
    NumbersTextRoundTrip(c.picked, U32_MAX);
    ParseCardSteps(CardLine(c), "Card " + d, numbers, " " + d, " " + tw, " " + tp, c);
  }

  /** `ParseCard` succeeds when each of its steps does. */
  lemma ParseCardSteps(line: string, head: string, numbers: string, rest: string, w: string, p: string, c: Card)
    requires SplitOnce(line, ':') == Some((head, numbers))
    requires StripPrefix(head, "Card") == Some(rest) && ParseUnsigned(TrimStart(rest), U64_MAX) == Some(c.num)
    requires SplitOnce(numbers, '|') == Some((w, p))
    requires ParseNumbers(Words(w), U32_MAX) == Some(c.winning) && ParseNumbers(Words(p), U32_MAX) == Some(c.picked)
    ensures ParseCard(line) == Some(c)
  {
  }

  lemma SplitHead(d: string, numbers: string)
    requires AllDigits(d)
    ensures SplitOnce("Card " + d + [':'] + numbers, ':') == Some(("Card " + d, numbers))
  {
    var head := "Card " + d;
    assert ':' !in head by {
      assert forall i :: 5 <= i < |head| ==> head[i] == d[i - 5];
    }
    SplitAtFirst(head, numbers, ':');
  }

  lemma ReadNumber(num: nat)
    requires num <= U64_MAX
    ensures StripPrefix("Card " + DecimalString(num), "Card") == Some(" " + DecimalString(num))
    ensures ParseUnsigned(TrimStart(" " + DecimalString(num)), U64_MAX) == Some(num)
  {
    var d := DecimalString(num);
    assert "Card " + d == "Card" + (" " + d);
    StripPrefixOf("Card", " " + d);
    TrimSpaceBeforeDigits(d);
    ParseUnsignedRoundTrip(num, U64_MAX);
  }

  lemma SplitNumbers(tw: string, tp: string, ws: seq<nat>)
    requires tw == NumbersText(ws)
    ensures SplitOnce(" " + tw + "| " + tp, '|') == Some((" " + tw, " " + tp))
  {
    NumbersTextChars(ws);
    assert " " + tw + "| " + tp == " " + tw + ['|'] + (" " + tp);
    assert '|' !in " " + tw by {
      assert forall i :: 1 <= i < |" " + tw| ==> (" " + tw)[i] == tw[i - 1];
    }
    SplitAtFirst(" " + tw, " " + tp, '|');
  }

  lemma LeadingSpace(t: string)
    ensures Words(" " + t) == Words(t)
  {
    assert (" " + t)[1..] == t;
  }

  // ---------------------------------------------------------------------
  // The example of the puzzle statement

  predicate ExampleCards(cards: seq<Card>) {
    cards == [
      Card(1, [41, 48, 83, 86, 17], [83, 86, 6, 31, 17, 9, 48, 53]),
      Card(2, [13, 32, 20, 16, 61], [61, 30, 68, 82, 17, 32, 24, 19]),
      Card(3, [1, 21, 53, 59, 44], [69, 82, 63, 72, 16, 21, 14, 1]),
      Card(4, [41, 92, 73, 84, 69], [59, 84, 76, 51, 58, 5, 54, 83]),
      Card(5, [87, 83, 26, 28, 32], [88, 30, 70, 12, 93, 22, 82, 36]),
      Card(6, [31, 18, 13, 56, 72], [74, 77, 10, 23, 35, 67, 36, 11])]
  }

  /** Counting the matches of a card number by number: `counts[k]` is the
      count after `k + 1` picked numbers. */
  lemma CountOf(picked: seq<nat>, winning: seq<nat>, counts: seq<nat>)
    requires |counts| == |picked| > 0
    requires counts[0] == (if picked[0] in winning then 1 else 0)
    requires forall k :: 0 < k < |picked| ==> counts[k] == counts[k - 1] + (if picked[k] in winning then 1 else 0)
    ensures MatchCount(picked, winning) == counts[|picked| - 1]
  {
    forall k | 0 <= k < |picked| ensures MatchCount(picked[..k + 1], winning) == counts[k] {
      CountPrefix(picked, winning, counts, k);
    }
    assert picked[..|picked|] == picked;
  }

  lemma {:induction false} CountPrefix(picked: seq<nat>, winning: seq<nat>, counts: seq<nat>, k: nat)
    requires |counts| == |picked| && k < |picked|
    requires counts[0] == (if picked[0] in winning then 1 else 0)
    requires forall k :: 0 < k < |picked| ==> counts[k] == counts[k - 1] + (if picked[k] in winning then 1 else 0)
    ensures MatchCount(picked[..k + 1], winning) == counts[k]
  {
    assert picked[..k + 1][..k] == picked[..k];
    if k > 0 {
      CountPrefix(picked, winning, counts, k - 1);
    }
  }

  lemma Card1(c: Card)
    requires c == Card(1, [41, 48, 83, 86, 17], [83, 86, 6, 31, 17, 9, 48, 53])
    ensures Matches(c) == 4
  {
    CountOf(c.picked, c.winning, [1, 2, 2, 2, 3, 3, 4, 4]);
  }

  lemma Card2(c: Card)
    requires c == Card(2, [13, 32, 20, 16, 61], [61, 30, 68, 82, 17, 32, 24, 19])
    ensures Matches(c) == 2
  {
    CountOf(c.picked, c.winning, [1, 1, 1, 1, 1, 2, 2, 2]);
  }

  lemma Card3(c: Card)
    requires c == Card(3, [1, 21, 53, 59, 44], [69, 82, 63, 72, 16, 21, 14, 1])
    ensures Matches(c) == 2
  {
    CountOf(c.picked, c.winning, [0, 0, 0, 0, 0, 1, 1, 2]);
  }

  lemma Card4(c: Card)
    requires c == Card(4, [41, 92, 73, 84, 69], [59, 84, 76, 51, 58, 5, 54, 83])
    ensures Matches(c) == 1
  {
    CountOf(c.picked, c.winning, [0, 1, 1, 1, 1, 1, 1, 1]);
  }

  lemma Card5(c: Card)
    requires c == Card(5, [87, 83, 26, 28, 32], [88, 30, 70, 12, 93, 22, 82, 36])
    ensures Matches(c) == 0
  {
    CountOf(c.picked, c.winning, [0, 0, 0, 0, 0, 0, 0, 0]);
  }

  lemma Card6(c: Card)
    requires c == Card(6, [31, 18, 13, 56, 72], [74, 77, 10, 23, 35, 67, 36, 11])
    ensures Matches(c) == 0
  {
    CountOf(c.picked, c.winning, [0, 0, 0, 0, 0, 0, 0, 0]);
  }

  /** The example's cards are numbered 1 to 6 and have 4, 2, 2, 1, 0 and
      0 matches. */
  lemma ExampleMatches(cards: seq<Card>)
    requires ExampleCards(cards)
    ensures ExampleShape(cards)
  {
    Card1(cards[0]);
    Card2(cards[1]);
    Card3(cards[2]);
    Card4(cards[3]);
    Card5(cards[4]);
    Card6(cards[5]);
  }

  predicate ExampleShape(cards: seq<Card>) {
    && |cards| == 6
    && cards[0].num == 1 && cards[1].num == 2 && cards[2].num == 3
    && cards[3].num == 4 && cards[4].num == 5 && cards[5].num == 6
    && Matches(cards[0]) == 4 && Matches(cards[1]) == 2 && Matches(cards[2]) == 2
    && Matches(cards[3]) == 1 && Matches(cards[4]) == 0 && Matches(cards[5]) == 0
  }

  /** `part_one` on the example: the cards score 8, 2, 2, 1, 0 and 0, which
      is 13; `part_two` starts from the entries (1, 4), (2, 2), (3, 2),
      (4, 1), (5, 0), (6, 0). */
  lemma ExampleScores(cards: seq<Card>)
    requires ExampleCards(cards)
    ensures TotalScore(cards) == 13
    ensures Entries(cards) == [(1, 4), (2, 2), (3, 2), (4, 1), (5, 0), (6, 0)]
  {
    ExampleMatches(cards);
    ShapeScores(cards);
    ShapeEntries(cards);
  }

  lemma ShapeScores(cards: seq<Card>)
    requires ExampleShape(cards)
    ensures TotalScore(cards) == 13
  {
    assert TotalScore(cards[..1]) == 8 by {
      assert cards[..1][..0] == [];
    }
    assert cards[..2][..1] == cards[..1];
    assert TotalScore(cards[..2]) == 10;
    assert cards[..3][..2] == cards[..2];
    assert TotalScore(cards[..3]) == 12;
    assert cards[..4][..3] == cards[..3];
    assert TotalScore(cards[..4]) == 13;
    assert cards[..5][..4] == cards[..4];
    assert TotalScore(cards[..5]) == 13;
    assert cards[..5] == cards[..|cards| - 1];
  }

  lemma ShapeEntries(cards: seq<Card>)
    requires ExampleShape(cards)
    ensures Entries(cards) == [(1, 4), (2, 2), (3, 2), (4, 1), (5, 0), (6, 0)]
  {
  }

  /** In the example, the cards yield 15, 7, 4, 2, 1 and 1 instances: 30. */
  lemma ExampleYields(table: seq<Entry>)
    requires table == [(1, 4), (2, 2), (3, 2), (4, 1), (5, 0), (6, 0)]
    ensures WellFormed(table) && YieldRange(table, 0, 6) == 30
  {
    LaterYields(table);
    assert Yield(table, 0) == 15;
    assert YieldRange(table, 5, 6) == 1;
    assert YieldRange(table, 4, 6) == 2;
    assert YieldRange(table, 3, 6) == 4;
    assert YieldRange(table, 2, 6) == 8;
    assert YieldRange(table, 1, 6) == 15;
  }

  lemma LaterYields(table: seq<Entry>)
    requires table == [(1, 4), (2, 2), (3, 2), (4, 1), (5, 0), (6, 0)]
    ensures WellFormed(table)
    ensures Yield(table, 5) == 1 && Yield(table, 4) == 1 && Yield(table, 3) == 2
    ensures Yield(table, 2) == 4 && Yield(table, 1) == 7 && YieldRange(table, 1, 5) == 14
  {
    assert YieldRange(table, 4, 5) == 1;
    assert YieldRange(table, 3, 5) == 3;
    assert YieldRange(table, 3, 4) == 2;
    assert YieldRange(table, 2, 4) == 6;
  }
}
