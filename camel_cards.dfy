/** Camel Cards: hands of cards are classified by how often each card
    occurs, ordered by kind and then card by card, and each hand wins its
    bid times its rank. With jokers wild, every joker first becomes a copy
    of the hand's most frequent other card. */
module CamelCards {

  import opened Common
  import opened Sorting

  /** Cards in increasing strength; `Strength` is the enum discriminant. */
  datatype Card = Joker | Two | Three | Four | Five | Six | Seven | Eight | Nine | Ten | Jack | Queen | King | Ace

  function Strength(c: Card): (n: nat)
    ensures 1 <= n <= 15
  {
    match c
    case Joker => 1
    case Two => 2
    case Three => 3
    case Four => 4
    case Five => 5
    case Six => 6
    case Seven => 7
    case Eight => 8
    case Nine => 9
    case Ten => 10
    case Jack => 11
    case Queen => 12
    case King => 14
    case Ace => 15
  }

  /** The derived card order: Joker < Two < ... < Ten < Jack < Queen < King
      < Ace, and no two cards share a strength. */
  lemma CardOrder()
    ensures Strength(Joker) < Strength(Two) < Strength(Three) < Strength(Four) < Strength(Five)
    ensures Strength(Five) < Strength(Six) < Strength(Seven) < Strength(Eight) < Strength(Nine)
    ensures Strength(Nine) < Strength(Ten) < Strength(Jack) < Strength(Queen) < Strength(King) < Strength(Ace)
    ensures forall a: Card, b: Card :: Strength(a) == Strength(b) ==> a == b
  {
  }

  datatype HandKind = HighCard | OnePair | TwoPair | ThreeOfAKind | FullHouse | FourOfAKind | FiveOfAKind

  function Rank(k: HandKind): (n: nat)
    ensures n <= 6
  {
    match k
    case HighCard => 0
    case OnePair => 1
    case TwoPair => 2
    case ThreeOfAKind => 3
    case FullHouse => 4
    case FourOfAKind => 5
    case FiveOfAKind => 6
  }

  datatype Ordering = Less | Equal | Greater

  function Flip(o: Ordering): Ordering {
    match o
    case Less => Greater
    case Equal => Equal
    case Greater => Less
  }

  /** `Ord::cmp` on integers. */
  function CompareInt(a: int, b: int): (o: Ordering)
    ensures o == Equal <==> a == b
    ensures o == Less <==> a < b
  {
    if a < b then Less else if a == b then Equal else Greater
  }

  // ---------------------------------------------------------------------
  // Counting cards

  /** Number of copies of `c` in `s`. */
  function Count(s: seq<Card>, c: Card): nat {
    if s == [] then 0 else (if s[0] == c then 1 else 0) + Count(s[1..], c)
  }

  /** Number of different cards in `s`. */
  function Distinct(s: seq<Card>): nat {
    if s == [] then 0 else (if s[0] in s[1..] then 0 else 1) + Distinct(s[1..])
  }

  /** Some card of `s` occurs exactly `n` times in `all`. */
  predicate Occurs(s: seq<Card>, all: seq<Card>, n: nat) {
    s != [] && (Count(all, s[0]) == n || Occurs(s[1..], all, n))
  }

  /** Some card of the hand occurs exactly `n` times. */
  predicate HasCount(cards: seq<Card>, n: nat) {
    Occurs(cards, cards, n)
  }

  /** The count table the solver builds: each card of the hand mapped to
      its number of copies. */
  function Tally(cards: seq<Card>): map<Card, nat> {
    map c | c in cards :: Count(cards, c)
  }

  lemma {:induction false} CountPositive(s: seq<Card>, c: Card)
    ensures Count(s, c) > 0 <==> c in s
  {
    if s != [] {
      CountPositive(s[1..], c);
      assert s == [s[0]] + s[1..];
    }
  }

  lemma CountPositiveAll(s: seq<Card>)
    ensures forall c :: Count(s, c) > 0 <==> c in s
  {
    forall c ensures Count(s, c) > 0 <==> c in s {
      CountPositive(s, c);
    }
  }

  lemma {:induction false} CountAppend(s: seq<Card>, x: Card, c: Card)
    ensures Count(s + [x], c) == Count(s, c) + (if x == c then 1 else 0)
  {
    if s != [] {
      assert (s + [x])[1..] == s[1..] + [x];
      CountAppend(s[1..], x, c);
    }
  }

  /** A hand made of one card repeated holds that card once per position. */
  lemma {:induction false} CountAll(s: seq<Card>, c: Card)
    requires forall i :: 0 <= i < |s| ==> s[i] == c
    ensures Count(s, c) == |s|
  {
    if s != [] {
      CountAll(s[1..], c);
    }
  }

  /** `Occurs` is the existence of a card with that count. */
  lemma {:induction false} OccursExists(s: seq<Card>, all: seq<Card>, n: nat)
    ensures Occurs(s, all, n) <==> exists c :: c in s && Count(all, c) == n
  {
    if s != [] {
      OccursExists(s[1..], all, n);
      if Count(all, s[0]) == n {
        assert s[0] in s;
      }
      if c :| c in s && Count(all, c) == n {
        if c != s[0] {
          assert c in s[1..];
        }
      }
    }
  }

  function Elements(s: seq<Card>): set<Card> {
    set c | c in s
  }

  /** Removing a member shrinks a set by one. */
  lemma RemoveMember(S: set<Card>, x: Card)
    requires x in S
    ensures |S - {x}| == |S| - 1
  {
    assert S == (S - {x}) + {x};
  }

  /** `Distinct` is the number of elements. */
  lemma {:induction false} DistinctElements(s: seq<Card>)
    ensures Distinct(s) == |Elements(s)|
  {
    if s != [] {
      DistinctElements(s[1..]);
      assert s == [s[0]] + s[1..];
      assert Elements(s) == {s[0]} + Elements(s[1..]);
      if s[0] !in s[1..] {
        assert s[0] !in Elements(s[1..]);
      } else {
        assert s[0] in Elements(s[1..]);
      }
    }
  }

  /** The table holds one entry per different card and each entry is that
      card's number of copies, so it says which counts occur and how many
      different cards there are. */
  lemma TallyMeaning(cards: seq<Card>, n: nat)
    ensures |Tally(cards)| == Distinct(cards)
    ensures n in Tally(cards).Values <==> HasCount(cards, n)
  {
    assert Tally(cards).Keys == Elements(cards);
    DistinctElements(cards);
    OccursExists(cards, cards, n);
    if n in Tally(cards).Values {
      var c :| c in Tally(cards) && Tally(cards)[c] == n;
      assert c in cards && Count(cards, c) == n;
    }
    if HasCount(cards, n) {
      var c :| c in cards && Count(cards, c) == n;
      assert Tally(cards)[c] == n;
    }
  }

  lemma TallyStep(cards: seq<Card>, i: nat)
    requires i < |cards|
    ensures Tally(cards[..i + 1]) == Tally(cards[..i])[cards[i] :=
      (if cards[i] in Tally(cards[..i]) then Tally(cards[..i])[cards[i]] else 0) + 1]
  {
    var p, x := cards[..i], cards[i];
    assert cards[..i + 1] == p + [x];
    forall c ensures Count(p + [x], c) == Count(p, c) + (if x == c then 1 else 0) {
      CountAppend(p, x, c);
    }
    CountPositive(p, x);
  }

  /** The first counting loop of `kind`: an entry per card, incremented for
      every further copy. */
  method CountCards(cards: seq<Card>) returns (count: map<Card, nat>)
    ensures count == Tally(cards)
    ensures forall c :: c in count <==> c in cards
  {
    count := map[];
    for i := 0 to |cards|
      invariant count == Tally(cards[..i])
    {
      TallyStep(cards, i);
      var card := cards[i];
      if card in count {
        count := count[card := count[card] + 1];
      } else {
        count := count[card := 1];
      }
    }
    assert cards[..|cards|] == cards;
  }

  // ---------------------------------------------------------------------
  // Kinds

  /** The kind tests of `kind`, in their order, on the counts of `cards`. */
  function ClassifyCards(cards: seq<Card>): HandKind {
    if HasCount(cards, 5) then FiveOfAKind
    else if HasCount(cards, 4) then FourOfAKind
    else if Distinct(cards) == 2 then FullHouse
    else if HasCount(cards, 3) then ThreeOfAKind
    else if Distinct(cards) == 3 then TwoPair
    else if Distinct(cards) == 4 then OnePair
    else HighCard
  }

  /** Every joker replaced by `b`. */
  function Substitute(cards: seq<Card>, b: Card): (r: seq<Card>)
    ensures |r| == |cards|
  {
    if cards == [] then []
    else [if cards[0] == Joker then b else cards[0]] + Substitute(cards[1..], b)
  }

  lemma {:induction false} SubstituteCount(cards: seq<Card>, b: Card, c: Card)
    requires b != Joker
    ensures Count(Substitute(cards, b), c) ==
      if c == Joker then 0 else Count(cards, c) + (if c == b then Count(cards, Joker) else 0)
  {
    if cards != [] {
      SubstituteCount(cards[1..], b, c);
    }
  }

  /** The non-joker cards, strongest last. */
  const Faces: seq<Card> := [Two, Three, Four, Five, Six, Seven, Eight, Nine, Ten, Jack, Queen, King, Ace]

  lemma FacesAreNonJokers(c: Card)
    ensures c in Faces <==> c != Joker
  {
  }

  /** `b` is a non-joker card of the hand with no non-joker card more frequent. */
  predicate IsMostCommon(cards: seq<Card>, b: Card) {
    b != Joker && b in cards && forall c :: c in cards && c != Joker ==> Count(cards, c) <= Count(cards, b)
  }

  /** A card of `cands` that occurs most often in the hand, or Joker when
      none occurs. */
  function MostCommonIn(cards: seq<Card>, cands: seq<Card>): Card {
    if cands == [] then Joker
    else
      var rest := MostCommonIn(cards, cands[1..]);
      if cands[0] in cards && (rest == Joker || Count(cards, rest) <= Count(cards, cands[0])) then cands[0]
      else rest
  }

  /** The choice is Joker exactly when no candidate occurs; otherwise it is a
      candidate in the hand that no other candidate outnumbers. */
  lemma {:induction false} MostCommonInMeaning(cards: seq<Card>, cands: seq<Card>)
    requires Joker !in cands
    ensures var b := MostCommonIn(cards, cands);
      && (b == Joker <==> forall c :: c in cands ==> c !in cards)
      && (b != Joker ==> b in cands && b in cards && forall c :: c in cands ==> Count(cards, c) <= Count(cards, b))
  {
    if cands != [] {
      assert cands[0] in cands;
      MostCommonInMeaning(cards, cands[1..]);
      CountPositiveAll(cards);
      assert cands == [cands[0]] + cands[1..];
    }
  }

  /** The kind of a hand; with jokers wild it is the kind after every joker
      becomes the most frequent other card (or stays a joker when the hand
      has no other card). */
  function KindOf(cards: seq<Card>, wild: bool): HandKind {
    ClassifyCards(if wild then Substitute(cards, MostCommonIn(cards, Faces)) else cards)
  }

  /** With the same card standing in for the jokers, only the cards count,
      not where they are. */
  lemma SubstituteElements(cards: seq<Card>, b: Card)
    requires IsMostCommon(cards, b)
    ensures Elements(Substitute(cards, b)) == set c | c in cards && c != Joker
  {
    forall c ensures c in Substitute(cards, b) <==> c in cards && c != Joker {
      SubstituteMember(cards, b, c);
    }
  }

  /** After substituting a card of the hand for the jokers, the hand holds
      exactly its non-joker cards. */
  lemma SubstituteMember(cards: seq<Card>, b: Card, c: Card)
    requires IsMostCommon(cards, b)
    ensures c in Substitute(cards, b) <==> c in cards && c != Joker
  {
    SubstituteCount(cards, b, c);
    CountPositive(Substitute(cards, b), c);
    CountPositive(cards, c);
    CountPositive(cards, b);
  }

  /** A card of the hand after substituting one most frequent card has a
      counterpart with the same count after substituting another: the two
      substitutes trade places. */
  lemma SwapWitness(cards: seq<Card>, b1: Card, b2: Card, c: Card) returns (d: Card)
    requires IsMostCommon(cards, b1) && IsMostCommon(cards, b2)
    requires c in Substitute(cards, b1)
    ensures d in Substitute(cards, b2) && Count(Substitute(cards, b2), d) == Count(Substitute(cards, b1), c)
  {
    SubstituteMember(cards, b1, c);
    var jokers := Count(cards, Joker);
    SubstituteCount(cards, b1, c);
    if c == b1 {
      d := b2;
      SubstituteCount(cards, b2, d);
      assert Count(Substitute(cards, b1), c) == Count(cards, b1) + jokers;
      assert Count(Substitute(cards, b2), d) == Count(cards, b2) + jokers;
      assert Count(cards, b1) == Count(cards, b2);
    } else if c == b2 {
      d := b1;
      SubstituteCount(cards, b2, d);
      assert Count(Substitute(cards, b1), c) == Count(cards, b2);
      assert Count(Substitute(cards, b2), d) == Count(cards, b1);
      assert Count(cards, b1) == Count(cards, b2);
    } else {
      d := c;
      SubstituteCount(cards, b2, d);
    }
    SubstituteMember(cards, b2, d);
  }

  /** A count that occurs after substituting one most frequent card also
      occurs after substituting another. */
  lemma HasCountSwap(cards: seq<Card>, b1: Card, b2: Card, n: nat)
    requires IsMostCommon(cards, b1) && IsMostCommon(cards, b2)
    requires HasCount(Substitute(cards, b1), n)
    ensures HasCount(Substitute(cards, b2), n)
  {
    var s1, s2 := Substitute(cards, b1), Substitute(cards, b2);
    OccursExists(s1, s1, n);
    OccursExists(s2, s2, n);
    var c :| c in s1 && Count(s1, c) == n;
    var d := SwapWitness(cards, b1, b2, c);
  }

  /** Which of several equally frequent cards replaces the jokers does not
      change the kind. */
  lemma TieIndependent(cards: seq<Card>, b1: Card, b2: Card)
    requires IsMostCommon(cards, b1) && IsMostCommon(cards, b2)
    ensures ClassifyCards(Substitute(cards, b1)) == ClassifyCards(Substitute(cards, b2))
  {
    var s1, s2 := Substitute(cards, b1), Substitute(cards, b2);
    assert Distinct(s1) == Distinct(s2) by {
      SubstituteElements(cards, b1);
      SubstituteElements(cards, b2);
      DistinctElements(s1);
      DistinctElements(s2);
    }
    HasCountSame(cards, b1, b2, 5);
    HasCountSame(cards, b1, b2, 4);
    HasCountSame(cards, b1, b2, 3);
  }

  /** A count occurs after substituting one most frequent card exactly
      when it occurs after substituting another. */
  lemma HasCountSame(cards: seq<Card>, b1: Card, b2: Card, n: nat)
    requires IsMostCommon(cards, b1) && IsMostCommon(cards, b2)
    ensures HasCount(Substitute(cards, b1), n) <==> HasCount(Substitute(cards, b2), n)
  {
    if HasCount(Substitute(cards, b1), n) {
      HasCountSwap(cards, b1, b2, n);
    }
    if HasCount(Substitute(cards, b2), n) {
      HasCountSwap(cards, b2, b1, n);
    }
  }

  /** With jokers wild the kind is that of the hand in which every joker
      has become any one of the most frequent non-joker cards. */
  lemma WildKind(cards: seq<Card>, b: Card)
    requires IsMostCommon(cards, b)
    ensures KindOf(cards, true) == ClassifyCards(Substitute(cards, b))
  {
    var m := MostCommonIn(cards, Faces);
    FacesAreNonJokers(Joker);
    MostCommonInMeaning(cards, Faces);
    FacesAreNonJokers(b);
    assert m != Joker;
    forall c | c in cards && c != Joker ensures Count(cards, c) <= Count(cards, m) {
      FacesAreNonJokers(c);
    }
    TieIndependent(cards, m, b);
  }

  lemma {:induction false} SubstituteJoker(cards: seq<Card>)
    ensures Substitute(cards, Joker) == cards
  {
    if cards != [] {
      SubstituteJoker(cards[1..]);
      assert cards == [cards[0]] + cards[1..];
    }
  }

  /** Without jokers in the hand, the wild rule changes nothing. */
  lemma NoJokers(cards: seq<Card>)
    requires Joker !in cards
    ensures KindOf(cards, true) == KindOf(cards, false)
  {
    NoJokersSubstitute(cards, MostCommonIn(cards, Faces));
  }

  lemma {:induction false} NoJokersSubstitute(cards: seq<Card>, b: Card)
    requires Joker !in cards
    ensures Substitute(cards, b) == cards
  {
    if cards != [] {
      assert cards[0] in cards;
      NoJokersSubstitute(cards[1..], b);
      assert cards == [cards[0]] + cards[1..];
    }
  }

  /** A hand with no card but jokers keeps its jokers; five jokers are five
      of a kind. */
  lemma AllJokers(cards: seq<Card>)
    requires forall i :: 0 <= i < |cards| ==> cards[i] == Joker
    ensures KindOf(cards, true) == KindOf(cards, false)
    ensures |cards| == 5 ==> KindOf(cards, true) == FiveOfAKind
  {
    forall c | c in Faces ensures c !in cards {
    }
    FacesAreNonJokers(Joker);
    MostCommonInMeaning(cards, Faces);
    SubstituteJoker(cards);
    if |cards| == 5 {
      CountAll(cards, Joker);
      OccursExists(cards, cards, 5);
      assert cards[0] in cards;
    }
  }

  /** The most frequent non-joker card the solver finds by scanning the
      table in its (unspecified) iteration order; on a tie the card seen
      last wins, as with `Iterator::max_by`. Joker when the hand holds no
      other card. */
  method MostCommon(count: map<Card, nat>) returns (best: Card)
    ensures best == Joker ==> forall c :: c in count ==> c == Joker
    ensures best != Joker ==> best in count && forall c :: c in count && c != Joker ==> count[c] <= count[best]
  {
    best := Joker;
    var rest := count.Keys;
    while rest != {}
      invariant rest <= count.Keys
      invariant best == Joker ==> forall c :: c in count && c !in rest ==> c == Joker
      invariant best != Joker ==> best in count && forall c :: c in count && c !in rest && c != Joker ==> count[c] <= count[best]
      decreases |rest|
    {
      var c :| c in rest;
      if c != Joker && (best == Joker || count[best] <= count[c]) {
        best := c;
      }
      rest := rest - {c};
    }
  }

  /** `Hand::kind`: count the cards, with jokers wild substitute the most
      frequent other card and count again, then test the counts in order. */
  method Kind(cards: seq<Card>, wild: bool) returns (kind: HandKind)
    ensures kind == KindOf(cards, wild)
  {
    var count := CountCards(cards);
    var hand := cards;
    if wild {
      var best := MostCommon(count);
      if best != Joker {
        assert IsMostCommon(cards, best);
        WildKind(cards, best);
      } else {
        assert MostCommonIn(cards, Faces) == Joker by {
          FacesAreNonJokers(Joker);
          MostCommonInMeaning(cards, Faces);
          forall c | c in Faces ensures c !in cards {
            FacesAreNonJokers(c);
          }
        }
      }
      hand := Substitute(cards, best);
      count := CountCards(hand);
    }
    TallyMeaning(hand, 5);
    TallyMeaning(hand, 4);
    TallyMeaning(hand, 3);
    if 5 in count.Values {
      kind := FiveOfAKind;
    } else if 4 in count.Values {
      kind := FourOfAKind;
    } else if |count| == 2 {
      kind := FullHouse;
    } else if 3 in count.Values {
      kind := ThreeOfAKind;
    } else if |count| == 3 {
      kind := TwoPair;
    } else if |count| == 4 {
      kind := OnePair;
    } else {
      kind := HighCard;
    }
  }

  // ---------------------------------------------------------------------
  // Kinds of five-card hands

  lemma {:induction false} DistinctBounds(s: seq<Card>)
    ensures Distinct(s) <= |s|
    ensures s != [] ==> Distinct(s) >= 1
  {
    if s != [] {
      DistinctBounds(s[1..]);
      if s[0] in s[1..] {
        assert s[1..] != [];
      }
    }
  }

  /** A card occurring `k` times leaves room for at most `|s| - k` other
      different cards. */
  lemma {:induction false} CountPlusDistinct(s: seq<Card>, c: Card)
    requires c in s
    ensures Count(s, c) + Distinct(s) <= |s| + 1
  {
    assert s == [s[0]] + s[1..];
    if s[1..] == [] {
    } else if s[0] == c && c !in s[1..] {
      CountPositive(s[1..], c);
      DistinctBounds(s[1..]);
    } else {
      CountPlusDistinct(s[1..], c);
    }
  }

  /** No card of the hand occurs more than `|s| + 1 - Distinct(s)` times. */
  lemma CountsBounded(s: seq<Card>, n: nat)
    requires HasCount(s, n)
    ensures n + Distinct(s) <= |s| + 1
  {
    OccursExists(s, s, n);
    var c :| c in s && Count(s, c) == n;
    CountPlusDistinct(s, c);
  }

  lemma OneCard(s: seq<Card>)
    requires s != [] && Distinct(s) == 1
    ensures HasCount(s, |s|)
  {
    DistinctElements(s);
    assert s[0] in Elements(s);
    RemoveMember(Elements(s), s[0]);
    assert Elements(s) - {s[0]} == {};
    forall i | 0 <= i < |s| ensures s[i] == s[0] {
      assert s[i] in Elements(s);
    }
    CountAll(s, s[0]);
    OccursExists(s, s, |s|);
  }

  /** Cards drawn from two values: the two counts add up to the length. */
  lemma {:induction false} CountTwo(s: seq<Card>, x: Card, y: Card)
    requires x != y && forall i :: 0 <= i < |s| ==> s[i] == x || s[i] == y
    ensures Count(s, x) + Count(s, y) == |s|
  {
    if s != [] {
      CountTwo(s[1..], x, y);
    }
  }

  /** A hand of two different cards: its counts are those of the two cards
      and add up to the hand's size. */
  lemma TwoCards(s: seq<Card>) returns (x: Card, y: Card)
    requires Distinct(s) == 2
    ensures x != y && x in s && y in s && Count(s, x) + Count(s, y) == |s|
    ensures forall n: nat :: HasCount(s, n) <==> Count(s, x) == n || Count(s, y) == n
  {
    x, y := TwoValues(s);
    CountTwo(s, x, y);
    forall n: nat ensures HasCount(s, n) <==> Count(s, x) == n || Count(s, y) == n {
      OccursExists(s, s, n);
      if HasCount(s, n) {
        var c :| c in s && Count(s, c) == n;
        assert c in Elements(s);
      }
    }
  }

  /** A hand of two different cards is drawn from those two cards. */
  lemma TwoValues(s: seq<Card>) returns (x: Card, y: Card)
    requires Distinct(s) == 2
    ensures x != y && x in s && y in s && Elements(s) == {x, y}
    ensures forall i :: 0 <= i < |s| ==> s[i] == x || s[i] == y
  {
    DistinctElements(s);
    x := s[0];
    assert x in Elements(s);
    RemoveMember(Elements(s), x);
    y :| y in Elements(s) - {x};
    RemoveMember(Elements(s) - {x}, y);
    assert Elements(s) - {x} - {y} == {};
    forall i | 0 <= i < |s| ensures s[i] == x || s[i] == y {
      assert s[i] in Elements(s);
    }
  }

  /** For a hand of five cards the ordered tests pick the usual kinds:
      five alike; four alike; a triple and a pair; a triple and two single
      cards; two pairs (three different cards, none three times); one pair
      (four different cards); five different cards. */
  lemma FiveCardKinds(cards: seq<Card>)
    requires |cards| == 5
    ensures ClassifyCards(cards) == FiveOfAKind <==> Distinct(cards) == 1
    ensures ClassifyCards(cards) == FourOfAKind <==> Distinct(cards) == 2 && HasCount(cards, 4)
    ensures ClassifyCards(cards) == FullHouse <==> Distinct(cards) == 2 && HasCount(cards, 3) && HasCount(cards, 2)
    ensures ClassifyCards(cards) == ThreeOfAKind <==> Distinct(cards) == 3 && HasCount(cards, 3)
    ensures ClassifyCards(cards) == TwoPair <==> Distinct(cards) == 3 && !HasCount(cards, 3)
    ensures ClassifyCards(cards) == OnePair <==> Distinct(cards) == 4
    ensures ClassifyCards(cards) == HighCard <==> Distinct(cards) == 5
  {
    DistinctBounds(cards);
    var d := Distinct(cards);
    if HasCount(cards, 5) { CountsBounded(cards, 5); }
    if HasCount(cards, 4) { CountsBounded(cards, 4); }
    if HasCount(cards, 3) { CountsBounded(cards, 3); }
    if d == 1 {
      OneCard(cards);
    }
    if d == 2 {
      var x, y := TwoCards(cards);
      CountPositive(cards, x);
      CountPositive(cards, y);
    }
  }

  // ---------------------------------------------------------------------
  // Comparing hands

  /** The zip loop of `cmp`: the first differing pair of cards decides;
      Equal when one hand runs out first or none differ. */
  function CompareCards(a: seq<Card>, b: seq<Card>): Ordering {
    if a == [] || b == [] then Equal
    else if a[0] == b[0] then CompareCards(a[1..], b[1..])
    else CompareInt(Strength(a[0]), Strength(b[0]))
  }

  /** `Ord::cmp` for hands: by kind, then card by card. */
  function CompareHands(a: seq<Card>, b: seq<Card>, wild: bool): Ordering {
    var ka, kb := KindOf(a, wild), KindOf(b, wild);
    if ka == kb then CompareCards(a, b) else CompareInt(Rank(ka), Rank(kb))
  }

  method Cmp(a: seq<Card>, b: seq<Card>, wild: bool) returns (o: Ordering)
    ensures o == CompareHands(a, b, wild)
  {
    var ka := Kind(a, wild);
    var kb := Kind(b, wild);
    if ka == kb {
      var i := 0;
      while i < |a| && i < |b|
        invariant 0 <= i <= |a| && i <= |b|
        invariant CompareCards(a, b) == CompareCards(a[i..], b[i..])
      {
        assert a[i..][1..] == a[i + 1..] && b[i..][1..] == b[i + 1..];
        if a[i] != b[i] {
          return CompareInt(Strength(a[i]), Strength(b[i]));
        }
        i := i + 1;
      }
      o := Equal;
    } else {
      o := CompareInt(Rank(ka), Rank(kb));
    }
  }

  /** Of two hands with a common prefix, the first differing card decides. */
  lemma {:induction false} FirstDifference(a: seq<Card>, b: seq<Card>, i: nat)
    requires i < |a| && i < |b| && a[..i] == b[..i] && a[i] != b[i]
    ensures CompareCards(a, b) == CompareInt(Strength(a[i]), Strength(b[i]))
  {
    if i > 0 {
      assert a[0] == a[..i][0] && b[0] == b[..i][0];
      assert a[1..][..i - 1] == a[..i][1..] && b[1..][..i - 1] == b[..i][1..];
      FirstDifference(a[1..], b[1..], i - 1);
    }
  }

  /** Comparing the other way round flips the answer. */
  lemma {:induction false} CompareCardsFlip(a: seq<Card>, b: seq<Card>)
    ensures CompareCards(b, a) == Flip(CompareCards(a, b))
  {
    if a != [] && b != [] && a[0] == b[0] {
      CompareCardsFlip(a[1..], b[1..]);
    }
  }

  /** Hands of one length compare Equal exactly when they hold the same cards
      in the same places. */
  lemma {:induction false} CompareCardsEqual(a: seq<Card>, b: seq<Card>)
    requires |a| == |b|
    ensures CompareCards(a, b) == Equal <==> a == b
  {
    if a != [] {
      CompareCardsEqual(a[1..], b[1..]);
      assert a == [a[0]] + a[1..] && b == [b[0]] + b[1..];
      CardOrder();
    }
  }

  /** Card by card comparison of hands of one length is transitive. */
  lemma {:induction false} CompareCardsTransitive(a: seq<Card>, b: seq<Card>, c: seq<Card>)
    requires |a| == |b| == |c|
    requires CompareCards(a, b) != Greater && CompareCards(b, c) != Greater
    ensures CompareCards(a, c) != Greater
  {
    if a != [] {
      CardOrder();
      if a[0] == b[0] && b[0] == c[0] {
        CompareCardsTransitive(a[1..], b[1..], c[1..]);
      }
    }
  }

  lemma CompareHandsFlip(a: seq<Card>, b: seq<Card>, wild: bool)
    ensures CompareHands(b, a, wild) == Flip(CompareHands(a, b, wild))
  {
    CompareCardsFlip(a, b);
  }

  /** Two hands of one length compare Equal exactly when they are the same
      hand. */
  lemma CompareHandsEqual(a: seq<Card>, b: seq<Card>, wild: bool)
    requires |a| == |b|
    ensures CompareHands(a, b, wild) == Equal <==> a == b
  {
    CompareCardsEqual(a, b);
  }

  lemma CompareHandsTransitive(a: seq<Card>, b: seq<Card>, c: seq<Card>, wild: bool)
    requires |a| == |b| == |c|
    requires CompareHands(a, b, wild) != Greater && CompareHands(b, c, wild) != Greater
    ensures CompareHands(a, c, wild) != Greater
  {
    var ka, kb, kc := KindOf(a, wild), KindOf(b, wild), KindOf(c, wild);
    if ka == kb == kc {
      CompareCardsTransitive(a, b, c);
    }
  }

  // ---------------------------------------------------------------------
  // Text

  /** One character of a hand: 'J' is a joker when jokers are wild and a
      jack otherwise; an unknown character is an error. */
  function ParseCard(ch: char, wild: bool): Result<Card, string> {
    match ch
    case 'A' => Ok(Ace)
    case 'K' => Ok(King)
    case 'Q' => Ok(Queen)
    case 'J' => if wild then Ok(Joker) else Ok(Jack)
    case 'T' => Ok(Ten)
    case '9' => Ok(Nine)
    case '8' => Ok(Eight)
    case '7' => Ok(Seven)
    case '6' => Ok(Six)
    case '5' => Ok(Five)
    case '4' => Ok(Four)
    case '3' => Ok(Three)
    case '2' => Ok(Two)
    case _ => Err("invalid card")
  }

  /** The character `to_string` writes for a card; jokers and jacks are both 'J'. */
  function CardChar(c: Card): char {
    match c
    case Ace => 'A'
    case King => 'K'
    case Queen => 'Q'
    case Jack => 'J'
    case Ten => 'T'
    case Nine => '9'
    case Eight => '8'
    case Seven => '7'
    case Six => '6'
    case Five => '5'
    case Four => '4'
    case Three => '3'
    case Two => '2'
    case Joker => 'J'
  }

  /** Exactly the thirteen card characters parse; anything else is the
      error "invalid card". A joker comes only from 'J' with jokers wild, a
      jack only from 'J' with jokers tame. */
  lemma ParseCardMeaning(ch: char, wild: bool)
    ensures ParseCard(ch, wild).Err? <==> ch !in "AKQJT98765432"
    ensures ParseCard(ch, wild).Err? ==> ParseCard(ch, wild).error == "invalid card"
    ensures ParseCard(ch, wild) == Ok(Joker) <==> wild && ch == 'J'
    ensures ParseCard(ch, wild) == Ok(Jack) <==> !wild && ch == 'J'
  {
  }

  /** Each card's character parses back to that card, unless it is the one
      'J' does not stand for; each card character parses to a card whose
      character it is. */
  lemma CardCharRoundTrip(c: Card, ch: char, wild: bool)
    ensures c != (if wild then Jack else Joker) ==> ParseCard(CardChar(c), wild) == Ok(c)
    ensures ParseCard(ch, wild).Ok? ==> CardChar(ParseCard(ch, wild).value) == ch
  {
  }

  /** `from_str`: every character must be a card; the first that is not
      makes the whole hand an error. */
  function ParseHand(s: string, wild: bool): Result<seq<Card>, string> {
    if s == [] then Ok([])
    else
      match ParseCard(s[0], wild)
      case Err(e) => Err(e)
      case Ok(c) =>
        match ParseHand(s[1..], wild)
        case Err(e) => Err(e)
        case Ok(rest) => Ok([c] + rest)
  }

  /** A hand parses exactly when every character is a card, into the cards
      of its characters in order; otherwise the error is "invalid card". */
  lemma {:induction false} ParseHandMeaning(s: string, wild: bool)
    ensures ParseHand(s, wild).Ok? <==> forall i :: 0 <= i < |s| ==> ParseCard(s[i], wild).Ok?
    ensures ParseHand(s, wild).Err? ==> ParseHand(s, wild).error == "invalid card"
    ensures ParseHand(s, wild).Ok? ==> |ParseHand(s, wild).value| == |s|
    ensures ParseHand(s, wild).Ok? ==> forall i :: 0 <= i < |s| ==> Ok(ParseHand(s, wild).value[i]) == ParseCard(s[i], wild)
  {
    if s != [] {
      ParseHandMeaning(s[1..], wild);
      ParseCardMeaning(s[0], wild);
      assert forall i :: 1 <= i < |s| ==> s[i] == s[1..][i - 1];
    }
  }

  /** `to_string` */
  function HandString(cards: seq<Card>): (s: string)
    ensures |s| == |cards| && forall i :: 0 <= i < |cards| ==> s[i] == CardChar(cards[i])
  {
    if cards == [] then [] else [CardChar(cards[0])] + HandString(cards[1..])
  }

  /** The cards the parser produces: jokers exactly when jokers are wild,
      jacks exactly when they are not. */
  predicate Parsable(cards: seq<Card>, wild: bool) {
    forall i :: 0 <= i < |cards| ==> cards[i] != (if wild then Jack else Joker)
  }

  /** Printing a hand and parsing it back gives the hand. */
  lemma PrintThenParse(cards: seq<Card>, wild: bool)
    requires Parsable(cards, wild)
    ensures ParseHand(HandString(cards), wild) == Ok(cards)
  {
    var s := HandString(cards);
    ParseHandMeaning(s, wild);
    forall i | 0 <= i < |s| ensures ParseCard(s[i], wild) == Ok(cards[i]) {
      CardCharRoundTrip(cards[i], s[i], wild);
    }
    var r := ParseHand(s, wild).value;
    assert |r| == |cards|;
    forall i | 0 <= i < |s| ensures r[i] == cards[i] {
      assert Ok(r[i]) == ParseCard(s[i], wild);
    }
    assert r == cards;
  }

  /** Parsing a hand and printing it gives the text back, and every parsed
      hand can be printed and parsed again. */
  lemma ParseThenPrint(s: string, wild: bool)
    requires ParseHand(s, wild).Ok?
    ensures HandString(ParseHand(s, wild).value) == s
    ensures Parsable(ParseHand(s, wild).value, wild)
  {
    ParseHandMeaning(s, wild);
    var cards := ParseHand(s, wild).value;
    forall i | 0 <= i < |s| ensures CardChar(cards[i]) == s[i] && cards[i] != (if wild then Jack else Joker) {
      assert Ok(cards[i]) == ParseCard(s[i], wild);
      CardCharRoundTrip(cards[i], s[i], wild);
    }
  }

  // ---------------------------------------------------------------------
  // Bids and winnings

  datatype Entry = Entry(hand: seq<Card>, bid: nat)

  /** One input line: the hand, a space, the bid as a `u32`. */
  function ParseEntry(line: string, wild: bool): Option<Entry> {
    match SplitOnce(line, ' ')
    case None => None
    case Some(parts) =>
      var (handText, bidText) := parts;
      match ParseHand(handText, wild)
      case Err(_) => None
      case Ok(cards) =>
        match ParseUnsigned(bidText, U32_MAX)
        case None => None
        case Some(bid) => Some(Entry(cards, bid))
  }

  /** A line parses exactly when it is a hand's text, a space and a bid
      that fits a `u32`. */
  lemma ParseEntryMeaning(line: string, wild: bool)
    ensures ParseEntry(line, wild).Some? ==>
      exists bidText :: line == HandString(ParseEntry(line, wild).value.hand) + " " + bidText
                     && ParseUnsigned(bidText, U32_MAX) == Some(ParseEntry(line, wild).value.bid)
    ensures forall cards: seq<Card>, bid: nat :: Parsable(cards, wild) && bid <= U32_MAX ==>
      ParseEntry(HandString(cards) + " " + DecimalString(bid), wild) == Some(Entry(cards, bid))
  {
    if ParseEntry(line, wild).Some? {
      SplitOnceMeaning(line, ' ');
      var (handText, bidText) := SplitOnce(line, ' ').value;
      ParseThenPrint(handText, wild);
      assert line == HandString(ParseEntry(line, wild).value.hand) + " " + bidText;
    }
    forall cards: seq<Card>, bid: nat | Parsable(cards, wild) && bid <= U32_MAX
      ensures ParseEntry(HandString(cards) + " " + DecimalString(bid), wild) == Some(Entry(cards, bid))
    {
      PrintedEntry(cards, bid, wild);
    }
  }

  lemma PrintedEntry(cards: seq<Card>, bid: nat, wild: bool)
    requires Parsable(cards, wild) && bid <= U32_MAX
    ensures ParseEntry(HandString(cards) + " " + DecimalString(bid), wild) == Some(Entry(cards, bid))
  {
    var line := HandString(cards) + " " + DecimalString(bid);
    assert ' ' !in HandString(cards) by {
      forall i | 0 <= i < |cards| ensures HandString(cards)[i] != ' ' {
      }
    }
    SplitAtFirst(HandString(cards), DecimalString(bid), ' ');
    PrintThenParse(cards, wild);
    ParseUnsignedRoundTrip(bid, U32_MAX);
  }

  /** `parse`: every line must parse. */
  function ParseEntries(lines: seq<string>, wild: bool): Option<seq<Entry>> {
    CollectAll(lines, line => ParseEntry(line, wild))
  }

  /** The order of `(Hand, u32)` pairs: by hand, then by bid. */
  function CompareEntries(x: Entry, y: Entry, wild: bool): Ordering {
    var o := CompareHands(x.hand, y.hand, wild);
    if o != Equal then o else CompareInt(x.bid, y.bid)
  }

  function EntryOrder(wild: bool): (Entry, Entry) -> bool {
    (x: Entry, y: Entry) => CompareEntries(x, y, wild) != Greater
  }

  /** All hands have the same number of cards (five, in the puzzle). */
  predicate SameSize(entries: seq<Entry>) {
    forall x, y :: x in entries && y in entries ==> |x.hand| == |y.hand|
  }

  /** The order on entries sorts them: it is a total preorder, and
      antisymmetric, on hands of one size. */
  lemma EntryOrderTotal(entries: seq<Entry>, wild: bool)
    requires SameSize(entries)
    ensures TotalOn(EntryOrder(wild), entries)
    ensures AntisymmetricOn(EntryOrder(wild), entries)
  {
    var le := EntryOrder(wild);
    forall x, y | x in entries && y in entries
      ensures le(x, y) || le(y, x)
      ensures le(x, y) && le(y, x) ==> x == y
    {
      CompareHandsFlip(x.hand, y.hand, wild);
      CompareHandsEqual(x.hand, y.hand, wild);
    }
    forall x, y, z | x in entries && y in entries && z in entries && le(x, y) && le(y, z)
      ensures le(x, z)
    {
      EntryTransitive(x, y, z, wild);
    }
  }

  lemma EntryTransitive(x: Entry, y: Entry, z: Entry, wild: bool)
    requires |x.hand| == |y.hand| == |z.hand|
    requires CompareEntries(x, y, wild) != Greater && CompareEntries(y, z, wild) != Greater
    ensures CompareEntries(x, z, wild) != Greater
  {
    CompareHandsTransitive(x.hand, y.hand, z.hand, wild);
    CompareHandsEqual(x.hand, y.hand, wild);
    CompareHandsEqual(y.hand, z.hand, wild);
    CompareHandsEqual(x.hand, z.hand, wild);
    CompareHandsFlip(x.hand, y.hand, wild);
  }

  /** The entries in increasing order of hand. */
  ghost predicate IsRanking(s: seq<Entry>, entries: seq<Entry>, wild: bool) {
    multiset(s) == multiset(entries) && SortedBy(s, EntryOrder(wild))
  }

  /** Sum of bid times rank, the weakest hand having rank 1. */
  function Winnings(s: seq<Entry>): nat {
    if s == [] then 0 else Winnings(s[..|s| - 1]) + |s| * s[|s| - 1].bid
  }

  /** `part_one` (jokers tame) and `part_two` (jokers wild): parse the lines,
      sort the entries and add up bid times rank. The total is the same
      for every ranking of the entries. */
  method TotalWinnings(lines: seq<string>, wild: bool) returns (r: Option<nat>)
    ensures r.Some? <==> ParseEntries(lines, wild).Some?
    ensures r.Some? && SameSize(ParseEntries(lines, wild).value) ==>
      forall s :: IsRanking(s, ParseEntries(lines, wild).value, wild) ==> r.value == Winnings(s)
  {
    var parsed := ParseEntries(lines, wild);
    if parsed.None? {
      return None;
    }
    var hands := parsed.value;
    hands := SortBy(hands, EntryOrder(wild));
    r := Some(Winnings(hands));
    if SameSize(parsed.value) {
      forall s | IsRanking(s, parsed.value, wild) ensures r.value == Winnings(s) {
        RankingUnique(s, hands, parsed.value, wild);
      }
    }
  }

  /** Entries with hands of one size have exactly one ranking, the one
      sorting produces. */
  lemma RankingUnique(s: seq<Entry>, sorted: seq<Entry>, entries: seq<Entry>, wild: bool)
    requires SameSize(entries) && sorted == SortBy(entries, EntryOrder(wild))
    requires IsRanking(s, entries, wild)
    ensures s == sorted && IsRanking(sorted, entries, wild)
  {
    EntryOrderTotal(entries, wild);
    SortBySorted(entries, EntryOrder(wild));
    forall y | y in s ensures y in entries {
      assert y in multiset(s);
    }
    EntryOrderTotalPart(s, entries, wild);
    SortedUnique(s, sorted, EntryOrder(wild));
  }

  lemma EntryOrderTotalPart(s: seq<Entry>, entries: seq<Entry>, wild: bool)
    requires SameSize(entries) && multiset(s) == multiset(entries)
    ensures AntisymmetricOn(EntryOrder(wild), s)
  {
    forall y | y in s ensures y in entries {
      assert y in multiset(s);
    }
    EntryOrderTotal(s, wild);
  }

  // ---------------------------------------------------------------------
  // The puzzle's example

  /** A hand's printed text parses back to it. */
  lemma ParsePrinted(cards: seq<Card>, text: string, wild: bool)
    requires HandString(cards) == text && Parsable(cards, wild)
    ensures ParseHand(text, wild) == Ok(cards)
  {
    PrintThenParse(cards, wild);
  }

  /** The kinds the unit tests expect, one hand per kind. */
  lemma KindExamples()
    ensures ParseHand("AAAAA", false) == Ok([Ace, Ace, Ace, Ace, Ace]) && KindOf([Ace, Ace, Ace, Ace, Ace], false) == FiveOfAKind
    ensures ParseHand("AA8AA", false) == Ok([Ace, Ace, Eight, Ace, Ace]) && KindOf([Ace, Ace, Eight, Ace, Ace], false) == FourOfAKind
    ensures ParseHand("23332", false) == Ok([Two, Three, Three, Three, Two]) && KindOf([Two, Three, Three, Three, Two], false) == FullHouse
    ensures ParseHand("TTT98", false) == Ok([Ten, Ten, Ten, Nine, Eight]) && KindOf([Ten, Ten, Ten, Nine, Eight], false) == ThreeOfAKind
    ensures ParseHand("23432", false) == Ok([Two, Three, Four, Three, Two]) && KindOf([Two, Three, Four, Three, Two], false) == TwoPair
    ensures ParseHand("A23A4", false) == Ok([Ace, Two, Three, Ace, Four]) && KindOf([Ace, Two, Three, Ace, Four], false) == OnePair
    ensures ParseHand("23456", false) == Ok([Two, Three, Four, Five, Six]) && KindOf([Two, Three, Four, Five, Six], false) == HighCard
  {
    ParseFive();
    KindFive();
    ParseFour();
    KindFour();
    ParseFullHouse();
    KindFullHouse();
    ParseThree();
    KindThree();
    ParseTwoPair();
    KindTwoPair();
    ParseOnePair();
    KindOnePair();
    ParseHigh();
    KindHigh();
  }

  lemma ParseFive()
    ensures ParseHand("AAAAA", false) == Ok([Ace, Ace, Ace, Ace, Ace])
  {
    ParsePrinted([Ace, Ace, Ace, Ace, Ace], "AAAAA", false);
  }

  lemma KindFive()
    ensures KindOf([Ace, Ace, Ace, Ace, Ace], false) == FiveOfAKind
  {
    Hand5(Ace, Ace, Ace, Ace, Ace);
    Counts5(Ace, Ace, Ace, Ace, Ace);
  }

  lemma ParseFour()
    ensures ParseHand("AA8AA", false) == Ok([Ace, Ace, Eight, Ace, Ace])
  {
    ParsePrinted([Ace, Ace, Eight, Ace, Ace], "AA8AA", false);
  }

  lemma KindFour()
    ensures KindOf([Ace, Ace, Eight, Ace, Ace], false) == FourOfAKind
  {
    Hand5(Ace, Ace, Eight, Ace, Ace);
    Counts5(Ace, Ace, Eight, Ace, Ace);
  }

  lemma ParseFullHouse()
    ensures ParseHand("23332", false) == Ok([Two, Three, Three, Three, Two])
  {
    ParsePrinted([Two, Three, Three, Three, Two], "23332", false);
  }

  lemma KindFullHouse()
    ensures KindOf([Two, Three, Three, Three, Two], false) == FullHouse
  {
    Hand5(Two, Three, Three, Three, Two);
    Counts5(Two, Three, Three, Three, Two);
  }

  lemma ParseThree()
    ensures ParseHand("TTT98", false) == Ok([Ten, Ten, Ten, Nine, Eight])
  {
    ParsePrinted([Ten, Ten, Ten, Nine, Eight], "TTT98", false);
  }

  lemma KindThree()
    ensures KindOf([Ten, Ten, Ten, Nine, Eight], false) == ThreeOfAKind
  {
    Hand5(Ten, Ten, Ten, Nine, Eight);
    Counts5(Ten, Ten, Ten, Nine, Eight);
  }

  lemma ParseTwoPair()
    ensures ParseHand("23432", false) == Ok([Two, Three, Four, Three, Two])
  {
    ParsePrinted([Two, Three, Four, Three, Two], "23432", false);
  }

  lemma KindTwoPair()
    ensures KindOf([Two, Three, Four, Three, Two], false) == TwoPair
  {
    Hand5(Two, Three, Four, Three, Two);
    Counts5(Two, Three, Four, Three, Two);
  }

  lemma ParseOnePair()
    ensures ParseHand("A23A4", false) == Ok([Ace, Two, Three, Ace, Four])
  {
    ParsePrinted([Ace, Two, Three, Ace, Four], "A23A4", false);
  }

  lemma KindOnePair()
    ensures KindOf([Ace, Two, Three, Ace, Four], false) == OnePair
  {
    Hand5(Ace, Two, Three, Ace, Four);
    Counts5(Ace, Two, Three, Ace, Four);
  }

  lemma ParseHigh()
    ensures ParseHand("23456", false) == Ok([Two, Three, Four, Five, Six])
  {
    ParsePrinted([Two, Three, Four, Five, Six], "23456", false);
  }

  lemma KindHigh()
    ensures KindOf([Two, Three, Four, Five, Six], false) == HighCard
  {
    Hand5(Two, Three, Four, Five, Six);
    Counts5(Two, Three, Four, Five, Six);
  }

  /** The example's five lines, parsed with jokers tame (`J` is a jack). */
  predicate TameExample(e: seq<Entry>) {
    e == [ Entry([Three, Two, Ten, Three, King], 765),
           Entry([Ten, Five, Five, Jack, Five], 684),
           Entry([King, King, Six, Seven, Seven], 28),
           Entry([King, Ten, Jack, Jack, Ten], 220),
           Entry([Queen, Queen, Queen, Jack, Ace], 483) ]
  }

  /** The same lines parsed with jokers wild. */
  predicate WildExample(e: seq<Entry>) {
    e == [ Entry([Three, Two, Ten, Three, King], 765),
           Entry([Ten, Five, Five, Joker, Five], 684),
           Entry([King, King, Six, Seven, Seven], 28),
           Entry([King, Ten, Joker, Joker, Ten], 220),
           Entry([Queen, Queen, Queen, Joker, Ace], 483) ]
  }

  /** Part one on the example: the ranking is one pair, the two two-pairs
      (KTJJT below KK677 on the second card), the two threes (T55J5 below
      QQQJA), and the winnings are 6440. */
  lemma ExamplePartOne(entries: seq<Entry>, r: seq<Entry>)
    requires TameExample(entries)
    requires r == [entries[0], entries[3], entries[2], entries[1], entries[4]]
    ensures forall s :: IsRanking(s, entries, false) <==> s == r
    ensures forall s :: IsRanking(s, entries, false) ==> Winnings(s) == 6440
  {
    TameChain(entries, r);
    Ascending5Chain(r, false);
    FiveCardEntries(entries);
    RearrangedTame(entries, r);
    ChainRanking(r, entries, false);
    Winnings5(r);
    forall s | IsRanking(s, entries, false) ensures Winnings(s) == 6440 {
    }
  }

  /** Part two on the example: one pair, two pair, then the three
      four-of-a-kinds T55J5, QQQJA, KTJJT ordered by their first cards;
      the winnings are 5905. */
  lemma ExamplePartTwo(entries: seq<Entry>, r: seq<Entry>)
    requires WildExample(entries)
    requires r == [entries[0], entries[2], entries[1], entries[4], entries[3]]
    ensures forall s :: IsRanking(s, entries, true) <==> s == r
    ensures forall s :: IsRanking(s, entries, true) ==> Winnings(s) == 5905
  {
    WildChain(entries, r);
    Ascending5Chain(r, true);
    FiveCardEntries(entries);
    RearrangedWild(entries, r);
    ChainRanking(r, entries, true);
    Winnings5(r);
    forall s | IsRanking(s, entries, true) ensures Winnings(s) == 5905 {
    }
  }

  // The neighbours of the two example rankings.

  lemma TameChain(entries: seq<Entry>, r: seq<Entry>)
    requires TameExample(entries)
    requires r == [entries[0], entries[3], entries[2], entries[1], entries[4]]
    ensures Ascending5(r, false)
  {
    TameStep0(r[0].hand, r[1].hand);
    TameStep1(r[1].hand, r[2].hand);
    TameStep2(r[2].hand, r[3].hand);
    TameStep3(r[3].hand, r[4].hand);
  }

  lemma WildChain(entries: seq<Entry>, r: seq<Entry>)
    requires WildExample(entries)
    requires r == [entries[0], entries[2], entries[1], entries[4], entries[3]]
    ensures Ascending5(r, true)
  {
    WildStep0(r[0].hand, r[1].hand);
    WildStep1(r[1].hand, r[2].hand);
    WildStep2(r[2].hand, r[3].hand);
    WildStep3(r[3].hand, r[4].hand);
  }


  lemma TameStep0(a: seq<Card>, b: seq<Card>)
    requires a == [Three, Two, Ten, Three, King] && b == [King, Ten, Jack, Jack, Ten]
    ensures CompareHands(a, b, false) == Less
  {
    KindH1(a, false);
    KindH4(b);
    assert Rank(OnePair) < Rank(TwoPair);
  }

  /** KTJJT against KK677: equal first cards, then T below K. */
  lemma TameStep1(a: seq<Card>, b: seq<Card>)
    requires a == [King, Ten, Jack, Jack, Ten] && b == [King, King, Six, Seven, Seven]
    ensures CompareHands(a, b, false) == Less
  {
    KindH4(a);
    KindH3(b, false);
    assert a[1..] == [Ten, Jack, Jack, Ten];
    assert b[1..] == [King, Six, Seven, Seven];
    assert CompareCards(a[1..], b[1..]) == Less;
    assert CompareCards(a, b) == CompareCards(a[1..], b[1..]);
  }

  lemma TameStep2(a: seq<Card>, b: seq<Card>)
    requires a == [King, King, Six, Seven, Seven] && b == [Ten, Five, Five, Jack, Five]
    ensures CompareHands(a, b, false) == Less
  {
    KindH3(a, false);
    KindH2(b);
  }

  lemma TameStep3(a: seq<Card>, b: seq<Card>)
    requires a == [Ten, Five, Five, Jack, Five] && b == [Queen, Queen, Queen, Jack, Ace]
    ensures CompareHands(a, b, false) == Less
  {
    KindH2(a);
    KindH5(b);
  }

  lemma WildStep0(a: seq<Card>, b: seq<Card>)
    requires a == [Three, Two, Ten, Three, King] && b == [King, King, Six, Seven, Seven]
    ensures CompareHands(a, b, true) == Less
  {
    KindH1(a, true);
    KindH3(b, true);
  }

  lemma WildStep1(a: seq<Card>, b: seq<Card>)
    requires a == [King, King, Six, Seven, Seven] && b == [Ten, Five, Five, Joker, Five]
    ensures CompareHands(a, b, true) == Less
  {
    KindH3(a, true);
    WildH2(b);
  }

  lemma WildStep2(a: seq<Card>, b: seq<Card>)
    requires a == [Ten, Five, Five, Joker, Five] && b == [Queen, Queen, Queen, Joker, Ace]
    ensures CompareHands(a, b, true) == Less
  {
    WildH2(a);
    WildH5(b);
  }

  lemma WildStep3(a: seq<Card>, b: seq<Card>)
    requires a == [Queen, Queen, Queen, Joker, Ace] && b == [King, Ten, Joker, Joker, Ten]
    ensures CompareHands(a, b, true) == Less
  {
    WildH5(a);
    WildH4(b);
  }

  /** The ranking of part one rearranges the example's entries: cards two
      and four change places. */
  lemma RearrangedTame<T>(s: seq<T>, r: seq<T>)
    requires |s| == 5 && r == [s[0], s[3], s[2], s[1], s[4]]
    ensures multiset(r) == multiset(s)
  {
    SwapPermutes(s, 1, 3);
    assert r == s[1 := s[3]][3 := s[1]];
  }

  /** The ranking of part two rearranges the example's entries: cards two
      and three change places, and so do cards four and five. */
  lemma RearrangedWild<T>(s: seq<T>, r: seq<T>)
    requires |s| == 5 && r == [s[0], s[2], s[1], s[4], s[3]]
    ensures multiset(r) == multiset(s)
  {
    var t := s[1 := s[2]][2 := s[1]];
    SwapPermutes(s, 1, 2);
    SwapPermutes(t, 3, 4);
    assert r == t[3 := t[4]][4 := t[3]];
  }

  lemma FiveCardEntries(entries: seq<Entry>)
    requires TameExample(entries) || WildExample(entries)
    ensures |entries| == 5 && SameSize(entries)
  {
    assert forall i :: 0 <= i < |entries| ==> |entries[i].hand| == 5;
  }

  /** Five entries whose hands strictly increase from each to the next. */
  predicate Ascending5(r: seq<Entry>, wild: bool) {
    && |r| == 5
    && CompareHands(r[0].hand, r[1].hand, wild) == Less
    && CompareHands(r[1].hand, r[2].hand, wild) == Less
    && CompareHands(r[2].hand, r[3].hand, wild) == Less
    && CompareHands(r[3].hand, r[4].hand, wild) == Less
  }

  lemma Ascending5Chain(r: seq<Entry>, wild: bool)
    requires Ascending5(r, wild)
    ensures forall i :: 0 <= i < |r| - 1 ==> CompareHands(r[i].hand, r[i + 1].hand, wild) == Less
  {
  }

  /** Entries whose hands strictly increase, neighbour by neighbour, are
      the one ranking of their collection. */
  lemma ChainRanking(r: seq<Entry>, entries: seq<Entry>, wild: bool)
    requires SameSize(entries) && multiset(r) == multiset(entries)
    requires forall i :: 0 <= i < |r| - 1 ==> CompareHands(r[i].hand, r[i + 1].hand, wild) == Less
    ensures forall s :: IsRanking(s, entries, wild) <==> s == r
  {
    var le := EntryOrder(wild);
    EntryOrderTotalPart(r, entries, wild);
    assert SameSize(r) by {
      forall y | y in r ensures y in entries {
        assert y in multiset(r);
      }
    }
    EntryOrderTotal(r, wild);
    ChainSorted(r, le);
    forall s | IsRanking(s, entries, wild) ensures s == r {
      EntryOrderTotalPart(s, entries, wild);
      SortedUnique(s, r, le);
    }
  }

  /** The winnings of five ranked entries. */
  lemma Winnings5(s: seq<Entry>)
    requires |s| == 5
    ensures Winnings(s) == s[0].bid + 2 * s[1].bid + 3 * s[2].bid + 4 * s[3].bid + 5 * s[4].bid
  {
    var s4, s3, s2, s1 := s[..4], s[..3], s[..2], s[..1];
    assert s4[..3] == s3 && s3[..2] == s2 && s2[..1] == s1 && s1[..0] == [];
    assert Winnings(s) == Winnings(s4) + 5 * s[4].bid;
    assert Winnings(s4) == Winnings(s3) + 4 * s[3].bid;
    assert Winnings(s3) == Winnings(s2) + 3 * s[2].bid;
    assert Winnings(s2) == Winnings(s1) + 2 * s[1].bid;
    assert Winnings(s1) == s[0].bid;
  }

  // Five-card hands, counted card by card.

  /** The copies of `x` in a five-card hand, position by position. */
  lemma {:induction false} Count5(a: Card, b: Card, c: Card, d: Card, e: Card, x: Card)
    ensures Count([a, b, c, d, e], x) ==
      (if a == x then 1 else 0) + (if b == x then 1 else 0) + (if c == x then 1 else 0) +
      (if d == x then 1 else 0) + (if e == x then 1 else 0)
  {
    Count2(d, e, x);
    Count3(c, d, e, x);
    Count4(b, c, d, e, x);
    Tails5(a, b, c, d, e);
  }

  lemma Count2(d: Card, e: Card, x: Card)
    ensures Count([d, e], x) == (if d == x then 1 else 0) + (if e == x then 1 else 0)
  {
    assert [d, e][1..] == [e];
    CountOne(e, x);
  }

  lemma CountOne(e: Card, x: Card)
    ensures Count([e], x) == if e == x then 1 else 0
  {
    assert [e][1..] == [];
  }

  lemma Count3(c: Card, d: Card, e: Card, x: Card)
    ensures Count([c, d, e], x) == (if c == x then 1 else 0) + Count([d, e], x)
  {
    assert [c, d, e][1..] == [d, e];
  }

  lemma Count4(b: Card, c: Card, d: Card, e: Card, x: Card)
    ensures Count([b, c, d, e], x) == (if b == x then 1 else 0) + Count([c, d, e], x)
  {
    assert [b, c, d, e][1..] == [c, d, e];
  }

  /** The different cards of a five-card hand: each card not repeated later. */
  lemma {:induction false} Distinct5(a: Card, b: Card, c: Card, d: Card, e: Card)
    ensures Distinct([a, b, c, d, e]) ==
      (if a in [b, c, d, e] then 0 else 1) + (if b in [c, d, e] then 0 else 1) +
      (if c in [d, e] then 0 else 1) + (if d == e then 0 else 1) + 1
  {
    Distinct2(d, e);
    Distinct3(c, d, e);
    Distinct4(b, c, d, e);
    Tails5(a, b, c, d, e);
  }

  lemma Distinct2(d: Card, e: Card)
    ensures Distinct([d, e]) == (if d == e then 0 else 1) + 1
  {
    assert [d, e][1..] == [e];
    assert (d in [e]) == (d == e);
    DistinctOne(e);
  }

  lemma DistinctOne(e: Card)
    ensures Distinct([e]) == 1
  {
    assert [e][1..] == [];
  }

  lemma Distinct3(c: Card, d: Card, e: Card)
    ensures Distinct([c, d, e]) == (if c in [d, e] then 0 else 1) + Distinct([d, e])
  {
    assert [c, d, e][1..] == [d, e];
  }

  lemma Distinct4(b: Card, c: Card, d: Card, e: Card)
    ensures Distinct([b, c, d, e]) == (if b in [c, d, e] then 0 else 1) + Distinct([c, d, e])
  {
    assert [b, c, d, e][1..] == [c, d, e];
  }

  /** A five-card hand has a card with `n` copies when one of its five
      positions does. */
  lemma {:induction false} HasCount5(a: Card, b: Card, c: Card, d: Card, e: Card, n: nat)
    ensures var h := [a, b, c, d, e];
      HasCount(h, n) <==>
        Count(h, a) == n || Count(h, b) == n || Count(h, c) == n || Count(h, d) == n || Count(h, e) == n
  {
    var h := [a, b, c, d, e];
    Occurs2(d, e, h, n);
    Occurs3(c, d, e, h, n);
    Occurs4(b, c, d, e, h, n);
    Tails5(a, b, c, d, e);
  }

  lemma Occurs2(d: Card, e: Card, h: seq<Card>, n: nat)
    ensures Occurs([d, e], h, n) <==> Count(h, d) == n || Count(h, e) == n
  {
    assert [d, e][1..] == [e];
    OccursOne(e, h, n);
  }

  lemma OccursOne(e: Card, h: seq<Card>, n: nat)
    ensures Occurs([e], h, n) <==> Count(h, e) == n
  {
    assert [e][1..] == [];
  }

  lemma Occurs3(c: Card, d: Card, e: Card, h: seq<Card>, n: nat)
    ensures Occurs([c, d, e], h, n) <==> Count(h, c) == n || Occurs([d, e], h, n)
  {
    assert [c, d, e][1..] == [d, e];
  }

  lemma Occurs4(b: Card, c: Card, d: Card, e: Card, h: seq<Card>, n: nat)
    ensures Occurs([b, c, d, e], h, n) <==> Count(h, b) == n || Occurs([c, d, e], h, n)
  {
    assert [b, c, d, e][1..] == [c, d, e];
  }

  /** The tests for five, four and three copies and the number of different
      cards of a five-card hand, worked out position by position. */
  lemma Hand5(a: Card, b: Card, c: Card, d: Card, e: Card)
    ensures (HasCount([a, b, c, d, e], 5) <==> Count([a, b, c, d, e], a) == 5 || Count([a, b, c, d, e], b) == 5 || Count([a, b, c, d, e], c) == 5 || Count([a, b, c, d, e], d) == 5 || Count([a, b, c, d, e], e) == 5)
    ensures (HasCount([a, b, c, d, e], 4) <==> Count([a, b, c, d, e], a) == 4 || Count([a, b, c, d, e], b) == 4 || Count([a, b, c, d, e], c) == 4 || Count([a, b, c, d, e], d) == 4 || Count([a, b, c, d, e], e) == 4)
    ensures (HasCount([a, b, c, d, e], 3) <==> Count([a, b, c, d, e], a) == 3 || Count([a, b, c, d, e], b) == 3 || Count([a, b, c, d, e], c) == 3 || Count([a, b, c, d, e], d) == 3 || Count([a, b, c, d, e], e) == 3)
    ensures Distinct([a, b, c, d, e]) ==
        (if a in [b, c, d, e] then 0 else 1) + (if b in [c, d, e] then 0 else 1) +
        (if c in [d, e] then 0 else 1) + (if d == e then 0 else 1) + 1
  {
    HasCount5(a, b, c, d, e, 5);
    HasCount5(a, b, c, d, e, 4);
    HasCount5(a, b, c, d, e, 3);
    Distinct5(a, b, c, d, e);
  }

  /** The number of copies of each card of a five-card hand. */
  lemma Counts5(a: Card, b: Card, c: Card, d: Card, e: Card)
    ensures var h := [a, b, c, d, e];
      && Count(h, a) == 1 + (if b == a then 1 else 0) + (if c == a then 1 else 0) + (if d == a then 1 else 0) + (if e == a then 1 else 0)
      && Count(h, b) == (if a == b then 1 else 0) + 1 + (if c == b then 1 else 0) + (if d == b then 1 else 0) + (if e == b then 1 else 0)
      && Count(h, c) == (if a == c then 1 else 0) + (if b == c then 1 else 0) + 1 + (if d == c then 1 else 0) + (if e == c then 1 else 0)
      && Count(h, d) == (if a == d then 1 else 0) + (if b == d then 1 else 0) + (if c == d then 1 else 0) + 1 + (if e == d then 1 else 0)
      && Count(h, e) == (if a == e then 1 else 0) + (if b == e then 1 else 0) + (if c == e then 1 else 0) + (if d == e then 1 else 0) + 1
  {
    Count5(a, b, c, d, e, a);
    Count5(a, b, c, d, e, b);
    Count5(a, b, c, d, e, c);
    Count5(a, b, c, d, e, d);
    Count5(a, b, c, d, e, e);
  }

  lemma Tails5(a: Card, b: Card, c: Card, d: Card, e: Card)
    ensures [a, b, c, d, e][1..] == [b, c, d, e] && [b, c, d, e][1..] == [c, d, e]
    ensures [c, d, e][1..] == [d, e] && [d, e][1..] == [e] && [e][1..] == []
  {
  }

  // Each example hand's kind, worked out once on the literal hand.

  lemma KindH1(h: seq<Card>, wild: bool)
    requires h == [Three, Two, Ten, Three, King]
    ensures KindOf(h, wild) == OnePair
  {
    Hand5(Three, Two, Ten, Three, King);
    Counts5(Three, Two, Ten, Three, King);
    NoJokers(h);
  }

  lemma KindH2(h: seq<Card>)
    requires h == [Ten, Five, Five, Jack, Five]
    ensures KindOf(h, false) == ThreeOfAKind
  {
    Hand5(Ten, Five, Five, Jack, Five);
    Counts5(Ten, Five, Five, Jack, Five);
  }

  lemma KindH3(h: seq<Card>, wild: bool)
    requires h == [King, King, Six, Seven, Seven]
    ensures KindOf(h, wild) == TwoPair
  {
    Hand5(King, King, Six, Seven, Seven);
    Counts5(King, King, Six, Seven, Seven);
    NoJokers(h);
  }

  lemma KindH4(h: seq<Card>)
    requires h == [King, Ten, Jack, Jack, Ten]
    ensures KindOf(h, false) == TwoPair
  {
    Hand5(King, Ten, Jack, Jack, Ten);
    Counts5(King, Ten, Jack, Jack, Ten);
  }

  lemma KindH5(h: seq<Card>)
    requires h == [Queen, Queen, Queen, Jack, Ace]
    ensures KindOf(h, false) == ThreeOfAKind
  {
    Hand5(Queen, Queen, Queen, Jack, Ace);
    Counts5(Queen, Queen, Queen, Jack, Ace);
  }

  lemma WildH2(h: seq<Card>)
    requires h == [Ten, Five, Five, Joker, Five]
    ensures KindOf(h, true) == FourOfAKind
  {
    ChoiceH2(h);
    WildKind(h, Five);
    FourFives(Substitute(h, Five));
  }

  lemma WildH4(h: seq<Card>)
    requires h == [King, Ten, Joker, Joker, Ten]
    ensures KindOf(h, true) == FourOfAKind
  {
    ChoiceH4(h);
    WildKind(h, Ten);
    FourTens(Substitute(h, Ten));
  }

  lemma WildH5(h: seq<Card>)
    requires h == [Queen, Queen, Queen, Joker, Ace]
    ensures KindOf(h, true) == FourOfAKind
  {
    ChoiceH5(h);
    WildKind(h, Queen);
    FourQueens(Substitute(h, Queen));
  }

  lemma ChoiceH2(h: seq<Card>)
    requires h == [Ten, Five, Five, Joker, Five]
    ensures IsMostCommon(h, Five) && Substitute(h, Five) == [Ten, Five, Five, Five, Five]
  {
    Counts5(Ten, Five, Five, Joker, Five);
    forall c | c in h && c != Joker ensures Count(h, c) <= Count(h, Five) {
      var i :| 0 <= i < 5 && h[i] == c;
    }
    Substitute5(Ten, Five, Five, Joker, Five, Five);
  }

  lemma ChoiceH4(h: seq<Card>)
    requires h == [King, Ten, Joker, Joker, Ten]
    ensures IsMostCommon(h, Ten) && Substitute(h, Ten) == [King, Ten, Ten, Ten, Ten]
  {
    Counts5(King, Ten, Joker, Joker, Ten);
    forall c | c in h && c != Joker ensures Count(h, c) <= Count(h, Ten) {
      var i :| 0 <= i < 5 && h[i] == c;
    }
    Substitute5(King, Ten, Joker, Joker, Ten, Ten);
  }

  lemma ChoiceH5(h: seq<Card>)
    requires h == [Queen, Queen, Queen, Joker, Ace]
    ensures IsMostCommon(h, Queen) && Substitute(h, Queen) == [Queen, Queen, Queen, Queen, Ace]
  {
    Counts5(Queen, Queen, Queen, Joker, Ace);
    forall c | c in h && c != Joker ensures Count(h, c) <= Count(h, Queen) {
      var i :| 0 <= i < 5 && h[i] == c;
    }
    Substitute5(Queen, Queen, Queen, Joker, Ace, Queen);
  }

  /** Substituting for the jokers of a five-card hand, position by position. */
  lemma Substitute5(a: Card, b: Card, c: Card, d: Card, e: Card, x: Card)
    ensures Substitute([a, b, c, d, e], x) ==
      [if a == Joker then x else a, if b == Joker then x else b, if c == Joker then x else c,
       if d == Joker then x else d, if e == Joker then x else e]
  {
    var h := [a, b, c, d, e];
    SubstituteAt(h, x, 0);
    SubstituteAt(h, x, 1);
    SubstituteAt(h, x, 2);
    SubstituteAt(h, x, 3);
    SubstituteAt(h, x, 4);
  }

  /** Each position of the substituted hand is the card there, or `b` for
      a joker. */
  lemma {:induction false} SubstituteAt(cards: seq<Card>, b: Card, i: nat)
    requires i < |cards|
    ensures Substitute(cards, b)[i] == if cards[i] == Joker then b else cards[i]
  {
    if i > 0 {
      SubstituteAt(cards[1..], b, i - 1);
    }
  }

  // The hands the jokers turn into are four of a kind.

  lemma FourFives(h: seq<Card>)
    requires h == [Ten, Five, Five, Five, Five]
    ensures ClassifyCards(h) == FourOfAKind
  {
    Hand5(Ten, Five, Five, Five, Five);
    Counts5(Ten, Five, Five, Five, Five);
  }

  lemma FourTens(h: seq<Card>)
    requires h == [King, Ten, Ten, Ten, Ten]
    ensures ClassifyCards(h) == FourOfAKind
  {
    Hand5(King, Ten, Ten, Ten, Ten);
    Counts5(King, Ten, Ten, Ten, Ten);
  }

  lemma FourQueens(h: seq<Card>)
    requires h == [Queen, Queen, Queen, Queen, Ace]
    ensures ClassifyCards(h) == FourOfAKind
  {
    Hand5(Queen, Queen, Queen, Queen, Ace);
    Counts5(Queen, Queen, Queen, Queen, Ace);
  }
}
