/** Day 5: an almanac of seeds and of stages ("seed-to-soil map", ...).
    Each stage is a list of (source range, destination range) pairs; a value
    passes through the stages in order, and in each stage the first pair
    whose source contains it moves it by the same offset into the
    destination. Parsing normalises every stage into a sorted list of pairs
    whose sources tile `[0, u64::MAX)`, filling the holes with identity
    pairs. */
module SeedAlmanac {
  import opened Common
  import opened Sorting

  /** Rust's `Range<u64>`, the half-open `start..end`; empty when `end <= start`. */
  datatype Span = Span(start: nat, end: nat) {
    predicate Contains(v: nat) {
      start <= v < end
    }
  }

  /** One pair of a stage: values in `src` move to the same offset in `dst`. */
  datatype Mapping = Mapping(src: Span, dst: Span)

  type Stage = seq<Mapping>

  datatype Almanac = Almanac(seeds: seq<nat>, maps: seq<Stage>)

  /** A passthrough pair: `lo..hi` maps to itself. */
  function Identity(lo: nat, hi: nat): Mapping {
    Mapping(Span(lo, hi), Span(lo, hi))
  }

  /** The line `dst src len` as the pair `src..src+len -> dst..dst+len`. */
  function FromTriple(dst: nat, src: nat, len: nat): Mapping {
    Mapping(Span(src, src + len), Span(dst, dst + len))
  }

  /** Where a pair whose source contains `v` sends it: `v - src.start + dst.start`. */
  function Shift(m: Mapping, v: nat): nat
    requires m.src.start <= v
  {
    v - m.src.start + m.dst.start
  }

  /** Both ranges of a parsed line have length `len`, and the `k`-th value
      of the source goes to the `k`-th value of the destination. */
  lemma FromTripleShifts(dst: nat, src: nat, len: nat, k: nat)
    requires k < len
    ensures var m := FromTriple(dst, src, len);
      && m.src.end - m.src.start == m.dst.end - m.dst.start == len
      && m.src.Contains(src + k) && Shift(m, src + k) == dst + k
      && m.dst.Contains(Shift(m, src + k))
  {
  }

  // ---------------------------------------------------------------------
  // Parsing

  /** `parse_seeds`: the line must start with "seeds: "; every word after it
      is a `u64`. */
  function ParseSeeds(line: string): (r: Option<seq<nat>>)
    ensures r.Some? ==> forall i :: 0 <= i < |r.value| ==> r.value[i] <= U64_MAX
  {
    var prefix := "seeds: ";
    if |line| < |prefix| || line[..|prefix|] != prefix then None
    else ParseNumbers(Words(line[|prefix|..]), U64_MAX)
  }

  /** One line `dst src len` of a map: its first three words must be `u64`
      numerals; further words are ignored. */
  function ParseLine(line: string): Option<Mapping> {
    var w := Words(line);
    if |w| < 3 then None
    else match (ParseUnsigned(w[0], U64_MAX), ParseUnsigned(w[1], U64_MAX), ParseUnsigned(w[2], U64_MAX))
      case (Some(dst), Some(src), Some(len)) => Some(FromTriple(dst, src, len))
      case _ => None
  }

  function ParseLines(lines: seq<string>): (r: Option<Stage>)
    ensures r.Some? ==> |r.value| == |lines|
    ensures r.Some? ==> forall i :: 0 <= i < |lines| ==> ParseLine(lines[i]) == Some(r.value[i])
  {
    if lines == [] then Some([])
    else match (ParseLine(lines[0]), ParseLines(lines[1..]))
      case (Some(m), Some(rest)) => Some([m] + rest)
      case (None, _) => None
      case (_, None) => None
  }

  /** A list of lines fails to parse exactly when one of its lines does. */
  lemma {:induction false} ParseLinesFails(lines: seq<string>)
    ensures ParseLines(lines).None? <==> exists i :: 0 <= i < |lines| && ParseLine(lines[i]).None?
  {
    if lines != [] {
      ParseLinesFails(lines[1..]);
      if ParseLine(lines[0]).Some? && ParseLines(lines[1..]).None? {
        var i :| 0 <= i < |lines[1..]| && ParseLine(lines[1..][i]).None?;
        assert ParseLine(lines[i + 1]).None?;
      }
      if ParseLines(lines).Some? {
        forall i | 0 <= i < |lines| ensures ParseLine(lines[i]).Some? {
          if i > 0 {
            assert lines[i] == lines[1..][i - 1];
          }
        }
      }
    }
  }

  /** `parse_map`: the first line of a block is its label and is discarded;
      a block without any line is an error. */
  function ParseMap(block: seq<string>): Option<Stage> {
    if block == [] then None else ParseLines(block[1..])
  }

  /** `parts.map(parse_map).collect()`: every block must parse. */
  function ParseMaps(blocks: seq<seq<string>>): (r: Option<seq<Stage>>)
    ensures r.Some? ==> |r.value| == |blocks|
    ensures r.Some? ==> forall i :: 0 <= i < |blocks| ==> ParseMap(blocks[i]) == Some(r.value[i])
  {
    if blocks == [] then Some([])
    else match (ParseMap(blocks[0]), ParseMaps(blocks[1..]))
      case (Some(m), Some(rest)) => Some([m] + rest)
      case (None, _) => None
      case (_, None) => None
  }

  /** The text of a map line, as the almanac writes it. */
  function FormatLine(dst: nat, src: nat, len: nat): string {
    DecimalString(dst) + " " + DecimalString(src) + " " + DecimalString(len)
  }

  /** The words of a line's text are its three numerals. */
  lemma WordsOfFormatLine(dst: nat, src: nat, len: nat)
    ensures Words(FormatLine(dst, src, len)) == [DecimalString(dst), DecimalString(src), DecimalString(len)]
  {
    var a, b, c := DecimalString(dst), DecimalString(src), DecimalString(len);
    NumeralHasNoSpace(dst);
    NumeralHasNoSpace(src);
    NumeralHasNoSpace(len);
    WordsOfSingleWord(c);
    WordsSpaceSeparated(b, c);
    WordsSpaceSeparated(a, b + " " + c);
    assert FormatLine(dst, src, len) == a + " " + (b + " " + c);
  }

  /** Parsing the text of a line whose numbers fit in a `u64` gives back its pair. */
  lemma ParseFormatLine(dst: nat, src: nat, len: nat)
    requires dst <= U64_MAX && src <= U64_MAX && len <= U64_MAX
    ensures ParseLine(FormatLine(dst, src, len)) == Some(FromTriple(dst, src, len))
  {
    WordsOfFormatLine(dst, src, len);
    ParseUnsignedRoundTrip(dst, U64_MAX);
    ParseUnsignedRoundTrip(src, U64_MAX);
    ParseUnsignedRoundTrip(len, U64_MAX);
  }

  // ---------------------------------------------------------------------
  // Lookup and the pipeline

  /** The per-stage lookup: the first pair whose source contains `v` moves
      it; when no pair does, `v` is unchanged. */
  function Lookup(stage: Stage, v: nat): nat {
    if stage == [] then v
    else if stage[0].src.Contains(v) then Shift(stage[0], v)
    else Lookup(stage[1..], v)
  }

  /** The first pair that contains `v` decides the lookup. */
  lemma {:induction false} LookupFirst(stage: Stage, k: nat, v: nat)
    requires k < |stage| && stage[k].src.Contains(v)
    requires forall j :: 0 <= j < k ==> !stage[j].src.Contains(v)
    ensures Lookup(stage, v) == Shift(stage[k], v)
  {
    if k > 0 {
      LookupFirst(stage[1..], k - 1, v);
    }
  }

  /** A value no pair contains is unchanged. */
  lemma {:induction false} LookupMiss(stage: Stage, v: nat)
    requires forall j :: 0 <= j < |stage| ==> !stage[j].src.Contains(v)
    ensures Lookup(stage, v) == v
  {
    if stage != [] {
      LookupMiss(stage[1..], v);
    }
  }

  /** A looked-up value keeps its offset: it lands in the destination of the
      pair that moved it, as far from its start as `v` was from the source's
      start. */
  lemma ShiftKeepsOffset(m: Mapping, v: nat)
    requires m.src.Contains(v)
    requires m.dst.end - m.dst.start == m.src.end - m.src.start
    ensures m.dst.Contains(Shift(m, v))
    ensures Shift(m, v) - m.dst.start == v - m.src.start
  {
  }

  /** A value passes through the stages once each, in order, each stage's
      output feeding the next. */
  function Locate(maps: seq<Stage>, v: nat): nat {
    if maps == [] then v else Locate(maps[1..], Lookup(maps[0], v))
  }

  /** Running the stages of `a` and then those of `b` is running `a + b`. */
  lemma {:induction false} LocateAppend(a: seq<Stage>, b: seq<Stage>, v: nat)
    ensures Locate(a + b, v) == Locate(b, Locate(a, v))
  {
    if a == [] {
      assert a + b == b;
    } else {
      assert (a + b)[1..] == a[1..] + b;
      LocateAppend(a[1..], b, Lookup(a[0], v));
    }
  }

  // ---------------------------------------------------------------------
  // Normalisation

  function StartLe(a: Mapping, b: Mapping): bool {
    a.src.start <= b.src.start
  }

  lemma StartLeTotal(s: Stage)
    ensures TotalOn(StartLe, s)
  {
  }

  /** The windows loop's passthrough table for a stage sorted by source
      start: for each pair of neighbours whose sources do not abut, the
      identity pair on the hole between them. As in the hash map it models,
      the same hole found twice is kept once. */
  function Holes(s: Stage): set<Mapping>
  {
    if |s| < 2 then {} else Holes(s[..|s| - 1]) + HoleBetween(s[|s| - 2], s[|s| - 1])
  }

  function HoleBetween(a: Mapping, b: Mapping): set<Mapping> {
    if a.src.end != b.src.start then {Identity(a.src.end, b.src.start)} else {}
  }

  /** The pairs `parse` adds to a stage whose pairs, sorted by source start,
      are `s`: the holes, `0..start` when the first source starts above 0,
      and `end..u64::MAX` after the last source. */
  function Added(s: Stage): multiset<Mapping>
    requires s != []
  {
    multiset(Holes(s))
    + (if s[0].src.start > 0 then multiset{Identity(0, s[0].src.start)} else multiset{})
    + multiset{Identity(s[|s| - 1].src.end, U64_MAX)}
  }

  /** What `parse` promises of a normalised stage `m` built from the pairs
      `declared`: `m` is sorted by source start, holds the declared pairs
      plus the added identity pairs, and, when the declared sources are
      non-empty, bounded and disjoint, it is exactly their tiling of
      `[0, u64::MAX)`. */
  ghost predicate IsNormalisation(declared: Stage, m: Stage)
    requires declared != []
  {
    var s := SortBy(declared, StartLe);
    && SortedBy(m, StartLe)
    && multiset(m) == multiset(declared) + Added(s)
    && (forall p :: p in m ==> p in declared || p.src == p.dst)
    && (WellFormed(declared) ==> m == Tiling(s) && Partition(m))
  }

  /** The normalisation loop of `parse` for one map: sort by source start,
      collect the holes between neighbours, append them in the hash map's
      (unspecified) order, add the leading and trailing passthrough pairs,
      and sort again. The caller must supply at least one pair. */
  method Normalise(declared: Stage) returns (m: Stage)
    requires declared != []
    ensures IsNormalisation(declared, m)
  {
    m := SortBy(declared, StartLe);
    ghost var s := m;
    var start := m[0].src.start;
    var end := m[|m| - 1].src.end;
    var passthrough := CollectHoles(m);
    m := ExtendFrom(m, passthrough);
    if start > 0 {
      m := m + [Identity(0, start)];
    }
    m := m + [Identity(end, U64_MAX)];
    ghost var unsorted := m;
    m := SortBy(m, StartLe);
    NormaliseFinish(declared, unsorted, m);
  }

  /** The windows loop of `parse`: for each pair of neighbours whose
      sources do not abut, record the hole between them. */
  method CollectHoles(m: Stage) returns (passthrough: set<Mapping>)
    ensures passthrough == Holes(m)
  {
    passthrough := {};
    if m == [] {
      return;
    }
    var i := 0;
    while i + 1 < |m|
      invariant 0 <= i < |m|
      invariant passthrough == Holes(m[..i + 1])
    {
      assert m[..i + 2][..i + 1] == m[..i + 1];
      if m[i].src.end != m[i + 1].src.start {
        passthrough := passthrough + {Identity(m[i].src.end, m[i + 1].src.start)};
      }
      i := i + 1;
    }
    assert m[..i + 1] == m;
  }

  /** `Vec::extend` from the passthrough table, in whatever order the table
      yields its pairs. */
  method ExtendFrom(m: Stage, pairs: set<Mapping>) returns (r: Stage)
    ensures multiset(r) == multiset(m) + multiset(pairs)
    ensures |r| == |m| + |pairs|
  {
    r := m;
    var rest := pairs;
    while rest != {}
      invariant rest <= pairs
      invariant multiset(r) == multiset(m) + multiset(pairs - rest)
      decreases rest
    {
      var p :| p in rest;
      r := r + [p];
      MultisetOfSetAdd(pairs - rest, p);
      assert (pairs - rest) + {p} == pairs - (rest - {p});
      rest := rest - {p};
    }
    assert pairs - rest == pairs;
    assert |r| == |multiset(r)| == |multiset(m)| + |multiset(pairs)|;
  }

  lemma NormaliseFinish(declared: Stage, unsorted: Stage, m: Stage)
    requires declared != []
    requires multiset(unsorted) == multiset(declared) + Added(SortBy(declared, StartLe))
    requires m == SortBy(unsorted, StartLe)
    ensures IsNormalisation(declared, m)
  {
    StartLeTotal(unsorted);
    SortBySorted(unsorted, StartLe);
    forall p | p in m ensures p in declared || p.src == p.dst {
      assert p in multiset(m);
      if p !in declared {
        AddedAreIdentities(SortBy(declared, StartLe), p);
      }
    }
    if WellFormed(declared) {
      NormalisedIsTiling(declared, m);
    }
  }

  lemma MultisetOfSetAdd<T>(a: set<T>, x: T)
    requires x !in a
    ensures multiset(a + {x}) == multiset(a) + multiset{x}
  {
    assert forall y :: multiset(a + {x})[y] == (multiset(a) + multiset{x})[y];
  }

  lemma {:induction false} HolesAreIdentities(s: Stage)
    ensures forall p :: p in Holes(s) ==> p.src == p.dst
  {
    if |s| >= 2 {
      HolesAreIdentities(s[..|s| - 1]);
    }
  }

  lemma AddedAreIdentities(s: Stage, p: Mapping)
    requires s != [] && p in Added(s)
    ensures p.src == p.dst
  {
    HolesAreIdentities(s);
  }

  /** Every pair `parse` adds is an identity, so the only pairs of a
      normalised stage that move values are the declared ones. */
  lemma NormalisedPairs(declared: Stage, m: Stage, p: Mapping)
    requires declared != [] && IsNormalisation(declared, m)
    requires p in m && p !in declared
    ensures p.src == p.dst && Shift(p, p.src.start) == p.src.start
  {
  }

  // Well-formed stages and their tiling

  /** A declared pair with a non-empty source, both ranges of the same
      length and ending at or below `u64::MAX`. */
  predicate ValidPair(p: Mapping) {
    && p.src.start < p.src.end <= U64_MAX
    && p.dst.end - p.dst.start == p.src.end - p.src.start
    && p.dst.end <= U64_MAX
  }

  predicate Disjoint(a: Span, b: Span) {
    a.end <= b.start || b.end <= a.start
  }

  /** Valid pairs with pairwise disjoint sources. */
  ghost predicate Separate(declared: Stage) {
    && (forall i :: 0 <= i < |declared| ==> ValidPair(declared[i]))
    && (forall i, j :: 0 <= i < j < |declared| ==> Disjoint(declared[i].src, declared[j].src))
  }

  /** The stages the almanac declares: non-empty, valid, disjoint. */
  ghost predicate WellFormed(declared: Stage) {
    declared != [] && Separate(declared)
  }

  /** Valid pairs listed in increasing order of disjoint sources. */
  ghost predicate Ordered(s: Stage) {
    && (forall i :: 0 <= i < |s| ==> ValidPair(s[i]))
    && (forall i, j :: 0 <= i < j < |s| ==> s[i].src.end <= s[j].src.start)
  }

  /** The sources tile `[0, u64::MAX)`: the first starts at 0, each but the
      last is non-empty and ends where the next starts, the last ends at
      `u64::MAX`. */
  ghost predicate Partition(t: Stage) {
    && t != []
    && t[0].src.start == 0
    && t[|t| - 1].src.end == U64_MAX
    && t[|t| - 1].src.start <= U64_MAX
    && (forall i :: 0 <= i < |t| - 1 ==> t[i].src.start < t[i].src.end == t[i + 1].src.start)
  }

  /** The sorted declared pairs with an identity pair in each hole between
      neighbours. */
  function Fill(s: Stage): Stage
    requires s != []
  {
    if |s| == 1 then s
    else
      var a, b := s[|s| - 2], s[|s| - 1];
      Fill(s[..|s| - 1]) + (if a.src.end != b.src.start then [Identity(a.src.end, b.src.start)] else []) + [b]
  }

  /** The stage a well-formed map normalises to. */
  function Tiling(s: Stage): Stage
    requires s != []
  {
    (if s[0].src.start > 0 then [Identity(0, s[0].src.start)] else [])
    + Fill(s)
    + [Identity(s[|s| - 1].src.end, U64_MAX)]
  }

  lemma OrderedCons(x: Mapping, t: Stage)
    requires Ordered(t) && ValidPair(x)
    requires forall y :: y in t ==> x.src.end <= y.src.start
    ensures Ordered([x] + t)
  {
    var r := [x] + t;
    forall i, j | 0 <= i < j < |r| ensures r[i].src.end <= r[j].src.start {
      assert r[j] == t[j - 1] && r[j] in t;
      if i > 0 {
        assert r[i] == t[i - 1];
      }
    }
    forall i | 0 <= i < |r| ensures ValidPair(r[i]) {
      if i > 0 {
        assert r[i] == t[i - 1];
      }
    }
  }

  /** A pair whose source starts no later than the first of an ordered list
      and is disjoint from it ends before every source of the list. */
  lemma BeforeAll(x: Mapping, t: Stage)
    requires Ordered(t) && ValidPair(x) && t != []
    requires x.src.start <= t[0].src.start && Disjoint(x.src, t[0].src)
    ensures forall y :: y in t ==> x.src.end <= y.src.start
  {
    assert ValidPair(t[0]);
    forall y | y in t ensures x.src.end <= y.src.start {
      var k :| 0 <= k < |t| && t[k] == y;
      if k > 0 {
        assert t[0].src.end <= t[k].src.start;
      }
    }
  }

  lemma MemberOfInsert(x: Mapping, t: Stage, y: Mapping)
    requires y in Insert(x, t, StartLe)
    ensures y == x || y in t
  {
    assert y in multiset(Insert(x, t, StartLe));
  }

  lemma {:induction false} InsertOrdered(x: Mapping, t: Stage)
    requires Ordered(t) && ValidPair(x)
    requires forall y :: y in t ==> Disjoint(x.src, y.src)
    ensures Ordered(Insert(x, t, StartLe))
  {
    if t == [] {
      OrderedCons(x, t);
    } else if StartLe(x, t[0]) {
      BeforeAll(x, t);
      OrderedCons(x, t);
    } else {
      var rest := Insert(x, t[1..], StartLe);
      assert Ordered(t[1..]) by {
        forall i, j | 0 <= i < j < |t[1..]| ensures t[1..][i].src.end <= t[1..][j].src.start {
          assert t[1..][i] == t[i + 1] && t[1..][j] == t[j + 1];
        }
      }
      InsertOrdered(x, t[1..]);
      assert ValidPair(t[0]) && Disjoint(x.src, t[0].src);
      forall y | y in rest ensures t[0].src.end <= y.src.start {
        MemberOfInsert(x, t[1..], y);
        if y != x {
          var k :| 0 <= k < |t[1..]| && t[1..][k] == y;
          assert t[k + 1] == y;
        }
      }
      OrderedCons(t[0], rest);
    }
  }

  /** Sorting declared pairs with disjoint sources lists them in
      increasing, non-overlapping order. */
  lemma {:induction false} SortOrdered(declared: Stage)
    requires Separate(declared)
    ensures Ordered(SortBy(declared, StartLe))
  {
    if declared != [] {
      var tail := SortBy(declared[1..], StartLe);
      SortOrdered(declared[1..]);
      forall y | y in tail ensures Disjoint(declared[0].src, y.src) {
        assert y in multiset(tail);
        var k :| 0 <= k < |declared[1..]| && declared[1..][k] == y;
        assert declared[k + 1] == y;
      }
      InsertOrdered(declared[0], tail);
    }
  }

  lemma OrderedDropLast(s: Stage)
    requires s != [] && Ordered(s)
    ensures Ordered(s[..|s| - 1])
  {
    var s' := s[..|s| - 1];
    forall i, j | 0 <= i < j < |s'| ensures s'[i].src.end <= s'[j].src.start {
      assert s'[i] == s[i] && s'[j] == s[j];
    }
  }

  function Hole(a: Mapping, b: Mapping): Stage {
    if a.src.end != b.src.start then [Identity(a.src.end, b.src.start)] else []
  }

  lemma FillStep(s: Stage)
    requires |s| > 1
    ensures Fill(s) == Fill(s[..|s| - 1]) + Hole(s[|s| - 2], s[|s| - 1]) + [s[|s| - 1]]
  {
  }

  lemma {:induction false} FillEnds(s: Stage)
    requires s != []
    ensures Fill(s) != [] && Fill(s)[0] == s[0] && Fill(s)[|Fill(s)| - 1] == s[|s| - 1]
  {
    if |s| > 1 {
      FillEnds(s[..|s| - 1]);
      FillStep(s);
    }
  }

  lemma {:induction false} FillAbuts(s: Stage)
    requires s != [] && Ordered(s)
    ensures forall i :: 0 <= i < |Fill(s)| - 1 ==>
      Fill(s)[i].src.start < Fill(s)[i].src.end == Fill(s)[i + 1].src.start
  {
    if |s| > 1 {
      var s' := s[..|s| - 1];
      var a, b := s[|s| - 2], s[|s| - 1];
      OrderedDropLast(s);
      FillAbuts(s');
      FillEnds(s');
      FillStep(s);
      var f', mid := Fill(s'), Hole(a, b);
      var f := Fill(s);
      assert f'[|f'| - 1] == a && ValidPair(a);
      assert a.src.end <= b.src.start;
      forall i | 0 <= i < |f| - 1 ensures f[i].src.start < f[i].src.end == f[i + 1].src.start {
        if i < |f'| - 1 {
          assert f[i] == f'[i] && f[i + 1] == f'[i + 1];
        } else if i == |f'| - 1 {
          assert f[i] == a;
        } else {
          assert f[i] == mid[0] && f[i + 1] == b;
        }
      }
    }
  }

  lemma {:induction false} HolesBounds(s: Stage)
    requires s != [] && Ordered(s)
    ensures forall p :: p in Holes(s) ==> s[0].src.end <= p.src.start < p.src.end <= s[|s| - 1].src.start
  {
    if |s| > 1 {
      var s' := s[..|s| - 1];
      OrderedDropLast(s);
      HolesBounds(s');
      assert s'[|s'| - 1] == s[|s| - 2];
      assert s[|s| - 2].src.end <= s[|s| - 1].src.start;
      assert ValidPair(s[|s| - 2]);
      if |s| > 2 {
        assert s[0].src.end <= s[|s| - 2].src.start;
      }
    }
  }

  lemma {:induction false} FillMultiset(s: Stage)
    requires s != [] && Ordered(s)
    ensures multiset(Fill(s)) == multiset(s) + multiset(Holes(s))
  {
    if |s| > 1 {
      var s' := s[..|s| - 1];
      var a, b := s[|s| - 2], s[|s| - 1];
      OrderedDropLast(s);
      FillMultiset(s');
      FillStep(s);
      var f', h', hole := Fill(s'), Holes(s'), Hole(a, b);
      assert multiset(Fill(s)) == multiset(f') + multiset(hole) + multiset{b};
      SplitLast(s);
      assert multiset(s) == multiset(s') + multiset{b};
      HolesStep(s);
      assert multiset(Holes(s)) == multiset(h') + multiset(hole);
    }
  }

  lemma HolesStep(s: Stage)
    requires |s| > 1 && Ordered(s)
    ensures multiset(Holes(s)) == multiset(Holes(s[..|s| - 1])) + multiset(Hole(s[|s| - 2], s[|s| - 1]))
  {
    var s' := s[..|s| - 1];
    var a, b := s[|s| - 2], s[|s| - 1];
    if a.src.end != b.src.start {
      var h := Identity(a.src.end, b.src.start);
      assert h !in Holes(s') by {
        OrderedDropLast(s);
        HolesBounds(s');
        assert s'[|s'| - 1] == a && ValidPair(a);
      }
      MultisetOfSetAdd(Holes(s'), h);
    } else {
      assert Holes(s) == Holes(s');
    }
  }

  lemma TilingPartition(s: Stage)
    requires s != [] && Ordered(s)
    ensures Partition(Tiling(s))
  {
    FillEnds(s);
    FillAbuts(s);
    var f := Fill(s);
    var lead: Stage := if s[0].src.start > 0 then [Identity(0, s[0].src.start)] else [];
    var last := Identity(s[|s| - 1].src.end, U64_MAX);
    assert Tiling(s) == lead + f + [last];
    assert ValidPair(s[0]) && ValidPair(s[|s| - 1]);
    TilingAbuts(lead, f, last);
  }

  lemma TilingMultiset(s: Stage)
    requires s != [] && Ordered(s)
    ensures multiset(Tiling(s)) == multiset(s) + Added(s)
  {
    FillMultiset(s);
    var f := Fill(s);
    var lead: Stage := if s[0].src.start > 0 then [Identity(0, s[0].src.start)] else [];
    var last := Identity(s[|s| - 1].src.end, U64_MAX);
    assert Tiling(s) == lead + f + [last];
    assert multiset(Tiling(s)) == multiset(lead) + multiset(f) + multiset{last};
  }

  /** The starts of a tiling's sources strictly increase. */
  lemma PartitionIncreases(t: Stage)
    requires Partition(t)
    ensures StartsIncrease(t)
  {
    forall i, j | 0 <= i < j < |t| ensures t[i].src.start < t[j].src.start {
      PartitionChain(t, i, j);
    }
  }

  lemma TilingAbuts(lead: Stage, f: Stage, last: Mapping)
    requires f != [] && |lead| <= 1
    requires lead != [] ==> lead[0].src.start < lead[0].src.end == f[0].src.start
    requires forall i :: 0 <= i < |f| - 1 ==> f[i].src.start < f[i].src.end == f[i + 1].src.start
    requires f[|f| - 1].src.start < f[|f| - 1].src.end == last.src.start
    ensures var t := lead + f + [last];
      forall i :: 0 <= i < |t| - 1 ==> t[i].src.start < t[i].src.end == t[i + 1].src.start
  {
    var t := lead + f + [last];
    forall i | 0 <= i < |t| - 1 ensures t[i].src.start < t[i].src.end == t[i + 1].src.start {
      if i < |lead| {
        assert t[i] == lead[0] && t[i + 1] == f[0];
      } else if i < |lead| + |f| - 1 {
        assert t[i] == f[i - |lead|] && t[i + 1] == f[i - |lead| + 1];
      } else {
        assert t[i] == f[|f| - 1] && t[i + 1] == last;
      }
    }
  }

  /** In a tiling, every pair before another ends at or before the other's
      start. */
  lemma {:induction false} PartitionChain(t: Stage, i: nat, j: nat)
    requires Partition(t) && i < j < |t|
    ensures t[i].src.end <= t[j].src.start
    ensures t[i].src.start < t[j].src.start
    decreases j - i
  {
    if j > i + 1 {
      PartitionChain(t, i + 1, j);
    }
  }

  predicate StartsSorted(m: Stage) {
    forall i, j :: 0 <= i < j < |m| ==> m[i].src.start <= m[j].src.start
  }

  predicate StartsIncrease(t: Stage) {
    forall i, j :: 0 <= i < j < |t| ==> t[i].src.start < t[j].src.start
  }

  lemma SortedByStartLe(m: Stage)
    requires SortedBy(m, StartLe)
    ensures StartsSorted(m)
  {
    forall i, j | 0 <= i < j < |m| ensures m[i].src.start <= m[j].src.start {
      assert StartLe(m[i], m[j]);
    }
  }

  lemma HeadsEqual(m: Stage, t: Stage)
    requires m != [] && t != []
    requires StartsSorted(m) && StartsIncrease(t) && multiset(m) == multiset(t)
    ensures m[0] == t[0]
  {
    var k := MultisetIndex(m, t[0]);
    var k' := MultisetIndex(t, m[0]);
    assert m[0].src.start <= m[k].src.start;
  }

  /** Two lists with the same pairs, one sorted by source start and the
      other strictly increasing in source start, are the same list. */
  lemma {:induction false} SortedUnique(m: Stage, t: Stage)
    requires StartsSorted(m) && StartsIncrease(t) && multiset(m) == multiset(t)
    ensures m == t
    decreases |t|
  {
    assert |m| == |multiset(m)| == |t|;
    if t != [] {
      HeadsEqual(m, t);
      MultisetTail(m, t);
      SortedUnique(m[1..], t[1..]);
      assert m == [m[0]] + m[1..] && t == [t[0]] + t[1..];
    }
  }

  lemma NormalisedIsTiling(declared: Stage, m: Stage)
    requires WellFormed(declared)
    requires SortedBy(m, StartLe)
    requires multiset(m) == multiset(declared) + Added(SortBy(declared, StartLe))
    ensures m == Tiling(SortBy(declared, StartLe)) && Partition(m)
  {
    var s := SortBy(declared, StartLe);
    SortOrdered(declared);
    TilingPartition(s);
    TilingMultiset(s);
    PartitionIncreases(Tiling(s));
    SortedByStartLe(m);
    SortedUnique(m, Tiling(s));
  }

  /** In a tiling every value below `u64::MAX` lies in some pair's source. */
  lemma {:induction false} PartitionCovers(t: Stage, i: nat, v: nat)
    requires Partition(t) && i < |t| && t[i].src.start <= v < U64_MAX
    ensures exists k :: i <= k < |t| && t[k].src.Contains(v)
    decreases |t| - i
  {
    if !t[i].src.Contains(v) {
      PartitionCovers(t, i + 1, v);
    }
  }

  /** Totality of a normalised stage: each value below `u64::MAX` lies in
      exactly one pair's source, and `u64::MAX` itself in none. */
  lemma PartitionUnique(t: Stage, v: nat)
    requires Partition(t)
    ensures v < U64_MAX ==> exists k :: 0 <= k < |t| && t[k].src.Contains(v)
    ensures forall j, k :: 0 <= j < k < |t| && t[j].src.Contains(v) ==> !t[k].src.Contains(v)
    ensures v >= U64_MAX ==> forall k :: 0 <= k < |t| ==> !t[k].src.Contains(v)
  {
    if v < U64_MAX {
      PartitionCovers(t, 0, v);
    }
    forall j, k | 0 <= j < k < |t| && t[j].src.Contains(v) ensures !t[k].src.Contains(v) {
      PartitionChain(t, j, k);
    }
    if v >= U64_MAX {
      forall k | 0 <= k < |t| ensures !t[k].src.Contains(v) {
        if k < |t| - 1 {
          PartitionChain(t, k, |t| - 1);
        }
      }
    }
  }

  /** The tiling of a well-formed stage, with the facts the lookup proofs use. */
  lemma TilingOfDeclared(declared: Stage)
    requires WellFormed(declared)
    ensures var s := SortBy(declared, StartLe);
      && Partition(Tiling(s))
      && multiset(Tiling(s)) == multiset(declared) + Added(s)
  {
    var s := SortBy(declared, StartLe);
    SortOrdered(declared);
    TilingPartition(s);
    TilingMultiset(s);
  }

  /** In a well-formed stage the declared pair containing `v` is the only one. */
  lemma LookupDeclared(declared: Stage, i: nat, v: nat)
    requires WellFormed(declared) && i < |declared| && declared[i].src.Contains(v)
    ensures Lookup(declared, v) == Shift(declared[i], v)
  {
    forall j | 0 <= j < i ensures !declared[j].src.Contains(v) {
      assert Disjoint(declared[j].src, declared[i].src);
    }
    LookupFirst(declared, i, v);
  }

  lemma NoDeclaredAtMax(declared: Stage, v: nat)
    requires WellFormed(declared) && v >= U64_MAX
    ensures forall j :: 0 <= j < |declared| ==> !declared[j].src.Contains(v)
  {
    forall j | 0 <= j < |declared| ensures !declared[j].src.Contains(v) {
      assert ValidPair(declared[j]);
    }
  }

  /** When the tiling's pair holding `v` is not a declared pair, no declared
      source holds `v`. */
  lemma NoDeclaredInHole(declared: Stage, t: Stage, k: nat, v: nat)
    requires Partition(t) && k < |t| && t[k].src.Contains(v)
    requires multiset(declared) <= multiset(t) && t[k] !in declared
    ensures forall j :: 0 <= j < |declared| ==> !declared[j].src.Contains(v)
  {
    PartitionUnique(t, v);
    forall j | 0 <= j < |declared| ensures !declared[j].src.Contains(v) {
      if declared[j].src.Contains(v) {
        var k' := MultisetIndex(t, declared[j]);
      }
    }
  }

  /** Lookup in a tiling that holds the declared pairs plus identity pairs
      agrees with lookup in the declared pairs. */
  lemma LookupAgrees(declared: Stage, t: Stage, v: nat)
    requires WellFormed(declared) && Partition(t)
    requires multiset(declared) <= multiset(t)
    requires forall p :: p in t && p !in declared ==> p.src == p.dst
    ensures Lookup(t, v) == Lookup(declared, v)
  {
    PartitionUnique(t, v);
    if v >= U64_MAX {
      LookupMiss(t, v);
      NoDeclaredAtMax(declared, v);
      LookupMiss(declared, v);
    } else {
      var k :| 0 <= k < |t| && t[k].src.Contains(v);
      LookupFirst(t, k, v);
      if t[k] in declared {
        var i :| 0 <= i < |declared| && declared[i] == t[k];
        LookupDeclared(declared, i, v);
      } else {
        NoDeclaredInHole(declared, t, k, v);
        LookupMiss(declared, v);
      }
    }
  }

  /** Every pair of the tiling that is not declared is an identity pair. */
  lemma TilingExtrasAreIdentities(declared: Stage)
    requires WellFormed(declared)
    ensures var t := Tiling(SortBy(declared, StartLe));
      forall p :: p in t && p !in declared ==> p.src == p.dst
  {
    var s := SortBy(declared, StartLe);
    TilingOfDeclared(declared);
    forall p | p in Tiling(s) && p !in declared ensures p.src == p.dst {
      assert p in multiset(Tiling(s));
      AddedAreIdentities(s, p);
    }
  }

  /** Normalisation does not change what a well-formed stage does to any
      value: lookup in the normalised stage agrees with the first-match
      lookup in the declared pairs, moving values inside a declared source
      by that pair's offset and leaving every other value unchanged. */
  lemma NormalisedLookup(declared: Stage, v: nat)
    requires WellFormed(declared)
    ensures Lookup(Tiling(SortBy(declared, StartLe)), v) == Lookup(declared, v)
  {
    TilingOfDeclared(declared);
    TilingExtrasAreIdentities(declared);
    LookupAgrees(declared, Tiling(SortBy(declared, StartLe)), v);
  }

  /** Identity outside the declared ranges: a value no declared source
      contains goes through the normalised stage unchanged. */
  lemma IdentityOutsideDeclared(declared: Stage, v: nat)
    requires WellFormed(declared)
    requires forall j :: 0 <= j < |declared| ==> !declared[j].src.Contains(v)
    ensures Lookup(Tiling(SortBy(declared, StartLe)), v) == v
  {
    NormalisedLookup(declared, v);
    LookupMiss(declared, v);
  }

  /** A `u64` value stays a `u64` value through a well-formed stage, so the
      source's `value - src.start + dst.start` cannot overflow. */
  lemma {:induction false} LookupBounded(stage: Stage, v: nat)
    requires forall j :: 0 <= j < |stage| ==> ValidPair(stage[j])
    requires v <= U64_MAX
    ensures Lookup(stage, v) <= U64_MAX
  {
    if stage != [] && !stage[0].src.Contains(v) {
      LookupBounded(stage[1..], v);
    }
  }

  lemma OrderedSeparate(t: Stage)
    requires Ordered(t)
    ensures Separate(t)
  {
    forall i, j | 0 <= i < j < |t| ensures Disjoint(t[i].src, t[j].src) {
    }
  }

  /** The tiling of ordered pairs, when the last declared source ends below
      `u64::MAX`, is itself a well-formed stage. */
  lemma TilingOrdered(s: Stage)
    requires s != [] && Ordered(s) && s[|s| - 1].src.end < U64_MAX
    ensures Ordered(Tiling(s))
  {
    TilingPartition(s);
    TilingMultiset(s);
    var t := Tiling(s);
    forall i, j | 0 <= i < j < |t| ensures t[i].src.end <= t[j].src.start {
      PartitionChain(t, i, j);
    }
    forall i | 0 <= i < |t| ensures ValidPair(t[i]) {
      assert t[i] in multiset(t);
      if t[i] !in s {
        AddedAreIdentities(s, t[i]);
        if i < |t| - 1 {
          PartitionChain(t, i, |t| - 1);
        }
      }
    }
  }

  /** Normalising an already normalised stage whose last declared source
      ends below `u64::MAX` is not a no-op: the trailing pair becomes a
      declared pair and an empty `u64::MAX..u64::MAX` pair is appended. */
  lemma RenormaliseAppendsEmptyPair(s: Stage)
    requires s != [] && Ordered(s) && s[|s| - 1].src.end < U64_MAX
    ensures WellFormed(Tiling(s))
    ensures Tiling(SortBy(Tiling(s), StartLe)) == Tiling(s) + [Identity(U64_MAX, U64_MAX)]
  {
    TilingOrdered(s);
    var t := Tiling(s);
    OrderedSeparate(t);
    TilingPartition(s);
    PartitionIncreases(t);
    StartLeTotal(t);
    SortBySorted(t, StartLe);
    SortedByStartLe(SortBy(t, StartLe));
    SortedUnique(SortBy(t, StartLe), t);
    TilingOfPartition(t);
  }

  lemma TilingOfPartition(t: Stage)
    requires Partition(t)
    ensures Tiling(t) == t + [Identity(U64_MAX, U64_MAX)]
  {
    FillOfAbutting(t);
  }

  lemma {:induction false} FillOfAbutting(t: Stage)
    requires t != []
    requires forall i :: 0 <= i < |t| - 1 ==> t[i].src.end == t[i + 1].src.start
    ensures Fill(t) == t
  {
    if |t| > 1 {
      FillOfAbutting(t[..|t| - 1]);
      SplitLast(t);
    }
  }

  // ---------------------------------------------------------------------
  // `parse`, `part_one` and `part_two`

  /** `parse`: the seeds line and the blocks of the maps, each block a list
      of lines starting with its label. Any malformed line, or a map without
      pairs, makes the whole parse fail; every map is normalised in place. */
  method Parse(seedLine: string, blocks: seq<seq<string>>) returns (r: Option<Almanac>)
    ensures r.Some? <==>
      && ParseSeeds(seedLine).Some?
      && ParseMaps(blocks).Some?
      && forall i :: 0 <= i < |blocks| ==> ParseMaps(blocks).value[i] != []
    ensures r.Some? ==>
      && r.value.seeds == ParseSeeds(seedLine).value
      && |r.value.maps| == |blocks|
      && forall i :: 0 <= i < |blocks| ==> IsNormalisation(ParseMaps(blocks).value[i], r.value.maps[i])
  {
    var seeds := ParseSeeds(seedLine);
    var parsed := ParseMaps(blocks);
    if seeds.None? || parsed.None? {
      return None;
    }
    var maps := NormaliseAll(parsed.value);
    if maps.None? {
      return None;
    }
    return Some(Almanac(seeds.value, maps.value));
  }

  /** The loop of `parse` that normalises every map in place; a map without
      pairs makes it fail. */
  method NormaliseAll(declared: seq<Stage>) returns (r: Option<seq<Stage>>)
    ensures r.Some? <==> forall i :: 0 <= i < |declared| ==> declared[i] != []
    ensures r.Some? ==> |r.value| == |declared|
    ensures r.Some? ==> forall i :: 0 <= i < |declared| ==> IsNormalisation(declared[i], r.value[i])
  {
    var maps := declared;
    for i := 0 to |maps|
      invariant |maps| == |declared|
      invariant forall k :: i <= k < |maps| ==> maps[k] == declared[k]
      invariant forall k :: 0 <= k < i ==> declared[k] != [] && IsNormalisation(declared[k], maps[k])
    {
      if maps[i] == [] {
        return None;
      }
      var m := Normalise(maps[i]);
      maps := maps[i := m];
    }
    return Some(maps);
  }

  /** One stage of the inner loop of `part_one` and `part_two`. */
  method ApplyStage(stage: Stage, value: nat) returns (r: nat)
    ensures r == Lookup(stage, value)
  {
    var k := 0;
    while k < |stage|
      invariant 0 <= k <= |stage|
      invariant Lookup(stage[k..], value) == Lookup(stage, value)
    {
      if stage[k].src.Contains(value) {
        return Shift(stage[k], value);
      }
      assert stage[k..][1..] == stage[k + 1..];
      k := k + 1;
    }
    return value;
  }

  /** A seed's final value: every stage applied once, in order. */
  method Location(maps: seq<Stage>, seed: nat) returns (value: nat)
    ensures value == Locate(maps, seed)
  {
    value := seed;
    for j := 0 to |maps|
      invariant value == Locate(maps[..j], seed)
    {
      LocateAppend(maps[..j], [maps[j]], seed);
      assert maps[..j + 1] == maps[..j] + [maps[j]];
      value := ApplyStage(maps[j], value);
    }
    assert maps[..|maps|] == maps;
  }

  function Min(a: nat, b: nat): nat {
    if b < a then b else a
  }

  /** The smallest final value over `seeds`, or `u64::MAX` when there is none. */
  function LowestLocation(seeds: seq<nat>, maps: seq<Stage>): nat {
    if seeds == [] then U64_MAX else Min(Locate(maps, seeds[0]), LowestLocation(seeds[1..], maps))
  }

  lemma {:induction false} LowestLocationAppend(seeds: seq<nat>, seed: nat, maps: seq<Stage>)
    ensures LowestLocation(seeds + [seed], maps) == Min(LowestLocation(seeds, maps), Locate(maps, seed))
  {
    if seeds == [] {
      assert seeds + [seed] == [seed];
    } else {
      assert (seeds + [seed])[1..] == seeds[1..] + [seed];
      LowestLocationAppend(seeds[1..], seed, maps);
    }
  }

  /** The lowest location is at most `u64::MAX` and at most every seed's
      location, and it is `u64::MAX` or the location of some seed. */
  lemma {:induction false} LowestLocationIsMinimum(seeds: seq<nat>, maps: seq<Stage>)
    ensures LowestLocation(seeds, maps) <= U64_MAX
    ensures forall i :: 0 <= i < |seeds| ==> LowestLocation(seeds, maps) <= Locate(maps, seeds[i])
    ensures LowestLocation(seeds, maps) == U64_MAX
      || exists i :: 0 <= i < |seeds| && LowestLocation(seeds, maps) == Locate(maps, seeds[i])
  {
    if seeds != [] {
      LowestLocationIsMinimum(seeds[1..], maps);
      var low := LowestLocation(seeds, maps);
      forall i | 0 <= i < |seeds| ensures low <= Locate(maps, seeds[i]) {
        if i > 0 {
          assert seeds[i] == seeds[1..][i - 1];
        }
      }
      if low != U64_MAX && low != Locate(maps, seeds[0]) {
        var i :| 0 <= i < |seeds[1..]| && LowestLocation(seeds[1..], maps) == Locate(maps, seeds[1..][i]);
        assert seeds[1..][i] == seeds[i + 1];
      }
    }
  }

  /** The loop shared by `part_one` and `part_two`: every value goes
      through all the stages and the lowest result is kept, starting from
      `u64::MAX`. */
  method Lowest(values: seq<nat>, maps: seq<Stage>) returns (lowest: nat)
    ensures lowest == LowestLocation(values, maps)
  {
    lowest := U64_MAX;
    for i := 0 to |values|
      invariant lowest == LowestLocation(values[..i], maps)
    {
      var value := Location(maps, values[i]);
      LowestLocationAppend(values[..i], values[i], maps);
      assert values[..i + 1] == values[..i] + [values[i]];
      if value < lowest {
        lowest := value;
      }
    }
    assert values[..|values|] == values;
  }

  /** `part_one`: the lowest location of any seed. */
  method PartOne(seeds: seq<nat>, maps: seq<Stage>) returns (lowest: nat)
    ensures lowest == LowestLocation(seeds, maps)
  {
    lowest := Lowest(seeds, maps);
  }

  /** `seeds.chunks(2)` read as `start..start + len` ranges; the source
      indexes the second element of every chunk, so the count must be even. */
  function SeedRanges(seeds: seq<nat>): (r: seq<Span>)
    requires |seeds| % 2 == 0
    ensures |r| == |seeds| / 2
    ensures forall i :: 0 <= i < |r| ==> r[i] == Span(seeds[2 * i], seeds[2 * i] + seeds[2 * i + 1])
  {
    if seeds == [] then [] else [Span(seeds[0], seeds[0] + seeds[1])] + SeedRanges(seeds[2..])
  }

  /** The values of a range, in increasing order. */
  function Points(r: Span): (p: seq<nat>)
    ensures |p| == if r.start <= r.end then r.end - r.start else 0
    ensures forall i :: 0 <= i < |p| ==> p[i] == r.start + i
  {
    if r.end <= r.start then [] else seq(r.end - r.start, i => r.start + i)
  }

  /** `seeds.iter().cloned().flatten()`: every value of every range, range
      by range. */
  function AllPoints(ranges: seq<Span>): seq<nat> {
    if ranges == [] then [] else Points(ranges[0]) + AllPoints(ranges[1..])
  }

  /** The flattened ranges hold exactly the values some range contains. */
  lemma {:induction false} AllPointsMembers(ranges: seq<Span>, v: nat)
    ensures v in AllPoints(ranges) <==> exists k :: 0 <= k < |ranges| && ranges[k].Contains(v)
  {
    if ranges != [] {
      AllPointsMembers(ranges[1..], v);
      var p := Points(ranges[0]);
      if ranges[0].Contains(v) {
        assert p[v - ranges[0].start] == v;
      }
      if exists k :: 0 <= k < |ranges[1..]| && ranges[1..][k].Contains(v) {
        var k :| 0 <= k < |ranges[1..]| && ranges[1..][k].Contains(v);
        assert ranges[k + 1].Contains(v);
      }
      if exists k :: 0 <= k < |ranges| && ranges[k].Contains(v) {
        var k :| 0 <= k < |ranges| && ranges[k].Contains(v);
        if k > 0 {
          assert ranges[1..][k - 1].Contains(v);
        }
      }
    }
  }

  /** `part_two`: the lowest location of any value of any seed range. */
  method PartTwo(seeds: seq<nat>, maps: seq<Stage>) returns (lowest: nat)
    requires |seeds| % 2 == 0
    ensures lowest == LowestLocation(AllPoints(SeedRanges(seeds)), maps)
  {
    var ranges := SeedRanges(seeds);
    lowest := Lowest(AllPoints(ranges), maps);
  }

  /** Stages `parse` built from well-formed maps route every value exactly
      as the declared maps do. */
  lemma {:induction false} LocateNormalised(declared: seq<Stage>, maps: seq<Stage>, v: nat)
    requires |maps| == |declared|
    requires forall i :: 0 <= i < |declared| ==> WellFormed(declared[i]) && IsNormalisation(declared[i], maps[i])
    ensures Locate(maps, v) == Locate(declared, v)
  {
    if declared != [] {
      NormalisedLookup(declared[0], v);
      LocateNormalised(declared[1..], maps[1..], Lookup(declared[0], v));
    }
  }

  lemma {:induction false} LowestNormalised(values: seq<nat>, declared: seq<Stage>, maps: seq<Stage>)
    requires |maps| == |declared|
    requires forall i :: 0 <= i < |declared| ==> WellFormed(declared[i]) && IsNormalisation(declared[i], maps[i])
    ensures LowestLocation(values, maps) == LowestLocation(values, declared)
  {
    if values != [] {
      LocateNormalised(declared, maps, values[0]);
      LowestNormalised(values[1..], declared, maps);
    }
  }

  // The example almanac of the puzzle statement.

  const ExampleSeeds: seq<nat> := [79, 14, 55, 13]

  const ExampleMaps: seq<Stage> := [
    [FromTriple(50, 98, 2), FromTriple(52, 50, 48)],
    [FromTriple(0, 15, 37), FromTriple(37, 52, 2), FromTriple(39, 0, 15)],
    [FromTriple(49, 53, 8), FromTriple(0, 11, 42), FromTriple(42, 0, 7), FromTriple(57, 7, 4)],
    [FromTriple(88, 18, 7), FromTriple(18, 25, 70)],
    [FromTriple(45, 77, 23), FromTriple(81, 45, 19), FromTriple(68, 64, 13)],
    [FromTriple(0, 69, 1), FromTriple(1, 0, 69)],
    [FromTriple(60, 56, 37), FromTriple(56, 93, 4)]
  ]

  lemma ExampleWellFormed()
    ensures forall i :: 0 <= i < |ExampleMaps| ==> WellFormed(ExampleMaps[i])
  {
  }

  /** Seed 79 passes through 81, 81, 81, 74, 78, 78 and ends at location 82. */
  lemma ExampleSeed79()
    ensures Locate(ExampleMaps, 79) == 82
  {
    assert Lookup(ExampleMaps[0], 79) == 81;
    assert Lookup(ExampleMaps[1], 81) == 81;
    assert Lookup(ExampleMaps[2], 81) == 81;
    assert Lookup(ExampleMaps[3], 81) == 74;
    assert Lookup(ExampleMaps[4], 74) == 78;
    assert Lookup(ExampleMaps[5], 78) == 78;
    assert Lookup(ExampleMaps[6], 78) == 82;
  }

  /** Seed 14 passes through 14, 53, 49, 42, 42, 43 and ends at location 43. */
  lemma ExampleSeed14()
    ensures Locate(ExampleMaps, 14) == 43
  {
    assert Lookup(ExampleMaps[0], 14) == 14;
    assert Lookup(ExampleMaps[1], 14) == 53;
    assert Lookup(ExampleMaps[2], 53) == 49;
    assert Lookup(ExampleMaps[3], 49) == 42;
    assert Lookup(ExampleMaps[4], 42) == 42;
    assert Lookup(ExampleMaps[5], 42) == 43;
    assert Lookup(ExampleMaps[6], 43) == 43;
  }

  /** Seed 55 passes through 57, 57, 53, 46, 82, 82 and ends at location 86. */
  lemma ExampleSeed55()
    ensures Locate(ExampleMaps, 55) == 86
  {
    assert Lookup(ExampleMaps[0], 55) == 57;
    assert Lookup(ExampleMaps[1], 57) == 57;
    assert Lookup(ExampleMaps[2], 57) == 53;
    assert Lookup(ExampleMaps[3], 53) == 46;
    assert Lookup(ExampleMaps[4], 46) == 82;
    assert Lookup(ExampleMaps[5], 82) == 82;
    assert Lookup(ExampleMaps[6], 82) == 86;
  }

  /** Seed 13 passes through 13, 52, 41, 34, 34, 35 and ends at location 35. */
  lemma ExampleSeed13()
    ensures Locate(ExampleMaps, 13) == 35
  {
    assert Lookup(ExampleMaps[0], 13) == 13;
    assert Lookup(ExampleMaps[1], 13) == 52;
    assert Lookup(ExampleMaps[2], 52) == 41;
    assert Lookup(ExampleMaps[3], 41) == 34;
    assert Lookup(ExampleMaps[4], 34) == 34;
    assert Lookup(ExampleMaps[5], 34) == 35;
    assert Lookup(ExampleMaps[6], 35) == 35;
  }

  /** The lowest location of the example seeds, through any normalisation of
      the example maps, is 35. */
  lemma ExamplePartOne(maps: seq<Stage>)
    requires |maps| == |ExampleMaps|
    requires forall i :: 0 <= i < |maps| ==> IsNormalisation(ExampleMaps[i], maps[i])
    ensures LowestLocation(ExampleSeeds, maps) == 35
  {
    ExampleWellFormed();
    LowestNormalised(ExampleSeeds, ExampleMaps, maps);
    ExampleSeed79();
    ExampleSeed14();
    ExampleSeed55();
    ExampleSeed13();
  }

  lemma ExampleStep(k: nat, x: nat)
    requires k < |ExampleMaps|
    ensures Locate(ExampleMaps[k..], x) == Locate(ExampleMaps[k + 1..], Lookup(ExampleMaps[k], x))
  {
    assert ExampleMaps[k..][1..] == ExampleMaps[k + 1..];
  }

  /** The example range `79..93` moves as one block through the first four
      stages: up by 2, unchanged twice, down by 7. */
  lemma ExampleFirstRangeHead(v: nat)
    requires 79 <= v < 93
    ensures Locate(ExampleMaps, v) == Locate(ExampleMaps[4..], v - 5)
  {
    var M := ExampleMaps;
    ExampleStep(0, v);
    LookupFirst(M[0], 1, v);
    ExampleStep(1, v + 2);
    LookupMiss(M[1], v + 2);
    ExampleStep(2, v + 2);
    LookupMiss(M[2], v + 2);
    ExampleStep(3, v + 2);
    LookupFirst(M[3], 1, v + 2);
  }

  /** Values `74..77` reach the last three stages as `78..81` and end there. */
  lemma ExampleLowTail(x: nat)
    requires 74 <= x < 77
    ensures Locate(ExampleMaps[4..], x) == x + 8
  {
    var M := ExampleMaps;
    ExampleStep(4, x);
    LookupFirst(M[4], 2, x);
    ExampleStep(5, x + 4);
    LookupMiss(M[5], x + 4);
    ExampleStep(6, x + 4);
    LookupFirst(M[6], 0, x + 4);
    assert M[7..] == [];
  }

  /** Values `77..88` leave the fifth stage as `45..56` and end at 46 or above. */
  lemma ExampleHighTail(x: nat)
    requires 77 <= x < 88
    ensures Locate(ExampleMaps[4..], x) >= 46
  {
    var M := ExampleMaps;
    ExampleStep(4, x);
    LookupFirst(M[4], 0, x);
    ExampleStep(5, x - 32);
    LookupFirst(M[5], 1, x - 32);
    ExampleStep(6, x - 31);
    if x - 31 < 56 {
      LookupMiss(M[6], x - 31);
    } else {
      LookupFirst(M[6], 0, x - 31);
    }
    assert M[7..] == [];
  }

  /** Every value of the example seed range `79..93` ends at location 46 or above. */
  lemma ExampleFirstRange(v: nat)
    requires 79 <= v < 93
    ensures Locate(ExampleMaps, v) >= 46
  {
    ExampleFirstRangeHead(v);
    if v < 82 {
      ExampleLowTail(v - 5);
    } else {
      ExampleHighTail(v - 5);
    }
  }

  /** The example range `55..68` splits at 59 in the third stage. */
  lemma ExampleSecondRangeHead(v: nat)
    requires 55 <= v < 68
    ensures Locate(ExampleMaps, v) == Locate(ExampleMaps[3..], if v < 59 then v - 2 else v + 2)
  {
    var M := ExampleMaps;
    ExampleStep(0, v);
    LookupFirst(M[0], 1, v);
    ExampleStep(1, v + 2);
    LookupMiss(M[1], v + 2);
    ExampleStep(2, v + 2);
    if v < 59 {
      LookupFirst(M[2], 0, v + 2);
    } else {
      LookupMiss(M[2], v + 2);
    }
  }

  /** Values `53..57` and `61..70` reach the last four stages and end at 46
      or above. */
  lemma ExampleSecondTail(x: nat)
    requires 53 <= x < 57 || 61 <= x < 70
    ensures Locate(ExampleMaps[3..], x) >= 46
  {
    var M := ExampleMaps;
    ExampleStep(3, x);
    LookupFirst(M[3], 1, x);
    ExampleStep(4, x - 7);
    LookupFirst(M[4], 1, x - 7);
    ExampleStep(5, x + 29);
    LookupMiss(M[5], x + 29);
    ExampleStep(6, x + 29);
    if x + 29 < 93 {
      LookupFirst(M[6], 0, x + 29);
    } else if x + 29 < 97 {
      LookupFirst(M[6], 1, x + 29);
    } else {
      LookupMiss(M[6], x + 29);
    }
    assert M[7..] == [];
  }

  /** Every value of the example seed range `55..68` ends at location 46 or above. */
  lemma ExampleSecondRange(v: nat)
    requires 55 <= v < 68
    ensures Locate(ExampleMaps, v) >= 46
  {
    ExampleSecondRangeHead(v);
    ExampleSecondTail(if v < 59 then v - 2 else v + 2);
  }

  /** A lower bound on every value's location bounds the lowest location. */
  lemma {:induction false} LowestLocationAtLeast(values: seq<nat>, maps: seq<Stage>, b: nat)
    requires b <= U64_MAX
    requires forall i :: 0 <= i < |values| ==> Locate(maps, values[i]) >= b
    ensures LowestLocation(values, maps) >= b
  {
    if values != [] {
      LowestLocationAtLeast(values[1..], maps, b);
    }
  }

  /** The lowest location over every value of the ranges `79..93` and
      `55..68` is 46, reached from seed 82. */
  lemma ExampleRangesLowest(ranges: seq<Span>)
    requires ranges == [Span(79, 93), Span(55, 68)]
    ensures LowestLocation(AllPoints(ranges), ExampleMaps) == 46
  {
    var points := AllPoints(ranges);
    forall i | 0 <= i < |points| ensures Locate(ExampleMaps, points[i]) >= 46 {
      assert points[i] in points;
      AllPointsMembers(ranges, points[i]);
      if 79 <= points[i] < 93 {
        ExampleFirstRange(points[i]);
      } else {
        ExampleSecondRange(points[i]);
      }
    }
    LowestLocationAtLeast(points, ExampleMaps, 46);
    AllPointsMembers(ranges, 82);
    assert ranges[0].Contains(82);
    ExampleSeed82();
    LowestLocationIsMinimum(points, ExampleMaps);
  }

  /** The example seeds read in pairs are the ranges `79..93` and `55..68`. */
  lemma ExampleSeedRanges()
    ensures SeedRanges(ExampleSeeds) == [Span(79, 93), Span(55, 68)]
  {
    assert ExampleSeeds[2..] == [55, 13];
  }

  /** The lowest location over every value of the example seed ranges is
      46, through any normalisation of the example maps. */
  lemma ExamplePartTwo(maps: seq<Stage>)
    requires |maps| == |ExampleMaps|
    requires forall i :: 0 <= i < |maps| ==> IsNormalisation(ExampleMaps[i], maps[i])
    ensures LowestLocation(AllPoints(SeedRanges(ExampleSeeds)), maps) == 46
  {
    var ranges := SeedRanges(ExampleSeeds);
    ExampleSeedRanges();
    ExampleWellFormed();
    LowestNormalised(AllPoints(ranges), ExampleMaps, maps);
    ExampleRangesLowest(ranges);
  }

  /** Seed 82 ends at location 46. */
  lemma ExampleSeed82()
    ensures Locate(ExampleMaps, 82) == 46
  {
    assert Lookup(ExampleMaps[0], 82) == 84;
    assert Lookup(ExampleMaps[1], 84) == 84;
    assert Lookup(ExampleMaps[2], 84) == 84;
    assert Lookup(ExampleMaps[3], 84) == 77;
    assert Lookup(ExampleMaps[4], 77) == 45;
    assert Lookup(ExampleMaps[5], 45) == 46;
    assert Lookup(ExampleMaps[6], 46) == 46;
  }
}
