/** Day 8, Haunted Wasteland: a network maps each node to a left and a
    right neighbour, and a list of left/right instructions is followed over
    and over. Part one counts the steps from "AAA" to "ZZZ"; part two walks
    from every node ending in 'A' to a node ending in 'Z' and combines the
    step counts with the least common multiple. */
module HauntedWasteland {

  import opened Common

  // ---------------------------------------------------------------------
  // Divisibility, gcd and lcm

  /** `d` divides `n`; only 0 is divisible by 0. */
  predicate Divides(d: nat, n: nat) {
    if d == 0 then n == 0 else n % d == 0
  }

  lemma {:induction false} ProductAtLeast(d: nat, k: int)
    requires d > 0 && k >= 1
    ensures d * k >= d
  {
    assert d * k == d * (k - 1) + d;
    assert d * (k - 1) >= 0;
  }

  /** Quotient and remainder are unique. */
  lemma {:induction false} DivModUnique(n: nat, len: nat, q: nat, r: nat)
    requires len > 0 && n == len * q + r && r < len
    ensures n % len == r && n / len == q
  {
    var q', r' := n / len, n % len;
    assert len * (q - q') == r' - r;
    if q - q' >= 1 {
      ProductAtLeast(len, q - q');
    } else if q' - q >= 1 {
      ProductAtLeast(len, q' - q);
    }
    assert q == q';
  }

  /** Dividing a multiple of `d` by `d` leaves no remainder. */
  lemma MultipleMod(d: nat, m: nat)
    requires d > 0
    ensures (d * m) % d == 0 && (d * m) / d == m
  {
    DivModUnique(d * m, d, m, 0);
  }

  /** A divisor of `a` and `b` divides `a % b`. */
  lemma {:induction false} DividesMod(d: nat, a: nat, b: nat)
    requires b > 0 && Divides(d, a) && Divides(d, b)
    ensures Divides(d, a % b)
  {
    if d > 0 {
      var x, y, q := a / d, b / d, a / b;
      assert a == d * x && b == d * y;
      assert a % b == a - b * q;
      assert a % b == d * (x - y * q);
      assert x - y * q >= 0;
      MultipleMod(d, x - y * q);
    }
  }

  /** A divisor of `b` and `a % b` divides `a`. */
  lemma {:induction false} DividesFromMod(d: nat, a: nat, b: nat)
    requires b > 0 && Divides(d, b) && Divides(d, a % b)
    ensures Divides(d, a)
  {
    if d > 0 {
      var y, z, q := b / d, (a % b) / d, a / b;
      assert b == d * y && a % b == d * z;
      assert a == b * q + a % b;
      assert a == d * (y * q + z);
      MultipleMod(d, y * q + z);
    }
  }

  lemma {:induction false} DividesTransitive(a: nat, b: nat, c: nat)
    requires Divides(a, b) && Divides(b, c)
    ensures Divides(a, c)
  {
    if a > 0 && b > 0 {
      var x, y := b / a, c / b;
      assert b == a * x && c == b * y;
      assert c == a * (x * y);
      MultipleMod(a, x * y);
    }
  }

  /** Euclid's algorithm, as a recursive definition. */
  function Gcd(a: nat, b: nat): nat
    decreases b
  {
    if b == 0 then a else Gcd(b, a % b)
  }

  /** The gcd divides both arguments. */
  lemma {:induction false} GcdDivides(a: nat, b: nat)
    ensures Divides(Gcd(a, b), a) && Divides(Gcd(a, b), b)
    decreases b
  {
    if b != 0 {
      GcdDivides(b, a % b);
      DividesFromMod(Gcd(a, b), a, b);
    }
  }

  /** Every common divisor divides the gcd, so it is the greatest. */
  lemma {:induction false} GcdGreatest(a: nat, b: nat, d: nat)
    requires Divides(d, a) && Divides(d, b)
    ensures Divides(d, Gcd(a, b))
    decreases b
  {
    if b != 0 {
      DividesMod(d, a, b);
      GcdGreatest(b, a % b, d);
    }
  }

  /** The gcd is 0 only for two zeros; `gcd(a, 0) = a`. */
  lemma {:induction false} GcdZero(a: nat, b: nat)
    ensures Gcd(a, b) == 0 <==> a == 0 && b == 0
    ensures Gcd(a, 0) == a
    decreases b
  {
    if b != 0 {
      GcdZero(b, a % b);
    }
  }

  /** `gcd`: the `while` loop of Euclid's algorithm. */
  method ComputeGcd(a0: nat, b0: nat) returns (g: nat)
    ensures g == Gcd(a0, b0)
  {
    var a, b := a0, b0;
    while b != 0
      invariant Gcd(a, b) == Gcd(a0, b0)
      decreases b
    {
      a, b := b, a % b;
    }
    g := a;
  }

  /** `lcm`: 0 when either argument is 0, otherwise `a * b / gcd(a, b)`. */
  function Lcm(a: nat, b: nat): nat {
    if a == 0 || b == 0 then 0
    else
      GcdZero(a, b);
      (a * b) / Gcd(a, b)
  }

  lemma Associative(p: int, q: int, r: int)
    ensures (p * q) * r == p * (q * r)
  {
  }

  /** The product of `g * x` and `g * y`, divided by `g`. */
  lemma ScaledProduct(g: nat, x: nat, y: nat)
    requires g > 0 && x >= 1 && y >= 1
    ensures ((g * x) * (g * y)) / g == x * (g * y) == (g * x) * y
    ensures x * (g * y) >= 1
  {
    var m := g * y;
    Associative(g, x, m);
    MultipleMod(g, x * m);
    Associative(x, g, y);
    ProductAtLeast(g, y);
    ProductAtLeast(m, x);
  }

  /** A positive multiple of a positive `g` is `g` times a positive quotient. */
  lemma Quotient(g: nat, a: nat)
    requires g > 0 && a > 0 && a % g == 0
    ensures a / g >= 1 && a == g * (a / g)
  {
  }

  /** For positive arguments the lcm is `(a / g) * b` and `a * (b / g)`. */
  lemma LcmProducts(a: nat, b: nat)
    requires a != 0 && b != 0
    ensures Gcd(a, b) != 0 && a / Gcd(a, b) >= 1 && b / Gcd(a, b) >= 1
    ensures Lcm(a, b) == (a / Gcd(a, b)) * b == a * (b / Gcd(a, b)) >= 1
  {
    var g := Gcd(a, b);
    GcdDivides(a, b);
    GcdZero(a, b);
    Quotient(g, a);
    Quotient(g, b);
    ScaledProduct(g, a / g, b / g);
  }

  /** Both arguments divide their lcm, which is 0 only when one of them is. */
  lemma LcmMultiple(a: nat, b: nat)
    ensures Divides(a, Lcm(a, b)) && Divides(b, Lcm(a, b))
    ensures Lcm(a, b) == 0 <==> a == 0 || b == 0
  {
    if a != 0 && b != 0 {
      LcmProducts(a, b);
      var x, y := a / Gcd(a, b), b / Gcd(a, b);
      MultipleMod(a, y);
      MultipleMod(b, x);
    }
  }

  /** `lcm`, computing the gcd with its loop. */
  method ComputeLcm(a: nat, b: nat) returns (l: nat)
    ensures l == Lcm(a, b)
  {
    if a == 0 || b == 0 {
      return 0;
    }
    var g := ComputeGcd(a, b);
    GcdZero(a, b);
    l := (a * b) / g;
  }

  /** The fold of part two: `lcm` over the step counts, starting from 1. */
  function FoldLcm(xs: seq<nat>): nat {
    if xs == [] then 1 else Lcm(FoldLcm(xs[..|xs| - 1]), xs[|xs| - 1])
  }

  /** Every count divides the fold, which is 0 exactly when a count is. */
  lemma {:induction false} FoldLcmMultiple(xs: seq<nat>)
    ensures forall i :: 0 <= i < |xs| ==> Divides(xs[i], FoldLcm(xs))
    ensures FoldLcm(xs) == 0 <==> 0 in xs
  {
    if xs != [] {
      var init, last := xs[..|xs| - 1], xs[|xs| - 1];
      FoldLcmMultiple(init);
      LcmMultiple(FoldLcm(init), last);
      forall i | 0 <= i < |init| ensures Divides(xs[i], FoldLcm(xs)) {
        DividesTransitive(init[i], FoldLcm(init), FoldLcm(xs));
      }
      assert xs == init + [last];
    }
  }

  /** The `fold` of `part_two` as a loop. */
  method FoldLcmLoop(xs: seq<nat>) returns (acc: nat)
    ensures acc == FoldLcm(xs)
  {
    acc := 1;
    var k := 0;
    while k < |xs|
      invariant k <= |xs| && acc == FoldLcm(xs[..k])
    {
      acc := ComputeLcm(acc, xs[k]);
      assert xs[..k + 1][..k] == xs[..k];
      k := k + 1;
    }
    assert xs[..k] == xs;
  }

  // ---------------------------------------------------------------------
  // The network and the walk

  datatype Direction = Left | Right

  /** Each node's left and right neighbour. */
  type Network = map<string, (string, string)>

  /** How a walk ends: at a goal after `steps` steps; at a node missing
      from the network after `steps` steps (`unwrap` fails); with no
      instructions at all, so the cyclic iterator is empty and the loop
      never runs; or without reaching a goal within the step bound. */
  datatype Outcome = Arrived(steps: nat) | Missing(steps: nat) | NoInstructions | OutOfFuel

  /** One step from `node`, if the network knows it. */
  function Move(net: Network, node: string, dir: Direction): Option<string> {
    if node in net then Some(if dir == Left then net[node].0 else net[node].1) else None
  }

  /** Where the walk from `start` is after `n` steps, taking the
      instructions cyclically; `None` once it has left the network. */
  function Position(ins: seq<Direction>, net: Network, start: string, n: nat): Option<string>
    requires ins != []
  {
    if n == 0 then Some(start)
    else match Position(ins, net, start, n - 1)
      case None => None
      case Some(node) => Move(net, node, ins[(n - 1) % |ins|])
  }

  /** `n` is the first step count, from 1 on, at which the walk stands on a
      goal node. */
  predicate FirstArrival(ins: seq<Direction>, net: Network, start: string, isGoal: string -> bool, n: nat)
    requires ins != []
  {
    1 <= n && Position(ins, net, start, n).Some? && isGoal(Position(ins, net, start, n).value) &&
    forall k :: 1 <= k < n ==> Position(ins, net, start, k).Some? && !isGoal(Position(ins, net, start, k).value)
  }

  /** The first arrival is unique: the step count a walk reports does not
      depend on how it was found. */
  lemma {:induction false} FirstArrivalUnique(ins: seq<Direction>, net: Network, start: string, isGoal: string -> bool, m: nat, n: nat)
    requires ins != []
    requires FirstArrival(ins, net, start, isGoal, m) && FirstArrival(ins, net, start, isGoal, n)
    ensures m == n
  {
  }

  /** One more step from a known position is one `Move`. */
  lemma {:induction false} PositionStep(ins: seq<Direction>, net: Network, start: string, n: nat, node: string)
    requires ins != [] && Position(ins, net, start, n) == Some(node)
    ensures Position(ins, net, start, n + 1) == Move(net, node, ins[n % |ins|])
  {
  }

  /** The cyclic instruction index wraps to 0 after the last instruction. */
  lemma {:induction false} NextIndex(steps: nat, i: nat, len: nat)
    requires len > 0 && i == steps % len
    ensures (if i + 1 == len then 0 else i + 1) == (steps + 1) % len
  {
    var q := steps / len;
    assert steps == len * q + i;
    if i + 1 == len {
      DivModUnique(steps + 1, len, q + 1, 0);
    } else {
      DivModUnique(steps + 1, len, q, i + 1);
    }
  }

  /** Once the walk has left the network it stays out. */
  lemma {:induction false} PositionGone(ins: seq<Direction>, net: Network, start: string, k: nat, n: nat)
    requires ins != [] && k <= n && Position(ins, net, start, k).None?
    ensures Position(ins, net, start, n).None?
    decreases n - k
  {
    if k < n {
      PositionGone(ins, net, start, k + 1, n);
    }
  }

  /** A walk that is about to leave the network, having met no goal so
      far, never arrives. */
  lemma {:induction false} MissingNoArrival(ins: seq<Direction>, net: Network, start: string, isGoal: string -> bool, steps: nat)
    requires ins != [] && Position(ins, net, start, steps).Some? && Position(ins, net, start, steps).value !in net
    requires forall k :: 1 <= k <= steps ==> Position(ins, net, start, k).Some? && !isGoal(Position(ins, net, start, k).value)
    ensures forall n: nat :: !FirstArrival(ins, net, start, isGoal, n)
  {
    forall n: nat | steps < n ensures Position(ins, net, start, n).None? {
      PositionGone(ins, net, start, steps + 1, n);
    }
  }

  /** The loop of `part_one` and of `part_two` for one start node: follow the
      instructions cyclically, count each step before testing for a goal,
      and stop at the first goal; at most `fuel` steps are taken. */
  method Walk(ins: seq<Direction>, net: Network, start: string, isGoal: string -> bool, fuel: nat) returns (r: Outcome)
    ensures ins == [] <==> r == NoInstructions
    ensures r.Arrived? ==> FirstArrival(ins, net, start, isGoal, r.steps) && r.steps <= fuel
    ensures r.Missing? || r == OutOfFuel ==> forall n: nat :: n <= fuel ==> !FirstArrival(ins, net, start, isGoal, n)
    ensures r.Missing? ==> (ins != [] && r.steps < fuel &&
      Position(ins, net, start, r.steps).Some? && Position(ins, net, start, r.steps).value !in net)
  {
    if ins == [] {
      return NoInstructions;
    }
    var steps := 0;
    var node := start;
    var i := 0;
    while steps < fuel
      invariant steps <= fuel && i == steps % |ins|
      invariant Position(ins, net, start, steps) == Some(node)
      invariant forall k :: 1 <= k <= steps ==> Position(ins, net, start, k).Some? && !isGoal(Position(ins, net, start, k).value)
    {
      if node !in net {
        MissingNoArrival(ins, net, start, isGoal, steps);
        return Missing(steps);
      }
      PositionStep(ins, net, start, steps, node);
      NextIndex(steps, i, |ins|);
      var (left, right) := net[node];
      node := if ins[i] == Left then left else right;
      steps := steps + 1;
      i := if i + 1 == |ins| then 0 else i + 1;
      if isGoal(node) {
        return Arrived(steps);
      }
    }
    return OutOfFuel;
  }

  /** The goal of part one. */
  predicate IsZZZ(node: string) {
    node == "ZZZ"
  }

  /** `ends_with` for one character; an empty name ends with nothing. */
  predicate EndsWith(node: string, c: char) {
    |node| > 0 && node[|node| - 1] == c
  }

  predicate EndsWithZ(node: string) {
    EndsWith(node, 'Z')
  }

  /** What part one answers for parsed input: 0 without instructions,
      otherwise the first arrival at "ZZZ" from "AAA"; `None` stands for
      the panic at a missing node and for a walk longer than `fuel`. */
  ghost predicate PartOneAnswer(ins: seq<Direction>, net: Network, fuel: nat, r: Option<nat>) {
    if ins == [] then r == Some(0)
    else
      (r.Some? ==> FirstArrival(ins, net, "AAA", IsZZZ, r.value) && r.value <= fuel) &&
      (r.None? ==> forall n: nat :: n <= fuel ==> !FirstArrival(ins, net, "AAA", IsZZZ, n))
  }

  /** The answer is determined once the walk arrives within the bound. */
  lemma PartOneAnswerUnique(ins: seq<Direction>, net: Network, fuel: nat, r: Option<nat>, n: nat)
    requires ins != [] && n <= fuel && FirstArrival(ins, net, "AAA", IsZZZ, n)
    requires PartOneAnswer(ins, net, fuel, r)
    ensures r == Some(n)
  {
    if r.Some? {
      FirstArrivalUnique(ins, net, "AAA", IsZZZ, r.value, n);
    }
  }

  /** `part_one`: parse, then walk from "AAA" until "ZZZ". */
  method PartOne(lines: seq<string>, fuel: nat) returns (r: Option<nat>)
    ensures Parse(lines).None? ==> r == None
    ensures Parse(lines).Some? ==> PartOneAnswer(Parse(lines).value.0, Parse(lines).value.1, fuel, r)
  {
    var parsed := Parse(lines);
    if parsed.None? {
      return None;
    }
    var (ins, net) := parsed.value;
    var outcome := Walk(ins, net, "AAA", IsZZZ, fuel);
    match outcome {
      case Arrived(steps) => r := Some(steps);
      case NoInstructions => r := Some(0);
      case Missing(_) => r := None;
      case OutOfFuel => r := None;
    }
  }

  predicate EndsWithA(node: string) {
    EndsWith(node, 'A')
  }

  /** The start nodes of part two. */
  function Starts(net: Network): set<string> {
    set s | s in net && EndsWithA(s)
  }

  /** What part two answers for parsed input, given the order in which the
      start nodes were visited and the step counts it pushed. */
  ghost predicate PartTwoAnswer(ins: seq<Direction>, net: Network, fuel: nat, order: seq<string>, allSteps: seq<nat>, r: Option<nat>) {
    (forall s :: s in order ==> s in net && EndsWithA(s)) &&
    (forall j, k :: 0 <= j < k < |order| ==> order[j] != order[k]) &&
    (r.Some? ==> |order| == |Starts(net)| && forall s :: s in net && EndsWithA(s) ==> s in order) &&
    if ins == [] then allSteps == [] && r == Some(1)
    else
      (r.Some? ==> (|allSteps| == |order| && r.value == FoldLcm(allSteps) &&
        forall j :: 0 <= j < |order| ==> allSteps[j] <= fuel && FirstArrival(ins, net, order[j], EndsWithZ, allSteps[j]))) &&
      (r.None? ==> exists s :: s in order && forall n: nat :: n <= fuel ==> !FirstArrival(ins, net, s, EndsWithZ, n))
  }

  /** The outer loop of `part_two`: one walk per start node, in an order
      the map does not specify; stops at the first walk that does not
      arrive (in the source, a panic or a loop without end) and reports
      its start. */
  method WalkAll(ins: seq<Direction>, net: Network, fuel: nat) returns (order: seq<string>, allSteps: seq<nat>, failed: Option<string>)
    ensures forall s :: s in order ==> s in net && EndsWithA(s)
    ensures forall j, k :: 0 <= j < k < |order| ==> order[j] != order[k]
    ensures failed.None? ==> |order| == |Starts(net)| && forall s :: s in net && EndsWithA(s) ==> s in order
    ensures ins == [] ==> allSteps == [] && failed.None?
    ensures ins != [] && failed.None? ==> (|allSteps| == |order| &&
      forall j :: 0 <= j < |order| ==> allSteps[j] <= fuel && FirstArrival(ins, net, order[j], EndsWithZ, allSteps[j]))
    ensures failed.Some? ==> (ins != [] && failed.value in order &&
      forall n: nat :: n <= fuel ==> !FirstArrival(ins, net, failed.value, EndsWithZ, n))
  {
    order, allSteps, failed := [], [], None;
    var starts := Starts(net);
    var left := starts;
    while left != {}
      invariant left <= starts && |order| + |left| == |starts|
      invariant forall s :: s in order <==> s in starts && s !in left
      invariant forall j, k :: 0 <= j < k < |order| ==> order[j] != order[k]
      invariant ins == [] ==> allSteps == []
      invariant ins != [] ==> (|allSteps| == |order| &&
        forall j :: 0 <= j < |order| ==> allSteps[j] <= fuel && FirstArrival(ins, net, order[j], EndsWithZ, allSteps[j]))
      decreases left
    {
      var node :| node in left;
      var outcome := Walk(ins, net, node, EndsWithZ, fuel);
      order := order + [node];
      left := left - {node};
      match outcome {
        case Arrived(steps) => allSteps := allSteps + [steps];
        case NoInstructions =>
        case Missing(_) => return order, allSteps, Some(node);
        case OutOfFuel => return order, allSteps, Some(node);
      }
    }
  }

  /** Part two's answer is a positive common multiple of every walk's
      step count. */
  lemma PartTwoCommonMultiple(ins: seq<Direction>, net: Network, fuel: nat, order: seq<string>, allSteps: seq<nat>, r: Option<nat>)
    requires PartTwoAnswer(ins, net, fuel, order, allSteps, r) && r.Some?
    ensures r.value > 0 && forall j :: 0 <= j < |allSteps| ==> Divides(allSteps[j], r.value)
  {
    if ins != [] {
      FoldLcmMultiple(allSteps);
      assert 0 !in allSteps by {
        forall j | 0 <= j < |allSteps| ensures allSteps[j] >= 1 {
          assert FirstArrival(ins, net, order[j], EndsWithZ, allSteps[j]);
        }
      }
    }
  }

  /** `part_two`: walk from every node ending in 'A' to a node ending in
      'Z', then fold the step counts with `lcm`. */
  method PartTwo(lines: seq<string>, fuel: nat) returns (order: seq<string>, allSteps: seq<nat>, r: Option<nat>)
    ensures Parse(lines).None? ==> r == None
    ensures Parse(lines).Some? ==> PartTwoAnswer(Parse(lines).value.0, Parse(lines).value.1, fuel, order, allSteps, r)
  {
    var parsed := Parse(lines);
    if parsed.None? {
      return [], [], None;
    }
    var (ins, net) := parsed.value;
    var failed;
    order, allSteps, failed := WalkAll(ins, net, fuel);
    if failed.Some? {
      return order, allSteps, None;
    }
    var acc := FoldLcmLoop(allSteps);
    r := Some(acc);
  }

  // ---------------------------------------------------------------------
  // Parsing

  /** A direction letter; any other character panics. */
  function ParseDirection(c: char): (r: Option<Direction>)
    ensures r.Some? <==> c == 'L' || c == 'R'
  {
    match c
    case 'R' => Some(Right)
    case 'L' => Some(Left)
    case _ => None
  }

  function DirectionChar(d: Direction): char {
    if d == Left then 'L' else 'R'
  }

  function DirectionsText(ins: seq<Direction>): (s: string)
    ensures |s| == |ins| && forall i :: 0 <= i < |ins| ==> s[i] == DirectionChar(ins[i])
  {
    seq(|ins|, i requires 0 <= i < |ins| => DirectionChar(ins[i]))
  }

  /** The instruction line is read back exactly. */
  lemma DirectionsRoundTrip(ins: seq<Direction>)
    ensures CollectAll(DirectionsText(ins), ParseDirection) == Some(ins)
  {
    var s := DirectionsText(ins);
    forall k | 0 <= k < |s| ensures ParseDirection(s[k]) == Some(ins[k]) {
      if ins[k] == Left {
        assert s[k] == 'L';
      } else {
        assert s[k] == 'R';
      }
    }
    CollectAllOf(s, ParseDirection, ins);
  }

  /** A node line `AAA = (BBB, CCC)`: the name is bytes 0..3, the left
      neighbour bytes 7..10 and the right neighbour bytes 12..15; a line
      shorter than 15 bytes makes the slicing panic. */
  function ParseNode(line: string): (r: Option<(string, (string, string))>)
    ensures r.Some? <==> |line| >= 15
    ensures r.Some? ==> |r.value.0| == 3 && |r.value.1.0| == 3 && |r.value.1.1| == 3
  {
    if |line| < 15 then None else Some((line[0..3], (line[7..10], line[12..15])))
  }

  function NodeLine(name: string, left: string, right: string): string {
    name + " = (" + left + ", " + right + ")"
  }

  /** A node line is read back exactly when the names have three bytes. */
  lemma NodeRoundTrip(name: string, left: string, right: string)
    requires |name| == 3 && |left| == 3 && |right| == 3
    ensures ParseNode(NodeLine(name, left, right)) == Some((name, (left, right)))
  {
    var line := NodeLine(name, left, right);
    assert line[0..3] == name && line[7..10] == left && line[12..15] == right;
  }

  /** Collecting the node lines into a map: a later line for the same name
      replaces an earlier one. */
  function ParseNetwork(lines: seq<string>): Option<Network> {
    if lines == [] then Some(map[])
    else
      match ParseNetwork(lines[..|lines| - 1])
      case None => None
      case Some(net) =>
        match ParseNode(lines[|lines| - 1])
        case None => None
        case Some((name, pair)) => Some(net[name := pair])
  }

  /** The network parses exactly when every line is long enough. */
  lemma {:induction false} ParseNetworkDefined(lines: seq<string>)
    ensures ParseNetwork(lines).Some? <==> forall i :: 0 <= i < |lines| ==> |lines[i]| >= 15
  {
    if lines != [] {
      var init := lines[..|lines| - 1];
      ParseNetworkDefined(init);
      assert forall i :: 0 <= i < |init| ==> lines[i] == init[i];
    }
  }

  /** The nodes of the network are the names of its lines. */
  lemma {:induction false} ParseNetworkKeys(lines: seq<string>)
    requires ParseNetwork(lines).Some?
    ensures forall name :: name in ParseNetwork(lines).value <==>
      exists i :: 0 <= i < |lines| && |lines[i]| >= 3 && lines[i][0..3] == name
  {
    if lines != [] {
      var init, last := lines[..|lines| - 1], lines[|lines| - 1];
      ParseNetworkKeys(init);
      forall name ensures name in ParseNetwork(lines).value <==>
        exists i :: 0 <= i < |lines| && |lines[i]| >= 3 && lines[i][0..3] == name
      {
        if name in ParseNetwork(init).value {
          var i :| 0 <= i < |init| && |init[i]| >= 3 && init[i][0..3] == name;
          assert lines[i] == init[i];
        }
        if exists i :: 0 <= i < |lines| && |lines[i]| >= 3 && lines[i][0..3] == name {
          var i :| 0 <= i < |lines| && |lines[i]| >= 3 && lines[i][0..3] == name;
          if i < |init| {
            assert init[i] == lines[i];
          }
        }
      }
    }
  }

  /** Each name maps to the neighbours on the last line that carries it. */
  lemma {:induction false} ParseNetworkLast(lines: seq<string>, i: nat)
    requires ParseNetwork(lines).Some? && i < |lines| && |lines[i]| >= 15
    requires forall j :: i < j < |lines| && |lines[j]| >= 3 ==> lines[j][0..3] != lines[i][0..3]
    ensures lines[i][0..3] in ParseNetwork(lines).value
    ensures ParseNetwork(lines).value[lines[i][0..3]] == (lines[i][7..10], lines[i][12..15])
  {
    var init, last := lines[..|lines| - 1], lines[|lines| - 1];
    if i < |init| {
      assert init[i] == lines[i];
      ParseNetworkLast(init, i);
    }
  }

  /** `parse`: the first line holds the instructions, the second is
      skipped, the rest are node lines. */
  function Parse(lines: seq<string>): Option<(seq<Direction>, Network)> {
    if |lines| < 2 then None
    else
      match CollectAll(lines[0], ParseDirection)
      case None => None
      case Some(ins) =>
        match ParseNetwork(lines[2..])
        case None => None
        case Some(net) => Some((ins, net))
  }

  /** Parsing fails exactly when a line is missing, a direction letter is
      not `L` or `R`, or a node line is too short. */
  lemma ParseMeaning(lines: seq<string>)
    ensures Parse(lines).Some? <==>
      |lines| >= 2 && (forall k :: 0 <= k < |lines[0]| ==> lines[0][k] == 'L' || lines[0][k] == 'R') &&
      forall i :: 2 <= i < |lines| ==> |lines[i]| >= 15
    ensures Parse(lines).Some? ==> |Parse(lines).value.0| == |lines[0]|
  {
    if |lines| >= 2 {
      CollectAllMeaning(lines[0], ParseDirection);
      ParseNetworkDefined(lines[2..]);
      assert forall i :: 2 <= i < |lines| ==> lines[i] == lines[2..][i - 2];
    }
  }

  /** A node entry: a name and its left and right neighbours. */
  type Entry = (string, (string, string))

  predicate ThreeBytes(e: Entry) {
    |e.0| == 3 && |e.1.0| == 3 && |e.1.1| == 3
  }

  /** The node lines of a list of entries. */
  function EntryLines(entries: seq<Entry>): (lines: seq<string>)
    ensures |lines| == |entries|
    ensures forall i :: 0 <= i < |entries| ==> lines[i] == NodeLine(entries[i].0, entries[i].1.0, entries[i].1.1)
  {
    seq(|entries|, i requires 0 <= i < |entries| => NodeLine(entries[i].0, entries[i].1.0, entries[i].1.1))
  }

  /** The map of a list of entries, later entries replacing earlier ones. */
  function EntryMap(entries: seq<Entry>): Network {
    if entries == [] then map[] else EntryMap(entries[..|entries| - 1])[entries[|entries| - 1].0 := entries[|entries| - 1].1]
  }

  /** An entry that no later entry overrides is in the map. */
  lemma {:induction false} EntryMapLookup(entries: seq<Entry>, i: nat)
    requires i < |entries| && forall j :: i < j < |entries| ==> entries[j].0 != entries[i].0
    ensures entries[i].0 in EntryMap(entries) && EntryMap(entries)[entries[i].0] == entries[i].1
  {
    if i < |entries| - 1 {
      EntryMapLookup(entries[..|entries| - 1], i);
    }
  }

  /** The nodes of the map are the names of the entries. */
  lemma {:induction false} EntryMapKeys(entries: seq<Entry>)
    ensures forall name :: name in EntryMap(entries) <==> exists i :: 0 <= i < |entries| && entries[i].0 == name
  {
    if entries != [] {
      var init := entries[..|entries| - 1];
      EntryMapKeys(init);
      assert forall i :: 0 <= i < |init| ==> init[i] == entries[i];
    }
  }

  /** Node lines written from entries read back as their map. */
  lemma {:induction false} NetworkRoundTrip(entries: seq<Entry>)
    requires forall i :: 0 <= i < |entries| ==> ThreeBytes(entries[i])
    ensures ParseNetwork(EntryLines(entries)) == Some(EntryMap(entries))
  {
    if entries != [] {
      var init, last := entries[..|entries| - 1], entries[|entries| - 1];
      NetworkRoundTrip(init);
      NodeRoundTrip(last.0, last.1.0, last.1.1);
      assert EntryLines(entries)[..|entries| - 1] == EntryLines(init);
    }
  }

  // ---------------------------------------------------------------------
  // The examples

  /** The first example of part one: "RL" over seven nodes. */
  function ExampleOneEntries(): seq<Entry> {
    [("AAA", ("BBB", "CCC")), ("BBB", ("DDD", "EEE")), ("CCC", ("ZZZ", "GGG")),
     ("DDD", ("DDD", "DDD")), ("EEE", ("EEE", "EEE")), ("GGG", ("GGG", "GGG")),
     ("ZZZ", ("ZZZ", "ZZZ"))]
  }

  lemma ExampleOneParse()
    ensures Parse(["RL", ""] + EntryLines(ExampleOneEntries())) == Some(([Right, Left], EntryMap(ExampleOneEntries())))
  {
    var lines := ["RL", ""] + EntryLines(ExampleOneEntries());
    CollectAllOf(lines[0], ParseDirection, [Right, Left]);
    NetworkRoundTrip(ExampleOneEntries());
    assert lines[2..] == EntryLines(ExampleOneEntries());
  }

  /** "AAA" goes right to "CCC", then left to "ZZZ". */
  lemma ExampleOneWalk()
    ensures FirstArrival([Right, Left], EntryMap(ExampleOneEntries()), "AAA", IsZZZ, 2)
  {
    var ins, net := [Right, Left], EntryMap(ExampleOneEntries());
    EntryMapLookup(ExampleOneEntries(), 0);
    EntryMapLookup(ExampleOneEntries(), 2);
    assert Position(ins, net, "AAA", 1) == Some("CCC");
    assert Position(ins, net, "AAA", 2) == Some("ZZZ");
  }

  /** Part one on the first example answers 2. */
  method ExamplePartOne() returns (r: Option<nat>)
    ensures r == Some(2)
  {
    r := PartOne(["RL", ""] + EntryLines(ExampleOneEntries()), 2);
    ExampleOneParse();
    ExampleOneWalk();
    PartOneAnswerUnique([Right, Left], EntryMap(ExampleOneEntries()), 2, r, 2);
  }

  /** The second example of part one: "LLR" needs two rounds. */
  function ExampleTwoEntries(): seq<Entry> {
    [("AAA", ("BBB", "BBB")), ("BBB", ("AAA", "ZZZ")), ("ZZZ", ("ZZZ", "ZZZ"))]
  }

  /** AAA, BBB, AAA, BBB, AAA, BBB, ZZZ: six steps. */
  lemma ExampleTwoWalk()
    ensures FirstArrival([Left, Left, Right], EntryMap(ExampleTwoEntries()), "AAA", IsZZZ, 6)
  {
    var ins, net := [Left, Left, Right], EntryMap(ExampleTwoEntries());
    EntryMapLookup(ExampleTwoEntries(), 0);
    EntryMapLookup(ExampleTwoEntries(), 1);
    assert Position(ins, net, "AAA", 1) == Some("BBB");
    assert Position(ins, net, "AAA", 2) == Some("AAA");
    assert Position(ins, net, "AAA", 3) == Some("BBB");
    assert Position(ins, net, "AAA", 4) == Some("AAA");
    assert Position(ins, net, "AAA", 5) == Some("BBB");
    assert Position(ins, net, "AAA", 6) == Some("ZZZ");
  }

  /** Part one on the second example answers 6. */
  method ExamplePartOneTwice() returns (r: Option<nat>)
    ensures r == Some(6)
  {
    var lines := ["LLR", ""] + EntryLines(ExampleTwoEntries());
    r := PartOne(lines, 6);
    CollectAllOf(lines[0], ParseDirection, [Left, Left, Right]);
    NetworkRoundTrip(ExampleTwoEntries());
    assert lines[2..] == EntryLines(ExampleTwoEntries());
    ExampleTwoWalk();
    PartOneAnswerUnique([Left, Left, Right], EntryMap(ExampleTwoEntries()), 6, r, 6);
  }

  /** The example of part two: two start nodes with cycles of 2 and 3. */
  function ExampleThreeEntries(): seq<Entry> {
    [("11A", ("11B", "XXX")), ("11B", ("XXX", "11Z")), ("11Z", ("11B", "XXX")),
     ("22A", ("22B", "XXX")), ("22B", ("22C", "22C")), ("22C", ("22Z", "22Z")),
     ("22Z", ("22B", "22B")), ("XXX", ("XXX", "XXX"))]
  }

  /** "11A" reaches "11Z" in 2 steps. */
  lemma ExampleThreeWalkOne()
    ensures FirstArrival([Left, Right], EntryMap(ExampleThreeEntries()), "11A", EndsWithZ, 2)
  {
    var ins, net := [Left, Right], EntryMap(ExampleThreeEntries());
    EntryMapLookup(ExampleThreeEntries(), 0);
    EntryMapLookup(ExampleThreeEntries(), 1);
    assert Position(ins, net, "11A", 1) == Some("11B");
    assert Position(ins, net, "11A", 2) == Some("11Z");
  }

  /** "22A" reaches "22Z" in 3 steps. */
  lemma ExampleThreeWalkTwo()
    ensures FirstArrival([Left, Right], EntryMap(ExampleThreeEntries()), "22A", EndsWithZ, 3)
  {
    var ins, net := [Left, Right], EntryMap(ExampleThreeEntries());
    EntryMapLookup(ExampleThreeEntries(), 3);
    EntryMapLookup(ExampleThreeEntries(), 4);
    EntryMapLookup(ExampleThreeEntries(), 5);
    assert Position(ins, net, "22A", 1) == Some("22B");
    assert Position(ins, net, "22A", 2) == Some("22C");
    assert Position(ins, net, "22A", 3) == Some("22Z");
  }

  /** Only the first and the fourth node of the example end in 'A'. */
  lemma ExampleThreeNames()
    ensures |ExampleThreeEntries()| == 8
    ensures ExampleThreeEntries()[0].0 == "11A" && ExampleThreeEntries()[3].0 == "22A"
    ensures forall i :: 0 <= i < 8 && i != 0 && i != 3 ==> !EndsWithA(ExampleThreeEntries()[i].0)
  {
  }

  /** The start nodes of the example are "11A" and "22A". */
  lemma ExampleThreeStarts()
    ensures Starts(EntryMap(ExampleThreeEntries())) == {"11A", "22A"}
  {
    var es := ExampleThreeEntries();
    ExampleThreeNames();
    EntryMapKeys(es);
    EntryMapLookup(es, 0);
    EntryMapLookup(es, 3);
    forall s | s in Starts(EntryMap(es)) ensures s == "11A" || s == "22A" {
      var i :| 0 <= i < |es| && es[i].0 == s;
    }
  }

  lemma ExampleThreeFold()
    ensures FoldLcm([2, 3]) == 6 && FoldLcm([3, 2]) == 6
  {
    assert [2, 3][..1] == [2] && [3, 2][..1] == [3];
    assert [2][..0] == [] && [3][..0] == [];
    assert Gcd(1, 2) == 1 && Gcd(1, 3) == 1 && Gcd(2, 3) == 1 && Gcd(3, 2) == 1;
  }

  lemma StartOfOrder(net: Network, order: seq<string>, s: string)
    requires forall x :: x in order ==> x in net && EndsWithA(x)
    requires s in order
    ensures s in Starts(net)
  {
  }

  /** With exactly two start nodes, both arriving within the fuel, part two
      folds their two step counts, in one order or the other. */
  lemma TwoStartsAnswer(ins: seq<Direction>, net: Network, fuel: nat, order: seq<string>, allSteps: seq<nat>, r: Option<nat>,
                        s1: string, s2: string, n1: nat, n2: nat)
    requires ins != [] && s1 != s2 && n1 <= fuel && n2 <= fuel
    requires Starts(net) == {s1, s2}
    requires FirstArrival(ins, net, s1, EndsWithZ, n1) && FirstArrival(ins, net, s2, EndsWithZ, n2)
    requires PartTwoAnswer(ins, net, fuel, order, allSteps, r)
    ensures r.Some? && r.value == FoldLcm(allSteps) && (allSteps == [n1, n2] || allSteps == [n2, n1])
  {
    if r.None? {
      var s :| s in order && forall n: nat :: n <= fuel ==> !FirstArrival(ins, net, s, EndsWithZ, n);
      StartOfOrder(net, order, s);
      assert false;
    } else {
      assert |order| == 2 && |allSteps| == 2;
      var o0, o1, a0, a1 := order[0], order[1], allSteps[0], allSteps[1];
      assert FirstArrival(ins, net, o0, EndsWithZ, a0);
      assert FirstArrival(ins, net, o1, EndsWithZ, a1);
      assert o0 in Starts(net) && o1 in Starts(net);
      assert o0 != o1;
      if o0 == s1 {
        FirstArrivalUnique(ins, net, s1, EndsWithZ, a0, n1);
        FirstArrivalUnique(ins, net, s2, EndsWithZ, a1, n2);
      } else {
        FirstArrivalUnique(ins, net, s2, EndsWithZ, a0, n2);
        FirstArrivalUnique(ins, net, s1, EndsWithZ, a1, n1);
      }
      assert allSteps == [a0, a1];
    }
  }

  /** Whatever order the start nodes are visited in, part two answers 6. */
  lemma ExampleThreeAnswer(order: seq<string>, allSteps: seq<nat>, r: Option<nat>)
    requires PartTwoAnswer([Left, Right], EntryMap(ExampleThreeEntries()), 3, order, allSteps, r)
    ensures r == Some(6)
  {
    ExampleThreeStarts();
    ExampleThreeWalkOne();
    ExampleThreeWalkTwo();
    ExampleThreeFold();
    TwoStartsAnswer([Left, Right], EntryMap(ExampleThreeEntries()), 3, order, allSteps, r, "11A", "22A", 2, 3);
  }

  /** Part two on its example answers 6. */
  method ExamplePartTwo() returns (r: Option<nat>)
    ensures r == Some(6)
  {
    var lines := ["LR", ""] + EntryLines(ExampleThreeEntries());
    var order, allSteps;
    order, allSteps, r := PartTwo(lines, 3);
    CollectAllOf(lines[0], ParseDirection, [Left, Right]);
    NetworkRoundTrip(ExampleThreeEntries());
    assert lines[2..] == EntryLines(ExampleThreeEntries());
    ExampleThreeAnswer(order, allSteps, r);
  }
}
