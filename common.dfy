/** Text and number helpers shared by the daily solvers: Rust's `Option`,
    the unsigned integer bounds, ASCII digits, `str::parse` for unsigned
    integers and `str::split_ascii_whitespace`. */
module Common {

  datatype Option<+T> = None | Some(value: T)

  datatype Result<+T, +E> = Ok(value: T) | Err(error: E)

  /** `u64::MAX` */
  const U64_MAX: nat := 0xFFFF_FFFF_FFFF_FFFF

  /** `u32::MAX` */
  const U32_MAX: nat := 0xFFFF_FFFF

  /** `char::is_ascii_digit` */
  predicate IsDigit(c: char) {
    '0' <= c <= '9'
  }

  predicate AllDigits(s: string) {
    forall i :: 0 <= i < |s| ==> IsDigit(s[i])
  }

  function DigitValue(c: char): (d: nat)
    requires IsDigit(c)
    ensures d <= 9
  {
    c as int - '0' as int
  }

  function DigitChar(d: nat): (c: char)
    requires d <= 9
    ensures IsDigit(c) && DigitValue(c) == d
  {
    ('0' as int + d) as char
  }

  function Pow10(n: nat): (p: nat)
    ensures p >= 1
  {
    if n == 0 then 1 else 10 * Pow10(n - 1)
  }

  lemma {:induction false} Pow10Add(m: nat, n: nat)
    ensures Pow10(m + n) == Pow10(m) * Pow10(n)
  {
    if m > 0 {
      Pow10Add(m - 1, n);
      assert Pow10(m + n) == 10 * Pow10(m - 1 + n);
    }
  }

  /** The number a decimal numeral denotes, most significant digit first. */
  function DecimalValue(s: string): (v: nat)
    requires AllDigits(s)
    ensures v < Pow10(|s|)
  {
    if s == [] then 0
    else
      DigitStepBound(DigitValue(s[0]), Pow10(|s| - 1), DecimalValue(s[1..]));
      DigitValue(s[0]) * Pow10(|s| - 1) + DecimalValue(s[1..])
  }

  lemma DigitStepBound(d: int, p: int, x: int)
    requires 0 <= d <= 9 && 0 <= x < p
    ensures 0 <= d * p + x < 10 * p
  {
  }

  /** Writing the digits of `b` after those of `a` multiplies `a`'s value by
      ten once per digit of `b` and adds `b`'s value. */
  lemma {:induction false} DecimalValueConcat(a: string, b: string)
    requires AllDigits(a) && AllDigits(b)
    ensures AllDigits(a + b)
    ensures DecimalValue(a + b) == DecimalValue(a) * Pow10(|b|) + DecimalValue(b)
  {
    if a != [] {
      var ab := a + b;
      var d: int, p: int, q: int := DigitValue(a[0]), Pow10(|a| - 1), Pow10(|b|);
      var x: int, y: int := DecimalValue(a[1..]), DecimalValue(b);
      assert DecimalValue(ab) == d * (p * q) + (x * q + y) by {
        assert ab[1..] == a[1..] + b;
        DecimalValueConcat(a[1..], b);
        Pow10Add(|a| - 1, |b|);
      }
      Regroup(d, p, q, x, y);
    } else {
      assert a + b == b;
    }
  }

  lemma Regroup(d: int, p: int, q: int, x: int, y: int)
    ensures d * (p * q) + (x * q + y) == (d * p + x) * q + y
  {
  }

  /** `n` written in decimal without leading zeros, as `u64::to_string` does. */
  function DecimalString(n: nat): (s: string)
    ensures s != [] && AllDigits(s)
  {
    if n < 10 then [DigitChar(n)] else DecimalString(n / 10) + [DigitChar(n % 10)]
  }

  lemma {:induction false} DecimalStringValue(n: nat)
    ensures DecimalValue(DecimalString(n)) == n
  {
    if n >= 10 {
      DecimalStringValue(n / 10);
      DecimalValueConcat(DecimalString(n / 10), [DigitChar(n % 10)]);
    }
  }

  /** Rust's `str::parse` for an unsigned integer type whose largest value is
      `bound`: an optional '+', then at least one ASCII digit, and a value
      that fits; anything else is an error. */
  function ParseUnsigned(s: string, bound: nat): (r: Option<nat>)
  {
    var digits := if |s| > 0 && s[0] == '+' then s[1..] else s;
    if digits != [] && AllDigits(digits) && DecimalValue(digits) <= bound
    then Some(DecimalValue(digits))
    else None
  }

  /** Parsing accepts exactly the numerals whose value fits the type. */
  lemma ParseUnsignedMeaning(s: string, bound: nat)
    ensures ParseUnsigned(s, bound).Some? ==> ParseUnsigned(s, bound).value <= bound
    ensures s == [] ==> ParseUnsigned(s, bound) == None
    ensures AllDigits(s) && s != [] && DecimalValue(s) > bound ==> ParseUnsigned(s, bound) == None
    ensures (exists i :: 0 <= i < |s| && !IsDigit(s[i]) && (i > 0 || s[i] != '+')) ==> ParseUnsigned(s, bound) == None
  {
  }

  /** Printing a number that fits and parsing it back gives the number. */
  lemma ParseUnsignedRoundTrip(n: nat, bound: nat)
    requires n <= bound
    ensures ParseUnsigned(DecimalString(n), bound) == Some(n)
  {
    DecimalStringValue(n);
  }

  const I32_MIN: int := -0x8000_0000
  const I32_MAX: int := 0x7FFF_FFFF

  /** Rust's `str::parse::<i32>`: an optional sign, then at least one ASCII
      digit, and a value in the range of `i32`; anything else is an error. */
  function ParseI32(s: string): Option<int> {
    var negative := |s| > 0 && s[0] == '-';
    var digits := if |s| > 0 && (s[0] == '-' || s[0] == '+') then s[1..] else s;
    if digits == [] || !AllDigits(digits) then None
    else
      var v: int := if negative then 0 - (DecimalValue(digits) as int) else DecimalValue(digits);
      if I32_MIN <= v <= I32_MAX then Some(v) else None
  }

  /** `i32::to_string`: a minus sign for negative values, then the digits. */
  function SignedString(n: int): (s: string)
    ensures s != [] && NoSpace(s)
  {
    if n < 0 then "-" + DecimalString(-n) else DecimalString(n)
  }

  /** Parsing accepts only values in range, and reads back every printed
      value in range. */
  lemma ParseI32RoundTrip(n: int)
    ensures ParseI32(SignedString(n)).Some? ==> I32_MIN <= ParseI32(SignedString(n)).value <= I32_MAX
    ensures I32_MIN <= n <= I32_MAX <==> ParseI32(SignedString(n)) == Some(n)
  {
    if n < 0 {
      DecimalStringValue(-n);
      assert ("-" + DecimalString(-n))[1..] == DecimalString(-n);
    } else {
      DecimalStringValue(n);
    }
  }

  /** A non-empty sequence is its prefix without the last element, then that element. */
  lemma SplitLast<T>(s: seq<T>)
    requires s != []
    ensures s[..|s| - 1] + [s[|s| - 1]] == s
  {
  }

  /** A sequence that agrees with `init` and then holds `x` is `init + [x]`. */
  lemma SnocOf<T>(a: seq<T>, init: seq<T>, x: T)
    requires |a| == |init| + 1 && a[|init|] == x
    requires forall i :: 0 <= i < |init| ==> a[i] == init[i]
    ensures a == init + [x]
  {
  }

  /** Two sequences with the same elements and the same first element have
      tails with the same elements. */
  lemma MultisetTail<T>(m: seq<T>, t: seq<T>)
    requires m != [] && t != [] && m[0] == t[0] && multiset(m) == multiset(t)
    ensures multiset(m[1..]) == multiset(t[1..])
  {
    assert m == [m[0]] + m[1..];
    assert t == [t[0]] + t[1..];
    calc {
      multiset(m[1..]);
      multiset(m) - multiset{m[0]};
      multiset(t) - multiset{t[0]};
      multiset(t[1..]);
    }
  }

  /** An element of a sequence's multiset sits at some index. */
  lemma MultisetIndex<T>(s: seq<T>, x: T) returns (k: nat)
    requires x in multiset(s)
    ensures k < |s| && s[k] == x
  {
    k :| 0 <= k < |s| && s[k] == x;
  }

  /** Collecting an iterator of `Option`s into `Option<Vec<_>>`: the
      results of `f` on every element, or `None` as soon as one is `None`. */
  function CollectAll<T, U>(xs: seq<T>, f: T -> Option<U>): Option<seq<U>> {
    if xs == [] then Some([])
    else
      match f(xs[0])
      case None => None
      case Some(y) =>
        match CollectAll(xs[1..], f)
        case None => None
        case Some(ys) => Some([y] + ys)
  }

  /** The collection succeeds exactly when `f` succeeds on every element,
      and then holds `f`'s results in order. */
  lemma {:induction false} CollectAllMeaning<T, U>(xs: seq<T>, f: T -> Option<U>)
    ensures CollectAll(xs, f).Some? <==> forall i :: 0 <= i < |xs| ==> f(xs[i]).Some?
    ensures CollectAll(xs, f).Some? ==> |CollectAll(xs, f).value| == |xs|
    ensures CollectAll(xs, f).Some? ==> forall i :: 0 <= i < |xs| ==> Some(CollectAll(xs, f).value[i]) == f(xs[i])
  {
    if xs != [] {
      CollectAllMeaning(xs[1..], f);
      assert forall i :: 1 <= i < |xs| ==> xs[i] == xs[1..][i - 1];
    }
  }

  lemma CollectAllOf<T, U>(xs: seq<T>, f: T -> Option<U>, ys: seq<U>)
    requires |xs| == |ys| && forall k :: 0 <= k < |xs| ==> f(xs[k]) == Some(ys[k])
    ensures CollectAll(xs, f) == Some(ys)
  {
    assert forall i :: 0 <= i < |xs| ==> f(xs[i]).Some?;
    CollectAllMeaning(xs, f);
    var r := CollectAll(xs, f).value;
    assert forall i :: 0 <= i < |xs| ==> Some(r[i]) == Some(ys[i]);
    assert r == ys;
  }

  /** Collecting one more element. */
  lemma {:induction false} CollectAllSnoc<T, U>(xs: seq<T>, f: T -> Option<U>, x: T)
    ensures CollectAll(xs + [x], f) ==
      if CollectAll(xs, f).Some? && f(x).Some? then Some(CollectAll(xs, f).value + [f(x).value]) else None
  {
    if xs == [] {
      assert xs + [x] == [x];
      assert CollectAll([x][1..], f) == Some([]);
      if f(x).Some? {
        assert CollectAll(xs, f).value + [f(x).value] == [f(x).value] + [];
      }
    } else {
      assert (xs + [x])[1..] == xs[1..] + [x];
      CollectAllSnoc(xs[1..], f, x);
      if CollectAll(xs, f).Some? && f(x).Some? {
        assert [f(xs[0]).value] + (CollectAll(xs[1..], f).value + [f(x).value])
          == [f(xs[0]).value] + CollectAll(xs[1..], f).value + [f(x).value];
      }
    }
  }

  /** `str::split_once`: the text before the first `sep` and the text after
      it, or `None` when `sep` does not occur. */
  function SplitOnce(s: string, sep: char): Option<(string, string)> {
    if s == [] then None
    else if s[0] == sep then Some(([], s[1..]))
    else
      match SplitOnce(s[1..], sep)
      case None => None
      case Some(parts) => Some(([s[0]] + parts.0, parts.1))
  }

  /** `split_once` fails exactly when `sep` is missing; otherwise the text
      is the first part, `sep` and the second part, and the first part has
      no `sep`. */
  lemma {:induction false} SplitOnceMeaning(s: string, sep: char)
    ensures SplitOnce(s, sep).None? <==> sep !in s
    ensures SplitOnce(s, sep).Some? ==>
      var (a, b) := SplitOnce(s, sep).value;
      sep !in a && s == a + [sep] + b
  {
    if s != [] && s[0] != sep {
      SplitOnceMeaning(s[1..], sep);
      assert s == [s[0]] + s[1..];
    }
  }

  /** Splitting text made of a part without `sep`, `sep` and the rest gives
      back the two parts. */
  lemma {:induction false} SplitAtFirst(a: string, b: string, sep: char)
    requires sep !in a
    ensures SplitOnce(a + [sep] + b, sep) == Some((a, b))
  {
    if a != [] {
      assert (a + [sep] + b)[1..] == a[1..] + [sep] + b;
      SplitAtFirst(a[1..], b, sep);
      assert [a[0]] + a[1..] == a;
    } else {
      assert a + [sep] + b == [sep] + b;
    }
  }

  /** `u8::is_ascii_whitespace`: space, tab, line feed, form feed, carriage return. */
  predicate IsAsciiSpace(c: char) {
    c == ' ' || c == '\t' || c == '\n' || c == '\U{000C}' || c == '\r'
  }

  predicate NoSpace(s: string) {
    forall i :: 0 <= i < |s| ==> !IsAsciiSpace(s[i])
  }

  /** Number of leading characters of `s` before the first whitespace. */
  function WordLength(s: string): (n: nat)
    ensures n <= |s| && NoSpace(s[..n])
    ensures n < |s| ==> IsAsciiSpace(s[n])
  {
    if s == [] || IsAsciiSpace(s[0]) then 0 else 1 + WordLength(s[1..])
  }

  /** `str::split_ascii_whitespace`: the maximal runs of non-whitespace
      characters, in order. */
  function Words(s: string): (ws: seq<string>)
    ensures forall i :: 0 <= i < |ws| ==> ws[i] != [] && NoSpace(ws[i])
    decreases |s|
  {
    if s == [] then []
    else if IsAsciiSpace(s[0]) then Words(s[1..])
    else
      var n := WordLength(s);
      [s[..n]] + Words(s[n..])
  }

  /** `s` with every whitespace character deleted. */
  function RemoveSpaces(s: string): (r: string)
  {
    if s == [] then [] else (if IsAsciiSpace(s[0]) then [] else [s[0]]) + RemoveSpaces(s[1..])
  }

  function Flatten(ws: seq<string>): string {
    if ws == [] then [] else ws[0] + Flatten(ws[1..])
  }

  lemma {:induction false} RemoveSpacesAppend(a: string, b: string)
    ensures RemoveSpaces(a + b) == RemoveSpaces(a) + RemoveSpaces(b)
  {
    if a != [] {
      assert (a + b)[1..] == a[1..] + b;
      RemoveSpacesAppend(a[1..], b);
    } else {
      assert a + b == b;
    }
  }

  lemma {:induction false} RemoveSpacesOfWord(s: string)
    requires NoSpace(s)
    ensures RemoveSpaces(s) == s
  {
    if s != [] {
      RemoveSpacesOfWord(s[1..]);
    }
  }

  /** Joining the words of `s` gives back `s` without its whitespace, so
      splitting loses nothing but the separators. */
  lemma {:induction false} WordsJoin(s: string)
    ensures Flatten(Words(s)) == RemoveSpaces(s)
    decreases |s|
  {
    if s == [] {
    } else if IsAsciiSpace(s[0]) {
      WordsJoin(s[1..]);
    } else {
      var n := WordLength(s);
      WordsJoin(s[n..]);
      assert s == s[..n] + s[n..];
      RemoveSpacesAppend(s[..n], s[n..]);
      RemoveSpacesOfWord(s[..n]);
      assert Words(s) == [s[..n]] + Words(s[n..]);
      assert Words(s)[1..] == Words(s[n..]);
    }
  }

  lemma NumeralHasNoSpace(n: nat)
    ensures NoSpace(DecimalString(n))
  {
  }

  lemma {:induction false} WordLengthOfWord(a: string, rest: string)
    requires NoSpace(a)
    requires rest == [] || IsAsciiSpace(rest[0])
    ensures WordLength(a + rest) == |a|
  {
    if a != [] {
      assert (a + rest)[1..] == a[1..] + rest;
      WordLengthOfWord(a[1..], rest);
    } else {
      assert a + rest == rest;
    }
  }

  lemma WordsOfSingleWord(a: string)
    requires a != [] && NoSpace(a)
    ensures Words(a) == [a]
  {
    WordLengthOfWord(a, []);
    assert a + [] == a;
    assert a[|a|..] == [];
  }

  lemma WordsSpaceSeparated(a: string, rest: string)
    requires a != [] && NoSpace(a)
    ensures Words(a + " " + rest) == [a] + Words(rest)
  {
    var s := a + " " + rest;
    WordLengthOfWord(a, " " + rest);
    assert s == a + (" " + rest);
    assert s[..|a|] == a;
    assert s[|a|..] == " " + rest;
    assert (" " + rest)[1..] == rest;
  }

  /** Every word parsed as an unsigned number no larger than `bound`
      (`.map(|s| s.parse().unwrap())` over the words, failing as a whole). */
  function ParseNumbers(ws: seq<string>, bound: nat): (r: Option<seq<nat>>)
    ensures r.Some? ==> |r.value| == |ws|
    ensures r.Some? ==> forall i :: 0 <= i < |ws| ==> ParseUnsigned(ws[i], bound) == Some(r.value[i])
  {
    if ws == [] then Some([])
    else match (ParseUnsigned(ws[0], bound), ParseNumbers(ws[1..], bound))
      case (Some(n), Some(rest)) => Some([n] + rest)
      case (None, _) => None
      case (_, None) => None
  }

  /** Words written out with one space after each. */
  function Unwords(ws: seq<string>): string {
    if ws == [] then [] else ws[0] + " " + Unwords(ws[1..])
  }

  /** Splitting words written out with spaces gives them back. */
  lemma {:induction false} WordsOfUnwords(ws: seq<string>)
    requires forall i :: 0 <= i < |ws| ==> ws[i] != [] && NoSpace(ws[i])
    ensures Words(Unwords(ws)) == ws
  {
    if ws != [] {
      WordsOfUnwords(ws[1..]);
      WordsSpaceSeparated(ws[0], Unwords(ws[1..]));
    }
  }

  /** Numbers written out in decimal, one space after each. */
  function NumbersText(ns: seq<nat>): (s: string)
  {
    Unwords(Numerals(ns))
  }

  function Numerals(ns: seq<nat>): (ws: seq<string>)
    ensures |ws| == |ns|
    ensures forall i :: 0 <= i < |ns| ==> ws[i] == DecimalString(ns[i])
  {
    seq(|ns|, i requires 0 <= i < |ns| => DecimalString(ns[i]))
  }

  /** Parsing the words of a printed list of numbers gives the list back. */
  lemma NumbersTextRoundTrip(ns: seq<nat>, bound: nat)
    requires forall i :: 0 <= i < |ns| ==> ns[i] <= bound
    ensures ParseNumbers(Words(NumbersText(ns)), bound) == Some(ns)
  {
    var ws := Numerals(ns);
    forall i | 0 <= i < |ws| ensures ws[i] != [] && NoSpace(ws[i]) {
      NumeralHasNoSpace(ns[i]);
    }
    WordsOfUnwords(ws);
    ParseNumbersOf(ws, ns, bound);
  }

  lemma {:induction false} ParseNumbersOf(ws: seq<string>, ns: seq<nat>, bound: nat)
    requires |ws| == |ns|
    requires forall i :: 0 <= i < |ns| ==> ns[i] <= bound && ws[i] == DecimalString(ns[i])
    ensures ParseNumbers(ws, bound) == Some(ns)
  {
    if ws != [] {
      ParseUnsignedRoundTrip(ns[0], bound);
      ParseNumbersOf(ws[1..], ns[1..], bound);
      assert ns == [ns[0]] + ns[1..];
    }
  }

  /** Printed numbers consist of digits and spaces only. */
  lemma {:induction false} NumbersTextChars(ns: seq<nat>)
    ensures forall i :: 0 <= i < |NumbersText(ns)| ==> IsDigit(NumbersText(ns)[i]) || NumbersText(ns)[i] == ' '
  {
    if ns != [] {
      NumbersTextChars(ns[1..]);
      var w, t := DecimalString(ns[0]), NumbersText(ns[1..]);
      assert Numerals(ns)[1..] == Numerals(ns[1..]);
      assert NumbersText(ns) == w + " " + t;
      forall i | 0 <= i < |NumbersText(ns)| ensures IsDigit(NumbersText(ns)[i]) || NumbersText(ns)[i] == ' ' {
        if i > |w| {
          assert NumbersText(ns)[i] == t[i - |w| - 1];
        }
      }
    }
  }

  /** Rust's `char::is_whitespace`: the Unicode White_Space property. */
  predicate IsWhiteSpace(c: char) {
    || ('\t' <= c <= '\r') || c == ' ' || c == '\U{0085}' || c == '\U{00A0}' || c == '\U{1680}'
    || ('\U{2000}' <= c <= '\U{200A}') || c == '\U{2028}' || c == '\U{2029}' || c == '\U{202F}'
    || c == '\U{205F}' || c == '\U{3000}'
  }

  /** `str::trim_start`: the text without its leading white space. */
  function TrimStart(s: string): (r: string)
    ensures r == [] || !IsWhiteSpace(r[0])
    ensures exists k :: 0 <= k <= |s| && r == s[k..] && forall i :: 0 <= i < k ==> IsWhiteSpace(s[i])
  {
    if s != [] && IsWhiteSpace(s[0]) then
      var r := TrimStart(s[1..]);
      var k :| 0 <= k <= |s[1..]| && r == s[1..][k..] && forall i :: 0 <= i < k ==> IsWhiteSpace(s[1..][i]);
      assert r == s[k + 1..];
      r
    else
      assert s == s[0..];
      s
  }

  /** `str::trim_end`: the text without its trailing white space. */
  function TrimEnd(s: string): (r: string)
    ensures r == [] || !IsWhiteSpace(r[|r| - 1])
    ensures exists k :: 0 <= k <= |s| && r == s[..k] && forall i :: k <= i < |s| ==> IsWhiteSpace(s[i])
  {
    if s != [] && IsWhiteSpace(s[|s| - 1]) then
      var init := s[..|s| - 1];
      var r := TrimEnd(init);
      var k :| 0 <= k <= |init| && r == init[..k] && forall i :: k <= i < |init| ==> IsWhiteSpace(init[i]);
      assert r == s[..k];
      r
    else
      assert s == s[..|s|];
      s
  }

  /** `str::trim`: leading and trailing white space removed. */
  function Trim(s: string): string {
    TrimEnd(TrimStart(s))
  }

  /** White space that `split_ascii_whitespace` also splits on. */
  predicate AsciiWhiteSpaceOnly(s: string) {
    forall i :: 0 <= i < |s| ==> IsWhiteSpace(s[i]) ==> IsAsciiSpace(s[i])
  }

  lemma {:induction false} WordsOfSpaces(s: string)
    requires forall i :: 0 <= i < |s| ==> IsAsciiSpace(s[i])
    ensures Words(s) == []
  {
    if s != [] {
      WordsOfSpaces(s[1..]);
    }
  }

  /** Leading spaces do not change the words. */
  lemma {:induction false} WordsDropLeading(s: string, k: nat)
    requires k <= |s| && forall i :: 0 <= i < k ==> IsAsciiSpace(s[i])
    ensures Words(s[k..]) == Words(s)
  {
    if k > 0 {
      WordsDropLeading(s[1..], k - 1);
      assert s[1..][k - 1..] == s[k..];
    }
  }

  lemma {:induction false} WordLengthAppend(a: string, b: string)
    requires WordLength(a) < |a| || b == [] || IsAsciiSpace(b[0])
    ensures WordLength(a + b) == WordLength(a)
  {
    if a == [] {
      assert a + b == b;
    } else if !IsAsciiSpace(a[0]) {
      assert (a + b)[1..] == a[1..] + b;
      WordLengthAppend(a[1..], b);
    }
  }

  /** Trailing spaces do not change the words. */
  lemma {:induction false} WordsDropTrailing(a: string, sp: string)
    requires forall i :: 0 <= i < |sp| ==> IsAsciiSpace(sp[i])
    ensures Words(a + sp) == Words(a)
    decreases |a|
  {
    if a == [] {
      assert a + sp == sp;
      WordsOfSpaces(sp);
    } else if IsAsciiSpace(a[0]) {
      assert (a + sp)[1..] == a[1..] + sp;
      WordsDropTrailing(a[1..], sp);
    } else {
      var n := WordLength(a);
      WordLengthAppend(a, sp);
      assert (a + sp)[..n] == a[..n];
      assert (a + sp)[n..] == a[n..] + sp;
      WordsDropTrailing(a[n..], sp);
    }
  }

  lemma TrimStartWords(s: string)
    requires AsciiWhiteSpaceOnly(s)
    ensures Words(TrimStart(s)) == Words(s)
  {
    var k :| 0 <= k <= |s| && TrimStart(s) == s[k..] && forall i :: 0 <= i < k ==> IsWhiteSpace(s[i]);
    WordsDropLeading(s, k);
  }

  lemma TrimEndWords(s: string)
    requires AsciiWhiteSpaceOnly(s)
    ensures Words(TrimEnd(s)) == Words(s)
  {
    var k :| 0 <= k <= |s| && TrimEnd(s) == s[..k] && forall i :: k <= i < |s| ==> IsWhiteSpace(s[i]);
    assert s == s[..k] + s[k..];
    WordsDropTrailing(s[..k], s[k..]);
  }

  /** Trimming before splitting changes nothing when all the white space
      trimmed is ASCII white space. */
  lemma TrimmedWords(s: string)
    requires AsciiWhiteSpaceOnly(s)
    ensures Words(Trim(s)) == Words(s)
  {
    TrimStartWords(s);
    var t := TrimStart(s);
    assert AsciiWhiteSpaceOnly(t);
    TrimEndWords(t);
  }

  lemma {:induction false} FlattenAppend(ws: seq<string>, w: string)
    ensures Flatten(ws + [w]) == Flatten(ws) + w
  {
    if ws != [] {
      assert (ws + [w])[1..] == ws[1..] + [w];
      FlattenAppend(ws[1..], w);
    } else {
      assert ws + [w] == [w];
    }
  }

  /** The pattern `sep` occurs in `s` starting at position `i`. */
  predicate OccursAt(s: string, sep: string, i: nat) {
    i + |sep| <= |s| && s[i..i + |sep|] == sep
  }

  /** The first position at or after `i` where `sep` occurs. */
  function FindFrom(s: string, sep: string, i: nat): (r: Option<nat>)
    requires sep != []
    ensures r.Some? ==> i <= r.value && OccursAt(s, sep, r.value)
    ensures r.Some? ==> forall j :: i <= j < r.value ==> !OccursAt(s, sep, j)
    ensures r.None? ==> forall j :: i <= j ==> !OccursAt(s, sep, j)
    decreases |s| - i
  {
    if i + |sep| > |s| then None
    else if OccursAt(s, sep, i) then Some(i)
    else FindFrom(s, sep, i + 1)
  }

  /** `str::split_once` with a string pattern: the text before the first
      occurrence of `sep` and the text after it. */
  function SplitOnceOn(s: string, sep: string): (r: Option<(string, string)>)
    requires sep != []
    ensures r.Some? ==> s == r.value.0 + sep + r.value.1
    ensures r.None? <==> forall j :: 0 <= j ==> !OccursAt(s, sep, j)
  {
    match FindFrom(s, sep, 0)
    case None => None
    case Some(k) =>
      assert s == s[..k] + s[k..k + |sep|] + s[k + |sep|..];
      Some((s[..k], s[k + |sep|..]))
  }

  /** When the text before an occurrence of `sep` does not contain the
      first character of `sep`, that occurrence is the first. */
  lemma SplitOnceOnAt(a: string, sep: string, b: string)
    requires sep != [] && sep[0] !in a
    ensures SplitOnceOn(a + sep + b, sep) == Some((a, b))
  {
    var s := a + sep + b;
    assert OccursAt(s, sep, |a|);
    forall j | 0 <= j < |a| ensures !OccursAt(s, sep, j) {
      assert s[j] == a[j] != sep[0];
      if j + |sep| <= |s| {
        assert s[j..j + |sep|][0] == s[j];
      }
    }
    assert s[..|a|] == a;
    assert s[|a| + |sep|..] == b;
  }

  /** No occurrence of `sep` in a text without its first character. */
  lemma NoOccurrence(s: string, sep: string)
    requires sep != [] && sep[0] !in s
    ensures SplitOnceOn(s, sep).None?
  {
    forall j | 0 <= j ensures !OccursAt(s, sep, j) {
      if j + |sep| <= |s| {
        assert s[j] != sep[0];
        assert s[j..j + |sep|][0] == s[j];
      }
    }
  }

  /** `str::split` with a string pattern: the pieces between the
      occurrences of `sep`, from left to right; there is always at least
      one piece. */
  function Split(s: string, sep: string): (parts: seq<string>)
    requires sep != []
    ensures |parts| >= 1
    decreases |s|
  {
    match SplitOnceOn(s, sep)
    case None => [s]
    case Some((a, b)) => [a] + Split(b, sep)
  }

  /** The pieces put back together with `sep` between them. */
  function Join(parts: seq<string>, sep: string): string
    requires |parts| >= 1
  {
    if |parts| == 1 then parts[0] else parts[0] + sep + Join(parts[1..], sep)
  }

  /** Splitting loses nothing but the separators. */
  lemma {:induction false} JoinSplit(s: string, sep: string)
    requires sep != []
    ensures Join(Split(s, sep), sep) == s
    decreases |s|
  {
    match SplitOnceOn(s, sep)
    case None =>
    case Some((a, b)) =>
      JoinSplit(b, sep);
      assert Split(s, sep)[1..] == Split(b, sep);
  }

  /** Joining pieces that do not contain the first character of `sep` and
      splitting again gives the pieces back. */
  lemma {:induction false} SplitJoin(parts: seq<string>, sep: string)
    requires |parts| >= 1 && sep != []
    requires forall i :: 0 <= i < |parts| ==> sep[0] !in parts[i]
    ensures Split(Join(parts, sep), sep) == parts
  {
    if |parts| == 1 {
      NoOccurrence(parts[0], sep);
    } else {
      SplitJoin(parts[1..], sep);
      SplitOnceOnAt(parts[0], sep, Join(parts[1..], sep));
    }
  }

  /** A character that is in neither the pieces nor the separator is not
      in their join. */
  lemma {:induction false} JoinAvoids(parts: seq<string>, sep: string, c: char)
    requires |parts| >= 1 && c !in sep
    requires forall i :: 0 <= i < |parts| ==> c !in parts[i]
    ensures c !in Join(parts, sep)
  {
    if |parts| > 1 {
      JoinAvoids(parts[1..], sep, c);
    }
  }

  /** `str::strip_prefix`. */
  function StripPrefix(s: string, prefix: string): (r: Option<string>)
    ensures r.Some? <==> prefix <= s
    ensures r.Some? ==> s == prefix + r.value
  {
    if prefix <= s then Some(s[|prefix|..]) else None
  }

  lemma StripPrefixOf(prefix: string, rest: string)
    ensures StripPrefix(prefix + rest, prefix) == Some(rest)
  {
    assert (prefix + rest)[..|prefix|] == prefix;
  }

  /** Leading white space is dropped up to the first digit. */
  lemma TrimSpaceBeforeDigits(d: string)
    requires d != [] && AllDigits(d)
    ensures TrimStart(" " + d) == d
  {
    assert (" " + d)[1..] == d;
  }
}
