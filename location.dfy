/**
 * `extractLocation` of the root chat widget: the first match of the regular expression
 *
 *     \b(in|near|around|from|to) ([A-Z][a-z]+(?:,?\s?[A-Z]{2})?)\b
 *
 * (no flags, so case-sensitive and not global) and its second capture group.
 *
 * A match is described declaratively by a `Shape`: which preposition alternative, how many
 * letters `[a-z]+` took, and which form the optional `,?\s?[A-Z]{2}` group took. `ShapeMatches`
 * says when a shape is a match at a start position, `Precedes` is the order in which the
 * backtracking engine tries shapes, and the matcher below is proved to return, at the leftmost
 * start position that has a match, the first matching shape in that order.
 */
module Location {
  import opened Wrappers
  import opened JsText

  /** The alternatives of the first capture group, in the order the expression lists them. */
  const Prepositions: seq<string> := ["in", "near", "around", "from", "to"]

  /** What the optional group `(?:,?\s?[A-Z]{2})?` matched: nothing, or two capitals preceded by
      an optional comma and an optional whitespace character. */
  datatype Suffix = Code(comma: bool, space: bool) | NoCode

  datatype Shape = Shape(prep: nat, lower: nat, suffix: Suffix)

  /** A match: where it starts and how the pattern was matched there. */
  datatype Match = Match(start: nat, shape: Shape)

  /** The position of a suffix in the order the engine tries it: the group before its absence,
      and inside the group `,?` and `\s?` each greedily present before absent. */
  function SuffixIndex(x: Suffix): (j: nat)
    ensures j < 5
  {
    match x
    case Code(true, true) => 0
    case Code(true, false) => 1
    case Code(false, true) => 2
    case Code(false, false) => 3
    case NoCode => 4
  }

  /** The suffix tried in place `j`. */
  function SuffixAt(j: nat): (x: Suffix)
    requires j < 5
    ensures SuffixIndex(x) == j
  {
    if j == 0 then Code(true, true)
    else if j == 1 then Code(true, false)
    else if j == 2 then Code(false, true)
    else if j == 3 then Code(false, false)
    else NoCode
  }

  /** Different suffixes have different places in the order. */
  lemma SuffixIndexInjective(a: Suffix, b: Suffix)
    requires SuffixIndex(a) == SuffixIndex(b)
    ensures a == b
  {
  }

  function SuffixLength(x: Suffix): nat {
    match x
    case NoCode => 0
    case Code(c, w) => (if c then 1 else 0) + (if w then 1 else 0) + 2
  }

  /** `\b` at position `e` of `s`: exactly one of the characters around `e` is a word character. */
  predicate WordBoundary(s: string, e: nat) {
    (0 < e <= |s| && IsWordChar(s[e - 1])) != (e < |s| && IsWordChar(s[e]))
  }

  /** Alternative `p` of the first group, then a space, starting at `i`. */
  predicate PrepositionAt(s: string, i: nat, p: nat)
    requires p < |Prepositions|
  {
    var w := Prepositions[p];
    i + |w| + 1 <= |s| && s[i..i + |w|] == w && s[i + |w|] == ' '
  }

  /** Where the second capture group begins when alternative `p` matched at `i`. */
  function NameStart(i: nat, p: nat): nat
    requires p < |Prepositions|
  {
    i + |Prepositions[p]| + 1
  }

  /** Every character of `s[from..to]` is `[a-z]`. */
  predicate AllLower(s: string, from: nat, to: nat)
    requires from <= to <= |s|
  {
    forall j :: from <= j < to ==> IsLower(s[j])
  }

  /** The characters of suffix `x`, read from position `q`. */
  predicate SuffixChars(s: string, q: nat, x: Suffix)
    requires q + SuffixLength(x) <= |s|
  {
    match x
    case NoCode => true
    case Code(c, w) =>
      var u := q + (if c then 1 else 0);
      var v := u + (if w then 1 else 0);
      (c ==> s[q] == ',') && (w ==> IsWhitespace(s[u])) && IsUpper(s[v]) && IsUpper(s[v + 1])
  }

  /** Suffix `x` matches at `q` and the final `\b` holds after it. */
  predicate SuffixFits(s: string, q: nat, x: Suffix) {
    q + SuffixLength(x) <= |s| && SuffixChars(s, q, x) && WordBoundary(s, q + SuffixLength(x))
  }

  /** `[A-Z]` at `n`, then `k` letters of `[a-z]+`, then suffix `x` and the final `\b`. */
  predicate NameFits(s: string, n: nat, k: nat, x: Suffix) {
    1 <= k && n + 1 + k <= |s| && IsUpper(s[n]) && AllLower(s, n + 1, n + 1 + k)
    && SuffixFits(s, n + 1 + k, x)
  }

  /** The whole pattern matches at `i` in the way `sh` describes. */
  predicate ShapeMatches(s: string, i: nat, sh: Shape) {
    sh.prep < |Prepositions| && WordBoundary(s, i) && PrepositionAt(s, i, sh.prep)
    && NameFits(s, NameStart(i, sh.prep), sh.lower, sh.suffix)
  }

  /** `a` is tried before `b` by the backtracking engine at one start position: alternatives from
      left to right, more letters for the greedy `[a-z]+` first, then the suffix order. */
  predicate Precedes(a: Shape, b: Shape) {
    a.prep < b.prep
    || (a.prep == b.prep && (a.lower > b.lower
        || (a.lower == b.lower && SuffixIndex(a.suffix) < SuffixIndex(b.suffix))))
  }

  /** The number of `[a-z]` characters from `from` on: what the greedy `[a-z]+` takes first. */
  function LowerRun(s: string, from: nat): (k: nat)
    requires from <= |s|
    ensures from + k <= |s| && AllLower(s, from, from + k)
    ensures from + k == |s| || !IsLower(s[from + k])
    decreases |s| - from
  {
    if from < |s| && IsLower(s[from]) then 1 + LowerRun(s, from + 1) else 0
  }

  /** The first suffix, from place `j` of the engine's order on, that fits at `q`. */
  function FirstSuffix(s: string, q: nat, j: nat): (r: Option<Suffix>)
    requires j <= 5
    ensures r.Some? ==> SuffixFits(s, q, r.value) && j <= SuffixIndex(r.value)
    ensures r.Some? ==> forall x :: SuffixFits(s, q, x) && j <= SuffixIndex(x) ==>
                          SuffixIndex(r.value) <= SuffixIndex(x)
    ensures r.None? ==> forall x :: SuffixFits(s, q, x) ==> SuffixIndex(x) < j
    decreases 5 - j
  {
    if j == 5 then None
    else if SuffixFits(s, q, SuffixAt(j)) then Some(SuffixAt(j))
    else FirstSuffix(s, q, j + 1)
  }

  /** Backtracking through `[a-z]+` after the capital at `n`: `k` letters, then `k - 1`, ..., then 1.
      The result is the number of letters kept and the suffix that fits after them. */
  function TryLower(s: string, n: nat, k: nat): (r: Option<(nat, Suffix)>)
    ensures r.Some? ==> 1 <= r.value.0 <= k && SuffixFits(s, n + 1 + r.value.0, r.value.1)
    ensures r.Some? ==> forall q: nat, x :: n + 1 + r.value.0 < q <= n + 1 + k ==> !SuffixFits(s, q, x)
    ensures r.Some? ==> forall x :: SuffixFits(s, n + 1 + r.value.0, x) ==>
                          SuffixIndex(r.value.1) <= SuffixIndex(x)
    ensures r.None? ==> forall q: nat, x :: n + 2 <= q <= n + 1 + k ==> !SuffixFits(s, q, x)
    decreases k
  {
    if k == 0 then None
    else
      match FirstSuffix(s, n + 1 + k, 0)
      case Some(x) => Some((k, x))
      case None => TryLower(s, n, k - 1)
  }

  /** `[A-Z][a-z]+(?:,?\s?[A-Z]{2})?\b` from `n`: the first way it matches, in the engine's order. */
  function TryName(s: string, n: nat): (r: Option<(nat, Suffix)>)
    ensures r.Some? ==> NameFits(s, n, r.value.0, r.value.1)
    ensures r.Some? ==> forall k: nat, x :: NameFits(s, n, k, x) ==>
                          k < r.value.0 || (k == r.value.0 && SuffixIndex(r.value.1) <= SuffixIndex(x))
    ensures r.None? ==> forall k: nat, x :: !NameFits(s, n, k, x)
  {
    if n < |s| && IsUpper(s[n]) then
      var run := LowerRun(s, n + 1);
      var r := TryLower(s, n, run);
      r
    else
      None
  }

  /** The whole pattern at start position `i`, trying alternatives `p`, `p + 1`, ... in turn. */
  function TryPrepositions(s: string, i: nat, p: nat): (r: Option<Shape>)
    requires p <= |Prepositions|
    ensures r.Some? ==> ShapeMatches(s, i, r.value) && p <= r.value.prep
    ensures r.Some? ==> forall sh :: ShapeMatches(s, i, sh) && p <= sh.prep ==> !Precedes(sh, r.value)
    ensures r.None? ==> forall sh :: ShapeMatches(s, i, sh) ==> sh.prep < p
    decreases |Prepositions| - p
  {
    if p == |Prepositions| then None
    else if WordBoundary(s, i) && PrepositionAt(s, i, p) then
      match TryName(s, NameStart(i, p))
      case Some((k, x)) => Some(Shape(p, k, x))
      case None => TryPrepositions(s, i, p + 1)
    else
      TryPrepositions(s, i, p + 1)
  }

  /** The pattern has no match starting at `i`. */
  ghost predicate NoMatchAt(s: string, i: nat) {
    forall sh :: !ShapeMatches(s, i, sh)
  }

  /** The first match at start position `i`, if the pattern matches there at all. */
  function MatchAt(s: string, i: nat): (r: Option<Shape>)
    ensures r.Some? ==> ShapeMatches(s, i, r.value)
    ensures r.Some? ==> forall sh :: ShapeMatches(s, i, sh) ==> !Precedes(sh, r.value)
    ensures r.None? <==> NoMatchAt(s, i)
  {
    TryPrepositions(s, i, 0)
  }

  /** The engine's scan of start positions `i`, `i + 1`, ..., `|s|`. */
  function FirstMatchFrom(s: string, i: nat): (r: Option<Match>)
    ensures r.Some? ==> i <= r.value.start && ShapeMatches(s, r.value.start, r.value.shape)
    ensures r.Some? ==> forall j: nat :: i <= j < r.value.start ==> NoMatchAt(s, j)
    ensures r.Some? ==> forall sh :: ShapeMatches(s, r.value.start, sh) ==> !Precedes(sh, r.value.shape)
    ensures r.None? <==> forall j: nat :: i <= j ==> NoMatchAt(s, j)
    decreases |s| + 1 - i
  {
    if i > |s| then
      NoMatchPastEnd(s, i);
      None
    else
      match MatchAt(s, i)
      case Some(sh) => Some(Match(i, sh))
      case None => FirstMatchFrom(s, i + 1)
  }

  /** A match needs at least the preposition, a space and three letters of input after its start. */
  lemma NoMatchPastEnd(s: string, i: nat)
    requires i > |s|
    ensures forall j: nat :: i <= j ==> NoMatchAt(s, j)
  {
  }

  /** `text.match(locationRegex)` for this non-global expression: the leftmost match. */
  function FirstMatch(text: string): Option<Match> {
    FirstMatchFrom(text, 0)
  }

  /** Where a match ends. */
  function End(m: Match): nat
    requires m.shape.prep < |Prepositions|
  {
    NameStart(m.start, m.shape.prep) + 1 + m.shape.lower + SuffixLength(m.shape.suffix)
  }

  /** `match[2]`, the second capture group of a match. */
  function Group(s: string, m: Match): string
    requires ShapeMatches(s, m.start, m.shape)
  {
    s[NameStart(m.start, m.shape.prep)..End(m)]
  }

  /** `extractLocation(text)`: the second group of the leftmost match, or `null` when the
      expression matches nowhere in `text`. */
  function ExtractLocation(text: string): (r: Option<string>)
    ensures r.None? <==> forall i: nat :: NoMatchAt(text, i)
  {
    match FirstMatch(text)
    case None => None
    case Some(m) => Some(Group(text, m))
  }

  /** The two capitals of a state code with an optional comma and whitespace before them,
      `,?\s?[A-Z]{2}`. */
  predicate IsStateCode(t: string) {
    (|t| == 2 && IsUpper(t[0]) && IsUpper(t[1]))
    || (|t| == 3 && (t[0] == ',' || IsWhitespace(t[0])) && IsUpper(t[1]) && IsUpper(t[2]))
    || (|t| == 4 && t[0] == ',' && IsWhitespace(t[1]) && IsUpper(t[2]) && IsUpper(t[3]))
  }

  /** A capital, at least one lower-case letter, and a state code of `m` characters. */
  predicate WithStateCode(loc: string, m: nat) {
    |loc| >= m + 2 && IsUpper(loc[0]) && AllLower(loc, 1, |loc| - m) && IsStateCode(loc[|loc| - m..])
  }

  /** Two shapes that match at one position are equal or one comes first: the engine's order
      is total, so the first match at a position is unique. */
  lemma PrecedesTotal(a: Shape, b: Shape)
    ensures a == b || Precedes(a, b) || Precedes(b, a)
  {
    if a.prep == b.prep && a.lower == b.lower && SuffixIndex(a.suffix) == SuffixIndex(b.suffix) {
      SuffixIndexInjective(a.suffix, b.suffix);
    }
  }

  /** The result is determined by the declarative description alone: a match that starts at the
      leftmost position with any match and is tried first there yields `extractLocation`'s value. */
  lemma ExtractLocationIsFirstGroup(s: string, m: Match)
    requires ShapeMatches(s, m.start, m.shape)
    requires forall j: nat :: j < m.start ==> NoMatchAt(s, j)
    requires forall sh :: ShapeMatches(s, m.start, sh) ==> !Precedes(sh, m.shape)
    ensures FirstMatch(s) == Some(m)
    ensures ExtractLocation(s) == Some(Group(s, m))
  {
    assert !NoMatchAt(s, m.start);
    var r := FirstMatch(s).value;
    assert !NoMatchAt(s, r.start);
    assert r.start == m.start;
    PrecedesTotal(r.shape, m.shape);
  }

  /** The language of the second group, `[A-Z][a-z]+(?:,?\s?[A-Z]{2})?`. */
  predicate IsPlaceName(loc: string) {
    (|loc| >= 2 && IsUpper(loc[0]) && AllLower(loc, 1, |loc|))
    || WithStateCode(loc, 2) || WithStateCode(loc, 3) || WithStateCode(loc, 4)
  }

  /** Preposition `p` and one space end just before `g`, and the preposition begins at a word
      boundary: at the start of the input or after a non-word character. */
  predicate PrepositionBefore(s: string, g: nat, p: nat)
    requires p < |Prepositions|
  {
    var w := Prepositions[p];
    |w| + 1 <= g <= |s| && s[g - 1 - |w|..g - 1] == w && s[g - 1] == ' '
    && (g - 1 - |w| == 0 || !IsWordChar(s[g - 2 - |w|]))
  }

  /** `loc` occurs in `s` at `g`, right after a preposition and a space, and is followed by the
      end of the input or a non-word character. */
  predicate FoundAt(s: string, g: nat, loc: string) {
    g + |loc| <= |s| && s[g..g + |loc|] == loc
    && (exists p :: 0 <= p < |Prepositions| && PrepositionBefore(s, g, p))
    && (g + |loc| == |s| || !IsWordChar(s[g + |loc|]))
  }

  /** The second group of a match is a place name. */
  lemma GroupIsPlaceName(s: string, m: Match)
    requires ShapeMatches(s, m.start, m.shape)
    ensures IsPlaceName(Group(s, m))
  {
    var loc := Group(s, m);
    var n := NameStart(m.start, m.shape.prep);
    var q := n + 1 + m.shape.lower;
    assert forall j :: 1 <= j < 1 + m.shape.lower ==> loc[j] == s[n + j];
    match m.shape.suffix
    case NoCode =>
      assert AllLower(loc, 1, |loc|);
    case Code(c, w) =>
      var len := SuffixLength(m.shape.suffix);
      assert loc[|loc| - len..] == s[q..q + len];
      assert WithStateCode(loc, len);
  }

  /** A location found in `text` is a place name: a capital, lower-case letters and an optional
      state code. It is never empty, so `location ? ... : null` tests exactly for a match. */
  lemma LocationIsPlaceName(text: string)
    ensures ExtractLocation(text).Some? ==> IsPlaceName(ExtractLocation(text).value)
    ensures ExtractLocation(text).Some? ==> |ExtractLocation(text).value| >= 2
  {
    if FirstMatch(text).Some? {
      GroupIsPlaceName(text, FirstMatch(text).value);
    }
  }

  /** The second group of a match sits in the input after a preposition and a space, with word
      boundaries before the preposition and after the group. */
  lemma GroupFound(s: string, m: Match)
    requires ShapeMatches(s, m.start, m.shape)
    ensures FoundAt(s, NameStart(m.start, m.shape.prep), Group(s, m))
  {
    var p := m.shape.prep;
    var g := NameStart(m.start, p);
    var w := Prepositions[p];
    assert s[g - 1 - |w|..g - 1] == w;
    assert PrepositionBefore(s, g, p);
    var e := End(m);
    assert e > 0 && IsWordChar(s[e - 1]) by {
      match m.shape.suffix
      case NoCode =>
        assert IsLower(s[g + m.shape.lower]);
      case Code(_, _) =>
    }
  }

  /** A non-null result occurs in the input right after one of the prepositions and one space,
      the preposition starts at a word boundary, and the result ends at one. */
  lemma LocationFound(text: string)
    ensures ExtractLocation(text).Some? ==> exists g: nat :: FoundAt(text, g, ExtractLocation(text).value)
  {
    if FirstMatch(text).Some? {
      var m := FirstMatch(text).value;
      GroupFound(text, m);
    }
  }

  /** A match starts with the first letter of its preposition, at the start of the input or
      after a non-word character. */
  lemma MatchStart(s: string, i: nat, sh: Shape)
    requires ShapeMatches(s, i, sh)
    ensures i < |s| && s[i] == Prepositions[sh.prep][0]
    ensures i == 0 || !IsWordChar(s[i - 1])
  {
    var w := Prepositions[sh.prep];
    assert s[i] == s[i..i + |w|][0];
  }

  /** Text in which no preposition is followed by a space has no location. */
  lemma NoPrepositionNoLocation(text: string)
    requires forall i: nat, p: nat :: p < |Prepositions| ==> !PrepositionAt(text, i, p)
    ensures ExtractLocation(text) == None
  {
  }

  /** Matching is case-sensitive: no match starts at a capital letter, since every preposition
      is written in lower case. */
  lemma NoMatchAtCapital(s: string, i: nat)
    requires i < |s| && IsUpper(s[i])
    ensures forall sh :: !ShapeMatches(s, i, sh)
  {
  }
}
