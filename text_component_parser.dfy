/**
 * XKit's `TextComponentParser`: splits a text into plain components and components matched by
 * one of several patterns. The regular-expression engine is the environment: whether the
 * combined pattern compiles, and the matches it finds, are inputs. A match is its range in the
 * text and, for each capture group 1, 2, ..., whether that group took part in the match.
 */
module TextComponentParser {
  import opened Wrappers

  datatype TextComponent = TextComponent(pattern: Option<string>, value: string)

  datatype Match = Match(start: nat, end: nat, participated: seq<bool>)

  function Plain(value: string): TextComponent {
    TextComponent(None, value)
  }

  // ---------------------------------------------------------------- the combined pattern

  /** The alternation `(p0)|(p1)|...` the patterns are combined into. */
  function Combined(patterns: seq<string>): string {
    if patterns == [] then ""
    else
      var init := Combined(patterns[..|patterns| - 1]);
      (if init != "" then init + "|" else init) + "(" + patterns[|patterns| - 1] + ")"
  }

  /** The combined pattern is empty exactly when there are no patterns; otherwise it is wrapped in
      parentheses and holds one (group) per pattern. */
  lemma {:induction false} CombinedShape(patterns: seq<string>)
    ensures Combined(patterns) == "" <==> patterns == []
    ensures patterns != [] ==> Combined(patterns)[0] == '(' && Combined(patterns)[|Combined(patterns)| - 1] == ')'
    ensures |Combined(patterns)| == Length(patterns)
  {
    if patterns != [] {
      CombinedShape(patterns[..|patterns| - 1]);
    }
  }

  /** The length of the alternation: two parentheses per pattern and a bar between patterns. */
  function Length(patterns: seq<string>): nat {
    if patterns == [] then 0
    else Length(patterns[..|patterns| - 1]) + |patterns[|patterns| - 1]| + 2 + (if |patterns| > 1 then 1 else 0)
  }

  /** The first loop of `parse`. */
  method CombinePatterns(patterns: seq<string>) returns (combinedPattern: string)
    ensures combinedPattern == Combined(patterns)
  {
    combinedPattern := "";
    for i := 0 to |patterns|
      invariant combinedPattern == Combined(patterns[..i])
    {
      assert patterns[..i + 1][..i] == patterns[..i];
      if combinedPattern != "" {
        combinedPattern := combinedPattern + "|";
      }
      combinedPattern := combinedPattern + "(" + patterns[i] + ")";
    }
    assert patterns[..|patterns|] == patterns;
  }

  // ---------------------------------------------------------------- segmentation

  /** Whether the group of pattern `index` (group `index + 1`) took part in `m`. */
  predicate Participated(m: Match, index: nat) {
    index < |m.participated| && m.participated[index]
  }

  /** The lowest pattern index from `i` on whose group took part in `m`, or -1. */
  function FirstParticipating(patterns: seq<string>, m: Match, i: nat): (r: int)
    requires i <= |patterns|
    ensures r == -1 || i <= r < |patterns|
    ensures r >= 0 ==> Participated(m, r) && forall j :: i <= j < r ==> !Participated(m, j)
    ensures r == -1 <==> forall j :: i <= j < |patterns| ==> !Participated(m, j)
    decreases |patterns| - i
  {
    if i == |patterns| then -1
    else if Participated(m, i) then i
    else FirstParticipating(patterns, m, i + 1)
  }

  /** Every match lies within the text. */
  predicate WithinText(text: string, matches: seq<Match>) {
    forall k :: 0 <= k < |matches| ==> matches[k].start <= matches[k].end <= |text|
  }

  /** The plain text between `last` and the match, when there is any. */
  function Gap(text: string, last: nat, m: Match): seq<TextComponent>
    requires m.start <= |text|
  {
    if m.start > last then [Plain(text[last..m.start])] else []
  }

  /** The matched component, attributed to the lowest pattern whose group took part; none when
      no pattern's group did. */
  function Matched(text: string, patterns: seq<string>, m: Match): seq<TextComponent>
    requires m.start <= m.end <= |text|
  {
    var index := FirstParticipating(patterns, m, 0);
    if index < 0 then [] else [TextComponent(Some(patterns[index]), text[m.start..m.end])]
  }

  /** The remaining plain text after `last`, when there is any. */
  function Tail(text: string, last: nat): seq<TextComponent> {
    if last < |text| then [Plain(text[last..])] else []
  }

  /** The components of the matches `ms`, the previous one having ended at `last`. */
  function Emit(text: string, patterns: seq<string>, ms: seq<Match>, last: nat): seq<TextComponent>
    requires WithinText(text, ms)
  {
    if ms == [] then Tail(text, last)
    else Gap(text, last, ms[0]) + Matched(text, patterns, ms[0]) + Emit(text, patterns, ms[1..], ms[0].end)
  }

  /** What `parse` returns. */
  function ParseSpec(text: string, patterns: seq<string>, compiles: bool, matches: seq<Match>): seq<TextComponent>
    requires WithinText(text, matches)
  {
    if Combined(patterns) == "" then [Plain(text)]
    else if !compiles then [Plain(text)]
    else Emit(text, patterns, matches, 0)
  }

  /** The inner loop of `parse`: the first pattern whose group took part in the match. */
  method MatchedPattern(patterns: seq<string>, m: Match) returns (index: int)
    ensures index == FirstParticipating(patterns, m, 0)
  {
    for i := 0 to |patterns|
      invariant forall j :: 0 <= j < i ==> !Participated(m, j)
    {
      if i < |m.participated| && m.participated[i] {
        assert Participated(m, i);
        return i;
      }
    }
    return -1;
  }

  /** One match of `Emit`, unfolded after the components `before`. */
  lemma EmitStep(text: string, patterns: seq<string>, ms: seq<Match>, k: nat, last: nat, before: seq<TextComponent>)
    requires WithinText(text, ms) && k < |ms|
    ensures WithinText(text, ms[k..]) && WithinText(text, ms[k + 1..])
    ensures before + Emit(text, patterns, ms[k..], last)
         == before + Gap(text, last, ms[k]) + Matched(text, patterns, ms[k]) + Emit(text, patterns, ms[k + 1..], ms[k].end)
  {
    assert ms[k..][1..] == ms[k + 1..];
    assert ms[k..][0] == ms[k];
  }

  /** `parse(_:with:)`, given whether the combined pattern compiles and, when it does, the
      matches the expression finds in `text`. */
  method Parse(text: string, patterns: seq<string>, compiles: bool, matches: seq<Match>) returns (components: seq<TextComponent>)
    requires WithinText(text, matches)
    ensures components == ParseSpec(text, patterns, compiles, matches)
  {
    components := [];
    var combinedPattern := CombinePatterns(patterns);
    if combinedPattern == "" {
      return [Plain(text)];
    }
    if !compiles {
      return [Plain(text)];
    }

    var lastIndex: nat := 0;
    for k := 0 to |matches|
      invariant lastIndex <= |text|
      invariant components + Emit(text, patterns, matches[k..], lastIndex) == Emit(text, patterns, matches, 0)
    {
      var m := matches[k];
      EmitStep(text, patterns, matches, k, lastIndex, components);
      ghost var before := components;
      if m.start > lastIndex {
        components := components + [Plain(text[lastIndex..m.start])];
      }
      assert components == before + Gap(text, lastIndex, m);
      var index := MatchedPattern(patterns, m);
      if index >= 0 {
        components := components + [TextComponent(Some(patterns[index]), text[m.start..m.end])];
      }
      assert components == before + Gap(text, lastIndex, m) + Matched(text, patterns, m);
      lastIndex := m.end;
    }

    if lastIndex < |text| {
      components := components + [Plain(text[lastIndex..])];
    }
  }

  // ---------------------------------------------------------------- properties

  /** Without patterns, the whole text is one plain component. */
  lemma NoPatternsGivePlainText(text: string, compiles: bool, matches: seq<Match>)
    requires WithinText(text, matches)
    ensures ParseSpec(text, [], compiles, matches) == [Plain(text)]
  {
  }

  /** When the combined pattern does not compile, the whole text is one plain component. */
  lemma UncompilableGivesPlainText(text: string, patterns: seq<string>, matches: seq<Match>)
    requires WithinText(text, matches)
    ensures ParseSpec(text, patterns, false, matches) == [Plain(text)]
  {
  }

  /** Matches in text order, none starting before the previous one ended (or before `last`). */
  predicate OrderedFrom(ms: seq<Match>, last: nat) {
    && (|ms| > 0 ==> last <= ms[0].start)
    && forall k :: 1 <= k < |ms| ==> ms[k - 1].end <= ms[k].start
  }

  /** Every match is attributed to a pattern (no pattern has capture groups of its own). */
  predicate Attributed(patterns: seq<string>, ms: seq<Match>) {
    forall k :: 0 <= k < |ms| ==> FirstParticipating(patterns, ms[k], 0) >= 0
  }

  function Concat(cs: seq<TextComponent>): string {
    if cs == [] then "" else cs[0].value + Concat(cs[1..])
  }

  lemma {:induction false} ConcatAppend(a: seq<TextComponent>, b: seq<TextComponent>)
    ensures Concat(a + b) == Concat(a) + Concat(b)
  {
    if a != [] {
      assert (a + b)[1..] == a[1..] + b;
      assert (a + b)[0] == a[0];
      ConcatAppend(a[1..], b);
    } else {
      assert a + b == b;
    }
  }

  lemma ConcatSingle(cs: seq<TextComponent>)
    requires |cs| <= 1
    ensures Concat(cs) == if cs == [] then "" else cs[0].value
  {
    if cs != [] {
      assert Concat(cs[1..]) == "";
    }
  }

  /** The gap before a match and the match itself spell out the text up to the match's end. */
  lemma ConcatPieces(text: string, patterns: seq<string>, last: nat, m: Match)
    requires last <= m.start <= m.end <= |text| && FirstParticipating(patterns, m, 0) >= 0
    ensures Concat(Gap(text, last, m)) == text[last..m.start]
    ensures Concat(Matched(text, patterns, m)) == text[m.start..m.end]
  {
    ConcatSingle(Gap(text, last, m));
    ConcatSingle(Matched(text, patterns, m));
  }

  /** What holds of the matches holds of those after the first. */
  lemma RestOfMatches(text: string, patterns: seq<string>, ms: seq<Match>, last: nat)
    requires ms != [] && WithinText(text, ms) && OrderedFrom(ms, last) && Attributed(patterns, ms)
    ensures WithinText(text, ms[1..]) && OrderedFrom(ms[1..], ms[0].end) && Attributed(patterns, ms[1..])
    ensures last <= ms[0].start <= ms[0].end <= |text| && FirstParticipating(patterns, ms[0], 0) >= 0
  {
    if |ms| > 1 {
      assert ms[1..][0] == ms[1];
    }
    forall k | 1 <= k < |ms[1..]|
      ensures ms[1..][k - 1].end <= ms[1..][k].start
    {
      assert ms[1..][k] == ms[k + 1] && ms[1..][k - 1] == ms[k];
    }
  }

  lemma SliceSplit(text: string, a: nat, b: nat, c: nat)
    requires a <= b <= c <= |text|
    ensures text[a..] == text[a..b] + text[b..c] + text[c..]
  {
  }

  /** Concatenating the values gives back the text from `last` on. */
  lemma {:induction false} EmitConcat(text: string, patterns: seq<string>, ms: seq<Match>, last: nat)
    requires WithinText(text, ms) && OrderedFrom(ms, last) && Attributed(patterns, ms) && last <= |text|
    ensures Concat(Emit(text, patterns, ms, last)) == text[last..]
    decreases |ms|
  {
    if ms != [] {
      var m := ms[0];
      RestOfMatches(text, patterns, ms, last);
      EmitConcat(text, patterns, ms[1..], m.end);
      var g := Gap(text, last, m);
      var c := Matched(text, patterns, m);
      var rest := Emit(text, patterns, ms[1..], m.end);
      ConcatAppend(g + c, rest);
      ConcatAppend(g, c);
      ConcatPieces(text, patterns, last, m);
      assert Emit(text, patterns, ms, last) == g + c + rest;
      SliceSplit(text, last, m.start, m.end);
    } else {
      ConcatSingle(Tail(text, last));
    }
  }

  /** For matches the expression can produce, `parse` loses and reorders nothing: the values of
      the components, concatenated, are the text. */
  lemma ParseConcat(text: string, patterns: seq<string>, compiles: bool, matches: seq<Match>)
    requires WithinText(text, matches) && OrderedFrom(matches, 0) && Attributed(patterns, matches)
    ensures Concat(ParseSpec(text, patterns, compiles, matches)) == text
  {
    if Combined(patterns) != "" && compiles {
      EmitConcat(text, patterns, matches, 0);
    }
  }

  /** Group `index + 1` belongs to pattern `index` only while no pattern has capture groups of its
      own: with patterns "(a)b" and "c" the expression is "((a)b)|(c)", a match of "c" has only
      group 3, and no pattern is found for it. Such a match yields no component, and its text is
      missing from the result. */
  lemma UnattributedMatchIsDropped(text: string, patterns: seq<string>, m: Match)
    requires patterns != [] && m.start <= m.end <= |text| && FirstParticipating(patterns, m, 0) < 0
    ensures WithinText(text, [m])
    ensures Concat(ParseSpec(text, patterns, true, [m])) == text[..m.start] + text[m.end..]
  {
    CombinedShape(patterns);
    var g := Gap(text, 0, m);
    var t := Tail(text, m.end);
    assert [m][1..] == [];
    assert Emit(text, patterns, [m], 0) == g + t;
    ConcatAppend(g, t);
    ConcatSingle(g);
    ConcatSingle(t);
  }

  /** Plain components are never empty and never follow each other. */
  predicate WellSegmented(cs: seq<TextComponent>) {
    && (forall i :: 0 <= i < |cs| && cs[i].pattern.None? ==> cs[i].value != [])
    && (forall i :: 0 < i < |cs| && cs[i].pattern.None? ==> cs[i - 1].pattern.Some?)
  }

  /** The segmentation of matches is well segmented; the components of a match are its text,
      attributed to the lowest participating pattern. */
  lemma {:induction false} EmitWellSegmented(text: string, patterns: seq<string>, ms: seq<Match>, last: nat)
    requires WithinText(text, ms) && Attributed(patterns, ms)
    ensures WellSegmented(Emit(text, patterns, ms, last))
    decreases |ms|
  {
    if ms != [] {
      var m := ms[0];
      assert WithinText(text, ms[1..]) && Attributed(patterns, ms[1..]);
      EmitWellSegmented(text, patterns, ms[1..], m.end);
      SegmentedJoin(Gap(text, last, m), Matched(text, patterns, m), Emit(text, patterns, ms[1..], m.end));
    }
  }

  /** A non-empty plain gap (or none), then one matched component, then a well-segmented rest, is
      well segmented. */
  lemma SegmentedJoin(g: seq<TextComponent>, c: seq<TextComponent>, rest: seq<TextComponent>)
    requires |g| <= 1 && (g != [] ==> g[0].pattern.None? && g[0].value != [])
    requires |c| == 1 && c[0].pattern.Some?
    requires WellSegmented(rest)
    ensures WellSegmented(g + c + rest)
  {
    var e := g + c + rest;
    forall i | 0 <= i < |e| && e[i].pattern.None?
      ensures e[i].value != []
    {
      if i > |g| {
        assert e[i] == rest[i - |g| - 1];
      }
    }
    forall i | 0 < i < |e| && e[i].pattern.None?
      ensures e[i - 1].pattern.Some?
    {
      if i > |g| + 1 {
        assert e[i] == rest[i - |g| - 1] && e[i - 1] == rest[i - |g| - 2];
      }
    }
  }

  /** A matched component's value is the matched text and its pattern the lowest-index pattern
      whose group took part. */
  lemma MatchedComponent(text: string, patterns: seq<string>, m: Match)
    requires m.start <= m.end <= |text| && FirstParticipating(patterns, m, 0) >= 0
    ensures var c := Matched(text, patterns, m);
      && |c| == 1 && c[0].value == text[m.start..m.end]
      && exists i :: 0 <= i < |patterns| && c[0].pattern == Some(patterns[i]) && Participated(m, i)
           && forall j :: 0 <= j < i ==> !Participated(m, j)
  {
    var i := FirstParticipating(patterns, m, 0);
    assert Matched(text, patterns, m)[0].pattern == Some(patterns[i]);
  }
}
