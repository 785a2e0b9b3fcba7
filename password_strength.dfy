/**
 * EDKit's `PasswordStrengthMeter`: a password is scored from the classes of its characters, the
 * changes between character kinds and an "inserted filler" pattern, the score is clamped to
 * [0, 100] and mapped to a level. Characters are ASCII: letters are `A`-`Z` and `a`-`z`, numbers
 * `0`-`9`, everything else is a symbol.
 */
module PasswordStrength {

  datatype Level = Weak | Moderate | Strong

  const CaseChangeValue := 3
  const FirstCharacterDigitValue := 2
  const FirstCharacterSymbolValue := 4
  const OtherCharacterSymbolValue := 2
  const MaxInsertSequenceValue := 4
  const ScoreToStrong := 60
  const ScoreToModerate := 40

  const LetterClass: seq<string> := ["e", "aot", "hinrs", "dl", "cfgmpuwy", "bkv", "jqxz"]
  const FirstLetterClass: seq<string> := ["ps", "acu", "bdefhimort", "glnvw", "jkqxyz"]
  const DigitClass: seq<string> := ["12", "3450", "67", "89"]
  const Symbols: seq<string> := ["!@$", "&#%* ", "^()-_=+"]

  predicate IsUppercase(c: char) { 'A' <= c <= 'Z' }
  predicate IsLowercase(c: char) { 'a' <= c <= 'z' }
  predicate IsLetter(c: char) { IsUppercase(c) || IsLowercase(c) }
  predicate IsNumber(c: char) { '0' <= c <= '9' }

  function Lowercased(c: char): (l: char)
    ensures IsLetter(c) ==> IsLowercase(l)
    ensures IsUppercase(c) ==> l as int - 'a' as int == c as int - 'A' as int
    ensures !IsUppercase(c) ==> l == c
  {
    if IsUppercase(c) then (c as int + 32) as char else c
  }

  function Min(a: int, b: int): int { if a <= b then a else b }
  function Max(a: int, b: int): int { if a >= b then a else b }

  // ---------------------------------------------------------------- getClass

  /** The index of the first of `classes[i..]` that contains `c`, or -1. */
  function ClassFrom(classes: seq<string>, c: char, i: nat): (r: int)
    requires i <= |classes|
    ensures r == -1 || i <= r < |classes|
    ensures r == -1 <==> forall j :: i <= j < |classes| ==> c !in classes[j]
    ensures r >= 0 ==> c in classes[r] && forall j :: i <= j < r ==> c !in classes[j]
    decreases |classes| - i
  {
    if i == |classes| then -1
    else if c in classes[i] then i
    else ClassFrom(classes, c, i + 1)
  }

  /** The index of the first class containing `c`, or -1. */
  function ClassOf(classes: seq<string>, c: char): int {
    ClassFrom(classes, c, 0)
  }

  /** `getClass(classes:letter:)`: a linear search with an early return. */
  method GetClass(classes: seq<string>, letter: char) returns (index: int)
    ensures index == ClassOf(classes, letter)
    ensures -1 <= index < |classes|
    ensures index == -1 <==> forall j :: 0 <= j < |classes| ==> letter !in classes[j]
    ensures index >= 0 ==> letter in classes[index] && forall j :: 0 <= j < index ==> letter !in classes[j]
  {
    var i := 0;
    while i < |classes|
      invariant 0 <= i <= |classes|
      invariant forall j :: 0 <= j < i ==> letter !in classes[j]
    {
      if letter in classes[i] {
        return i;
      }
      i := i + 1;
    }
    return -1;
  }

  /** Every ASCII letter has a class in both letter tables, and every digit in the digit table. */
  lemma ClassesCoverAscii(c: char)
    ensures IsLetter(c) ==> ClassOf(LetterClass, Lowercased(c)) >= 0 && ClassOf(FirstLetterClass, Lowercased(c)) >= 0
    ensures IsNumber(c) ==> ClassOf(DigitClass, c) >= 0
  {
    if IsLetter(c) {
      var l := Lowercased(c);
      assert l in LetterClass[0] + LetterClass[1] + LetterClass[2] + LetterClass[3] + LetterClass[4] + LetterClass[5] + LetterClass[6];
      assert l in FirstLetterClass[0] + FirstLetterClass[1] + FirstLetterClass[2] + FirstLetterClass[3] + FirstLetterClass[4];
    }
    if IsNumber(c) {
      assert c in DigitClass[0] + DigitClass[1] + DigitClass[2] + DigitClass[3];
    }
  }

  // ---------------------------------------------------------------- removeInsert

  /** The characters `s[i - 1]` for `i` = `from`, `from + 2`, ... below `|s|`. */
  function Picks(s: string, from: nat): string
    requires from >= 1
    decreases |s| - from
  {
    if from >= |s| then [] else [s[from - 1]] + Picks(s, from + 2)
  }

  /** `s[i] == c` for `i` = `from`, `from + 2`, ... below `|s|`. */
  predicate FilledFrom(s: string, from: nat, c: char) {
    forall i :: from <= i < |s| && (i - from) % 2 == 0 ==> s[i] == c
  }

  /** What `removeInsert` returns: for 6 characters or more, the even test (every even index from
      2 on holds `s[0]`) and then the odd test (every odd index from 3 on holds `s[1]`) strip the
      filler; otherwise the password is returned as it is. */
  function RemoveInsertSpec(s: string): (r: string)
    ensures |s| < 6 ==> r == s
    ensures |s| >= 2 ==> |r| >= 2
  {
    if |s| < 6 then s
    else if FilledFrom(s, 2, s[0]) then PicksLength(s, 2); Picks(s, 2)
    else if FilledFrom(s, 3, s[1]) then PicksLength(s, 3); [s[0]] + Picks(s, 3)
    else s
  }

  /** `Picks` in closed form: it holds the characters at `from - 1`, `from + 1`, ... below
      `|s| - 1`. */
  lemma {:induction false} PicksLength(s: string, from: nat)
    requires from >= 1
    ensures |Picks(s, from)| == if from >= |s| then 0 else (|s| - from + 1) / 2
    ensures forall k :: 0 <= k < |Picks(s, from)| ==> Picks(s, from)[k] == s[from - 1 + 2 * k]
    decreases |s| - from
  {
    if from < |s| {
      PicksLength(s, from + 2);
    }
  }

  /** The even test keeps the characters at odd indices 1, 3, ... below `|s| - 1`: for an even
      length the last character is dropped as well. */
  lemma EvenTestKeepsOddIndices(s: string)
    requires |s| >= 6 && FilledFrom(s, 2, s[0])
    ensures |RemoveInsertSpec(s)| == (|s| - 1) / 2
    ensures forall k :: 0 <= k < |RemoveInsertSpec(s)| ==> RemoveInsertSpec(s)[k] == s[2 * k + 1]
  {
    PicksLength(s, 2);
  }

  /** The odd test keeps `s[0]` and the characters at even indices 2, 4, ... below `|s| - 1`. */
  lemma OddTestKeepsEvenIndices(s: string)
    requires |s| >= 6 && !FilledFrom(s, 2, s[0]) && FilledFrom(s, 3, s[1])
    ensures |RemoveInsertSpec(s)| == 1 + (|s| - 2) / 2
    ensures forall k :: 0 <= k < |RemoveInsertSpec(s)| ==> RemoveInsertSpec(s)[k] == s[2 * k]
  {
    EvenPicks(s);
    assert RemoveInsertSpec(s) == [s[0]] + Picks(s, 3);
  }

  /** `s[0]` followed by the picks from 3 is the characters at even indices below `|s| - 1`. */
  lemma EvenPicks(s: string)
    requires |s| >= 6
    ensures var r := [s[0]] + Picks(s, 3);
      && |r| == 1 + (|s| - 2) / 2
      && forall k :: 0 <= k < |r| ==> r[k] == s[2 * k]
  {
    var p := Picks(s, 3);
    PicksLength(s, 3);
    var r := [s[0]] + p;
    forall k | 1 <= k < |r|
      ensures r[k] == s[2 * k]
    {
      assert r[k] == p[k - 1];
      assert 3 - 1 + 2 * (k - 1) == 2 * k;
    }
  }

  /** The loop both tests of `removeInsert` run: for `i` = `from`, `from + 2`, ... below the
      length it appends `password[i - 1]` and then stops at the first `password[i]` that is not
      `insert`. */
  method StrideTest(password: string, from: nat, insert: char) returns (found: bool, picked: string)
    requires from >= 1
    ensures found == FilledFrom(password, from, insert)
    ensures found ==> picked == Picks(password, from)
  {
    var n := |password|;
    picked := [];
    found := true;
    var i := from;
    while i < n
      invariant from <= i && (i - from) % 2 == 0
      invariant picked + Picks(password, i) == Picks(password, from)
      invariant forall j :: from <= j < i && j < n && (j - from) % 2 == 0 ==> password[j] == insert
    {
      assert Picks(password, i) == [password[i - 1]] + Picks(password, i + 2);
      picked := picked + [password[i - 1]];
      if password[i] != insert {
        found := false;
        break;
      }
      i := i + 2;
    }
  }

  /** `removeInsert(_:)`. */
  method RemoveInsert(password: string) returns (result: string)
    ensures result == RemoveInsertSpec(password)
  {
    if |password| < 6 {
      return password;
    }
    // Even test: every even index from 2 on holds password[0].
    var found, picked := StrideTest(password, 2, password[0]);
    if found {
      return picked;
    }
    // Odd test: every odd index from 3 on holds password[1].
    found, picked := StrideTest(password, 3, password[1]);
    if found {
      return [password[0]] + picked;
    }
    return password;
  }

  // ---------------------------------------------------------------- calculateScore

  /** A symbol's class, or the number of symbol classes for a symbol in none of them. */
  function SymbolValue(c: char): int {
    var t := ClassOf(Symbols, c);
    if t < 0 then |Symbols| else t
  }

  /** What the first character contributes. */
  function FirstValue(c: char): int {
    if IsLetter(c) then ClassOf(FirstLetterClass, Lowercased(c))
    else if IsNumber(c) then ClassOf(DigitClass, c) + FirstCharacterDigitValue
    else SymbolValue(c) + FirstCharacterSymbolValue
  }

  /** What a later character `cur` following `last` contributes; a repeat contributes nothing. */
  function EntropyValue(last: char, cur: char): int {
    if cur == last then 0
    else if IsLetter(cur) then ClassOf(LetterClass, Lowercased(cur))
    else if IsNumber(cur) then ClassOf(DigitClass, cur)
    else SymbolValue(cur) + OtherCharacterSymbolValue
  }

  /** `cur` is of another kind (letter, number, other) than `last`. */
  predicate ClassChange(last: char, cur: char) {
    || (IsLetter(cur) && !IsLetter(last))
    || (IsNumber(cur) && !IsNumber(last))
    || (!(IsLetter(cur) || IsNumber(cur)) && (IsLetter(last) || IsNumber(last)))
  }

  /** The case observations; a letter after a space is ignored. */
  predicate UpperCaseAt(last: char, cur: char) { IsLetter(cur) && last != ' ' && IsUppercase(cur) }
  predicate LowerCaseAt(last: char, cur: char) { IsLetter(cur) && last != ' ' && !IsUppercase(cur) && IsLowercase(cur) }

  /** The sums over the characters at 1 .. k - 1 of `s`, each compared with its predecessor. */
  function Entropy(s: string, k: nat): int
    requires 1 <= k <= |s|
  {
    if k == 1 then 0 else Entropy(s, k - 1) + EntropyValue(s[k - 2], s[k - 1])
  }

  function ClassChanges(s: string, k: nat): nat
    requires 1 <= k <= |s|
  {
    if k == 1 then 0 else ClassChanges(s, k - 1) + (if ClassChange(s[k - 2], s[k - 1]) then 1 else 0)
  }

  predicate SeenUppercase(s: string, k: nat)
    requires 1 <= k <= |s|
  {
    k > 1 && (SeenUppercase(s, k - 1) || UpperCaseAt(s[k - 2], s[k - 1]))
  }

  predicate SeenLowercase(s: string, k: nat)
    requires 1 <= k <= |s|
  {
    k > 1 && (SeenLowercase(s, k - 1) || LowerCaseAt(s[k - 2], s[k - 1]))
  }

  /** The bonus for a password `removeInsert` changed. */
  function InsertBonus(check: string, insert: bool): int {
    if insert then Min(MaxInsertSequenceValue, |check|) else 0
  }

  /** The score before normalisation, of the string `check` the loop walks over. */
  function RawScore(check: string, insert: bool): int
    requires |check| >= 1
  {
    var n := |check|;
    FirstValue(check[0]) + Entropy(check, n)
    + (if SeenUppercase(check, n) && SeenLowercase(check, n) then CaseChangeValue else 0)
    + InsertBonus(check, insert)
    + (if ClassChanges(check, n) > 1 then ClassChanges(check, n) else 0)
  }

  /** Doubling, capped at 100 and floored at 0. */
  function Normalize(raw: int): (score: int)
    ensures 0 <= score <= 100
    ensures 0 <= raw <= 50 ==> score == 2 * raw
  {
    Max(Min(100, raw * 2), 0)
  }

  /** What `calculateScore` returns. */
  function Score(password: string): (score: int)
    ensures 0 <= score <= 100
    ensures |password| <= 1 ==> score == 0
  {
    if |password| <= 1 then 0
    else
      var check := RemoveInsertSpec(password);
      Normalize(RawScore(check, check != password))
  }

  /** The level for a score. */
  function LevelFor(score: int): Level {
    if score >= ScoreToStrong then Strong else if score >= ScoreToModerate then Moderate else Weak
  }

  function Rank(l: Level): nat {
    match l
    case Weak => 0
    case Moderate => 1
    case Strong => 2
  }

  /** A higher score never gives a lower level. */
  lemma LevelMonotone(a: int, b: int)
    requires a <= b
    ensures Rank(LevelFor(a)) <= Rank(LevelFor(b))
  {
  }

  /** The value the first character adds, computed with `getClass`. */
  method FirstCharacterValue(cur: char) returns (v: int)
    ensures v == FirstValue(cur)
  {
    if IsLetter(cur) {
      v := GetClass(FirstLetterClass, Lowercased(cur));
    } else if IsNumber(cur) {
      v := GetClass(DigitClass, cur);
      v := v + FirstCharacterDigitValue;
    } else {
      var temp := GetClass(Symbols, cur);
      if temp < 0 {
        temp := |Symbols|;
      }
      v := temp + FirstCharacterSymbolValue;
    }
  }

  /** The value a later character adds, computed with `getClass`. */
  method CharacterValue(last: char, cur: char) returns (v: int)
    ensures v == EntropyValue(last, cur)
  {
    if cur == last {
      v := 0;
    } else if IsLetter(cur) {
      v := GetClass(LetterClass, Lowercased(cur));
    } else if IsNumber(cur) {
      v := GetClass(DigitClass, cur);
    } else {
      var temp := GetClass(Symbols, cur);
      if temp < 0 {
        temp := |Symbols|;
      }
      v := temp + OtherCharacterSymbolValue;
    }
  }

  /** The loop of `calculateScore` over the characters after the first, starting from the
      first character's value. */
  method ScanCharacters(check: string, firstValue: int) returns (score: int, classChange: nat, upCase: bool, lowCase: bool)
    requires |check| >= 1
    ensures score == firstValue + Entropy(check, |check|)
    ensures classChange == ClassChanges(check, |check|)
    ensures upCase == SeenUppercase(check, |check|) && lowCase == SeenLowercase(check, |check|)
  {
    score := firstValue;
    classChange := 0;
    upCase := false;
    lowCase := false;
    var last := check[0];
    var i := 1;
    while i < |check|
      invariant 1 <= i <= |check|
      invariant last == check[i - 1]
      invariant score == firstValue + Entropy(check, i)
      invariant classChange == ClassChanges(check, i)
      invariant upCase == SeenUppercase(check, i) && lowCase == SeenLowercase(check, i)
    {
      var cur := check[i];
      if IsLetter(cur) && last != ' ' {
        if IsUppercase(cur) {
          upCase := true;
        } else if IsLowercase(cur) {
          lowCase := true;
        }
      }
      if ClassChange(last, cur) {
        classChange := classChange + 1;
      }
      var v := CharacterValue(last, cur);
      score := score + v;
      last := cur;
      i := i + 1;
    }
  }

  /** `calculateScore(_:)`. */
  method CalculateScore(password: string) returns (score: int)
    ensures score == Score(password)
  {
    if |password| <= 1 {
      return 0;
    }
    var check := password;
    var insert := false;
    var test := RemoveInsert(password);
    if test != check {
      insert := true;
      check := test;
    }
    var n := |check|;

    var first := FirstCharacterValue(check[0]);
    var classChange, upCase, lowCase;
    score, classChange, upCase, lowCase := ScanCharacters(check, first);

    if upCase && lowCase {
      score := score + CaseChangeValue;
    }
    if insert {
      score := score + Min(MaxInsertSequenceValue, n);
    }
    if classChange > 1 {
      score := score + classChange;
    }
    score := Min(100, score * 2);
    score := Max(score, 0);
  }

  /** `checkPasswordStrength(_:)`. */
  method CheckPasswordStrength(password: string) returns (level: Level)
    ensures level == LevelFor(Score(password))
    ensures level == Strong <==> Score(password) >= ScoreToStrong
    ensures level == Moderate <==> ScoreToModerate <= Score(password) < ScoreToStrong
    ensures level == Weak <==> Score(password) < ScoreToModerate
    ensures |password| <= 1 ==> level == Weak
  {
    var score := CalculateScore(password);
    if score >= ScoreToStrong {
      level := Strong;
    } else if score >= ScoreToModerate {
      level := Moderate;
    } else {
      level := Weak;
    }
  }

  // ---------------------------------------------------------------- properties

  /** A run of equal characters adds nothing to the entropy sum and changes no class. */
  lemma {:induction false} RepeatsAddNothing(s: string, i: nat, k: nat)
    requires 1 <= i <= k <= |s|
    requires forall j :: i <= j < k ==> s[j] == s[i - 1]
    ensures Entropy(s, k) == Entropy(s, i)
    ensures ClassChanges(s, k) == ClassChanges(s, i)
  {
    if k > i {
      RepeatsAddNothing(s, i, k - 1);
      assert s[k - 2] == s[i - 1];
    }
  }

  /** When `removeInsert` changed the password, the bonus is between 2 and 4, and exactly 4 once
      the stripped string has four characters or more; otherwise there is none. */
  lemma InsertBonusRange(password: string)
    requires |password| >= 2
    ensures var check := RemoveInsertSpec(password);
      && (check != password ==> 2 <= InsertBonus(check, true) <= MaxInsertSequenceValue
                                && (|check| >= 4 ==> InsertBonus(check, true) == MaxInsertSequenceValue))
      && InsertBonus(check, check != password) == (if check != password then Min(4, |check|) else 0)
  {
  }

  /** Every character contributes at least 0, so the entropy sum is never negative. */
  lemma {:induction false} EntropyNonnegative(s: string, k: nat)
    requires 1 <= k <= |s|
    ensures Entropy(s, k) >= 0
  {
    if k > 1 {
      EntropyNonnegative(s, k - 1);
      ClassesCoverAscii(s[k - 1]);
    }
  }

  /** With ASCII characters the raw score is never negative, so the floor at 0 never applies:
      the score is the doubled raw score capped at 100. */
  lemma FloorNeverApplies(password: string)
    requires |password| >= 2
    ensures var check := RemoveInsertSpec(password);
      Score(password) == Min(100, 2 * RawScore(check, check != password))
  {
    var check := RemoveInsertSpec(password);
    EntropyNonnegative(check, |check|);
    ClassesCoverAscii(check[0]);
  }
}
