/** The scoring engine of src/score.ts. A word's score is built in three stages: a score per
    letter (its point value times any positional multipliers), additive bonuses on their sum
    (length tiers and the fixed modifier bonuses), and a product of multiplicative modifiers. */
module Score {
  import opened Wrappers
  import opened Text
  import opened RunConstants
  import Constants

  /** score.ts keeps its own copy of the point table. */
  const LetterPoints: map<char, int> := map[
    'a' := 1, 'b' := 3, 'c' := 3, 'd' := 2, 'e' := 1, 'f' := 4, 'g' := 2, 'h' := 4, 'i' := 1,
    'j' := 8, 'k' := 5, 'l' := 1, 'm' := 3, 'n' := 1, 'o' := 1, 'p' := 3, 'q' := 10, 'r' := 1,
    's' := 1, 't' := 1, 'u' := 1, 'v' := 4, 'w' := 4, 'x' := 8, 'y' := 4, 'z' := 10
  ]

  /** The local copy is identical, entry for entry, to the table of constants.ts. */
  lemma LocalTableMatchesConstants()
    ensures LetterPoints == Constants.LetterPoints
  {
  }

  /** `isVowel`: the five lower-case vowels, each a one-point letter of the table; the
      character is compared as given, so a capital vowel is not one. */
  predicate IsVowel(c: char): (r: bool)
    ensures r ==> c in LetterPoints && LetterPoints[c] == 1
    ensures r ==> !('A' <= c <= 'Z')
  {
    c == 'a' || c == 'e' || c == 'i' || c == 'o' || c == 'u'
  }

  datatype ScoreError =
    | EmptyWord                       // the first/last-letter assertions fail
    | MissingPoints(letter: char)     // a letter with no (or a zero) point value
    | BadFinalScoreX(value: string)   // `finalScoreX` is not one UTF-16 unit long

  /** Every intermediate value `getWordScore` returns. */
  datatype ScoreBreakdown = ScoreBreakdown(
    wordScore: real,
    letterScores: seq<int>,
    totalLetterScores: int,
    wordScorePreMultiplier: int,
    wordMultiplier: real)

  // ---------------------------------------------------------------------------------------
  // Stage 1: letter scores

  predicate HasPoints(c: char)
  {
    c in LetterPoints && LetterPoints[c] != 0
  }

  function Pow(b: nat, e: nat): nat
  {
    if e == 0 then 1 else b * Pow(b, e - 1)
  }

  /** The first-tile rule: a vowel in the first position is worth five times as much. */
  predicate Quintupled(cfg: Config, i: nat, c: char)
  {
    cfg.firstTile5xIfVowel && i == 0 && IsVowel(c)
  }

  /** How many of the enabled tripling rules apply at position `i` of an `n`-letter word. */
  function TriplingRules(cfg: Config, n: nat, i: nat): nat
  {
    (if cfg.fiveTilesFirstAndLast3x && n == 5 && (i == 0 || i == 4) then 1 else 0)
    + (if cfg.fourthTileScores3x && i == 3 then 1 else 0)
    + (if cfg.secondTileScores3x && i == 1 then 1 else 0)
  }

  /** The positional rules stack: five for the first-tile rule, three for each tripling rule. */
  function PositionMultiplier(cfg: Config, n: nat, i: nat, c: char): nat
  {
    (if Quintupled(cfg, i, c) then 5 else 1) * Pow(3, TriplingRules(cfg, n, i))
  }

  /** `x` tripled `t` times. */
  function Triple(x: int, t: nat): int
  {
    if t == 0 then x else 3 * Triple(x, t - 1)
  }

  lemma {:induction false} TripleIsProduct(x: int, t: nat)
    ensures Triple(x, t) == x * Pow(3, t)
  {
    if t > 0 {
      TripleIsProduct(x, t - 1);
      assert 3 * (x * Pow(3, t - 1)) == x * (3 * Pow(3, t - 1));
    }
  }

  lemma {:induction false} TripleAtLeast(x: int, t: nat)
    requires x >= 0
    ensures Triple(x, t) >= x
  {
    if t > 0 {
      TripleAtLeast(x, t - 1);
    }
  }

  /** What `getLetterScore` returns (or throws) for letter `c` at position `i` of an `n`-letter
      word: the table value, five times that under the first-tile rule, then tripled once for
      each tripling rule that applies. */
  function LetterScore(cfg: Config, n: nat, i: nat, c: char): Result<int, ScoreError>
  {
    if !HasPoints(c) then Err(MissingPoints(c))
    else
      var points := LetterPoints[c];
      Ok(Triple(if Quintupled(cfg, i, c) then 5 * points else points, TriplingRules(cfg, n, i)))
  }

  /** Tripling `t` times, after an optional quintupling, multiplies by the stacked factor. */
  lemma StackedIsProduct(points: int, quintupled: bool, t: nat)
    ensures Triple(if quintupled then 5 * points else points, t) == points * ((if quintupled then 5 else 1) * Pow(3, t))
  {
    var p := Pow(3, t);
    if quintupled {
      TripleIsProduct(5 * points, t);
      assert (5 * points) * p == points * (5 * p);
    } else {
      TripleIsProduct(points, t);
    }
  }

  /** A letter's score is its table value times its positional multiplier. */
  lemma LetterScoreIsProduct(cfg: Config, n: nat, i: nat, c: char)
    requires HasPoints(c)
    ensures LetterScore(cfg, n, i, c) == Ok(LetterPoints[c] * PositionMultiplier(cfg, n, i, c))
  {
    StackedIsProduct(LetterPoints[c], Quintupled(cfg, i, c), TriplingRules(cfg, n, i));
  }

  /** Only the letters a–z score, each at least its table value and at least 1; with no
      positional rule enabled a letter scores exactly its table value. */
  lemma {:induction false} LetterScoreFacts(cfg: Config, n: nat, i: nat, c: char)
    ensures LetterScore(cfg, n, i, c).Ok? <==> 'a' <= c <= 'z'
    ensures LetterScore(cfg, n, i, c).Err? ==> LetterScore(cfg, n, i, c).error == MissingPoints(c)
    ensures LetterScore(cfg, n, i, c).Ok? ==> LetterScore(cfg, n, i, c).value >= LetterPoints[c] >= 1
    ensures LetterScore(cfg, n, i, c).Ok? && !cfg.firstTile5xIfVowel && !cfg.fiveTilesFirstAndLast3x
            && !cfg.fourthTileScores3x && !cfg.secondTileScores3x
            ==> LetterScore(cfg, n, i, c).value == LetterPoints[c]
  {
    LocalTableMatchesConstants();
    Constants.LetterPointsTotalAndPositive();
    if HasPoints(c) {
      var points := LetterPoints[c];
      TripleAtLeast(if Quintupled(cfg, i, c) then 5 * points else points, TriplingRules(cfg, n, i));
    }
  }

  /** `getLetterScore`: the point lookup, then a multiplier built up one rule at a time. */
  method GetLetterScore(cfg: Config, word: string, letter: char, i: nat) returns (r: Result<int, ScoreError>)
    ensures r == LetterScore(cfg, |word|, i, letter)
  {
    if letter !in LetterPoints || LetterPoints[letter] == 0 {
      return Err(MissingPoints(letter));
    }
    var points := LetterPoints[letter];
    var multiplier: nat := 1;
    if cfg.firstTile5xIfVowel && i == 0 && IsVowel(letter) {
      multiplier := multiplier * 5;
    }
    ghost var fives := multiplier;
    if cfg.fiveTilesFirstAndLast3x && |word| == 5 && (i == 0 || i == 4) {
      multiplier := multiplier * 3;
    }
    if cfg.fourthTileScores3x && i == 3 {
      multiplier := multiplier * 3;
    }
    if cfg.secondTileScores3x && i == 1 {
      multiplier := multiplier * 3;
    }
    ghost var k := TriplingRules(cfg, |word|, i);
    assert k <= 3;
    assert Pow(3, k) == if k == 0 then 1 else if k == 1 then 3 else if k == 2 then 9 else 27;
    assert multiplier == PositionMultiplier(cfg, |word|, i, letter);
    LetterScoreIsProduct(cfg, |word|, i, letter);
    return Ok(points * multiplier);
  }

  /** `lowercaseLetters.map((letter, i) => getLetterScore(word, letter, i))` over the letters
      `lower` of an `n`-letter word: the scores in order, or the error of the first letter that
      has no points. */
  function LetterScores(cfg: Config, n: nat, lower: string): Result<seq<int>, ScoreError>
    decreases |lower|
  {
    if lower == [] then Ok([])
    else
      match LetterScores(cfg, n, lower[..|lower| - 1])
      case Err(e) => Err(e)
      case Ok(prefix) =>
        match LetterScore(cfg, n, |lower| - 1, lower[|lower| - 1])
        case Err(e) => Err(e)
        case Ok(v) => Ok(prefix + [v])
  }

  /** The letter scores exist iff every letter is one of a–z; then there is one score per
      letter, entry `k` is that letter's `LetterScore`, and each is at least 1. */
  lemma {:induction false} LetterScoresFacts(cfg: Config, n: nat, lower: string)
    ensures LetterScores(cfg, n, lower).Ok? <==> forall k :: 0 <= k < |lower| ==> 'a' <= lower[k] <= 'z'
    ensures LetterScores(cfg, n, lower).Ok? ==>
      var scores := LetterScores(cfg, n, lower).value;
      && |scores| == |lower|
      && (forall k :: 0 <= k < |lower| ==>
            && lower[k] in LetterPoints
            && LetterScore(cfg, n, k, lower[k]) == Ok(scores[k])
            && scores[k] >= 1)
    decreases |lower|
  {
    if lower != [] {
      var last := |lower| - 1;
      var prefix := lower[..last];
      LetterScoresFacts(cfg, n, prefix);
      LetterScoreFacts(cfg, n, last, lower[last]);
      assert forall k :: 0 <= k < last ==> lower[k] == prefix[k];
      if LetterScores(cfg, n, prefix).Ok? && LetterScore(cfg, n, last, lower[last]).Ok? {
        var scores := LetterScores(cfg, n, prefix).value;
        var v := LetterScore(cfg, n, last, lower[last]).value;
        assert LetterScores(cfg, n, lower).value == scores + [v];
        assert (scores + [v])[last] == v;
        assert forall k :: 0 <= k < last ==> (scores + [v])[k] == scores[k];
      }
    }
  }

  /** A failure names the first letter that is not one of a–z. */
  lemma {:induction false} LetterScoresFirstError(cfg: Config, n: nat, lower: string, k: nat)
    requires k < |lower| && !('a' <= lower[k] <= 'z')
    requires forall j :: 0 <= j < k ==> 'a' <= lower[j] <= 'z'
    ensures LetterScores(cfg, n, lower) == Err(MissingPoints(lower[k]))
  {
    LetterScoresFacts(cfg, n, lower[..k]);
    assert LetterScores(cfg, n, lower[..k]).Ok?;
    LetterScoreFacts(cfg, n, k, lower[k]);
    assert lower[..k + 1][..k] == lower[..k];
    assert LetterScores(cfg, n, lower[..k + 1]) == Err(MissingPoints(lower[k]));
    LetterScoresPrefixErr(cfg, n, lower, k + 1);
  }

  /** Once a prefix of the letters fails, the whole map fails with the same error. */
  lemma {:induction false} LetterScoresPrefixErr(cfg: Config, n: nat, lower: string, i: nat)
    requires i <= |lower|
    requires LetterScores(cfg, n, lower[..i]).Err?
    ensures LetterScores(cfg, n, lower) == LetterScores(cfg, n, lower[..i])
    decreases |lower| - i
  {
    if i < |lower| {
      assert lower[..i + 1][..i] == lower[..i];
      LetterScoresPrefixErr(cfg, n, lower, i + 1);
    } else {
      assert lower[..i] == lower;
    }
  }

  /** `sumArray`. */
  function Sum(s: seq<int>): int
  {
    if s == [] then 0 else Sum(s[..|s| - 1]) + s[|s| - 1]
  }

  // ---------------------------------------------------------------------------------------
  // Stage 2: additive bonuses

  /** The steps of the length ladder of `getWordScore`: what reaching 5, 6, ..., 20 letters adds. */
  const LadderSteps: seq<nat> := [5, 5, 5, 10, 10, 15, 15, 20, 20, 20, 25, 25, 25, 30, 40, 50]

  /** How many steps an `n`-letter word climbs. */
  function StepsReached(n: nat): (k: nat)
    ensures k <= |LadderSteps|
  {
    if n < 5 then 0 else if n > 20 then 16 else n - 4
  }

  /** The first `k` steps added up. */
  function StepSum(k: nat): nat
    requires k <= |LadderSteps|
  {
    if k == 0 then 0 else StepSum(k - 1) + LadderSteps[k - 1]
  }

  /** The length bonus of an `n`-letter word: the steps it reaches; the long-word booster
      doubles every step. */
  function LengthBonus(n: nat, longWordBooster: bool): nat
  {
    var base := StepSum(StepsReached(n));
    if longWordBooster then 2 * base else base
  }

  /** The ladder as the source writes it: one threshold after another. */
  function Ladder(n: nat): nat
  {
    (if n >= 5 then 5 else 0) + (if n >= 6 then 5 else 0) + (if n >= 7 then 5 else 0)
    + (if n >= 8 then 10 else 0) + (if n >= 9 then 10 else 0) + (if n >= 10 then 15 else 0)
    + (if n >= 11 then 15 else 0) + (if n >= 12 then 20 else 0) + (if n >= 13 then 20 else 0)
    + (if n >= 14 then 20 else 0) + (if n >= 15 then 25 else 0) + (if n >= 16 then 25 else 0)
    + (if n >= 17 then 25 else 0) + (if n >= 18 then 30 else 0) + (if n >= 19 then 40 else 0)
    + (if n >= 20 then 50 else 0)
  }

  /** Between 5 and 20 letters the written-out ladder rises by exactly the step of that length. */
  lemma LadderStep(n: nat)
    requires 5 <= n <= 20
    ensures Ladder(n) == Ladder(n - 1) + LadderSteps[n - 5]
  {
  }

  /** The step sum is the written-out ladder. */
  lemma {:induction false} LengthBonusIsLadder(n: nat)
    ensures LengthBonus(n, false) == Ladder(n)
  {
    if 5 <= n <= 20 {
      LengthBonusIsLadder(n - 1);
      LadderStep(n);
      assert StepsReached(n) == StepsReached(n - 1) + 1;
    } else if n > 20 {
      LengthBonusIsLadder(20);
      assert StepsReached(n) == StepsReached(20);
    }
  }

  /** The length bonus is 0 below five letters and never decreases with length; the booster
      exactly doubles it. */
  lemma LengthBonusShape(m: nat, n: nat)
    ensures n < 5 ==> LengthBonus(n, false) == 0
    ensures m <= n ==> LengthBonus(m, false) <= LengthBonus(n, false)
    ensures LengthBonus(n, true) == 2 * LengthBonus(n, false)
  {
    LengthBonusIsLadder(m);
    LengthBonusIsLadder(n);
  }

  /** From 5 to 20 letters the n-th letter adds exactly the step of that length. */
  lemma LengthBonusSteps(n: nat)
    requires 5 <= n <= 20
    ensures LengthBonus(n, false) - LengthBonus(n - 1, false) == LadderSteps[n - 5]
  {
    assert StepsReached(n) == StepsReached(n - 1) + 1;
  }

  /** From 20 letters on the length bonus stays at 320. */
  lemma LengthBonusCap(n: nat)
    requires n >= 20
    ensures LengthBonus(n, false) == 320
  {
    LengthBonusIsLadder(n);
  }

  /** The fixed modifier bonuses, judged on the word as written (first and last characters are
      not lower-cased). */
  function ModifierBonus(cfg: Config, word: string): nat
    requires |word| > 0
  {
    (if cfg.if9Tiles && |word| == 9 then 10 else 0)
    + (if cfg.ifWordBeginsWithH && word[0] == 'h' then 20 else 0)
    + (if cfg.ifWordEndsWithR && word[|word| - 1] == 'r' then 20 else 0)
  }

  /** The 9-tile bonus is switched by its own flag and adds 10 exactly on nine letters. */
  lemma NineTilesBonus(cfg: Config, word: string)
    requires |word| > 0
    ensures ModifierBonus(cfg.(if9Tiles := true), word)
      == ModifierBonus(cfg.(if9Tiles := false), word) + (if |word| == 9 then 10 else 0)
  {
  }

  /** The begins-with-`h` bonus is switched by its own flag and adds 20 exactly on a leading `h`. */
  lemma BeginsWithHBonus(cfg: Config, word: string)
    requires |word| > 0
    ensures ModifierBonus(cfg.(ifWordBeginsWithH := true), word)
      == ModifierBonus(cfg.(ifWordBeginsWithH := false), word) + (if word[0] == 'h' then 20 else 0)
  {
  }

  /** The ends-with-`r` bonus is switched by its own flag and adds 20 exactly on a trailing `r`. */
  lemma EndsWithRBonus(cfg: Config, word: string)
    requires |word| > 0
    ensures ModifierBonus(cfg.(ifWordEndsWithR := true), word)
      == ModifierBonus(cfg.(ifWordEndsWithR := false), word) + (if word[|word| - 1] == 'r' then 20 else 0)
  {
  }

  /** Each fixed bonus is switched by its own flag and adds its amount exactly when its condition
      holds; the first and last characters are compared as written, so a capital `H` or `R`
      earns nothing. */
  lemma ModifierBonusConditions(cfg: Config, word: string)
    requires |word| > 0
    ensures ModifierBonus(cfg.(if9Tiles := true), word)
      == ModifierBonus(cfg.(if9Tiles := false), word) + (if |word| == 9 then 10 else 0)
    ensures ModifierBonus(cfg.(ifWordBeginsWithH := true), word)
      == ModifierBonus(cfg.(ifWordBeginsWithH := false), word) + (if word[0] == 'h' then 20 else 0)
    ensures ModifierBonus(cfg.(ifWordEndsWithR := true), word)
      == ModifierBonus(cfg.(ifWordEndsWithR := false), word) + (if word[|word| - 1] == 'r' then 20 else 0)
    ensures !cfg.if9Tiles && !cfg.ifWordBeginsWithH && !cfg.ifWordEndsWithR ==> ModifierBonus(cfg, word) == 0
  {
    NineTilesBonus(cfg, word);
    BeginsWithHBonus(cfg, word);
    EndsWithRBonus(cfg, word);
  }

  /** A capitalised word earns neither letter bonus. */
  lemma CapitalsEarnNoBonus()
    ensures ModifierBonus(AllOff.(ifWordBeginsWithH := true, ifWordEndsWithR := true), "HeaR") == 0
  {
  }

  // ---------------------------------------------------------------------------------------
  // Stage 3: multipliers

  /** Some two neighbouring characters are equal. */
  predicate HasRepeats(word: string)
  {
    exists i :: 0 <= i < |word| - 1 && word[i] == word[i + 1]
  }

  /** Some two neighbouring letters are both vowels. */
  predicate HasVowelPair(letters: string)
  {
    exists i :: 0 <= i < |letters| - 1 && IsVowel(letters[i]) && IsVowel(letters[i + 1])
  }

  /** `hasRepeatingLetters`: a scan with early return. */
  method HasRepeatingLetters(word: string) returns (r: bool)
    ensures r <==> HasRepeats(word)
  {
    var i := 0;
    while i < |word| - 1
      invariant 0 <= i <= |word|
      invariant forall j :: 0 <= j < i && j < |word| - 1 ==> word[j] != word[j + 1]
    {
      if word[i] == word[i + 1] {
        return true;
      }
      i := i + 1;
    }
    return false;
  }

  /** `hasAdjacentVowels`: a scan with early return; the last letter has no successor. */
  method HasAdjacentVowels(letters: string) returns (r: bool)
    ensures r <==> HasVowelPair(letters)
  {
    var i := 0;
    while i < |letters|
      invariant 0 <= i <= |letters|
      invariant forall j :: 0 <= j < i && j < |letters| - 1 ==> !(IsVowel(letters[j]) && IsVowel(letters[j + 1]))
    {
      if i + 1 < |letters| && IsVowel(letters[i]) && IsVowel(letters[i + 1]) {
        return true;
      }
      i := i + 1;
    }
    return false;
  }

  /** `finalScoreX` is absent or one UTF-16 unit long (JavaScript's `length`), so a character
      outside the Basic Multilingual Plane is refused. */
  predicate ValidFinalScoreX(cfg: Config)
  {
    cfg.finalScoreX.Some? ==> Utf16Length(cfg.finalScoreX.value) == 1
  }

  /** How many lower-cased letters equal the configured `finalScoreX` letter (0 when it is unset
      or not a single character, in which case `getWordScore` has already thrown). */
  function FinalScoreXCount(cfg: Config, lower: string): nat
  {
    if cfg.finalScoreX.Some? && Utf16Length(cfg.finalScoreX.value) == 1 then Count(lower, cfg.finalScoreX.value[0])
    else 0
  }

  /** A multiplicative modifier as it applies to one word. */
  datatype Modifier =
    | Doubles(applies: bool)      // times 2 when it applies
    | HalfAgain(applies: bool)    // times 1.5 when it applies
    | MatchCount(count: nat)      // times `count` when `count` is positive

  /** One step of the running product. */
  function Scaled(w: real, m: Modifier): real
  {
    match m
    case Doubles(applies) => if applies then w * 2.0 else w
    case HalfAgain(applies) => if applies then w * 1.5 else w
    case MatchCount(count) => if count > 0 then Times(w, count) else w
  }

  /** `n` copies of `w` added up: `w * n`, written so that it stays linear arithmetic. */
  function Times(w: real, n: nat): real
  {
    if n == 0 then 0.0 else Times(w, n - 1) + w
  }

  lemma {:induction false} TimesIsProduct(w: real, n: nat)
    ensures Times(w, n) == w * n as real
  {
    if n > 0 {
      TimesIsProduct(w, n - 1);
      assert w * (n - 1) as real + w == w * n as real;
    }
  }

  /** The first five multiplicative modifiers, which look at the word's outer letters and at
      repeated letters, in the order the source applies them. */
  function ShapeModifiers(cfg: Config, word: string): seq<Modifier>
    requires |word| > 0
  {
    var first, last := word[0], word[|word| - 1];
    [ Doubles(cfg.ifFirstAndLastAreVowels && IsVowel(first) && IsVowel(last)),
      Doubles(cfg.ifFirstLetterEqualsLastLetter && first == last),
      Doubles(cfg.ifFirstLetterIs.Some? && Lower(cfg.ifFirstLetterIs.value) == [first]),
      HalfAgain(cfg.ifFirstLetterIsVowel && IsVowel(first)),
      HalfAgain(cfg.ifSameLettersTogether && HasRepeats(word)) ]
  }

  /** All multiplicative modifiers in the order the source applies them: the five above, then
      `finalScoreX` and two adjacent vowels. */
  function Modifiers(cfg: Config, word: string): seq<Modifier>
    requires |word| > 0
  {
    var lower := Lower(word);
    ShapeModifiers(cfg, word)
      + [MatchCount(FinalScoreXCount(cfg, lower)), HalfAgain(cfg.ifTwoAdjacentVowels && HasVowelPair(lower))]
  }

  /** The running product after applying `mods` in order, starting from `w`. */
  function Apply(w: real, mods: seq<Modifier>): real
  {
    if mods == [] then w else Scaled(Apply(w, mods[..|mods| - 1]), mods[|mods| - 1])
  }

  lemma ApplyPrefixStep(w: real, mods: seq<Modifier>, k: nat)
    requires k < |mods|
    ensures Apply(w, mods[..k + 1]) == Scaled(Apply(w, mods[..k]), mods[k])
  {
    assert mods[..k + 1][..k] == mods[..k];
  }

  /** `getWordScore`'s multiplier. */
  function WordMultiplier(cfg: Config, word: string): real
    requires |word| > 0
  {
    Apply(1.0, Modifiers(cfg, word))
  }

  /** Adding up copies distributes over a sum. */
  lemma {:induction false} TimesAdd(x: real, y: real, n: nat)
    ensures Times(x + y, n) == Times(x, n) + Times(y, n)
  {
    if n > 0 {
      TimesAdd(x, y, n - 1);
    }
  }

  /** Adding up copies commutes with doubling and with halving again. */
  lemma {:induction false} TimesScaled(w: real, n: nat)
    ensures Times(w * 2.0, n) == Times(w, n) * 2.0
    ensures Times(w * 1.5, n) == Times(w, n) * 1.5
  {
    if n > 0 {
      TimesScaled(w, n - 1);
    }
  }

  lemma {:induction false} TimesCommute(w: real, a: nat, b: nat)
    ensures Times(Times(w, a), b) == Times(Times(w, b), a)
    decreases b
  {
    if b > 0 {
      TimesCommute(w, a, b - 1);
      TimesAdd(Times(w, b - 1), w, a);
    } else {
      TimesZero(a);
    }
  }

  lemma {:induction false} TimesZero(n: nat)
    ensures Times(0.0, n) == 0.0
  {
    if n > 0 {
      TimesZero(n - 1);
    }
  }

  /** Two modifiers applied in either order give the same product. */
  lemma ScaledCommute(w: real, m1: Modifier, m2: Modifier)
    ensures Scaled(Scaled(w, m1), m2) == Scaled(Scaled(w, m2), m1)
  {
    match (m1, m2)
    case (MatchCount(a), MatchCount(b)) =>
      TimesCommute(w, a, b);
    case (MatchCount(a), _) =>
      TimesScaled(w, a);
    case (_, MatchCount(b)) =>
      TimesScaled(w, b);
    case _ =>
  }

  /** Applying the modifier at position `j` last instead of in its place changes nothing. */
  lemma {:induction false} ApplyMoveLast(w: real, mods: seq<Modifier>, j: nat)
    requires j < |mods|
    ensures Apply(w, mods) == Scaled(Apply(w, mods[..j] + mods[j + 1..]), mods[j])
    decreases |mods|
  {
    var last := |mods| - 1;
    var rest := mods[..j] + mods[j + 1..];
    if j < last {
      var front := mods[..last];
      ApplyMoveLast(w, front, j);
      var inner := front[..j] + front[j + 1..];
      assert rest[..|rest| - 1] == inner;
      assert rest[|rest| - 1] == mods[last];
      assert front[j] == mods[j];
      ScaledCommute(Apply(w, inner), mods[j], mods[last]);
    } else {
      assert rest == mods[..last];
    }
  }

  /** The running product does not depend on the order of the modifiers. */
  lemma {:induction false} ApplyPermutation(w: real, a: seq<Modifier>, b: seq<Modifier>)
    requires multiset(a) == multiset(b)
    ensures Apply(w, a) == Apply(w, b)
    decreases |a|
  {
    if a != [] {
      var last := |a| - 1;
      var x := a[last];
      assert x in multiset(b);
      var j :| 0 <= j < |b| && b[j] == x;
      MultisetRemove(b, j);
      MultisetRemove(a, last);
      assert a[..last] + a[last + 1..] == a[..last];
      ApplyPermutation(w, a[..last], b[..j] + b[j + 1..]);
      ApplyMoveLast(w, b, j);
    } else {
      assert |b| == |multiset(b)| == 0;
    }
  }

  /** A modifier never lowers a non-negative running product. */
  lemma ScaledAtLeast(w: real, m: Modifier)
    requires w >= 0.0
    ensures Scaled(w, m) >= w
  {
    if m.MatchCount? && m.count > 0 {
      TimesIsProduct(w, m.count);
      assert w * m.count as real >= w * 1.0;
    }
  }

  lemma {:induction false} ApplyAtLeast(w: real, mods: seq<Modifier>)
    requires w >= 0.0
    ensures Apply(w, mods) >= w
  {
    if mods != [] {
      ApplyAtLeast(w, mods[..|mods| - 1]);
      ScaledAtLeast(Apply(w, mods[..|mods| - 1]), mods[|mods| - 1]);
    }
  }

  /** A modifier that does not apply leaves the running product alone. */
  predicate Inactive(m: Modifier)
  {
    match m
    case Doubles(applies) => !applies
    case HalfAgain(applies) => !applies
    case MatchCount(count) => count == 0
  }

  lemma {:induction false} ApplyInactive(w: real, mods: seq<Modifier>)
    requires forall k :: 0 <= k < |mods| ==> Inactive(mods[k])
    ensures Apply(w, mods) == w
  {
    if mods != [] {
      ApplyInactive(w, mods[..|mods| - 1]);
    }
  }

  // ---------------------------------------------------------------------------------------
  // The whole score

  /** The final score: the pre-multiplier score times the multiplier. */
  function Scale(pre: int, multiplier: real): real
  {
    if pre >= 0 then Times(multiplier, pre) else -Times(multiplier, -pre)
  }

  lemma ScaleIsProduct(pre: int, multiplier: real)
    ensures Scale(pre, multiplier) == pre as real * multiplier
  {
    if pre >= 0 {
      TimesIsProduct(multiplier, pre);
    } else {
      TimesIsProduct(multiplier, -pre);
    }
  }

  /** `getWordScore` as a function of the word and the modifiers. */
  function WordScore(cfg: Config, word: string): Result<ScoreBreakdown, ScoreError>
  {
    if |word| == 0 then Err(EmptyWord)
    else
      match LetterScores(cfg, |word|, Lower(word))
      case Err(e) => Err(e)
      case Ok(scores) =>
        if !ValidFinalScoreX(cfg) then Err(BadFinalScoreX(cfg.finalScoreX.value))
        else
          var total := Sum(scores);
          var pre := total + LengthBonus(|word|, cfg.longWordBooster) + ModifierBonus(cfg, word);
          var multiplier := WordMultiplier(cfg, word);
          Ok(ScoreBreakdown(Scale(pre, multiplier), scores, total, pre, multiplier))
  }

  /** The successful case of `WordScore`, assembled from its parts. */
  lemma WordScoreOk(cfg: Config, word: string, scores: seq<int>, pre: int, multiplier: real)
    requires |word| > 0 && LetterScores(cfg, |word|, Lower(word)) == Ok(scores) && ValidFinalScoreX(cfg)
    requires pre == Sum(scores) + LengthBonus(|word|, cfg.longWordBooster) + ModifierBonus(cfg, word)
    requires multiplier == WordMultiplier(cfg, word)
    ensures WordScore(cfg, word) == Ok(ScoreBreakdown(Scale(pre, multiplier), scores, Sum(scores), pre, multiplier))
  {
  }

  /** The letter-score map: `getLetterScore` at every position, stopping at the first throw. */
  method MapLetterScores(cfg: Config, word: string, lowercaseLetters: string) returns (r: Result<seq<int>, ScoreError>)
    requires |lowercaseLetters| == |word|
    ensures r == LetterScores(cfg, |word|, lowercaseLetters)
  {
    var letterScores: seq<int> := [];
    var i := 0;
    while i < |lowercaseLetters|
      invariant 0 <= i <= |lowercaseLetters|
      invariant LetterScores(cfg, |word|, lowercaseLetters[..i]) == Ok(letterScores)
    {
      var score := GetLetterScore(cfg, word, lowercaseLetters[i], i);
      assert lowercaseLetters[..i + 1][..i] == lowercaseLetters[..i];
      if score.Err? {
        LetterScoresPrefixErr(cfg, |word|, lowercaseLetters, i + 1);
        return Err(score.error);
      }
      letterScores := letterScores + [score.value];
      i := i + 1;
    }
    assert lowercaseLetters[..i] == lowercaseLetters;
    return Ok(letterScores);
  }

  /** The long-word ladder: one conditional increment per length threshold. */
  method AddLengthBonus(word: string, longWordBooster: bool, score: int) returns (r: int)
    ensures r == score + LengthBonus(|word|, longWordBooster)
  {
    r := score;
    var longWordMultiplier := if longWordBooster then 2 else 1;
    if |word| >= 5 { r := r + 5 * longWordMultiplier; }
    if |word| >= 6 { r := r + 5 * longWordMultiplier; }
    if |word| >= 7 { r := r + 5 * longWordMultiplier; }
    if |word| >= 8 { r := r + 10 * longWordMultiplier; }
    if |word| >= 9 { r := r + 10 * longWordMultiplier; }
    if |word| >= 10 { r := r + 15 * longWordMultiplier; }
    if |word| >= 11 { r := r + 15 * longWordMultiplier; }
    if |word| >= 12 { r := r + 20 * longWordMultiplier; }
    if |word| >= 13 { r := r + 20 * longWordMultiplier; }
    if |word| >= 14 { r := r + 20 * longWordMultiplier; }
    if |word| >= 15 { r := r + 25 * longWordMultiplier; }
    if |word| >= 16 { r := r + 25 * longWordMultiplier; }
    if |word| >= 17 { r := r + 25 * longWordMultiplier; }
    if |word| >= 18 { r := r + 30 * longWordMultiplier; }
    if |word| >= 19 { r := r + 40 * longWordMultiplier; }
    if |word| >= 20 { r := r + 50 * longWordMultiplier; }
    LengthBonusIsLadder(|word|);
  }

  /** The first five multiplicative modifiers, which look at the word's outer letters and at
      repeated letters, applied one after another to a running product that starts at 1. */
  method ShapeMultiplier(cfg: Config, word: string, repeatingLetters: bool) returns (wordMultiplier: real)
    requires |word| > 0 && repeatingLetters == HasRepeats(word)
    ensures wordMultiplier == Apply(1.0, ShapeModifiers(cfg, word))
  {
    var firstLetter := word[0];
    var lastLetter := word[|word| - 1];
    ghost var mods := ShapeModifiers(cfg, word);
    wordMultiplier := 1.0;
    assert mods[..0] == [];
    assert wordMultiplier == Apply(1.0, mods[..0]);

    if cfg.ifFirstAndLastAreVowels && IsVowel(firstLetter) && IsVowel(lastLetter) {
      wordMultiplier := wordMultiplier * 2.0;
    }
    ApplyPrefixStep(1.0, mods, 0);
    assert wordMultiplier == Apply(1.0, mods[..1]);
    if cfg.ifFirstLetterEqualsLastLetter && firstLetter == lastLetter {
      wordMultiplier := wordMultiplier * 2.0;
    }
    ApplyPrefixStep(1.0, mods, 1);
    assert wordMultiplier == Apply(1.0, mods[..2]);
    if cfg.ifFirstLetterIs.Some? && Lower(cfg.ifFirstLetterIs.value) == [firstLetter] {
      wordMultiplier := wordMultiplier * 2.0;
    }
    ApplyPrefixStep(1.0, mods, 2);
    assert wordMultiplier == Apply(1.0, mods[..3]);
    if cfg.ifFirstLetterIsVowel && IsVowel(firstLetter) {
      wordMultiplier := wordMultiplier * 1.5;
    }
    ApplyPrefixStep(1.0, mods, 3);
    assert wordMultiplier == Apply(1.0, mods[..4]);
    if cfg.ifSameLettersTogether && repeatingLetters {
      wordMultiplier := wordMultiplier * 1.5;
    }
    ApplyPrefixStep(1.0, mods, 4);
    assert wordMultiplier == Apply(1.0, mods[..5]);
    assert mods[..5] == mods;
  }

  /** The `finalScoreX` modifier: throws on a value that is not one character, otherwise
      multiplies by the number of matching letters when there is at least one. */
  method ApplyFinalScoreX(cfg: Config, lowercaseLetters: string, wordMultiplier: real)
    returns (r: Result<real, ScoreError>)
    ensures ValidFinalScoreX(cfg) ==> var count := FinalScoreXCount(cfg, lowercaseLetters);
      r == Ok(Scaled(wordMultiplier, MatchCount(count)))
    ensures !ValidFinalScoreX(cfg) ==> r == Err(BadFinalScoreX(cfg.finalScoreX.value))
  {
    if cfg.finalScoreX.Some? {
      if Utf16Length(cfg.finalScoreX.value) != 1 {
        return Err(BadFinalScoreX(cfg.finalScoreX.value));
      }
      var numMatchingLetters := Count(lowercaseLetters, cfg.finalScoreX.value[0]);
      assert numMatchingLetters == FinalScoreXCount(cfg, lowercaseLetters);
      if numMatchingLetters > 0 {
        TimesIsProduct(wordMultiplier, numMatchingLetters);
        return Ok(wordMultiplier * numMatchingLetters as real);
      }
    }
    return Ok(wordMultiplier);
  }

  /** The multiplier: a running product, one conditional factor per modifier, in source order. */
  method ComputeMultiplier(cfg: Config, word: string, lowercaseLetters: string, repeatingLetters: bool)
    returns (r: Result<real, ScoreError>)
    requires |word| > 0 && lowercaseLetters == Lower(word) && repeatingLetters == HasRepeats(word)
    ensures ValidFinalScoreX(cfg) ==> r == Ok(WordMultiplier(cfg, word))
    ensures !ValidFinalScoreX(cfg) ==> r == Err(BadFinalScoreX(cfg.finalScoreX.value))
  {
    ghost var mods := Modifiers(cfg, word);
    var wordMultiplier := ShapeMultiplier(cfg, word, repeatingLetters);
    var scaled := ApplyFinalScoreX(cfg, lowercaseLetters, wordMultiplier);
    if scaled.Err? {
      return Err(scaled.error);
    }
    assert mods[..5] == ShapeModifiers(cfg, word);
    ApplyPrefixStep(1.0, mods, 5);
    wordMultiplier := scaled.value;
    var adjacentVowels := HasAdjacentVowels(lowercaseLetters);
    if cfg.ifTwoAdjacentVowels && adjacentVowels {
      wordMultiplier := wordMultiplier * 1.5;
    }
    ApplyPrefixStep(1.0, mods, 6);
    assert mods[..7] == mods;
    return Ok(wordMultiplier);
  }

  /** `getWordScore`: running totals updated stage by stage. */
  method GetWordScore(cfg: Config, word: string) returns (r: Result<ScoreBreakdown, ScoreError>)
    ensures r == WordScore(cfg, word)
  {
    var repeatingLetters := HasRepeatingLetters(word);
    var lowercaseLetters := Lower(word);
    if |word| == 0 {
      return Err(EmptyWord);
    }
    var firstLetter := word[0];
    var lastLetter := word[|word| - 1];

    var letterScores := MapLetterScores(cfg, word, lowercaseLetters);
    if letterScores.Err? {
      return Err(letterScores.error);
    }
    var totalLetterScores := Sum(letterScores.value);
    var wordScorePreMultiplier := AddLengthBonus(word, cfg.longWordBooster, totalLetterScores);
    if cfg.if9Tiles && |word| == 9 {
      wordScorePreMultiplier := wordScorePreMultiplier + 10;
    }
    if cfg.ifWordBeginsWithH && firstLetter == 'h' {
      wordScorePreMultiplier := wordScorePreMultiplier + 20;
    }
    if cfg.ifWordEndsWithR && lastLetter == 'r' {
      wordScorePreMultiplier := wordScorePreMultiplier + 20;
    }

    var wordMultiplier := ComputeMultiplier(cfg, word, lowercaseLetters, repeatingLetters);
    if wordMultiplier.Err? {
      return Err(wordMultiplier.error);
    }
    assert wordScorePreMultiplier == totalLetterScores + LengthBonus(|word|, cfg.longWordBooster) + ModifierBonus(cfg, word);
    var wordScore := Scale(wordScorePreMultiplier, wordMultiplier.value);
    WordScoreOk(cfg, word, letterScores.value, wordScorePreMultiplier, wordMultiplier.value);
    return Ok(ScoreBreakdown(wordScore, letterScores.value, totalLetterScores, wordScorePreMultiplier,
                             wordMultiplier.value));
  }

  // ---------------------------------------------------------------------------------------
  // Properties of the score

  /** `getWordScore` succeeds exactly for a non-empty word whose lower-cased letters are all a–z
      under a well-formed `finalScoreX`; an empty word and a bad `finalScoreX` are reported as such. */
  lemma WordScoreOutcome(cfg: Config, word: string)
    ensures |word| == 0 ==> WordScore(cfg, word) == Err(EmptyWord)
    ensures WordScore(cfg, word).Ok? <==>
      |word| > 0 && (forall k :: 0 <= k < |word| ==> 'a' <= Lower(word)[k] <= 'z') && ValidFinalScoreX(cfg)
    ensures |word| > 0 && (forall k :: 0 <= k < |word| ==> 'a' <= Lower(word)[k] <= 'z') && !ValidFinalScoreX(cfg)
      ==> WordScore(cfg, word) == Err(BadFinalScoreX(cfg.finalScoreX.value))
  {
    LetterScoresFacts(cfg, |word|, Lower(word));
  }

  /** `finalScoreX` is measured in UTF-16 units: a single character outside the Basic
      Multilingual Plane is two units long and makes `getWordScore` throw. */
  lemma AstralFinalScoreXRefused()
    ensures !ValidFinalScoreX(AllOff.(finalScoreX := Some("\U{1F600}")))
    ensures WordScore(AllOff.(finalScoreX := Some("\U{1F600}")), "a") == Err(BadFinalScoreX("\U{1F600}"))
  {
    var cfg := AllOff.(finalScoreX := Some("\U{1F600}"));
    assert Utf16Length("\U{1F600}") == 2 by {
      assert "\U{1F600}"[..0] == "";
    }
    assert Lower("a") == "a";
    WordScoreOutcome(cfg, "a");
  }

  /** With the shipped configuration only `ifFirstLetterIsVowel` is on: the multiplier is 1.5
      for a word that starts with a lower-case vowel and 1 otherwise. */
  lemma ShippedMultiplier(word: string)
    requires |word| > 0
    ensures WordMultiplier(Shipped, word) == (if IsVowel(word[0]) then 1.5 else 1.0)
  {
    var mods := Modifiers(Shipped, word);
    assert mods[3] == HalfAgain(IsVowel(word[0]));
    var rest := mods[..3] + mods[4..];
    assert forall k :: 0 <= k < |rest| ==> Inactive(rest[k]);
    ApplyInactive(1.0, rest);
    ApplyMoveLast(1.0, mods, 3);
  }

  /** A letter outside a–z makes `getWordScore` throw for the first such letter, whatever the
      modifiers (the letter scores are computed before `finalScoreX` is looked at). */
  lemma WordScoreFirstBadLetter(cfg: Config, word: string, k: nat)
    requires k < |word| && !('a' <= Lower(word)[k] <= 'z')
    requires forall j :: 0 <= j < k ==> 'a' <= Lower(word)[j] <= 'z'
    ensures WordScore(cfg, word) == Err(MissingPoints(Lower(word)[k]))
  {
    LetterScoresFirstError(cfg, |word|, Lower(word), k);
  }

  lemma {:induction false} SumAtLeastLength(s: seq<int>)
    requires forall k :: 0 <= k < |s| ==> s[k] >= 1
    ensures Sum(s) >= |s|
  {
    if s != [] {
      SumAtLeastLength(s[..|s| - 1]);
    }
  }

  /** Every modifier scales by at least 1, so the multiplier is at least 1. */
  lemma WordMultiplierAtLeastOne(cfg: Config, word: string)
    requires |word| > 0
    ensures WordMultiplier(cfg, word) >= 1.0
  {
    ApplyAtLeast(1.0, Modifiers(cfg, word));
  }

  /** The modifiers can be applied in any order: the order in which the source applies them
      does not matter. */
  lemma MultiplierOrderIndependent(cfg: Config, word: string, reordered: seq<Modifier>)
    requires |word| > 0 && multiset(reordered) == multiset(Modifiers(cfg, word))
    ensures WordMultiplier(cfg, word) == Apply(1.0, reordered)
  {
    ApplyPermutation(1.0, Modifiers(cfg, word), reordered);
  }

  /** What a successful `WordScore` is made of. */
  lemma WordScoreParts(cfg: Config, word: string, b: ScoreBreakdown)
    requires WordScore(cfg, word) == Ok(b)
    ensures |word| > 0 && ValidFinalScoreX(cfg)
    ensures LetterScores(cfg, |word|, Lower(word)) == Ok(b.letterScores)
    ensures b.totalLetterScores == Sum(b.letterScores)
    ensures b.wordScorePreMultiplier == b.totalLetterScores + LengthBonus(|word|, cfg.longWordBooster) + ModifierBonus(cfg, word)
    ensures b.wordMultiplier == WordMultiplier(cfg, word)
    ensures b.wordScore == Scale(b.wordScorePreMultiplier, b.wordMultiplier)
  {
  }

  lemma ScaleAtLeast(pre: int, multiplier: real)
    requires pre >= 0 && multiplier >= 1.0
    ensures Scale(pre, multiplier) >= pre as real
  {
    ScaleIsProduct(pre, multiplier);
    assert pre as real * multiplier >= pre as real * 1.0;
  }

  /** Letter scores that exist are at least 1 each and their sum is at least their number. */
  lemma LetterScoresTotal(cfg: Config, word: string, scores: seq<int>)
    requires LetterScores(cfg, |word|, Lower(word)) == Ok(scores)
    ensures |scores| == |word|
    ensures forall k :: 0 <= k < |word| ==> LetterScore(cfg, |word|, k, Lower(word)[k]) == Ok(scores[k]) && scores[k] >= 1
    ensures Sum(scores) >= |word|
  {
    LetterScoresFacts(cfg, |word|, Lower(word));
    SumAtLeastLength(scores);
  }

  /** A successful breakdown has one score of at least 1 per letter, each that letter's
      `getLetterScore`, and their sum, which is at least the word's length. */
  lemma WordScoreLetters(cfg: Config, word: string)
    requires WordScore(cfg, word).Ok?
    ensures |WordScore(cfg, word).value.letterScores| == |word|
    ensures forall k :: 0 <= k < |word| ==>
      && LetterScore(cfg, |word|, k, Lower(word)[k]) == Ok(WordScore(cfg, word).value.letterScores[k])
      && WordScore(cfg, word).value.letterScores[k] >= 1
    ensures WordScore(cfg, word).value.totalLetterScores == Sum(WordScore(cfg, word).value.letterScores) >= |word|
  {
    var b := WordScore(cfg, word).value;
    WordScoreParts(cfg, word, b);
    LetterScoresTotal(cfg, word, b.letterScores);
  }

  /** A successful breakdown adds the length and modifier bonuses to the letter total, has a
      multiplier of at least 1, and a final score that is the product of the two and so never
      below the pre-multiplier score. */
  lemma WordScoreMultiplied(cfg: Config, word: string)
    requires WordScore(cfg, word).Ok?
    ensures WordScore(cfg, word).value.wordScorePreMultiplier
      == WordScore(cfg, word).value.totalLetterScores + LengthBonus(|word|, cfg.longWordBooster) + ModifierBonus(cfg, word)
    ensures WordScore(cfg, word).value.wordMultiplier == WordMultiplier(cfg, word) >= 1.0
    ensures WordScore(cfg, word).value.wordScore >= WordScore(cfg, word).value.wordScorePreMultiplier as real
  {
    var b := WordScore(cfg, word).value;
    WordScoreParts(cfg, word, b);
    LetterScoresTotal(cfg, word, b.letterScores);
    WordMultiplierAtLeastOne(cfg, word);
    ScaleAtLeast(b.wordScorePreMultiplier, b.wordMultiplier);
  }

  /** The final score is the pre-multiplier score times the multiplier. */
  lemma WordScoreIsProduct(cfg: Config, word: string, b: ScoreBreakdown)
    requires WordScore(cfg, word) == Ok(b)
    ensures b.wordScore == b.wordScorePreMultiplier as real * b.wordMultiplier
  {
    ScaleIsProduct(b.wordScorePreMultiplier, b.wordMultiplier);
  }

  /** With every positional rule off, each existing letter score is the letter's table value. */
  lemma AllOffLetterScores(word: string, scores: seq<int>)
    requires LetterScores(AllOff, |word|, Lower(word)) == Ok(scores)
    ensures |scores| == |word|
    ensures forall k :: 0 <= k < |word| ==> Lower(word)[k] in LetterPoints && scores[k] == LetterPoints[Lower(word)[k]]
  {
    LetterScoresFacts(AllOff, |word|, Lower(word));
    forall k | 0 <= k < |word|
      ensures Lower(word)[k] in LetterPoints && scores[k] == LetterPoints[Lower(word)[k]]
    {
      LetterScoreFacts(AllOff, |word|, k, Lower(word)[k]);
    }
  }

  /** With every multiplicative modifier off, the multiplier is 1 and scaling changes nothing. */
  lemma AllOffMultiplier(word: string, pre: int)
    requires |word| > 0
    ensures WordMultiplier(AllOff, word) == 1.0
    ensures Scale(pre, WordMultiplier(AllOff, word)) == pre as real
  {
    var mods := Modifiers(AllOff, word);
    assert forall k :: 0 <= k < |mods| ==> Inactive(mods[k]);
    ApplyInactive(1.0, mods);
    ScaleIsProduct(pre, 1.0);
  }

  /** With every modifier off, each letter scores its table value, nothing multiplies and the
      score is the letter total plus the plain length bonus. */
  lemma WordScoreAllOff(word: string)
    requires WordScore(AllOff, word).Ok?
    ensures forall k :: 0 <= k < |word| ==> Lower(word)[k] in LetterPoints
    ensures |WordScore(AllOff, word).value.letterScores| == |word|
    ensures forall k :: 0 <= k < |word| ==> WordScore(AllOff, word).value.letterScores[k] == LetterPoints[Lower(word)[k]]
    ensures WordScore(AllOff, word).value.wordMultiplier == 1.0
    ensures WordScore(AllOff, word).value.wordScore
      == (WordScore(AllOff, word).value.totalLetterScores + LengthBonus(|word|, false)) as real
  {
    var b := WordScore(AllOff, word).value;
    WordScoreParts(AllOff, word, b);
    AllOffLetterScores(word, b.letterScores);
    assert ModifierBonus(AllOff, word) == 0;
    AllOffMultiplier(word, b.wordScorePreMultiplier);
  }

  /** With every flag off, the letters of "book" score their table values. */
  lemma BookLetterScores()
    ensures LetterScores(AllOff, 4, Lower("book")) == Ok([3, 1, 1, 5])
  {
    var word := "book";
    assert Lower(word) == word by {
      assert forall i :: 0 <= i < 4 ==> Lower(word)[i] == word[i];
    }
    LetterScoresFacts(AllOff, 4, word);
    var scores := LetterScores(AllOff, 4, word).value;
    AllOffLetterScores(word, scores);
    assert LetterPoints['b'] == 3 && LetterPoints['o'] == 1 && LetterPoints['k'] == 5;
    assert scores[0] == LetterPoints['b'];
    assert scores[1] == LetterPoints['o'];
    assert scores[2] == LetterPoints['o'];
    assert scores[3] == LetterPoints['k'];
    assert scores == [3, 1, 1, 5];
  }

  /** With every flag off, "book" scores its table values [3, 1, 1, 5], a total of 10, no
      length bonus and a multiplier of 1, so 10 points. */
  lemma BookExample()
    ensures WordScore(AllOff, "book") == Ok(ScoreBreakdown(10.0, [3, 1, 1, 5], 10, 10, 1.0))
  {
    var word := "book";
    var scores := [3, 1, 1, 5];
    BookLetterScores();
    assert Sum(scores) == 10 by {
      assert scores[..3] == [3, 1, 1] && [3, 1, 1][..2] == [3, 1] && [3, 1][..1] == [3] && [3][..0] == [];
    }
    LengthBonusShape(4, 4);
    AllOffMultiplier(word, 10);
    WordScoreOk(AllOff, word, scores, 10, 1.0);
  }
}
