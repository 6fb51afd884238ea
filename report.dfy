/** The older, self-contained scorer of src/main.ts and the report `printSortedWords` builds
    from it: the words of at least four letters, scored, in non-increasing score order. The
    older scorer has only the five-tile positional rule, the same length ladder, an
    unconditional `ifWordBeginsWithH` bonus and two multipliers. */
module Report {
  import opened Wrappers
  import opened Text
  import opened RunConstants
  import Constants
  import opened Score

  // ---------------------------------------------------------------------------------------
  // The older getWordScore

  /** One letter's points: the table value, tripled on the first and last tile of a five-letter
      word when `fiveTilesFirstAndLast3x` is set. The table is the one of constants.ts. */
  function LegacyLetterScore(cfg: MainConfig, n: nat, i: nat, c: char): Result<int, ScoreError>
  {
    if c !in Constants.LetterPoints || Constants.LetterPoints[c] == 0 then Err(MissingPoints(c))
    else if cfg.fiveTilesFirstAndLast3x && n == 5 && (i == 0 || i == 4) then Ok(3 * Constants.LetterPoints[c])
    else Ok(Constants.LetterPoints[c])
  }

  /** The `pointsArray` map over the lower-cased letters, stopping at the first throw. */
  function LegacyLetterScores(cfg: MainConfig, n: nat, lower: string): Result<seq<int>, ScoreError>
    decreases |lower|
  {
    if lower == [] then Ok([])
    else
      match LegacyLetterScores(cfg, n, lower[..|lower| - 1])
      case Err(e) => Err(e)
      case Ok(prefix) =>
        match LegacyLetterScore(cfg, n, |lower| - 1, lower[|lower| - 1])
        case Err(e) => Err(e)
        case Ok(v) => Ok(prefix + [v])
  }

  /** The newer scorer's configuration with only the rules the older one knows. */
  function AsConfig(cfg: MainConfig): Config
  {
    AllOff.(fiveTilesFirstAndLast3x := cfg.fiveTilesFirstAndLast3x)
  }

  /** On letters the older scorer agrees with the newer one restricted to the five-tile rule. */
  lemma LegacyLetterScoreAgrees(cfg: MainConfig, n: nat, i: nat, c: char)
    ensures LegacyLetterScore(cfg, n, i, c) == LetterScore(AsConfig(cfg), n, i, c)
  {
    LocalTableMatchesConstants();
  }

  lemma {:induction false} LegacyLetterScoresAgree(cfg: MainConfig, n: nat, lower: string)
    ensures LegacyLetterScores(cfg, n, lower) == LetterScores(AsConfig(cfg), n, lower)
    decreases |lower|
  {
    if lower != [] {
      LegacyLetterScoresAgree(cfg, n, lower[..|lower| - 1]);
      LegacyLetterScoreAgrees(cfg, n, |lower| - 1, lower[|lower| - 1]);
    }
  }

  /** `word.at(0) === word.at(-1)`: for the empty word both are `undefined`, hence equal. */
  predicate SameEnds(word: string)
  {
    |word| == 0 || word[0] == word[|word| - 1]
  }

  /** The two multiplicative modifiers of the older scorer, applied in the source's order. */
  function LegacyMultiplier(cfg: MainConfig, word: string): real
  {
    Scaled(Scaled(1.0, Doubles(cfg.ifFirstLetterEqualsLastLetter && SameEnds(word))),
           HalfAgain(cfg.ifSameLettersTogether && HasRepeats(word)))
  }

  /** The points before the multiplier: letter sum, length ladder and a flat 20 whenever
      `ifWordBeginsWithH` is set. */
  function LegacyPoints(cfg: MainConfig, word: string): Result<int, ScoreError>
  {
    match LegacyLetterScores(cfg, |word|, Lower(word))
    case Err(e) => Err(e)
    case Ok(scores) =>
      Ok(Sum(scores) + LengthBonus(|word|, cfg.longWordBooster) + (if cfg.ifWordBeginsWithH then 20 else 0))
  }

  /** The older `getWordScore`: points times multiplier. */
  function LegacyWordScore(cfg: MainConfig, word: string): Result<real, ScoreError>
  {
    match LegacyPoints(cfg, word)
    case Err(e) => Err(e)
    case Ok(points) => Ok(Scale(points, LegacyMultiplier(cfg, word)))
  }

  /** The `pointsArray` map: the callback builds a local multiplier for every letter. */
  method LegacyPointsArray(cfg: MainConfig, word: string, lowercaseLetters: string) returns (r: Result<seq<int>, ScoreError>)
    requires |lowercaseLetters| == |word|
    ensures r == LegacyLetterScores(cfg, |word|, lowercaseLetters)
  {
    var pointsArray: seq<int> := [];
    var i := 0;
    while i < |lowercaseLetters|
      invariant 0 <= i <= |lowercaseLetters|
      invariant LegacyLetterScores(cfg, |word|, lowercaseLetters[..i]) == Ok(pointsArray)
    {
      var letter := lowercaseLetters[i];
      assert lowercaseLetters[..i + 1][..i] == lowercaseLetters[..i];
      if letter !in Constants.LetterPoints || Constants.LetterPoints[letter] == 0 {
        LegacyLetterScoresPrefixErr(cfg, |word|, lowercaseLetters, i + 1);
        return Err(MissingPoints(letter));
      }
      var points := Constants.LetterPoints[letter];
      var multiplier := 1;
      if cfg.fiveTilesFirstAndLast3x && |word| == 5 && (i == 0 || i == 4) {
        multiplier := multiplier * 3;
      }
      pointsArray := pointsArray + [points * multiplier];
      i := i + 1;
    }
    assert lowercaseLetters[..i] == lowercaseLetters;
    return Ok(pointsArray);
  }

  lemma {:induction false} LegacyLetterScoresPrefixErr(cfg: MainConfig, n: nat, lower: string, i: nat)
    requires i <= |lower|
    requires LegacyLetterScores(cfg, n, lower[..i]).Err?
    ensures LegacyLetterScores(cfg, n, lower) == LegacyLetterScores(cfg, n, lower[..i])
    decreases |lower| - i
  {
    if i < |lower| {
      assert lower[..i + 1][..i] == lower[..i];
      LegacyLetterScoresPrefixErr(cfg, n, lower, i + 1);
    } else {
      assert lower[..i] == lower;
    }
  }

  /** The older `getWordScore` with its running `points` and `multiplier`. */
  method LegacyGetWordScore(cfg: MainConfig, word: string) returns (r: Result<real, ScoreError>)
    ensures r == LegacyWordScore(cfg, word)
  {
    var repeatingLetters := HasRepeatingLetters(word);
    var points := LegacyComputePoints(cfg, word);
    if points.Err? {
      return Err(points.error);
    }
    var multiplier := LegacyComputeMultiplier(cfg, word, repeatingLetters);
    return Ok(Scale(points.value, multiplier));
  }

  /** The points stage of the older `getWordScore`: the letter points, their sum, the length
      ladder and the `ifWordBeginsWithH` bonus. */
  method LegacyComputePoints(cfg: MainConfig, word: string) returns (r: Result<int, ScoreError>)
    ensures r == LegacyPoints(cfg, word)
  {
    var lowercaseLetters := Lower(word);
    var pointsArray := LegacyPointsArray(cfg, word, lowercaseLetters);
    if pointsArray.Err? {
      return Err(pointsArray.error);
    }
    ghost var scores := pointsArray.value;
    var points := Sum(pointsArray.value);
    points := AddLengthBonus(word, cfg.longWordBooster, points);
    if cfg.ifWordBeginsWithH {
      points := points + 20;
    }
    LegacyPointsOk(cfg, word, scores, points);
    return Ok(points);
  }

  lemma LegacyPointsOk(cfg: MainConfig, word: string, scores: seq<int>, points: int)
    requires LegacyLetterScores(cfg, |word|, Lower(word)) == Ok(scores)
    requires points == Sum(scores) + LengthBonus(|word|, cfg.longWordBooster) + (if cfg.ifWordBeginsWithH then 20 else 0)
    ensures LegacyPoints(cfg, word) == Ok(points)
  {
  }

  /** The multiplier stage of the older `getWordScore`. */
  method LegacyComputeMultiplier(cfg: MainConfig, word: string, repeatingLetters: bool) returns (multiplier: real)
    requires repeatingLetters == HasRepeats(word)
    ensures multiplier == LegacyMultiplier(cfg, word)
  {
    multiplier := 1.0;
    if cfg.ifFirstLetterEqualsLastLetter && (|word| == 0 || word[0] == word[|word| - 1]) {
      multiplier := multiplier * 2.0;
    }
    if cfg.ifSameLettersTogether && repeatingLetters {
      multiplier := multiplier * 1.5;
    }
  }

  // ---------------------------------------------------------------------------------------
  // Properties of the older scorer

  /** The multiplier is 1, 1.5, 2 or 3. */
  lemma LegacyMultiplierValues(cfg: MainConfig, word: string)
    ensures LegacyMultiplier(cfg, word) in {1.0, 1.5, 2.0, 3.0}
    ensures LegacyMultiplier(cfg, word) == 3.0 <==>
      cfg.ifFirstLetterEqualsLastLetter && SameEnds(word) && cfg.ifSameLettersTogether && HasRepeats(word)
  {
  }

  /** With the configuration src/main.ts ships (only `ifFirstLetterEqualsLastLetter` on) the
      older multiplier is 2 for a word whose ends agree and 1 otherwise. */
  lemma MainShippedMultiplier(word: string)
    ensures LegacyMultiplier(MainShipped, word) == (if SameEnds(word) then 2.0 else 1.0)
  {
  }

  /** The `ifWordBeginsWithH` bonus does not look at the word: it adds 20 points to every
      scorable word, whatever its first letter. */
  lemma LegacyBeginsWithHIgnoresWord(cfg: MainConfig, word: string)
    requires LegacyPoints(cfg.(ifWordBeginsWithH := false), word).Ok?
    ensures LegacyPoints(cfg.(ifWordBeginsWithH := true), word)
      == Ok(LegacyPoints(cfg.(ifWordBeginsWithH := false), word).value + 20)
  {
    LegacyLetterScoresSameRules(cfg.(ifWordBeginsWithH := true), cfg.(ifWordBeginsWithH := false), |word|, Lower(word));
  }

  /** The letter scores depend only on the five-tile rule. */
  lemma {:induction false} LegacyLetterScoresSameRules(a: MainConfig, b: MainConfig, n: nat, lower: string)
    requires a.fiveTilesFirstAndLast3x == b.fiveTilesFirstAndLast3x
    ensures LegacyLetterScores(a, n, lower) == LegacyLetterScores(b, n, lower)
    decreases |lower|
  {
    if lower != [] {
      LegacyLetterScoresSameRules(a, b, n, lower[..|lower| - 1]);
    }
  }

  /** The empty word does not throw in the older scorer: it scores the `ifWordBeginsWithH`
      bonus, doubled by `ifFirstLetterEqualsLastLetter` since both ends are `undefined`. */
  lemma LegacyEmptyWord(cfg: MainConfig)
    ensures LegacyWordScore(cfg, "") ==
      Ok((if cfg.ifWordBeginsWithH then 20.0 else 0.0) * (if cfg.ifFirstLetterEqualsLastLetter then 2.0 else 1.0))
  {
    LengthBonusShape(0, 0);
    var points := if cfg.ifWordBeginsWithH then 20 else 0;
    ScaleIsProduct(points, LegacyMultiplier(cfg, ""));
  }

  /** A letter outside a–z makes the older scorer throw for the first such letter. */
  lemma LegacyWordScoreOutcome(cfg: MainConfig, word: string)
    ensures LegacyWordScore(cfg, word).Ok? <==> forall k :: 0 <= k < |word| ==> 'a' <= Lower(word)[k] <= 'z'
  {
    LegacyLetterScoresAgree(cfg, |word|, Lower(word));
    LetterScoresFacts(AsConfig(cfg), |word|, Lower(word));
  }

  /** The score is the points times the multiplier. */
  lemma LegacyWordScoreIsProduct(cfg: MainConfig, word: string, points: int, score: real)
    requires LegacyPoints(cfg, word) == Ok(points) && LegacyWordScore(cfg, word) == Ok(score)
    ensures score == points as real * LegacyMultiplier(cfg, word)
  {
    ScaleIsProduct(points, LegacyMultiplier(cfg, word));
  }

  // ---------------------------------------------------------------------------------------
  // printSortedWords

  /** A report line: a word and its score. */
  datatype Entry = Entry(word: string, score: real)

  /** `words.filter((word) => word.length >= 4)`. */
  function BigWords(words: seq<string>): (r: seq<string>)
  {
    if words == [] then []
    else
      var rest := BigWords(words[..|words| - 1]);
      var w := words[|words| - 1];
      if Utf16Length(w) >= 4 then rest + [w] else rest
  }

  /** The filter keeps every word of at least four UTF-16 units, as often as it occurs, and
      nothing else. */
  lemma {:induction false} BigWordsFacts(words: seq<string>)
    ensures forall w :: w in BigWords(words) <==> w in words && Utf16Length(w) >= 4
    ensures forall w :: Count(BigWords(words), w) == (if Utf16Length(w) >= 4 then Count(words, w) else 0)
    ensures |BigWords(words)| <= |words|
  {
    if words != [] {
      var front := words[..|words| - 1];
      var w := words[|words| - 1];
      BigWordsFacts(front);
      assert words == front + [w];
      var rest := BigWords(front);
      forall v
        ensures Count(BigWords(words), v) == (if Utf16Length(v) >= 4 then Count(words, v) else 0)
      {
        CountAppend(front, [w], v);
        if Utf16Length(w) >= 4 {
          CountAppend(rest, [w], v);
        } else if Utf16Length(v) >= 4 {
          assert v != w;
        }
      }
    }
  }

  /** `bigWords.map((word) => ({ word, score: getWordScore(word) }))`, which throws with the
      first word that cannot be scored. */
  function ScoreAll(cfg: MainConfig, words: seq<string>): Result<seq<Entry>, ScoreError>
  {
    if words == [] then Ok([])
    else
      match ScoreAll(cfg, words[..|words| - 1])
      case Err(e) => Err(e)
      case Ok(prefix) =>
        var w := words[|words| - 1];
        match LegacyWordScore(cfg, w)
        case Err(e) => Err(e)
        case Ok(s) => Ok(prefix + [Entry(w, s)])
  }

  /** Scoring keeps the words in order, each paired with its score. */
  lemma {:induction false} ScoreAllFacts(cfg: MainConfig, words: seq<string>)
    requires ScoreAll(cfg, words).Ok?
    ensures |ScoreAll(cfg, words).value| == |words|
    ensures forall i :: 0 <= i < |words| ==>
      && ScoreAll(cfg, words).value[i].word == words[i]
      && LegacyWordScore(cfg, words[i]) == Ok(ScoreAll(cfg, words).value[i].score)
  {
    if words != [] {
      ScoreAllFacts(cfg, words[..|words| - 1]);
    }
  }

  /** Place `x` before the first entry that does not score more than it. */
  function Insert(x: Entry, sorted: seq<Entry>): (r: seq<Entry>)
  {
    if sorted == [] || sorted[0].score <= x.score then [x] + sorted
    else [sorted[0]] + Insert(x, sorted[1..])
  }

  /** `sort((a, b) => b.score - a.score)`: a stable sort by non-increasing score, as
      `Array.prototype.sort` is stable. */
  function SortByScore(entries: seq<Entry>): seq<Entry>
  {
    if entries == [] then [] else Insert(entries[0], SortByScore(entries[1..]))
  }

  predicate NonIncreasing(s: seq<Entry>)
  {
    forall i, j :: 0 <= i < j < |s| ==> s[i].score >= s[j].score
  }

  /** The entries of `s` with score `v`, in order. */
  function WithScore(s: seq<Entry>, v: real): seq<Entry>
  {
    if s == [] then []
    else (if s[0].score == v then [s[0]] else []) + WithScore(s[1..], v)
  }

  lemma {:induction false} InsertPermutes(x: Entry, t: seq<Entry>)
    ensures multiset(Insert(x, t)) == multiset{x} + multiset(t)
    decreases |t|
  {
    if t != [] && t[0].score > x.score {
      InsertPermutes(x, t[1..]);
      assert t == [t[0]] + t[1..];
    }
  }

  /** Inserting keeps every score under a bound that `x` and `t` are under. */
  lemma {:induction false} InsertBounded(x: Entry, t: seq<Entry>, bound: real)
    requires x.score <= bound && forall k :: 0 <= k < |t| ==> t[k].score <= bound
    ensures forall k :: 0 <= k < |Insert(x, t)| ==> Insert(x, t)[k].score <= bound
    decreases |t|
  {
    if t != [] && t[0].score > x.score {
      InsertBounded(x, t[1..], bound);
      assert Insert(x, t) == [t[0]] + Insert(x, t[1..]);
    }
  }

  lemma {:induction false} InsertSorted(x: Entry, t: seq<Entry>)
    requires NonIncreasing(t)
    ensures NonIncreasing(Insert(x, t))
    decreases |t|
  {
    if t != [] && t[0].score > x.score {
      var tail := t[1..];
      InsertSorted(x, tail);
      InsertBounded(x, tail, t[0].score);
      assert Insert(x, t) == [t[0]] + Insert(x, tail);
    }
  }

  lemma WithScoreCons(e: Entry, s: seq<Entry>, v: real)
    ensures WithScore([e] + s, v) == (if e.score == v then [e] else []) + WithScore(s, v)
  {
    assert ([e] + s)[0] == e && ([e] + s)[1..] == s;
  }

  /** Among entries of any one score, `x` comes first and the rest keep their order. */
  lemma {:induction false} InsertStable(x: Entry, t: seq<Entry>, v: real)
    ensures WithScore(Insert(x, t), v) == (if x.score == v then [x] else []) + WithScore(t, v)
    decreases |t|
  {
    if t != [] && t[0].score > x.score {
      var tail := t[1..];
      InsertStable(x, tail, v);
      WithScoreCons(t[0], Insert(x, tail), v);
      WithScoreCons(t[0], tail, v);
      assert t == [t[0]] + tail;
      if x.score == v {
        assert t[0].score != v;
      } else {
        assert WithScore(Insert(x, tail), v) == WithScore(tail, v);
      }
    } else {
      WithScoreCons(x, t, v);
    }
  }

  /** The sort yields a non-increasing permutation of its input that keeps entries of equal
      score in their original order. */
  lemma {:induction false} SortByScoreFacts(entries: seq<Entry>)
    ensures multiset(SortByScore(entries)) == multiset(entries)
    ensures NonIncreasing(SortByScore(entries))
    ensures forall v :: WithScore(SortByScore(entries), v) == WithScore(entries, v)
    decreases |entries|
  {
    if entries != [] {
      var rest := SortByScore(entries[1..]);
      SortByScoreFacts(entries[1..]);
      InsertPermutes(entries[0], rest);
      InsertSorted(entries[0], rest);
      forall v
        ensures WithScore(SortByScore(entries), v) == WithScore(entries, v)
      {
        InsertStable(entries[0], rest, v);
      }
      assert entries == [entries[0]] + entries[1..];
    }
  }

  /** What `printSortedWords` prints, as (word, score) pairs in print order. */
  function SortedReport(cfg: MainConfig, words: seq<string>): Result<seq<Entry>, ScoreError>
  {
    match ScoreAll(cfg, BigWords(words))
    case Err(e) => Err(e)
    case Ok(entries) => Ok(SortByScore(entries))
  }

  /** The report lists the words of at least four letters, each with its older-scorer score,
      every one as often as the filter keeps it, in non-increasing score order. */
  lemma SortedReportFacts(cfg: MainConfig, words: seq<string>)
    requires SortedReport(cfg, words).Ok?
    ensures var r := SortedReport(cfg, words).value;
      && NonIncreasing(r)
      && |r| == |BigWords(words)|
      && (forall i :: 0 <= i < |r| ==>
            r[i].word in words && Utf16Length(r[i].word) >= 4 && LegacyWordScore(cfg, r[i].word) == Ok(r[i].score))
      && multiset(r) == multiset(ScoreAll(cfg, BigWords(words)).value)
  {
    var big := BigWords(words);
    var entries := ScoreAll(cfg, big).value;
    ScoreAllFacts(cfg, big);
    SortByScoreFacts(entries);
    BigWordsFacts(words);
    var r := SortByScore(entries);
    assert |r| == |multiset(r)| == |multiset(entries)| == |entries|;
    forall i | 0 <= i < |r|
      ensures r[i].word in words && Utf16Length(r[i].word) >= 4 && LegacyWordScore(cfg, r[i].word) == Ok(r[i].score)
    {
      assert r[i] in multiset(entries);
      var j :| 0 <= j < |entries| && entries[j] == r[i];
      assert big[j] in big;
    }
  }
}
