/** The letter-board search of src/main.ts: the available-letter map built from the tiles
    (`getPossibleWords`), the wildcard-aware containment test `canMakeWordWithLetters`, and the
    dictionary filter. A word can be made exactly when the letters it is short of, counted with
    multiplicity, fit into the wildcard (`"*"`) budget. */
module Feasibility {
  import opened Wrappers
  import opened Text
  import TileText

  /** The available-letter map: each lower-cased tile string and how many tiles carry it. */
  type Letters = map<string, nat>

  /** `map.get(key) ?? 0`. */
  function Have(available: Letters, key: string): nat
  {
    if key in available then available[key] else 0
  }

  /** The wildcard budget: the number of `"*"` tiles. */
  function Wildcards(available: Letters): nat
  {
    Have(available, "*")
  }

  // ---------------------------------------------------------------------------------------
  // The available-letter map

  /** Every tile lower-cased (`letter.toLowerCase()` on each element). */
  function LowerAll(tiles: seq<string>): (r: seq<string>)
    ensures |r| == |tiles| && forall i :: 0 <= i < |tiles| ==> r[i] == Lower(tiles[i])
  {
    seq(|tiles|, i requires 0 <= i < |tiles| => Lower(tiles[i]))
  }

  /** The tally of `tiles`, one entry per distinct tile. */
  function Tally(tiles: seq<string>): Letters
  {
    if tiles == [] then map[]
    else
      var rest := Tally(tiles[..|tiles| - 1]);
      var t := tiles[|tiles| - 1];
      rest[t := Have(rest, t) + 1]
  }

  /** The tally sends each tile to its multiplicity and has no other keys. */
  lemma {:induction false} TallyCounts(tiles: seq<string>)
    ensures forall key :: key in Tally(tiles) <==> key in tiles
    ensures forall key :: Have(Tally(tiles), key) == Count(tiles, key)
  {
    if tiles != [] {
      var front := tiles[..|tiles| - 1];
      TallyCounts(front);
      assert tiles == front + [tiles[|tiles| - 1]];
    }
  }

  /** The map-building loop of `getPossibleWords`. */
  method BuildAvailableLetters(uppercaseLetters: seq<string>) returns (availableLetters: Letters)
    ensures availableLetters == Tally(LowerAll(uppercaseLetters))
    ensures forall key :: Have(availableLetters, key) == Count(LowerAll(uppercaseLetters), key)
  {
    var letters := LowerAll(uppercaseLetters);
    availableLetters := map[];
    var i := 0;
    while i < |letters|
      invariant 0 <= i <= |letters|
      invariant availableLetters == Tally(letters[..i])
    {
      assert letters[..i + 1][..i] == letters[..i];
      availableLetters := availableLetters[letters[i] := Have(availableLetters, letters[i]) + 1];
      i := i + 1;
    }
    assert letters[..i] == letters;
    TallyCounts(letters);
  }

  // ---------------------------------------------------------------------------------------
  // The word's letters

  /** The distinct elements of `s` in order of first occurrence: the iteration order of a
      JavaScript `Map` filled from `s`. */
  function Distinct(s: string): string
  {
    if s == [] then []
    else
      var d := Distinct(s[..|s| - 1]);
      if s[|s| - 1] in d then d else d + [s[|s| - 1]]
  }

  predicate NoDuplicates(s: string)
  {
    forall i, j :: 0 <= i < j < |s| ==> s[i] != s[j]
  }

  /** `Distinct(s)` lists every element of `s` exactly once and nothing else. */
  lemma {:induction false} DistinctFacts(s: string)
    ensures forall c :: c in Distinct(s) <==> c in s
    ensures NoDuplicates(Distinct(s))
  {
    if s != [] {
      var front := s[..|s| - 1];
      DistinctFacts(front);
      assert s == front + [s[|s| - 1]];
    }
  }

  /** How many more copies of `c` the word needs than the board has. */
  function Shortfall(lw: string, available: Letters, c: char): nat
  {
    var need, have := Count(lw, c), Have(available, [c]);
    if have < need then need - have else 0
  }

  /** The summed shortfall of the letters `keys`. */
  function DeficitSum(keys: string, lw: string, available: Letters): nat
  {
    if keys == [] then 0
    else DeficitSum(keys[..|keys| - 1], lw, available) + Shortfall(lw, available, keys[|keys| - 1])
  }

  /** The total shortfall of the lower-cased word `lw`: every distinct letter once. */
  function TotalDeficit(lw: string, available: Letters): nat
  {
    DeficitSum(Distinct(lw), lw, available)
  }

  /** The containment test: the word's total shortfall fits into the wildcard budget. */
  predicate CanMake(word: string, available: Letters)
  {
    TotalDeficit(Lower(word), available) <= Wildcards(available)
  }

  // ---------------------------------------------------------------------------------------
  // The early-exit walk over the word's letters

  /** The source's second loop, over the letters in `order`: spend the shortfalls from the
      budget one letter at a time and give up as soon as it goes negative. */
  function Walk(budget: int, order: string, lw: string, available: Letters): bool
    decreases |order|
  {
    if order == [] then true
    else
      var d := Shortfall(lw, available, order[0]);
      if d > 0 && budget - d < 0 then false
      else Walk(budget - d, order[1..], lw, available)
  }

  lemma {:induction false} DeficitSumFront(keys: string, lw: string, available: Letters)
    requires keys != []
    ensures DeficitSum(keys, lw, available) == Shortfall(lw, available, keys[0]) + DeficitSum(keys[1..], lw, available)
    decreases |keys|
  {
    if |keys| > 1 {
      var front := keys[..|keys| - 1];
      DeficitSumFront(front, lw, available);
      assert front[1..] == keys[1..][..|keys[1..]| - 1];
    } else {
      assert keys[..0] == [] && keys[1..] == [];
    }
  }

  /** The early exit does not change the answer: the walk succeeds exactly when the summed
      shortfall of its letters fits into the budget. */
  lemma {:induction false} WalkIsDeficitSum(budget: int, order: string, lw: string, available: Letters)
    requires budget >= 0
    ensures Walk(budget, order, lw, available) <==> DeficitSum(order, lw, available) <= budget
    decreases |order|
  {
    if order != [] {
      DeficitSumFront(order, lw, available);
      var d := Shortfall(lw, available, order[0]);
      if !(d > 0 && budget - d < 0) {
        WalkIsDeficitSum(budget - d, order[1..], lw, available);
      }
    }
  }

  lemma DeficitSumAppend(keys: string, c: char, lw: string, available: Letters)
    ensures DeficitSum(keys + [c], lw, available) == DeficitSum(keys, lw, available) + Shortfall(lw, available, c)
  {
    assert (keys + [c])[..|keys|] == keys;
  }

  /** The summed shortfall of two letter sequences one after the other. */
  lemma {:induction false} DeficitSumConcat(a: string, b: string, lw: string, available: Letters)
    ensures DeficitSum(a + b, lw, available) == DeficitSum(a, lw, available) + DeficitSum(b, lw, available)
    decreases |b|
  {
    if b == [] {
      assert a + b == a;
    } else {
      var front := b[..|b| - 1];
      DeficitSumConcat(a, front, lw, available);
      assert (a + b)[..|a + b| - 1] == a + front;
    }
  }

  /** Taking the letter at position `j` out of the sum and adding it back separately. */
  lemma DeficitSumRemove(keys: string, j: nat, lw: string, available: Letters)
    requires j < |keys|
    ensures DeficitSum(keys, lw, available)
      == DeficitSum(keys[..j] + keys[j + 1..], lw, available) + Shortfall(lw, available, keys[j])
  {
    var before, after := keys[..j], keys[j + 1..];
    assert keys == before + ([keys[j]] + after);
    DeficitSumConcat(before, [keys[j]] + after, lw, available);
    DeficitSumConcat([keys[j]], after, lw, available);
    DeficitSumConcat(before, after, lw, available);
    assert [keys[j]][..0] == [];
  }

  /** The summed shortfall does not depend on the order of the letters. */
  lemma {:induction false} DeficitSumPermutation(a: string, b: string, lw: string, available: Letters)
    requires multiset(a) == multiset(b)
    ensures DeficitSum(a, lw, available) == DeficitSum(b, lw, available)
    decreases |a|
  {
    if a != [] {
      var last := |a| - 1;
      var x := a[last];
      assert x in multiset(b);
      var j :| 0 <= j < |b| && b[j] == x;
      MultisetRemove(b, j);
      MultisetRemove(a, last);
      assert a[..last] + a[last + 1..] == a[..last];
      DeficitSumPermutation(a[..last], b[..j] + b[j + 1..], lw, available);
      DeficitSumRemove(b, j, lw, available);
    } else {
      assert |b| == |multiset(b)| == 0;
    }
  }

  /** Whatever order the word's distinct letters are walked in, the early-exit walk from the
      wildcard budget gives `CanMake`: the result does not depend on map iteration order. */
  lemma WalkOrderIndependent(word: string, available: Letters, order: string)
    requires multiset(order) == multiset(Distinct(Lower(word)))
    ensures Walk(Wildcards(available), order, Lower(word), available) == CanMake(word, available)
  {
    var lw := Lower(word);
    DeficitSumPermutation(order, Distinct(lw), lw, available);
    WalkIsDeficitSum(Wildcards(available), order, lw, available);
  }

  // ---------------------------------------------------------------------------------------
  // canMakeWordWithLetters

  /** The first loop of `canMakeWordWithLetters`: the word's letter counts in a map, and the
      order in which letters first appear, which is the map's iteration order. */
  method CountWordLetters(lw: string) returns (wordLetterCount: map<char, nat>, order: string)
    ensures order == Distinct(lw)
    ensures forall c :: c in wordLetterCount <==> c in lw
    ensures forall c :: c in wordLetterCount ==> wordLetterCount[c] == Count(lw, c)
  {
    wordLetterCount := map[];
    order := [];
    var i := 0;
    while i < |lw|
      invariant 0 <= i <= |lw|
      invariant order == Distinct(lw[..i])
      invariant forall c :: c in wordLetterCount <==> c in lw[..i]
      invariant forall c :: c in wordLetterCount ==> wordLetterCount[c] == Count(lw[..i], c)
    {
      var letter := lw[i];
      assert lw[..i + 1][..i] == lw[..i];
      assert lw[..i + 1] == lw[..i] + [letter];
      DistinctFacts(lw[..i]);
      if letter !in wordLetterCount {
        order := order + [letter];
      }
      var previous := if letter in wordLetterCount then wordLetterCount[letter] else 0;
      CountZero(lw[..i], letter);
      wordLetterCount := wordLetterCount[letter := previous + 1];
      i := i + 1;
    }
    assert lw[..i] == lw;
  }

  /** `canMakeWordWithLetters`: tally the word's letters, then walk the tally and spend
      shortfalls from the wildcard budget, returning early once it is exhausted. */
  method CanMakeWordWithLetters(word: string, availableLetters: Letters) returns (r: bool)
    ensures r == CanMake(word, availableLetters)
  {
    var wildcardsAvailable: int := Have(availableLetters, "*");
    var lw := Lower(word);
    var wordLetterCount, order := CountWordLetters(lw);
    DistinctFacts(lw);

    var k := 0;
    while k < |order|
      invariant 0 <= k <= |order|
      invariant 0 <= wildcardsAvailable == Wildcards(availableLetters) - DeficitSum(order[..k], lw, availableLetters)
    {
      var letter := order[k];
      var count := wordLetterCount[letter];
      var availableCount := Have(availableLetters, [letter]);
      assert order[..k + 1] == order[..k] + [letter];
      DeficitSumAppend(order[..k], letter, lw, availableLetters);
      if availableCount < count {
        var deficit := count - availableCount;
        wildcardsAvailable := wildcardsAvailable - deficit;
        if wildcardsAvailable < 0 {
          DeficitSumPrefix(order, k + 1, lw, availableLetters);
          return false;
        }
      }
      k := k + 1;
    }
    assert order[..k] == order;
    return true;
  }

  /** A prefix's summed shortfall never exceeds the whole sum. */
  lemma {:induction false} DeficitSumPrefix(keys: string, k: nat, lw: string, available: Letters)
    requires k <= |keys|
    ensures DeficitSum(keys[..k], lw, available) <= DeficitSum(keys, lw, available)
    decreases |keys| - k
  {
    if k < |keys| {
      DeficitSumPrefix(keys, k + 1, lw, available);
      assert keys[..k + 1][..k] == keys[..k];
    } else {
      assert keys[..k] == keys;
    }
  }

  // ---------------------------------------------------------------------------------------
  // Properties of the containment test

  /** Summing the shortfall over letters that each appear once: zero exactly when no letter is
      short. */
  lemma {:induction false} DeficitSumZero(keys: string, lw: string, available: Letters)
    ensures DeficitSum(keys, lw, available) == 0 <==>
      forall i :: 0 <= i < |keys| ==> Count(lw, keys[i]) <= Have(available, [keys[i]])
    decreases |keys|
  {
    if keys != [] {
      DeficitSumZero(keys[..|keys| - 1], lw, available);
    }
  }

  /** Without wildcards the test is plain multiset containment: every letter of the lower-cased
      word occurs on the board at least as often as in the word. */
  lemma CanMakeWithoutWildcards(word: string, available: Letters)
    requires Wildcards(available) == 0
    ensures CanMake(word, available) <==> forall c :: Count(Lower(word), c) <= Have(available, [c])
  {
    var lw := Lower(word);
    var keys := Distinct(lw);
    DistinctFacts(lw);
    DeficitSumZero(keys, lw, available);
    if CanMake(word, available) {
      forall c
        ensures Count(lw, c) <= Have(available, [c])
      {
        CountZero(lw, c);
        if c in lw {
          var i :| 0 <= i < |keys| && keys[i] == c;
        }
      }
    }
  }

  /** Raising any count on the board, the wildcard count included, never makes a word
      unmakeable. */
  lemma CanMakeMonotone(word: string, a: Letters, b: Letters)
    requires forall key :: Have(a, key) <= Have(b, key)
    requires CanMake(word, a)
    ensures CanMake(word, b)
  {
    DeficitSumMonotone(Distinct(Lower(word)), Lower(word), a, b);
  }

  lemma {:induction false} DeficitSumMonotone(keys: string, lw: string, a: Letters, b: Letters)
    requires forall key :: Have(a, key) <= Have(b, key)
    ensures DeficitSum(keys, lw, b) <= DeficitSum(keys, lw, a)
    decreases |keys|
  {
    if keys != [] {
      DeficitSumMonotone(keys[..|keys| - 1], lw, a, b);
      var c := keys[|keys| - 1];
      assert Have(a, [c]) <= Have(b, [c]);
    }
  }

  /** The summed shortfall never reads a key that is not one character long. */
  lemma {:induction false} DeficitSumLongKey(keys: string, lw: string, available: Letters, k: string, v: nat)
    requires |k| != 1
    ensures DeficitSum(keys, lw, available) == DeficitSum(keys, lw, available[k := v])
    decreases |keys|
  {
    if keys != [] {
      DeficitSumLongKey(keys[..|keys| - 1], lw, available, k, v);
      assert [keys[|keys| - 1]] != k;
    }
  }

  /** A multi-letter key is never looked up: adding it, or setting it to any count, leaves every
      word's verdict as it was. */
  lemma LongKeyIgnored(word: string, available: Letters, k: string, v: nat)
    requires |k| != 1
    ensures CanMake(word, available) == CanMake(word, available[k := v])
  {
    DeficitSumLongKey(Distinct(Lower(word)), Lower(word), available, k, v);
    assert k != "*";
  }

  /** Adding a letter `x` to the word adds one shortfall for each time `x` is among the keys,
      when the board has none of those letters. */
  lemma {:induction false} DeficitSumSnoc(keys: string, lw: string, x: char, available: Letters)
    requires forall i :: 0 <= i < |keys| ==> Have(available, [keys[i]]) == 0
    ensures DeficitSum(keys, lw + [x], available) == DeficitSum(keys, lw, available) + Count(keys, x)
    decreases |keys|
  {
    if keys != [] {
      DeficitSumSnoc(keys[..|keys| - 1], lw + [x], x, available);
      DeficitSumSnoc(keys[..|keys| - 1], lw, x, available);
      CountAppend(lw, [x], keys[|keys| - 1]);
    }
  }

  /** An element of a list without duplicates occurs in it once. */
  lemma {:induction false} CountOnce(keys: string, x: char)
    requires NoDuplicates(keys) && x in keys
    ensures Count(keys, x) == 1
    decreases |keys|
  {
    var front := keys[..|keys| - 1];
    assert keys == front + [keys[|keys| - 1]];
    if x in front {
      CountOnce(front, x);
    } else {
      CountZero(front, x);
    }
  }

  /** With none of its letters on the board, the word falls short by its whole length. */
  lemma {:induction false} DeficitSumWholeWord(keys: string, lw: string, available: Letters)
    requires NoDuplicates(keys) && forall i :: 0 <= i < |lw| ==> lw[i] in keys
    requires forall i :: 0 <= i < |keys| ==> Have(available, [keys[i]]) == 0
    ensures DeficitSum(keys, lw, available) == |lw|
    decreases |lw|
  {
    if lw == [] {
      DeficitSumZero(keys, lw, available);
    } else {
      var front := lw[..|lw| - 1];
      var x := lw[|lw| - 1];
      assert lw == front + [x];
      DeficitSumWholeWord(keys, front, available);
      DeficitSumSnoc(keys, front, x, available);
      CountOnce(keys, x);
    }
  }

  /** A board of `n` wildcards and nothing else makes exactly the words of at most `n` letters
      (a `*` in the word itself would look up the wildcard key like a letter). */
  lemma WildcardOnlyBoard(word: string, n: nat)
    requires '*' !in Lower(word)
    ensures CanMake(word, map["*" := n]) <==> |word| <= n
  {
    var lw := Lower(word);
    var keys := Distinct(lw);
    var available: Letters := map["*" := n];
    DistinctFacts(lw);
    assert Wildcards(available) == n;
    forall i | 0 <= i < |keys|
      ensures Have(available, [keys[i]]) == 0
    {
      assert keys[i] in lw;
    }
    DeficitSumWholeWord(keys, lw, available);
  }

  /** A multi-letter tile is a key of its own that no single letter of a word looks up: the
      tiles `qu`, `i` and `t` do not make "quit". */
  lemma SequenceTileNotUsed()
    ensures !CanMake("quit", Tally(["qu", "i", "t"]))
  {
    var tiles := ["qu", "i", "t"];
    var available := Tally(tiles);
    TallyCounts(tiles);
    assert Count(tiles, "*") == 0 && Count(tiles, "q") == 0 by {
      assert tiles[..2] == ["qu", "i"] && tiles[..2][..1] == ["qu"] && tiles[..2][..1][..0] == [];
    }
    CanMakeWithoutWildcards("quit", available);
    assert Lower("quit")[0] == 'q';
    CountZero(Lower("quit"), 'q');
  }

  /** Spelling a string out letter by letter keeps each letter's count. */
  lemma {:induction false} CountSpread(s: string, c: char)
    ensures Count(TileText.Spread(s), [c]) == Count(s, c)
    decreases |s|
  {
    if s != [] {
      var front := s[..|s| - 1];
      CountSpread(front, c);
      assert TileText.Spread(s)[..|s| - 1] == TileText.Spread(front);
    }
  }

  /** A board whose tiles spell out a word letter by letter makes that word. */
  lemma SpelledOutBoard(word: string)
    ensures CanMake(word, Tally(TileText.Spread(Lower(word))))
  {
    var lw := Lower(word);
    var tiles := TileText.Spread(lw);
    var available := Tally(tiles);
    TallyCounts(tiles);
    forall c | true
      ensures Count(lw, c) <= Have(available, [c])
    {
      CountSpread(lw, c);
    }
    DeficitSumZero(Distinct(lw), lw, available);
  }

  /** In the pipeline of src/main.ts the older tile reader hands a `qu` tile on as the letters
      `q` and `u`, so the board `qu`, `i`, `t` does make "quit". */
  lemma SplitQuTileMakesQuit()
    ensures TileText.OlderNormalise(Some("qu")) == Ok(Some(["q", "u"]))
    ensures CanMake("quit", Tally(["q", "u", "i", "t"]))
  {
    assert TileText.OlderClean("qu") == "qu" by {
      TileText.FilterKeepsAll("qu", c => c != ' ');
    }
    assert Utf16Length("qu") == 2 by {
      assert "qu"[..1] == "q" && "q"[..0] == "";
    }
    TileText.OlderDecideCases("qu");
    assert Lower("quit") == "quit";
    assert TileText.Spread("quit") == ["q", "u", "i", "t"];
    SpelledOutBoard("quit");
  }

  // ---------------------------------------------------------------------------------------
  // getPossibleWords

  /** The dictionary words that are non-empty and can be made, in dictionary order. */
  function PossibleWords(words: seq<string>, available: Letters): seq<string>
  {
    if words == [] then []
    else
      var rest := PossibleWords(words[..|words| - 1], available);
      var w := words[|words| - 1];
      if w != "" && CanMake(w, available) then rest + [w] else rest
  }

  /** A word is kept exactly when it is in the dictionary, non-empty and can be made; and
      each kept word is kept as often as it occurs. */
  lemma {:induction false} PossibleWordsFacts(words: seq<string>, available: Letters)
    ensures forall w :: w in PossibleWords(words, available) <==> w in words && w != "" && CanMake(w, available)
    ensures forall w :: w != "" && CanMake(w, available) ==> Count(PossibleWords(words, available), w) == Count(words, w)
    ensures |PossibleWords(words, available)| <= |words|
  {
    if words != [] {
      var front := words[..|words| - 1];
      PossibleWordsFacts(front, available);
      assert words == front + [words[|words| - 1]];
      var rest := PossibleWords(front, available);
      var w := words[|words| - 1];
      forall v | v != "" && CanMake(v, available)
        ensures Count(PossibleWords(words, available), v) == Count(words, v)
      {
        if w != "" && CanMake(w, available) {
          CountAppend(rest, [w], v);
        } else {
          assert v != w;
        }
        CountAppend(front, [w], v);
      }
    }
  }

  /** `getPossibleWords` after the dictionary has been read and split into lines: build the
      map, then filter the lines. */
  method GetPossibleWords(uppercaseLetters: seq<string>, words: seq<string>) returns (r: seq<string>)
    ensures r == PossibleWords(words, Tally(LowerAll(uppercaseLetters)))
    ensures forall w :: w in r <==> w in words && w != "" && CanMake(w, Tally(LowerAll(uppercaseLetters)))
  {
    var availableLetters := BuildAvailableLetters(uppercaseLetters);
    r := PossibleWords(words, availableLetters);
    PossibleWordsFacts(words, availableLetters);
  }
}
