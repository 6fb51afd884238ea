/** The part of both `getLettersFromImage` functions that runs after the vision model has
    answered: the reply text is cleaned up, checked against the tiles the game has, and turned
    into the letters of one square. The older copy is src/main.ts:211-252, the current one
    src/getLettersFromWordPlay.ts:190-249. The model call that produces the reply is not
    modelled; the reply is a parameter, `None` when the response has no text. */
module TileText {
  import opened Wrappers
  import opened Text

  /** Why a reply was refused; the offending cleaned-up text is kept. */
  datatype TileError =
    | NoContent
    | EmptyResponse
    | UnknownTwoLetters(letters: string)
    | UnknownThreeLetters(letters: string)
    | UnknownResponse(letters: string)

  /** The characters of `s` that `keep` accepts, in order (a chain link of `replaceAll`). */
  function Filter(s: string, keep: char -> bool): (r: string)
    ensures |r| <= |s|
    ensures forall i :: 0 <= i < |r| ==> keep(r[i]) && r[i] in s
  {
    if s == [] then []
    else (if keep(s[0]) then [s[0]] else []) + Filter(s[1..], keep)
  }

  lemma {:induction false} FilterAppend(a: string, b: string, keep: char -> bool)
    ensures Filter(a + b, keep) == Filter(a, keep) + Filter(b, keep)
    decreases |a|
  {
    if a == [] {
      assert a + b == b;
    } else {
      assert (a + b)[1..] == a[1..] + b;
      FilterAppend(a[1..], b, keep);
    }
  }

  /** Two filters in a row are one filter with the conjunction of their conditions. */
  lemma {:induction false} FilterFilter(s: string, p: char -> bool, q: char -> bool, pq: char -> bool)
    requires forall c :: pq(c) == (p(c) && q(c))
    ensures Filter(Filter(s, p), q) == Filter(s, pq)
    decreases |s|
  {
    if s != [] {
      FilterFilter(s[1..], p, q, pq);
      var head := if p(s[0]) then [s[0]] else [];
      FilterAppend(head, Filter(s[1..], p), q);
      if p(s[0]) {
        assert Filter(head, q) == (if q(s[0]) then [s[0]] else []) by {
          assert head[1..] == [];
        }
      }
    }
  }

  /** A filter keeps a string whose characters it all accepts. */
  lemma {:induction false} FilterKeepsAll(s: string, keep: char -> bool)
    requires forall i :: 0 <= i < |s| ==> keep(s[i])
    ensures Filter(s, keep) == s
    decreases |s|
  {
    if s != [] {
      FilterKeepsAll(s[1..], keep);
    }
  }

  predicate IsAscii(c: char)
  {
    c <= '\U{7F}'
  }

  /** `\d` without the `u` flag: the ASCII digits. */
  predicate IsDigit(c: char)
  {
    '0' <= c <= '9'
  }

  /** The characters the current clean-up lets through. */
  predicate Kept(c: char)
  {
    IsAscii(c) && !IsDigit(c) && c != ' ' && c != '&' && c != ',' && c != '.'
  }

  /** The current clean-up, link by link: drop non-ASCII characters, digits, spaces,
      ampersands, commas and periods, then lower-case. (The source's comment on the first link
      says it removes ASCII; the regular expression removes everything outside ASCII.) */
  function Sanitize(content: string): string
  {
    var ascii := Filter(content, IsAscii);
    var noDigits := Filter(ascii, c => !IsDigit(c));
    var noSpaces := Filter(noDigits, c => c != ' ');
    var noAmpersands := Filter(noSpaces, c => c != '&');
    var noCommas := Filter(noAmpersands, c => c != ',');
    var noPeriods := Filter(noCommas, c => c != '.');
    Lower(noPeriods)
  }

  /** The six removals are one pass that keeps exactly the `Kept` characters. */
  lemma SanitizeSinglePass(content: string)
    ensures Sanitize(content) == Lower(Filter(content, Kept))
  {
    var k1 := IsAscii;
    var k2 := c => IsAscii(c) && !IsDigit(c);
    var k3 := c => IsAscii(c) && !IsDigit(c) && c != ' ';
    var k4 := c => IsAscii(c) && !IsDigit(c) && c != ' ' && c != '&';
    var k5 := c => IsAscii(c) && !IsDigit(c) && c != ' ' && c != '&' && c != ',';
    FilterFilter(content, k1, c => !IsDigit(c), k2);
    FilterFilter(content, k2, c => c != ' ', k3);
    FilterFilter(content, k3, c => c != '&', k4);
    FilterFilter(content, k4, c => c != ',', k5);
    FilterFilter(content, k5, c => c != '.', Kept);
  }

  /** Lower-casing keeps a kept character kept, and leaves no upper-case letter. */
  lemma LowerCharKept(c: char)
    requires Kept(c)
    ensures Kept(LowerChar(c)) && !('A' <= LowerChar(c) <= 'Z')
  {
  }

  /** The characters a clean-up can leave: kept ones that are not upper-case letters. */
  predicate Clean(s: string)
  {
    forall i :: 0 <= i < |s| ==> Kept(s[i]) && !('A' <= s[i] <= 'Z')
  }

  /** A clean string passes the clean-up unchanged. */
  lemma SanitizeClean(s: string)
    requires Clean(s)
    ensures Sanitize(s) == s
  {
    SanitizeSinglePass(s);
    FilterKeepsAll(s, Kept);
    assert Lower(s) == s;
  }

  /** Everything that survives the clean-up is clean, so a second clean-up changes nothing. */
  lemma SanitizeFacts(content: string)
    ensures Clean(Sanitize(content))
    ensures Sanitize(Sanitize(content)) == Sanitize(content)
  {
    SanitizeSinglePass(content);
    var f := Filter(content, Kept);
    forall i | 0 <= i < |f| {
      LowerCharKept(f[i]);
    }
    SanitizeClean(Sanitize(content));
  }

  /** `+` stands for the wildcard `*`. */
  function Plus(letters: string): string
  {
    if letters == "+" then "*" else letters
  }

  /** The two-character rule of the current copy: `qu` stays; a letter followed by `*` is that
      letter; anything else is refused. */
  function TwoLetterRule(letters: string): Result<string, TileError>
  {
    if |letters| == 2 && letters != "qu" then
      if letters[1] == '*' then Ok([letters[0]]) else Err(UnknownTwoLetters(letters))
    else Ok(letters)
  }

  /** The three-character rule of the current copy: only the `ers` and `ing` tiles. */
  function ThreeLetterRule(letters: string): Result<string, TileError>
  {
    if |letters| == 3 && letters != "ers" && letters != "ing" then Err(UnknownThreeLetters(letters))
    else Ok(letters)
  }

  /** Longer replies: anything starting with `qu` is the `qu` tile, the rest is refused. */
  function LongRule(letters: string): Result<string, TileError>
  {
    if |letters| > 3 then
      if StartsWith(letters, "qu") then Ok("qu") else Err(UnknownResponse(letters))
    else Ok(letters)
  }

  /** The checks the current `getLettersFromImage` makes on the cleaned-up reply: the tile's
      letters, `""` for a square the model reported as blank (`_`). */
  function Decide(letters: string): Result<string, TileError>
  {
    if letters == "" then Err(EmptyResponse)
    else if letters == "_" then Ok("")
    else
      var two := TwoLetterRule(Plus(letters));
      if two.Err? then two
      else
        var three := ThreeLetterRule(two.value);
        if three.Err? then three
        else LongRule(three.value)
  }

  /** The current `getLettersFromImage` after the reply (src/getLettersFromWordPlay.ts). */
  function Normalise(content: Option<string>): (r: Result<string, TileError>)
    ensures r == Err(NoContent) <==> content.None?
    ensures r.Ok? ==> r.value == "" || |r.value| == 1 || r.value == "qu" || r.value == "ers" || r.value == "ing"
  {
    if content.None? then Err(NoContent)
    else
      var letters := Sanitize(content.value);
      DecideOutcome(letters);
      Decide(letters)
  }

  /** Every accepted reply is a blank square, a single character, or one of the multi-letter
      tiles `qu`, `ers` and `ing`. */
  lemma DecideOutcome(s: string)
    ensures Decide(s) != Err(NoContent)
    ensures Decide(s).Ok? ==>
      var r := Decide(s).value;
      r == "" || |r| == 1 || r == "qu" || r == "ers" || r == "ing"
  {
  }

  /** The whole decision, by the cleaned-up text `s`: an empty `s` is an error; `_` is a blank
      square; one character is itself (`+` being `*`); two characters are `qu`, a letter before
      `*`, or an error; three are `ers`, `ing` or an error; more are `qu` when they start with
      it, otherwise an error. */
  lemma DecideCases(s: string)
    ensures s == "" ==> Decide(s) == Err(EmptyResponse)
    ensures s == "_" ==> Decide(s) == Ok("")
    ensures s == "+" ==> Decide(s) == Ok("*")
    ensures |s| == 1 && s != "_" && s != "+" ==> Decide(s) == Ok(s)
    ensures |s| == 2 ==> Decide(s) == (if s == "qu" then Ok(s) else if s[1] == '*' then Ok(s[..1]) else Err(UnknownTwoLetters(s)))
    ensures |s| == 3 ==> Decide(s) == (if s == "ers" || s == "ing" then Ok(s) else Err(UnknownThreeLetters(s)))
    ensures |s| > 3 ==> Decide(s) == (if s[..2] == "qu" then Ok("qu") else Err(UnknownResponse(s)))
  {
    if |s| == 2 {
      assert [s[0]] == s[..1];
    }
  }

  /** The checks return clean letters for clean input. */
  lemma DecideClean(s: string)
    requires Clean(s) && Decide(s).Ok?
    ensures Clean(Decide(s).value)
  {
    if |s| == 2 && s != "qu" && s[1] == '*' {
      assert Decide(s).value == [s[0]];
    }
  }

  /** A tile the checks accepted passes them again unchanged, unless it is a bare `_` or `+`. */
  lemma DecideStable(s: string)
    requires Decide(s).Ok?
    requires Decide(s).value !in {"", "_", "+"}
    ensures Decide(Decide(s).value) == Decide(s)
  {
  }

  /** An accepted tile read back is itself: every non-blank result is a fixed point of the whole
      normalisation, except that a letter before `*` can leave a bare `_` or `+`, which a second
      pass reads as a blank square and as `*`. */
  lemma NormaliseStable(content: Option<string>)
    requires Normalise(content).Ok?
    requires Normalise(content).value !in {"", "_", "+"}
    ensures Normalise(Some(Normalise(content).value)) == Normalise(content)
  {
    var s := Sanitize(content.value);
    SanitizeFacts(content.value);
    DecideClean(s);
    SanitizeClean(Decide(s).value);
    DecideStable(s);
  }

  /** The two replies where a second pass disagrees with the first. */
  lemma StarSuffixExamples()
    ensures Decide("+*") == Ok("+") && Decide("+") == Ok("*")
    ensures Decide("_*") == Ok("_") && Decide("_") == Ok("")
  {
    assert "+*"[..1] == "+" && "_*"[..1] == "_";
  }

  /** `[...letters]`: one string per character. */
  function Spread(s: string): (r: seq<string>)
    ensures |r| == |s|
    ensures forall i :: 0 <= i < |s| ==> r[i] == [s[i]]
  {
    seq(|s|, i requires 0 <= i < |s| => [s[i]])
  }

  /** The letters of a square joined back into one string. */
  function Join(t: seq<string>): string
  {
    if t == [] then "" else Join(t[..|t| - 1]) + t[|t| - 1]
  }

  lemma {:induction false} JoinSpread(s: string)
    ensures Join(Spread(s)) == s
    decreases |s|
  {
    if s != [] {
      JoinSpread(s[..|s| - 1]);
      assert Spread(s)[..|s| - 1] == Spread(s[..|s| - 1]);
      assert s == s[..|s| - 1] + [s[|s| - 1]];
    }
  }

  /** The older clean-up: drop spaces, then lower-case. */
  function OlderClean(content: string): string
  {
    Lower(Filter(content, c => c != ' '))
  }

  /** The checks the older `getLettersFromImage` makes on the cleaned-up reply: `None` for a
      blank square, otherwise the square's letters one by one. Its length checks count UTF-16
      units. */
  function OlderDecide(letters: string): Result<Option<seq<string>>, TileError>
  {
    if letters == "" then Err(EmptyResponse)
    else if letters == "_" then Ok(None)
    else
      var letters := Plus(letters);
      if Utf16Length(letters) == 2 && letters != "qu" then Err(UnknownTwoLetters(letters))
      else if Utf16Length(letters) == 3 && letters != "ing" then Err(UnknownThreeLetters(letters))
      else if Utf16Length(letters) > 3 then
        if StartsWith(letters, "qu") then Ok(Some(Spread("qu"))) else Err(UnknownResponse(letters))
      else Ok(Some(Spread(letters)))
  }

  /** The older `getLettersFromImage` after the reply (src/main.ts). */
  function OlderNormalise(content: Option<string>): (r: Result<Option<seq<string>>, TileError>)
    ensures r == Err(NoContent) <==> content.None?
    ensures r.Ok? && r.value.Some? ==>
      var t := r.value.value;
      && (forall i :: 0 <= i < |t| ==> |t[i]| == 1)
      && (Join(t) == "qu" || Join(t) == "ing" || (|Join(t)| == 1 && Utf16Length(Join(t)) == 1))
  {
    if content.None? then Err(NoContent)
    else
      OlderDecideOutcome(OlderClean(content.value));
      OlderDecide(OlderClean(content.value))
  }

  /** The older copy accepts a blank square exactly for `_`, and otherwise only one character of
      one UTF-16 unit, `qu` or `ing`, returned as single-character strings. */
  lemma OlderDecideOutcome(s: string)
    ensures OlderDecide(s) == Ok(None) <==> s == "_"
    ensures OlderDecide(s) == Err(EmptyResponse) <==> s == ""
    ensures OlderDecide(s).Ok? && OlderDecide(s).value.Some? ==>
      var t := OlderDecide(s).value.value;
      && (forall i :: 0 <= i < |t| ==> |t[i]| == 1)
      && (Join(t) == "qu" || Join(t) == "ing" || (|Join(t)| == 1 && Utf16Length(Join(t)) == 1))
  {
    if OlderDecide(s).Ok? && OlderDecide(s).value.Some? {
      var letters := Plus(s);
      JoinSpread(letters);
      JoinSpread("qu");
    }
  }

  /** The older decision case by case, by the cleaned-up text `s` and its length in UTF-16
      units: an empty `s` is an error; `_` is a blank square; `+` is `*`; any other character of
      one unit is itself; two units are `qu` or an error; three are `ing` or an error; more are
      `qu` when they start with it, otherwise an error. Accepted letters come one per string. */
  lemma OlderDecideCases(s: string)
    ensures s == "" ==> OlderDecide(s) == Err(EmptyResponse)
    ensures s == "_" ==> OlderDecide(s) == Ok(None)
    ensures s == "+" ==> OlderDecide(s) == Ok(Some(["*"]))
    ensures Utf16Length(s) == 1 && s != "_" && s != "+" ==> OlderDecide(s) == Ok(Some([s]))
    ensures Utf16Length(s) == 2 ==>
      OlderDecide(s) == (if s == "qu" then Ok(Some(["q", "u"])) else Err(UnknownTwoLetters(s)))
    ensures Utf16Length(s) == 3 ==>
      OlderDecide(s) == (if s == "ing" then Ok(Some(["i", "n", "g"])) else Err(UnknownThreeLetters(s)))
    ensures Utf16Length(s) > 3 ==>
      OlderDecide(s) == (if StartsWith(s, "qu") then Ok(Some(["q", "u"])) else Err(UnknownResponse(s)))
  {
    if s == "+" {
      assert Spread("*") == ["*"];
    } else if s != "" && s != "_" {
      assert Plus(s) == s;
      var n := Utf16Length(s);
      if n == 1 {
        assert |s| == 1 && s == [s[0]];
        assert Spread(s) == [s];
      } else if n == 2 && s == "qu" {
        assert Spread(s) == ["q", "u"];
      } else if n == 3 && s == "ing" {
        assert Spread(s) == ["i", "n", "g"];
      } else if n > 3 {
        assert Spread("qu") == ["q", "u"];
      }
    } else if s == "_" {
      assert Utf16Length(s) == 1 by {
        assert s[..0] == "";
      }
    }
  }

  /** On ASCII text the current checks accept everything the older ones do and read the same
      letters: they only add the `ers` tile and the letter-before-`*` rule. */
  lemma DecideExtendsOlder(s: string)
    requires forall i :: 0 <= i < |s| ==> IsAscii(s[i])
    ensures OlderDecide(s) == Ok(None) ==> Decide(s) == Ok("")
    ensures OlderDecide(s).Ok? && OlderDecide(s).value.Some? ==> Decide(s) == Ok(Join(OlderDecide(s).value.value))
  {
    Utf16LengthAscii(Plus(s));
    JoinSpread(Plus(s));
    JoinSpread("qu");
  }

  /** On replies without digits, non-ASCII characters, `&`, `,` or `.` the two clean-ups agree. */
  lemma CleanUpsAgree(content: string)
    requires forall i :: 0 <= i < |content| ==> Kept(content[i]) || content[i] == ' '
    ensures Sanitize(content) == OlderClean(content)
    ensures forall i :: 0 <= i < |OlderClean(content)| ==> IsAscii(OlderClean(content)[i])
  {
    var noSpaces := Filter(content, c => c != ' ');
    FilterFilter(content, c => c != ' ', Kept, Kept);
    FilterKeepsAll(noSpaces, Kept);
    SanitizeSinglePass(content);
    forall i | 0 <= i < |noSpaces| {
      LowerCharKept(noSpaces[i]);
    }
  }

  /** On such replies the current copy accepts every blank square and tile the older one
      accepts, with the same letters. */
  lemma NormaliseExtendsOlder(content: string)
    requires forall i :: 0 <= i < |content| ==> Kept(content[i]) || content[i] == ' '
    ensures OlderNormalise(Some(content)) == Ok(None) ==> Normalise(Some(content)) == Ok("")
    ensures OlderNormalise(Some(content)).Ok? && OlderNormalise(Some(content)).value.Some? ==>
      Normalise(Some(content)) == Ok(Join(OlderNormalise(Some(content)).value.value))
  {
    CleanUpsAgree(content);
    DecideExtendsOlder(OlderClean(content));
  }
}
