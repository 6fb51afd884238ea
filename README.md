# word-play-helper: a verified model of the scoring and feasibility core

word-play-helper is a solver for the word game *Word Play*. It reads the letters on the board, picks the
dictionary words that the board's tiles can make, and ranks them by the game's score. This project
models that logic in Dafny and proves properties of the model. The model covers:

- **Configuration (`RunConstants`).** `RunConstants.Config` is the modifier record of
  `src/runConstants.ts`, passed explicitly to every operation instead of being read as a global.
  `RunConstants.MainConfig` is the smaller record that `src/main.ts` declares for its older pipeline.
- **Point tables (`Constants`).** These are the `LETTER_POINTS` and `NUMBER_WORDS` tables of
  `src/constants.ts`.
- **Scoring engine (`Score`).** This is `getWordScore` of `src/score.ts`, in its three stages:
  - letter scores, each the table value times stacked positional multipliers;
  - additive bonuses, namely the length ladder (optionally doubled) and the 9-tile, begins-with-`h`
    and ends-with-`r` bonuses;
  - a running product of multiplicative modifiers.

  Each stage of the source is a method that updates local variables, as the source does, and each
  method is proved equal to a specification function. The properties the source promises are
  lemmas about those functions. Multipliers are `real`, so the 1.5 factors are exact.
- **Feasibility (`Feasibility`).** This covers three parts of `src/main.ts`:
  - the available-letter map of `getPossibleWords`;
  - `canMakeWordWithLetters`, with its wildcard (`"*"`) budget and early exit;
  - the dictionary filter.

  A word can be made exactly when its total shortfall fits into the wildcard budget. The early-exit
  walk over the letters gives that answer in every iteration order.
- **Report (`Report`).** This is the older, self-contained `getWordScore` of `src/main.ts`, together
  with `printSortedWords`. That function keeps the words of at least four letters, scores them and
  sorts them stably by non-increasing score.
- **Board (`Board`).** These are the two `getValidSquareCoordinates` enumerations of the 5×4 tile
  grid, which skip the unused extra-tile squares, the shuffle square and, in the newer copy, the
  locked top row.
- **Tile text (`TileText`).** This is the text handling that both `getLettersFromImage` functions
  apply to the vision model's reply. Each cleans the reply up and checks it against the tiles the
  game has. The newer copy also reads "a letter followed by `*`" as that letter.

Three points about what the code does and does not do:

- **Multi-letter tiles.** `canMakeWordWithLetters` (`src/main.ts:275-300`) has no contiguous
  matching of multi-letter tiles, no `s`/`z` pooling and no "RE" prefix rule. The older tile reader
  splits every tile into single letters (`[...letters]`, `src/main.ts:252`), and the tiles are
  flattened before they reach `getPossibleWords`. So no multi-letter key reaches the
  available-letter map in this pipeline: a `qu` tile arrives as `q` and `u`, and the board `qu`,
  `i`, `t` makes "quit" (`Feasibility.SplitQuTileMakesQuit`). A multi-letter key, if present, is
  never looked up (`Feasibility.LongKeyIgnored`).
- **Wildcard-only boards.** Each missing letter costs one wildcard, so a board of n wildcards makes
  exactly the words of at most n letters, among words without a `*` of their own
  (`Feasibility.WildcardOnlyBoard`). A `*` in a word looks up the wildcard key like any letter, so
  one wildcard makes `a*`.
- **Report contents.** `printSortedWords` prints only each word and its score (`src/main.ts:317`).

Two quirks of the source are stated as proved properties:

- **Begins-with-`h` bonus in the older scorer.** The older scorer's `ifWordBeginsWithH` bonus does not
  look at the word at all.
- **Letter before `*` in the newer tile reader.** `+*` is read as `+`, not as the wildcard, and `_*`
  is read as `_`, not as a blank square. This is because the `+` and `_` checks run before the
  two-character rule.

## Model

| member | source | states |
|---|---|---|
| Constants.LetterPointsTotalAndPositive | src/constants.ts:14-41 | the table's keys are exactly a–z and every value is at least 1 |
| Constants.LetterPointsDocumented | src/constants.ts:6-41 | every entry has the value the doc comment lists (q,z 10; j,x 8; k 5; f,v,w,y 4; c,m,p 3; d,g 2); the comment omits b = 3 and h = 4, and every other letter is 1 |
| Constants.NumberWordsDomain | src/constants.ts:43-64 | `NUMBER_WORDS` is defined exactly on 1..20, and 14, 16, 17 and 19 are their unit's name followed by "teen" |
| Constants.NumberWordsDistinct | src/constants.ts:43-64 | no two numbers share a name |
| Score.LocalTableMatchesConstants | src/score.ts:4-31 | the scorer's private point table equals the one in constants.ts |
| Score.GetLetterScore | src/score.ts:177-203 | `getLetterScore`, a lookup followed by a multiplier built rule by rule, returns exactly `LetterScore` |
| Score.LetterScoreIsProduct | src/score.ts:184-202 | a letter's score is its table value times the stacked factor: 5 under the first-tile vowel rule, times 3 for each tripling rule that applies |
| Score.LetterScoreFacts | src/score.ts:177-203 | a letter scores iff it is one of a–z, otherwise the error names it; a score is at least the table value and at least 1; with no positional rule set it is the table value |
| Score.MapLetterScores | src/score.ts:50-52 | the position-by-position map returns the letter scores, or the error of the first letter without points |
| Score.LetterScoresFacts | src/score.ts:50-52 | the letter scores exist iff every lower-cased letter is a–z; then they have one entry per letter, and entry k is that letter's score, at least 1 |
| Score.LetterScoresFirstError | src/score.ts:50-52 | the error is that of the first letter outside a–z |
| Score.AddLengthBonus | src/score.ts:58-107 | the sixteen `if` increments add exactly `LengthBonus` of the word's length |
| Score.LengthBonusIsLadder | src/score.ts:60-107 | the sum of the ladder steps reached equals the written-out chain of sixteen thresholds |
| Score.LengthBonusShape | src/score.ts:58-107 | the bonus is 0 below five letters, never decreases with length, and is exactly doubled by `longWordBooster` |
| Score.LengthBonusSteps | src/score.ts:60-107 | from 5 to 20 letters, each added letter adds 5,5,5,10,10,15,15,20,20,20,25,25,25,30,40,50 in turn |
| Score.LengthBonusCap | src/score.ts:105-107 | at 20 letters and above the bonus is 320 |
| Score.ModifierBonusConditions | src/score.ts:109-118 | each fixed bonus (+10 for 9 tiles, +20 for a leading `h`, +20 for a trailing `r`) is added exactly when its flag and its condition hold; with no flag set, nothing is added |
| Score.CapitalsEarnNoBonus | src/score.ts:113-118 | the first and last characters are compared as written, so "HeaR" earns neither letter bonus |
| Score.IsVowel | src/score.ts:235-243 | only the five lower-case vowels are vowels; each is a one-point letter of the table, and a capital vowel is not one |
| Score.HasRepeatingLetters | src/score.ts:205-216 | the scan returns true iff some character equals the next one; the older copy at src/main.ts:416-427 is the same scan and is modelled by this member too |
| Score.HasAdjacentVowels | src/score.ts:218-233 | the scan returns true iff two neighbouring letters are both vowels |
| Score.ShapeMultiplier | src/score.ts:120-143 | the five outer-letter and repeated-letter factors, applied one by one, give the running product of `ShapeModifiers` |
| Score.ApplyFinalScoreX | src/score.ts:145-158 | a `finalScoreX` that is not one UTF-16 unit long (JavaScript's `length`) is an error; otherwise the multiplier is scaled by the number of matches, and only when that number is positive |
| Score.ComputeMultiplier | src/score.ts:120-164 | the whole running product is `WordMultiplier`, or the `finalScoreX` error |
| Score.GetWordScore | src/score.ts:33-175 | `getWordScore` with its running totals returns exactly `WordScore` |
| Score.WordScoreOutcome | src/score.ts:45-150 | the score exists iff the word is non-empty, all its lower-cased letters are a–z and `finalScoreX` is absent or one UTF-16 unit long; the empty word and a bad `finalScoreX` are reported as such |
| Score.WordScoreFirstBadLetter | src/score.ts:50-52 | a letter outside a–z makes the score fail with that first letter, whatever `finalScoreX` is |
| Score.WordScoreLetters | src/score.ts:50-54 | a successful breakdown has one letter score of at least 1 per letter, each that letter's score; the total is their sum and at least the word's length |
| Score.WordScoreMultiplied | src/score.ts:54-166 | the pre-multiplier score is the letter total plus the length and fixed bonuses; the multiplier is at least 1; the final score is never below the pre-multiplier score |
| Score.WordScoreIsProduct | src/score.ts:166 | the final score is the pre-multiplier score times the multiplier |
| Score.WordMultiplierAtLeastOne | src/score.ts:120-164 | every factor is at least 1 (`finalScoreX` never multiplies by 0), so the multiplier is at least 1 |
| Score.MultiplierOrderIndependent | src/score.ts:120-164 | applying the same modifiers in any order gives the same multiplier |
| Score.AstralFinalScoreXRefused | src/score.ts:145-150 | a `finalScoreX` of one character outside the Basic Multilingual Plane is two units long, so scoring "a" throws |
| Score.ShippedMultiplier | src/runConstants.ts:14 | under the shipped configuration (only `ifFirstLetterIsVowel` on) the multiplier is 1.5 for a word starting with a lower-case vowel and 1 otherwise |
| Score.WordScoreAllOff | src/score.ts:33-175 | with every modifier off, each letter scores its table value, the multiplier is 1 and the score is the letter total plus the length bonus |
| Score.BookExample | src/score.ts:33-175 | with every modifier off, "book" scores [3, 1, 1, 5], a total of 10, a multiplier of 1 and a score of 10 |
| Feasibility.BuildAvailableLetters | src/main.ts:258-263 | the map-building loop sends each lower-cased tile to its number of occurrences and has no other keys |
| Feasibility.TallyCounts | src/main.ts:258-263 | the tally's keys are exactly the tiles, and each maps to its multiplicity |
| Feasibility.CountWordLetters | src/main.ts:281-285 | the first loop counts every letter of the lower-cased word, and its keys come in order of first occurrence |
| Feasibility.CanMakeWordWithLetters | src/main.ts:275-300 | the early-exit test returns `CanMake`: the word's total shortfall fits into the wildcard budget |
| Feasibility.WalkIsDeficitSum | src/main.ts:287-297 | the walk that stops once the budget goes negative succeeds iff the summed shortfall of its letters fits into the budget |
| Feasibility.WalkOrderIndependent | src/main.ts:287-297 | in any order of the word's distinct letters the walk gives the same answer, so map iteration order does not matter |
| Feasibility.CanMakeWithoutWildcards | src/main.ts:275-300 | with no `*` entry a word can be made iff each letter occurs on the board at least as often as in the lower-cased word |
| Feasibility.WildcardOnlyBoard | src/main.ts:279-297 | a board of n wildcards and nothing else makes a word without `*` iff the word has at most n letters |
| Feasibility.CanMakeMonotone | src/main.ts:287-297 | raising any count, the wildcard count included, never makes a word unmakeable |
| Feasibility.LongKeyIgnored | src/main.ts:283-297 | a key that is not one character long is never looked up: adding it, or setting it to any count, leaves every word's verdict unchanged |
| Feasibility.SequenceTileNotUsed | src/main.ts:283-288 | an instance: a map holding `qu`, `i` and `t` does not make "quit" |
| Feasibility.SpelledOutBoard | src/main.ts:258-300 | a board whose tiles spell a word out letter by letter makes that word |
| Feasibility.SplitQuTileMakesQuit | src/main.ts:117-119 | the older reader returns a `qu` tile as `q` and `u`, and the flattened board `q`, `u`, `i`, `t` makes "quit" |
| Feasibility.PossibleWordsFacts | src/main.ts:270-272 | a line is kept iff it is non-empty and can be made; each kept word is kept as often as it occurs; the filter never grows the list |
| Feasibility.GetPossibleWords | src/main.ts:255-272 | `getPossibleWords` returns the order-preserving filter of the dictionary by the tally of the tiles |
| Report.LegacyPointsArray | src/main.ts:328-345 | the `pointsArray` map returns the older letter scores, or the error of the first letter without points |
| Report.LegacyLetterScoreAgrees | src/main.ts:328-345 | an older letter score equals the newer one restricted to the five-tile rule |
| Report.LegacyLetterScoresAgree | src/main.ts:328-345 | the older and newer letter-score maps agree under that restriction |
| Report.LegacyComputePoints | src/main.ts:347-399 | the running `points` equal the letter sum plus the length ladder plus the flat `ifWordBeginsWithH` bonus |
| Report.LegacyComputeMultiplier | src/main.ts:401-411 | the running multiplier is the product of the two older modifiers |
| Report.LegacyGetWordScore | src/main.ts:321-414 | the older `getWordScore` returns exactly `LegacyWordScore` |
| Report.MainShippedMultiplier | src/main.ts:24-33 | under the configuration main.ts ships, the older multiplier is 2 when the word's first and last characters agree and 1 otherwise |
| Report.LegacyMultiplierValues | src/main.ts:401-411 | the multiplier is 1, 1.5, 2 or 3, and it is 3 iff both modifiers apply |
| Report.LegacyBeginsWithHIgnoresWord | src/main.ts:397-399 | `ifWordBeginsWithH` adds 20 to every word that can be scored, whatever its first letter |
| Report.LegacyEmptyWord | src/main.ts:321-414 | the empty word does not throw: it scores the `h` bonus, doubled by `ifFirstLetterEqualsLastLetter` because both ends are `undefined` |
| Report.LegacyWordScoreOutcome | src/main.ts:328-333 | the older score exists iff every lower-cased letter is a–z |
| Report.LegacyWordScoreIsProduct | src/main.ts:413 | the older score is the points times the multiplier |
| Report.BigWordsFacts | src/main.ts:304 | the filter keeps every word of at least four UTF-16 units (as `word.length` counts them) as often as it occurs, and no other word |
| Report.ScoreAllFacts | src/main.ts:306-309 | scoring keeps the words in order, each paired with its score |
| Report.InsertSorted | src/main.ts:311 | inserting into a non-increasing list keeps it non-increasing |
| Report.InsertStable | src/main.ts:311 | among entries of one score, the inserted entry comes first and the rest keep their order |
| Report.SortByScoreFacts | src/main.ts:311 | the sort is a permutation, non-increasing by score and stable among equal scores |
| Report.SortedReportFacts | src/main.ts:302-311 | the report lists each word of at least four letters with its score, as often as the filter keeps it, in non-increasing score order |
| Board.ValidSquareCoordinates | src/getLettersFromWordPlay.ts:122-156 | the nested loops with `continue` push exactly `Squares` |
| Board.MainValidSquareCoordinates | src/main.ts:147-168 | the older enumeration is in row-major order without repeats, yields exactly the squares not skipped, and has 16 squares plus one per extra tile |
| Board.GetValidSquareCoordinates | src/getLettersFromWordPlay.ts:122-156 | the newer enumeration is in row-major order without repeats, yields exactly the squares not skipped, and has 16 squares plus one per extra slot, minus 4 when the top tiles are locked |
| Board.SquaresFacts | src/getLettersFromWordPlay.ts:122-156 | (0,3) never appears; (0,y) for y < 3 appears iff its extra-slot flag is set; (1..4,0) appear iff the top tiles are not locked |
| TileText.SanitizeSinglePass | src/getLettersFromWordPlay.ts:190-204 | the six removals are one pass keeping the ASCII characters other than digits, space, `&`, `,` and `.`, then lower-casing |
| TileText.SanitizeFacts | src/getLettersFromWordPlay.ts:190-204 | the clean-up leaves only such characters and no capitals, so a second clean-up changes nothing |
| TileText.DecideCases | src/getLettersFromWordPlay.ts:206-247 | an empty text is an error; `_` is a blank square; `+` is `*`; two characters are `qu`, a letter before `*`, or an error; three are `ers`, `ing` or an error; more are `qu` when they start with it, otherwise an error |
| TileText.DecideOutcome | src/getLettersFromWordPlay.ts:206-249 | every accepted tile is blank, one character, `qu`, `ers` or `ing` |
| TileText.NormaliseStable | src/getLettersFromWordPlay.ts:190-249 | an accepted tile read back through the whole normalisation is itself, unless it is the blank square or a bare `_` or `+` |
| TileText.StarSuffixExamples | src/getLettersFromWordPlay.ts:212-230 | `+*` gives `+` and `_*` gives `_`, which a second pass reads as `*` and as a blank square |
| TileText.Normalise | src/getLettersFromWordPlay.ts:190-249 | a reply without content is the no-content error and nothing else is; every accepted tile is blank, one character, `qu`, `ers` or `ing` |
| TileText.OlderDecideCases | src/main.ts:213-252 | the older checks case by case, by UTF-16 length: empty is an error, `_` a blank square, `+` gives `*`, any other one-unit character itself, two units `qu` or an error, three `ing` or an error, more `qu` when they start with it, otherwise an error; letters come one per string |
| TileText.OlderNormalise | src/main.ts:205-252 | a reply without content is the no-content error and nothing else is; every accepted square is single-character strings spelling `qu`, `ing` or one one-unit character |
| TileText.OlderDecideOutcome | src/main.ts:211-252 | the older checks give a blank square exactly for `_` and an empty-reply error exactly for the empty text; otherwise they accept only one character (one UTF-16 unit), `qu` or `ing`, returned letter by letter |
| TileText.CleanUpsAgree | src/main.ts:211 | on replies without digits, non-ASCII characters, `&`, `,` or `.`, the older clean-up (drop spaces, lower-case) equals the newer one |
| TileText.NormaliseExtendsOlder | src/main.ts:211-252 | on such replies the newer copy accepts every blank square and tile the older one accepts, with the same letters |

## Left out

- Screen capture, the window lookup, image cropping and the calls to OpenAI and Gemini are OS, network and foreign-library calls. The reply text is a parameter of `TileText.Normalise` (`None` when the response has no content).
- Reading the dictionary is file I/O. It is a parameter (`seq<string>`) of `Feasibility.GetPossibleWords`.
- The report's `console.log` and `padEnd` layout, and the maximum word length it pads to, are output formatting. The report is modelled as a sequence of (word, score) pairs.
- The asynchronous, concurrent tile fetching is not modelled. The model starts from the assembled sequence of tile strings.
- `src/letterPoints.js`, which `src/main.ts` imports its table from, is not part of this model. The older scorer uses the table of `src/constants.ts`.
- `toLowerCase` is modelled on ASCII letters only. A non-ASCII character whose lower case is an ASCII letter (such as the Kelvin sign) would score in the source but is an error in the model. A character whose lower case is longer (such as `İ`) is kept unchanged. The newer tile reader removes non-ASCII text first, so there the model is exact.
- `[...word]` counts code points while `word.length` and `word[i]` count UTF-16 units. The scorers model a word as a sequence of characters, which differs from the source only on characters outside the Basic Multilingual Plane. Such a character has no points, so the source throws for it too. The report's length filter counts UTF-16 units as the source does (`Report.BigWords`), so a word of two such characters is kept and the older scorer then fails on it, in the source and in the model alike. The older tile reader and the `finalScoreX` check also count UTF-16 units (`Text.Utf16Length`).
- `sEqualsZ`, `anythingCanStartWithRE`, `firstTileIsLocked` and the notifier fields of `src/runConstants.ts` are carried in `RunConstants.Config`. No modelled code reads them, so they have no behaviour here.
- `Score.Scale` and `Score.Times` compute a product by repeated addition so the proofs stay in linear arithmetic. `Score.ScaleIsProduct` proves that this equals the product. Floating-point rounding is not modelled; every value involved is an exact rational.
- `Report.SortByScore`: the in-place `Array.prototype.sort` is modelled as a stable insertion sort on a sequence, so update in place and aliasing are not modelled.
- `src/utils.ts`, `src/env.ts` and the C# game mod are log-file, environment and game-process I/O.
- The commented-out `drawRectangleBorder` is not code.
