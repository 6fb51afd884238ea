/** The fixed tables of src/constants.ts: the point value of every tile letter and the English
    names of the numbers one to twenty. */
module Constants {

  /** `LETTER_POINTS`: the point value of every tile letter, keyed by the lower-case letter. */
  const LetterPoints: map<char, int> := map[
    'a' := 1, 'b' := 3, 'c' := 3, 'd' := 2, 'e' := 1, 'f' := 4, 'g' := 2, 'h' := 4, 'i' := 1,
    'j' := 8, 'k' := 5, 'l' := 1, 'm' := 3, 'n' := 1, 'o' := 1, 'p' := 3, 'q' := 10, 'r' := 1,
    's' := 1, 't' := 1, 'u' := 1, 'v' := 4, 'w' := 4, 'x' := 8, 'y' := 4, 'z' := 10
  ]

  /** `LETTER_POINTS` has exactly the keys a–z, and every value is a positive integer. */
  lemma LetterPointsTotalAndPositive()
    ensures forall c :: c in LetterPoints <==> 'a' <= c <= 'z'
    ensures forall c :: c in LetterPoints ==> LetterPoints[c] >= 1
  {
  }

  /** The value the table's doc comment gives each letter (q, z = 10; j, x = 8; k = 5;
      f, v, w, y = 4; c, m, p = 3; d, g = 2), extended with the two letters it omits (b = 3,
      h = 4) and with 1 for every other letter. */
  function DocumentedPoints(c: char): int
  {
    if c in "qz" then 10
    else if c in "jx" then 8
    else if c == 'k' then 5
    else if c in "fvwy" || c == 'h' then 4
    else if c in "cmp" || c == 'b' then 3
    else if c in "dg" then 2
    else 1
  }

  /** Every entry of the table agrees with the doc comment (and with b = 3, h = 4). */
  lemma LetterPointsDocumented()
    ensures forall c :: c in LetterPoints ==> LetterPoints[c] == DocumentedPoints(c)
  {
  }

  /** `NUMBER_WORDS`: each integer 1..20 and its English name. */
  const NumberWords: map<int, string> := map[
    1 := "one", 2 := "two", 3 := "three", 4 := "four", 5 := "five", 6 := "six", 7 := "seven",
    8 := "eight", 9 := "nine", 10 := "ten", 11 := "eleven", 12 := "twelve", 13 := "thirteen",
    14 := "fourteen", 15 := "fifteen", 16 := "sixteen", 17 := "seventeen", 18 := "eighteen",
    19 := "nineteen", 20 := "twenty"
  ]

  /** The keys are exactly 1..20 and 14, 16, 17 and 19 are their unit's name followed by "teen". */
  lemma NumberWordsDomain()
    ensures forall n :: n in NumberWords <==> 1 <= n <= 20
    ensures forall n :: n in {4, 6, 7, 9} ==> NumberWords[n + 10] == NumberWords[n] + "teen"
  {
  }

  /** No two numbers share a name. */
  lemma NumberWordsDistinct()
    ensures forall m, n :: m in NumberWords && n in NumberWords && m != n ==> NumberWords[m] != NumberWords[n]
  {
  }
}
