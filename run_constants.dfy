/** The modifier record of src/runConstants.ts, passed explicitly to every operation instead of
    being read from a global, and the smaller record main.ts declares for itself. */
module RunConstants {
  import opened Wrappers

  datatype SpecialRounds = SpecialRounds(
    firstTileIsLocked: Option<string>,
    top4TilesAreLocked: bool)

  datatype Config = Config(
    // Modifiers (score)
    if9Tiles: bool,
    ifWordBeginsWithH: bool,
    // Modifiers (multipliers)
    finalScoreX: Option<string>,
    firstTile5xIfVowel: bool,
    fiveTilesFirstAndLast3x: bool,
    fourthTileScores3x: bool,
    ifFirstAndLastAreVowels: bool,
    ifFirstLetterEqualsLastLetter: bool,
    ifFirstLetterIs: Option<string>,
    ifFirstLetterIsVowel: bool,
    ifSameLettersTogether: bool,
    ifTwoAdjacentVowels: bool,
    ifWordEndsWithR: bool,
    longWordBooster: bool,
    secondTileScores3x: bool,
    // Modifiers (other)
    anythingCanStartWithRE: bool,
    extraTileSlot1: bool,
    extraTileSlot2: bool,
    extraTileSlot3: bool,
    sEqualsZ: bool,
    // Special rounds
    specialRounds: SpecialRounds,
    // Notifiers
    containsSequence: Option<string>,
    has2OrMore: Option<string>,
    startsWith: Option<string>,
    threeXSameLetter: bool)

  /** Every modifier switched off: an ordinary round. */
  const AllOff: Config := Config(
    false, false, None, false, false, false, false, false, None, false, false, false, false,
    false, false, false, false, false, false, false, SpecialRounds(None, false), None, None,
    None, false)

  /** The values src/runConstants.ts ships with (only `ifFirstLetterIsVowel` is set). */
  const Shipped: Config := AllOff.(ifFirstLetterIsVowel := true)

  /** The record src/main.ts declares for its own, older pipeline. */
  datatype MainConfig = MainConfig(
    extraTile1: bool,
    extraTile2: bool,
    extraTile3: bool,
    fiveTilesFirstAndLast3x: bool,
    ifFirstLetterEqualsLastLetter: bool,
    ifSameLettersTogether: bool,
    ifWordBeginsWithH: bool,
    longWordBooster: bool)

  /** The values src/main.ts ships with (only `ifFirstLetterEqualsLastLetter` is set). */
  const MainShipped: MainConfig := MainConfig(false, false, false, false, true, false, false, false)
}
