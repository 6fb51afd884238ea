/** The board enumeration of both `getValidSquareCoordinates` functions: the squares of the 5×4
    tile grid whose letters are read, in row-major order. src/main.ts:147-168 skips the unused
    extra-tile squares and the shuffle square; src/getLettersFromWordPlay.ts:122-156 also skips
    the four top tiles of the "top 4 tiles are locked" special round. */
module Board {
  import opened RunConstants

  /** A grid square, `x` the column (0..4) and `y` the row (0..3). */
  datatype Coordinate = Coordinate(x: int, y: int)

  /** The flags the skip rule reads: whether each of the three extra-tile squares on the left
      edge is in use, and whether the four top tiles are locked. */
  datatype SkipRules = SkipRules(extraTile1: bool, extraTile2: bool, extraTile3: bool, top4TilesAreLocked: bool)

  /** The flags of the older copy in src/main.ts, which has no locked-tiles rule. */
  function MainRules(cfg: MainConfig): (r: SkipRules)
    ensures !r.top4TilesAreLocked
  {
    SkipRules(cfg.extraTile1, cfg.extraTile2, cfg.extraTile3, false)
  }

  /** The flags of src/getLettersFromWordPlay.ts, read from `RUN_CONSTANTS`. */
  function WordPlayRules(cfg: Config): (r: SkipRules)
    ensures r.top4TilesAreLocked == cfg.specialRounds.top4TilesAreLocked
  {
    SkipRules(cfg.extraTileSlot1, cfg.extraTileSlot2, cfg.extraTileSlot3, cfg.specialRounds.top4TilesAreLocked)
  }

  /** The `continue` condition of the inner loop. */
  predicate Skip(rules: SkipRules, x: int, y: int)
  {
    (x == 0 && y == 0 && !rules.extraTile1)
    || (x == 0 && y == 1 && !rules.extraTile2)
    || (x == 0 && y == 2 && !rules.extraTile3)
    || (x == 0 && y == 3)
    || (x == 1 && y == 0 && rules.top4TilesAreLocked)
    || (x == 2 && y == 0 && rules.top4TilesAreLocked)
    || (x == 3 && y == 0 && rules.top4TilesAreLocked)
    || (x == 4 && y == 0 && rules.top4TilesAreLocked)
  }

  /** A square the enumeration yields: on the grid and not skipped. */
  predicate Valid(rules: SkipRules, c: Coordinate)
  {
    0 <= c.x < 5 && 0 <= c.y < 4 && !Skip(rules, c.x, c.y)
  }

  /** The position of a square in row-major order. */
  function Key(c: Coordinate): int
  {
    5 * c.y + c.x
  }

  /** The squares the inner loop has pushed in row `y` after its first `x` iterations. */
  function Row(rules: SkipRules, y: int, x: nat): seq<Coordinate>
  {
    if x == 0 then []
    else Row(rules, y, x - 1) + (if Skip(rules, x - 1, y) then [] else [Coordinate(x - 1, y)])
  }

  /** The squares the outer loop has pushed after its first `y` iterations. */
  function Grid(rules: SkipRules, y: nat): seq<Coordinate>
  {
    if y == 0 then [] else Grid(rules, y - 1) + Row(rules, y - 1, 5)
  }

  /** The whole enumeration. */
  function Squares(rules: SkipRules): seq<Coordinate>
  {
    Grid(rules, 4)
  }

  /** Strictly increasing row-major position: row-major order with no square twice. */
  predicate RowMajor(s: seq<Coordinate>)
  {
    forall i, j :: 0 <= i < j < |s| ==> Key(s[i]) < Key(s[j])
  }

  /** The nested `for` loops that push every square not skipped. */
  method ValidSquareCoordinates(rules: SkipRules) returns (coordinates: seq<Coordinate>)
    ensures coordinates == Squares(rules)
  {
    coordinates := [];
    for y := 0 to 4
      invariant coordinates == Grid(rules, y)
    {
      for x := 0 to 5
        invariant coordinates == Grid(rules, y) + Row(rules, y, x)
      {
        if Skip(rules, x, y) {
          continue;
        }
        coordinates := coordinates + [Coordinate(x, y)];
      }
    }
  }

  /** `getValidSquareCoordinates` of src/main.ts. */
  method MainValidSquareCoordinates(cfg: MainConfig) returns (coordinates: seq<Coordinate>)
    ensures coordinates == Squares(MainRules(cfg))
    ensures RowMajor(coordinates)
    ensures forall c :: c in coordinates <==> Valid(MainRules(cfg), c)
    ensures |coordinates| == 16 + (if cfg.extraTile1 then 1 else 0) + (if cfg.extraTile2 then 1 else 0)
                                 + (if cfg.extraTile3 then 1 else 0)
  {
    coordinates := ValidSquareCoordinates(MainRules(cfg));
    SquaresFacts(MainRules(cfg));
  }

  /** `getValidSquareCoordinates` of src/getLettersFromWordPlay.ts. */
  method GetValidSquareCoordinates(cfg: Config) returns (coordinates: seq<Coordinate>)
    ensures coordinates == Squares(WordPlayRules(cfg))
    ensures RowMajor(coordinates)
    ensures forall c :: c in coordinates <==> Valid(WordPlayRules(cfg), c)
    ensures |coordinates| == 16 + (if cfg.extraTileSlot1 then 1 else 0) + (if cfg.extraTileSlot2 then 1 else 0)
                                 + (if cfg.extraTileSlot3 then 1 else 0)
                                 - (if cfg.specialRounds.top4TilesAreLocked then 4 else 0)
  {
    coordinates := ValidSquareCoordinates(WordPlayRules(cfg));
    SquaresFacts(WordPlayRules(cfg));
  }

  /** The first `x` iterations of row `y` push exactly the valid squares of that row left of `x`,
      in increasing column order. */
  lemma {:induction false} RowFacts(rules: SkipRules, y: int, x: nat)
    requires 0 <= y < 4 && x <= 5
    ensures forall c :: c in Row(rules, y, x) <==> Valid(rules, c) && c.y == y && c.x < x
    ensures RowMajor(Row(rules, y, x))
  {
    if x > 0 {
      RowFacts(rules, y, x - 1);
    }
  }

  /** The first `y` iterations of the outer loop push exactly the valid squares above row `y`, in
      row-major order. */
  lemma {:induction false} GridFacts(rules: SkipRules, y: nat)
    requires y <= 4
    ensures forall c :: c in Grid(rules, y) <==> Valid(rules, c) && c.y < y
    ensures RowMajor(Grid(rules, y))
    ensures forall c :: c in Grid(rules, y) ==> Key(c) < 5 * y
  {
    if y > 0 {
      GridFacts(rules, y - 1);
      RowFacts(rules, y - 1, 5);
      var g, r := Grid(rules, y - 1), Row(rules, y - 1, 5);
      assert Grid(rules, y) == g + r;
      forall i, j | 0 <= i < j < |g + r|
        ensures Key((g + r)[i]) < Key((g + r)[j])
      {
        if j >= |g| && i < |g| {
          assert g[i] in g && r[j - |g|] in r;
        }
      }
    }
  }

  /** Squares skipped in row `y`, counted column by column. */
  function Skipped(rules: SkipRules, y: int): nat
  {
    (if Skip(rules, 0, y) then 1 else 0) + (if Skip(rules, 1, y) then 1 else 0)
    + (if Skip(rules, 2, y) then 1 else 0) + (if Skip(rules, 3, y) then 1 else 0)
    + (if Skip(rules, 4, y) then 1 else 0)
  }

  /** A row pushes the five squares less the skipped ones. */
  lemma RowLength(rules: SkipRules, y: int)
    ensures |Row(rules, y, 5)| == 5 - Skipped(rules, y)
  {
    assert |Row(rules, y, 1)| == 1 - (if Skip(rules, 0, y) then 1 else 0);
    assert |Row(rules, y, 3)| == |Row(rules, y, 2)| + (if Skip(rules, 2, y) then 0 else 1);
  }

  /** The count: sixteen squares, one more per extra tile in use, four fewer when the top four
      tiles are locked. */
  lemma SquaresLength(rules: SkipRules)
    ensures |Squares(rules)| == 16 + (if rules.extraTile1 then 1 else 0) + (if rules.extraTile2 then 1 else 0)
                                   + (if rules.extraTile3 then 1 else 0)
                                   - (if rules.top4TilesAreLocked then 4 else 0)
  {
    RowLength(rules, 0);
    RowLength(rules, 1);
    RowLength(rules, 2);
    RowLength(rules, 3);
    assert Skipped(rules, 0) == (if rules.extraTile1 then 0 else 1) + (if rules.top4TilesAreLocked then 4 else 0);
    assert Skipped(rules, 1) == (if rules.extraTile2 then 0 else 1);
    assert Skipped(rules, 2) == (if rules.extraTile3 then 0 else 1);
    assert Skipped(rules, 3) == 1;
    assert Grid(rules, 1) == Row(rules, 0, 5);
    assert Grid(rules, 2) == Grid(rules, 1) + Row(rules, 1, 5);
    assert Grid(rules, 3) == Grid(rules, 2) + Row(rules, 2, 5);
    assert Squares(rules) == Grid(rules, 3) + Row(rules, 3, 5);
  }

  /** The properties both copies promise: row-major order without repeats, exactly the valid
      squares (never the shuffle square (0,3); an extra-tile square iff its flag is set; the top
      four tiles iff they are not locked), and hence the count. */
  lemma SquaresFacts(rules: SkipRules)
    ensures RowMajor(Squares(rules))
    ensures forall c :: c in Squares(rules) <==> Valid(rules, c)
    ensures Coordinate(0, 3) !in Squares(rules)
    ensures Coordinate(0, 0) in Squares(rules) <==> rules.extraTile1
    ensures Coordinate(0, 1) in Squares(rules) <==> rules.extraTile2
    ensures Coordinate(0, 2) in Squares(rules) <==> rules.extraTile3
    ensures forall x :: 1 <= x <= 4 ==> (Coordinate(x, 0) in Squares(rules) <==> !rules.top4TilesAreLocked)
    ensures |Squares(rules)| == 16 + (if rules.extraTile1 then 1 else 0) + (if rules.extraTile2 then 1 else 0)
                                   + (if rules.extraTile3 then 1 else 0)
                                   - (if rules.top4TilesAreLocked then 4 else 0)
  {
    GridFacts(rules, 4);
    SquaresLength(rules);
    assert Valid(rules, Coordinate(0, 0)) <==> rules.extraTile1;
    assert Valid(rules, Coordinate(0, 1)) <==> rules.extraTile2;
    assert Valid(rules, Coordinate(0, 2)) <==> rules.extraTile3;
  }
}
