/**
 * The difficulty selector of the game area: each difficulty tier names three
 * shape titles, one of them is drawn at random and bundled with its pixels
 * into the Shape that players have to trace.
 */
module Shapes {
  import opened Wrappers

  /** One canvas coordinate. */
  datatype Pixel = Pixel(x: int, y: int)

  /** A trace shape: its title, the difficulty it was picked for and its reference pixels. */
  datatype Shape = Shape(title: string, difficulty: string, pixels: seq<Pixel>)

  const EasyTitles: seq<string> := ["Circle", "Square", "Star"]
  const MediumTitles: seq<string> := ["Umbrella", "House", "Christmas Tree"]
  const HardTitles: seq<string> := ["Helicopter", "Car", "Husky"]

  /**
   * The candidate titles of a difficulty. A difficulty the area does not know
   * has none: the command carries a string, and nothing stops a client from
   * sending another one.
   */
  function TierTitles(difficulty: string): seq<string>
  {
    if difficulty == "Easy" then EasyTitles
    else if difficulty == "Medium" then MediumTitles
    else if difficulty == "Hard" then HardTitles
    else []
  }

  /** The tier a title belongs to, if any: the inverse of TierTitles. */
  function TitleTier(title: string): Option<string>
  {
    if title in EasyTitles then Some("Easy")
    else if title in MediumTitles then Some("Medium")
    else if title in HardTitles then Some("Hard")
    else None
  }

  /** Each title belongs to exactly one tier, and the known tiers are the only ones with titles. */
  lemma TierTitlesInverse(difficulty: string, title: string)
    ensures title in TierTitles(difficulty) <==> TitleTier(title) == Some(difficulty)
    ensures TierTitles(difficulty) != [] <==> difficulty in {"Easy", "Medium", "Hard"}
  {
  }

  /**
   * Math.floor(random * n) for a draw `random` in [0, 1): the index of the
   * candidate picked. Always a valid index of a non-empty list of n candidates.
   */
  function RandomIndex(random: real, n: nat): (i: nat)
    requires 0.0 <= random < 1.0
    requires n > 0
    ensures i < n
  {
    var scaled := random * (n as real);
    assert 0.0 <= scaled by {
      assert 0.0 <= random && 0.0 < n as real;
    }
    assert scaled < n as real by {
      assert (1.0 - random) * (n as real) > 0.0;
    }
    scaled.Floor
  }

  /** Every candidate index is drawn by some value of the random draw (the draw k / n picks k). */
  lemma RandomIndexCovers(n: nat, k: nat)
    requires k < n
    ensures 0.0 <= (k as real) / (n as real) < 1.0
    ensures RandomIndex((k as real) / (n as real), n) == k
  {
    var random := (k as real) / (n as real);
    assert random * (n as real) == k as real;
  }

  /** getRandomShape: the title at a random index of a non-empty candidate list. */
  function RandomShape(shapes: seq<string>, random: real): (title: string)
    requires 0.0 <= random < 1.0
    requires |shapes| > 0
    ensures title in shapes
  {
    shapes[RandomIndex(random, |shapes|)]
  }

  /** Every candidate of a non-empty list can be the one getRandomShape returns. */
  lemma RandomShapeCovers(shapes: seq<string>, title: string)
    requires title in shapes
    ensures exists random: real :: 0.0 <= random < 1.0 && RandomShape(shapes, random) == title
  {
    var k :| 0 <= k < |shapes| && shapes[k] == title;
    RandomIndexCovers(|shapes|, k);
    var random := (k as real) / (|shapes| as real);
    assert RandomShape(shapes, random) == title;
  }

  /**
   * getTraceShapePixels, the reference-pixel provider keyed by title. As
   * the area stands it has no pixel data for any title and returns none.
   */
  function TraceShapePixels(title: string): (pixels: seq<Pixel>)
    ensures |pixels| == 0
  {
    []
  }

  /** The shape handleDifficulty builds once a title has been drawn. */
  function MakeShape(title: string, difficulty: string): Shape
  {
    Shape(title, difficulty, TraceShapePixels(title))
  }

  /**
   * The shape picked for a known difficulty belongs to that tier, carries
   * that difficulty and the provider's pixels.
   */
  lemma PickedShapeInTier(difficulty: string, random: real)
    requires 0.0 <= random < 1.0
    requires TierTitles(difficulty) != []
    ensures var s := MakeShape(RandomShape(TierTitles(difficulty), random), difficulty);
      && s.title in TierTitles(difficulty)
      && TitleTier(s.title) == Some(difficulty)
      && s.difficulty == difficulty
      && s.pixels == TraceShapePixels(s.title)
  {
    var title := RandomShape(TierTitles(difficulty), random);
    TierTitlesInverse(difficulty, title);
  }
}
