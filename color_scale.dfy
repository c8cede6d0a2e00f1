/** nplots.py's rating-to-colour lookup: `color_dict` is an ordered table of
    thresholds, and `search_color` walks it in insertion order, returning the
    colour of the greatest threshold at or below the rating. The table is a
    step function, not an interpolation. */
module ColorScale {
  import opened Common

  /** An RGBA colour written `#rrggbbaa`. */
  type Colour = string

  /** A threshold table: keys in insertion order, each with the colour of the
      band it opens (None for the closing key). */
  type Table = seq<(real, Option<Colour>)>

  /** `color_dict`. */
  const ColorDict: Table := [
    (0.0, Some("#bb0000ff")),
    (2.0, Some("#bb5500ff")),
    (4.0, Some("#f3cb00ff")),
    (6.0, Some("#aaee00ff")),
    (8.0, Some("#00aa00ff")),
    (10.0, None)
  ]

  predicate StrictlyAscending(table: Table)
  {
    forall i, j :: 0 <= i < j < |table| ==> table[i].0 < table[j].0
  }

  /** The table's keys are strictly ascending, which the early-return scan relies on. */
  lemma ColorDictAscending()
    ensures |ColorDict| == 6
    ensures StrictlyAscending(ColorDict)
  {
  }

  /** Position `i` is the rating's band: the greatest key at or below the
      rating, or the first entry when the rating is below every key. */
  ghost predicate IsBand(table: Table, rating: real, i: int)
    requires |table| > 0
  {
    && 0 <= i < |table|
    && (rating < table[0].0 ==> i == 0)
    && (table[0].0 <= rating ==>
          table[i].0 <= rating && (i + 1 == |table| || rating < table[i + 1].0))
  }

  /** The band of a rating in an ascending table. */
  function Band(table: Table, rating: real): (i: nat)
    requires |table| > 0 && StrictlyAscending(table)
    ensures IsBand(table, rating, i)
    decreases |table|
  {
    if |table| == 1 || rating < table[1].0 then 0
    else 1 + Band(table[1..], rating)
  }

  /** In an ascending table a rating has exactly one band. */
  lemma BandUnique(table: Table, rating: real, i: int)
    requires |table| > 0 && StrictlyAscending(table)
    requires IsBand(table, rating, i)
    ensures Band(table, rating) == i
  {
  }

  /** A greater rating never lands in an earlier band. */
  lemma {:induction false} BandMonotone(table: Table, r1: real, r2: real)
    requires |table| > 0 && StrictlyAscending(table)
    requires r1 <= r2
    ensures Band(table, r1) <= Band(table, r2)
    decreases |table|
  {
    if |table| > 1 && table[1].0 <= r1 {
      BandMonotone(table[1..], r1, r2);
    }
  }

  /** What `search_color(rating)` returns. */
  function ColourOf(rating: real): Option<Colour>
  {
    ColorDictAscending();
    ColorDict[Band(ColorDict, rating)].1
  }

  /** `search_color`: scan the keys in order, remembering the last colour
      passed, and stop at the first key above the rating. A rating at or above
      every key runs off the end of the loop, and Python returns None. */
  method SearchColor(rating: real) returns (c: Option<Colour>)
    ensures c == ColourOf(rating)
  {
    ColorDictAscending();
    var previous := ColorDict[0].1;
    var i := 0;
    while i < |ColorDict|
      invariant 0 <= i <= |ColorDict|
      invariant i == 0 ==> previous == ColorDict[0].1
      invariant 0 < i ==> previous == ColorDict[i - 1].1 && ColorDict[i - 1].0 <= rating
    {
      if ColorDict[i].0 > rating {
        BandUnique(ColorDict, rating, if i == 0 then 0 else i - 1);
        return previous;
      }
      previous := ColorDict[i].1;
      i := i + 1;
    }
    BandUnique(ColorDict, rating, |ColorDict| - 1);
    c := None;
  }

  /** Ratings below the first key 0.0 get the first colour. */
  lemma BelowFirstKey(rating: real)
    requires rating < 0.0
    ensures ColourOf(rating) == Some("#bb0000ff")
  {
    ColorDictAscending();
    BandUnique(ColorDict, rating, 0);
  }

  /** Each two-point band [k, k + 2) below 10 gets the colour stored under k. */
  lemma BandColours(rating: real)
    ensures 0.0 <= rating < 2.0 ==> ColourOf(rating) == Some("#bb0000ff")
    ensures 2.0 <= rating < 4.0 ==> ColourOf(rating) == Some("#bb5500ff")
    ensures 4.0 <= rating < 6.0 ==> ColourOf(rating) == Some("#f3cb00ff")
    ensures 6.0 <= rating < 8.0 ==> ColourOf(rating) == Some("#aaee00ff")
    ensures 8.0 <= rating < 10.0 ==> ColourOf(rating) == Some("#00aa00ff")
  {
    ColorDictAscending();
    var k := if rating < 2.0 then 0 else if rating < 4.0 then 1 else if rating < 6.0 then 2
             else if rating < 8.0 then 3 else if rating < 10.0 then 4 else 5;
    BandUnique(ColorDict, rating, k);
  }

  /** A rating of 10.0 or more has no colour: the key 10.0 stores None, and
      ratings above it fall out of the loop. */
  lemma NoColourFromTen(rating: real)
    ensures ColourOf(rating) == None <==> 10.0 <= rating
  {
    ColorDictAscending();
    var k := if rating < 2.0 then 0 else if rating < 4.0 then 1 else if rating < 6.0 then 2
             else if rating < 8.0 then 3 else if rating < 10.0 then 4 else 5;
    BandUnique(ColorDict, rating, k);
  }

  /** The palette position never moves back as the rating grows. */
  lemma PalettePositionMonotone(r1: real, r2: real)
    requires r1 <= r2
    ensures Band(ColorDict, r1) <= Band(ColorDict, r2)
  {
    ColorDictAscending();
    BandMonotone(ColorDict, r1, r2);
  }
}
