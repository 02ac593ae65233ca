/** The rating ladder shared by the map service (`getStateRating`) and the
    state service (`getRating`): a margin in points is classified against the
    configured thresholds, tilt ratings and the toss-up rating each being
    optional. */
module Rating {
  import opened Models

  /** Thresholds in the order the configuration intends them. */
  predicate Ordered(m: RatingMargins) {
    0.0 < m.tilt <= m.lean <= m.likely <= m.solid
  }

  /** The first rung the margin reaches wins; a margin that reaches none
      is a toss-up when toss-ups are on or the margin is zero, and otherwise
      goes to the leading party's weakest allowed rating. */
  function Classify(margin: real, m: RatingMargins, tilts: bool, tossups: bool): (r: StateRating)
    ensures !tilts ==> r != TiltD && r != TiltR
    ensures r == TossUp ==> tossups || margin == 0.0
  {
    if margin >= m.solid then SolidD
    else if margin >= m.likely then LikelyD
    else if margin >= m.lean then LeanD
    else if margin >= m.tilt && tilts then TiltD
    else if margin <= -m.solid then SolidR
    else if margin <= -m.likely then LikelyR
    else if margin <= -m.lean then LeanR
    else if margin <= -m.tilt && tilts then TiltR
    else if tossups || margin == 0.0 then TossUp
    else if margin > 0.0 then (if tilts then TiltD else LeanD)
    else (if tilts then TiltR else LeanR)
  }

  /** Position on the scale from safest Republican (0) to safest
      Democratic (8). */
  function Rank(r: StateRating): (n: int)
    ensures 0 <= n <= 8
    ensures n == 4 <==> r == TossUp
  {
    match r
    case SolidR => 0
    case LikelyR => 1
    case LeanR => 2
    case TiltR => 3
    case TossUp => 4
    case TiltD => 5
    case LeanD => 6
    case LikelyD => 7
    case SolidD => 8
  }

  /** The same rating for the other party. */
  function Mirror(r: StateRating): (s: StateRating)
    ensures Rank(s) == 8 - Rank(r)
  {
    match r
    case SolidR => SolidD
    case LikelyR => LikelyD
    case LeanR => LeanD
    case TiltR => TiltD
    case TossUp => TossUp
    case TiltD => TiltR
    case LeanD => LeanR
    case LikelyD => LikelyR
    case SolidD => SolidR
  }

  /** With both options on, each rating is exactly one band of margins. */
  lemma ClassifyBands(margin: real, m: RatingMargins)
    requires Ordered(m)
    ensures var r := Classify(margin, m, true, true);
            && (r == SolidD <==> margin >= m.solid)
            && (r == LikelyD <==> m.likely <= margin < m.solid)
            && (r == LeanD <==> m.lean <= margin < m.likely)
            && (r == TiltD <==> m.tilt <= margin < m.lean)
            && (r == TossUp <==> -m.tilt < margin < m.tilt)
            && (r == TiltR <==> -m.lean < margin <= -m.tilt)
            && (r == LeanR <==> -m.likely < margin <= -m.lean)
            && (r == LikelyR <==> -m.solid < margin <= -m.likely)
            && (r == SolidR <==> margin <= -m.solid)
  {
  }

  /** A zero margin is a toss-up whatever the options. */
  lemma ZeroIsTossUp(m: RatingMargins, tilts: bool, tossups: bool)
    requires Ordered(m)
    ensures Classify(0.0, m, tilts, tossups) == TossUp
  {
  }

  /** With toss-ups off, a margin below the lean threshold goes to the
      leading party: its tilt rating, or its lean rating when tilts are off. */
  lemma ClassifyWithoutTossUps(margin: real, m: RatingMargins, tilts: bool)
    requires Ordered(m) && -m.lean < margin < m.lean && margin != 0.0
    ensures Classify(margin, m, tilts, false) ==
              if margin > 0.0 then (if tilts then TiltD else LeanD)
              else (if tilts then TiltR else LeanR)
  {
  }

  /** The ladder treats both parties alike: the opposite margin gets the
      mirrored rating. */
  lemma ClassifySymmetric(margin: real, m: RatingMargins, tilts: bool, tossups: bool)
    requires Ordered(m)
    ensures Classify(-margin, m, tilts, tossups) == Mirror(Classify(margin, m, tilts, tossups))
  {
  }

  /** A larger margin never gives a less Democratic rating. */
  lemma ClassifyMonotone(a: real, b: real, m: RatingMargins, tilts: bool, tossups: bool)
    requires Ordered(m) && a <= b
    ensures Rank(Classify(a, m, tilts, tossups)) <= Rank(Classify(b, m, tilts, tossups))
  {
  }
}
