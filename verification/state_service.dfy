/** The state library's service (`projects/state/src/lib/state.service.ts`).
    Its queries are those of the map service (`Forecast`), over the same
    loaded series; what differs is the rating, whose options are read
    through `options?.x || true` and so are always on, and the newest-first
    scan, which this service carries out itself. */
module StateServices {
  import opened Wrappers
  import opened Calendar
  import opened DateStrings
  import opened Json
  import opened Models
  import opened Rating
  import opened Forecast

  /** JavaScript's `x || true` for an optional flag: `undefined`, `false`
      and `true` all give `true`. */
  function OrTrue(x: Option<bool>): (r: bool)
    ensures r
  {
    if x.Some? && x.value then x.value else true
  }

  /** `StateService` over loaded data: the loaders fill `evs` and
      `probabilities` once; here they are given to the constructor, with the
      rating margins the config service returns. */
  class StateService {
    const evs: Json<int>
    const probabilities: Series
    const ratingMargins: RatingMargins

    constructor(evs: Json<int>, probabilities: Series, ratingMargins: RatingMargins)
      ensures this.evs == evs && this.probabilities == probabilities && this.ratingMargins == ratingMargins
    {
      this.evs := evs;
      this.probabilities := probabilities;
      this.ratingMargins := ratingMargins;
    }

    /** `getRating(state, date, options?)`: the ladder with tilts and
        toss-ups both on whatever `options` says, applied to the margin
        `2d - 100` of the latest snapshot's Democratic value `d`, or to
        `-100` when there is none. */
    function GetRating(state: string, date: DateString, options: Option<RatingOptions>, today: DateString): (r: StateRating)
      requires ValidSeries(probabilities)
      ensures LatestFor(probabilities, state, date.date).None? ==> r == Classify(-100.0, ratingMargins, true, true)
      ensures LatestFor(probabilities, state, date.date).Some? ==>
                var d := StateValue(probabilities, state, LatestFor(probabilities, state, date.date).value);
                r == Classify(2.0 * d - 100.0, ratingMargins, true, true)
    {
      MarginAt(probabilities, state, date, today);
      var margin := ProbabilityAt(probabilities, state, date, today).Margin();
      var tilts := OrTrue(if options.Some? then Some(options.value.tilts) else None);
      var tossups := OrTrue(if options.Some? then Some(options.value.tossups) else None);
      Classify(margin, ratingMargins, tilts, tossups)
    }

    /** The options make no difference. */
    lemma GetRatingIgnoresOptions(state: string, date: DateString, a: Option<RatingOptions>,
                                  b: Option<RatingOptions>, today: DateString)
      requires ValidSeries(probabilities)
      ensures GetRating(state, date, a, today) == GetRating(state, date, b, today)
    {
    }

    /** With thresholds in order, every rating is one band of the margin: a
        margin that reaches no rung is always a toss-up, and the tilt
        ratings are exactly the bands between the tilt and lean
        thresholds. */
    lemma GetRatingBands(state: string, date: DateString, options: Option<RatingOptions>, today: DateString)
      requires ValidSeries(probabilities) && Ordered(ratingMargins)
      ensures var margin := ProbabilityAt(probabilities, state, date, today).Margin();
              var r := GetRating(state, date, options, today);
              && (r == TossUp <==> -ratingMargins.tilt < margin < ratingMargins.tilt)
              && (r == TiltD <==> ratingMargins.tilt <= margin < ratingMargins.lean)
              && (r == TiltR <==> -ratingMargins.lean < margin <= -ratingMargins.tilt)
    {
      ClassifyBands(ProbabilityAt(probabilities, state, date, today).Margin(), ratingMargins);
    }

    /** `getLatestDateString(state, latest)`: scans `getDateStrings()` newest
        first and returns the first date that has data for the state and is
        not after `latest`: the newest qualifying snapshot. */
    method GetLatestDateString(state: string, latest: DateString) returns (r: Option<DateString>)
      requires ValidSeries(probabilities)
      ensures r == LatestDateString(probabilities, state, latest.date)
    {
      var dateStrings := AvailableDateStrings(probabilities);
      ghost var keys := KeysNewestFirst(probabilities);
      var i := 0;
      while i < |dateStrings|
        invariant 0 <= i <= |dateStrings|
        invariant NoneQualifies(probabilities, state, latest.date, keys, i)
      {
        var dateString := dateStrings[i];
        ScanAt(probabilities, state, latest.date, i);
        if IsStateAvailableForDate(probabilities, state, dateString) == Success(true)
           && Le(dateString.date, latest.date) {
          return Some(dateString);
        }
        i := i + 1;
      }
      ScanExhausted(probabilities, state, latest.date);
      return None;
    }
  }
}
