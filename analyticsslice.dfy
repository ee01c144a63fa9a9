/** The analytics store slice: the analytics data, the leaderboard, the
    comparison panel and the chosen time range, with the settled cases of
    the three fetches. */
module AnalyticsStore {
  import opened Wrappers
  import opened Text
  import opened Types

  datatype TimeRange = Week | Month | Quarter | Year | AllTime

  /** The range as the request writes it. */
  function RangeName(r: TimeRange): string
  {
    match r
    case Week => "7d"
    case Month => "30d"
    case Quarter => "90d"
    case Year => "1y"
    case AllTime => "all"
  }

  function ParseRange(s: string): Option<TimeRange>
  {
    if s == "7d" then Some(Week)
    else if s == "30d" then Some(Month)
    else if s == "90d" then Some(Quarter)
    else if s == "1y" then Some(Year)
    else if s == "all" then Some(AllTime)
    else None
  }

  /** The five range names are distinct and read back. */
  lemma RangeNamesRoundTrip(r: TimeRange, s: string)
    ensures ParseRange(RangeName(r)) == Some(r)
    ensures ParseRange(s).Some? ==> RangeName(ParseRange(s).value) == s
  {
  }

  /** The text a thunk rejects with when the response is not ok. */
  function HttpErrorMessage(status: int): string
  {
    "HTTP error! status: " + IntToString(status)
  }

  /** The status can be read back from the rejection text, so different
      statuses give different messages. */
  lemma HttpErrorReadsBack(status: int, other: int)
    ensures |HttpErrorMessage(status)| > 20 && HttpErrorMessage(status)[..20] == "HTTP error! status: "
    ensures ParseInt(HttpErrorMessage(status)[20..]) == Some(status)
    ensures HttpErrorMessage(status) == HttpErrorMessage(other) ==> status == other
  {
    assert HttpErrorMessage(status)[20..] == IntToString(status);
    assert HttpErrorMessage(other)[20..] == IntToString(other);
    ParseIntIntToString(status);
    ParseIntIntToString(other);
  }

  class AnalyticsSlice {
    var data: Option<AnalyticsData>
    var leaderboard: seq<LeaderboardEntry>
    var comparison: Option<ComparisonData>
    var loading: bool
    var error: Option<string>
    var timeRange: TimeRange

    /** `initialState`: nothing loaded, thirty days. */
    constructor()
      ensures data.None? && leaderboard == [] && comparison.None?
      ensures !loading && error.None? && timeRange == Month
    {
      data := None;
      leaderboard := [];
      comparison := None;
      loading := false;
      error := None;
      timeRange := Month;
    }

    /** `setTimeRange`. */
    method SetTimeRange(r: TimeRange)
      modifies this
      ensures timeRange == r
      ensures data == old(data) && leaderboard == old(leaderboard) && comparison == old(comparison)
      ensures loading == old(loading) && error == old(error)
    {
      timeRange := r;
    }

    /** `clearError`. */
    method ClearError()
      modifies this
      ensures error.None?
      ensures data == old(data) && leaderboard == old(leaderboard) && comparison == old(comparison)
      ensures loading == old(loading) && timeRange == old(timeRange)
    {
      error := None;
    }

    /** `fetchAnalytics.pending`. */
    method FetchAnalyticsPending()
      modifies this
      ensures loading && error.None?
      ensures data == old(data) && leaderboard == old(leaderboard) && comparison == old(comparison)
      ensures timeRange == old(timeRange)
    {
      loading := true;
      error := None;
    }

    /** `fetchAnalytics.fulfilled`. */
    method FetchAnalyticsFulfilled(payload: AnalyticsData)
      modifies this
      ensures !loading && data == Some(payload)
      ensures leaderboard == old(leaderboard) && comparison == old(comparison)
      ensures error == old(error) && timeRange == old(timeRange)
    {
      loading := false;
      data := Some(payload);
    }

    /** `fetchAnalytics.rejected`: the rejected value, or a default text. */
    method FetchAnalyticsRejected(payload: Option<string>)
      modifies this
      ensures !loading && error == Some(MessageOr(payload, "Failed to fetch analytics"))
      ensures data == old(data) && leaderboard == old(leaderboard) && comparison == old(comparison)
      ensures timeRange == old(timeRange)
    {
      loading := false;
      error := Some(MessageOr(payload, "Failed to fetch analytics"));
    }

    /** `fetchLeaderboard.fulfilled`: the loading flag is not touched. */
    method FetchLeaderboardFulfilled(payload: seq<LeaderboardEntry>)
      modifies this
      ensures leaderboard == payload
      ensures data == old(data) && comparison == old(comparison)
      ensures loading == old(loading) && error == old(error) && timeRange == old(timeRange)
    {
      leaderboard := payload;
    }

    /** `fetchLeaderboard.rejected`. */
    method FetchLeaderboardRejected(payload: Option<string>)
      modifies this
      ensures error == Some(MessageOr(payload, "Failed to fetch leaderboard"))
      ensures data == old(data) && leaderboard == old(leaderboard) && comparison == old(comparison)
      ensures loading == old(loading) && timeRange == old(timeRange)
    {
      error := Some(MessageOr(payload, "Failed to fetch leaderboard"));
    }

    /** `fetchComparison.fulfilled`. */
    method FetchComparisonFulfilled(payload: ComparisonData)
      modifies this
      ensures comparison == Some(payload)
      ensures data == old(data) && leaderboard == old(leaderboard)
      ensures loading == old(loading) && error == old(error) && timeRange == old(timeRange)
    {
      comparison := Some(payload);
    }

    /** `fetchComparison.rejected`. */
    method FetchComparisonRejected(payload: Option<string>)
      modifies this
      ensures error == Some(MessageOr(payload, "Failed to fetch comparison"))
      ensures data == old(data) && leaderboard == old(leaderboard) && comparison == old(comparison)
      ensures loading == old(loading) && timeRange == old(timeRange)
    {
      error := Some(MessageOr(payload, "Failed to fetch comparison"));
    }
  }
}
