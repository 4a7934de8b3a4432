/**
 * The validated parameter record of one scrape (`InstagramScraperNodeParams`):
 * two enumerations given by their literal labels, two bounded limits with
 * defaults, and the validation that turns raw field values into a record or
 * into the set of fields that were rejected.
 */
module ScraperParams {
  import opened Wrappers

  datatype SearchType = Hashtag | UserProfile

  datatype Timeframe = Last24Hours | Last7Days | Last30Days | Last6Months | AnyTime

  const MaxPostsLimit: int := 1000
  const MaxCommentsPerPostLimit: int := 200
  const DefaultPostsLimit: int := 10
  const DefaultCommentsPerPostLimit: int := 20
  const DefaultTimeframe: Timeframe := AnyTime
  const DefaultIncludeComments: bool := false

  datatype Params = Params(
    searchType: SearchType,
    searchTerm: string,
    postsLimit: int,
    timeframe: Timeframe,
    includeComments: bool,
    commentsPerPostLimit: int,
    location: Option<string>)

  /** The bounds every constructed record satisfies. */
  predicate WithinBounds(p: Params) {
    && 0 <= p.postsLimit <= MaxPostsLimit
    && 0 <= p.commentsPerPostLimit <= MaxCommentsPerPostLimit
  }

  /** The literal a caller writes for each search type. */
  function SearchTypeLabel(t: SearchType): (s: string)
    ensures ParseSearchType(s) == Some(t)
  {
    match t
    case Hashtag => "Hashtag"
    case UserProfile => "User Profile"
  }

  /** Membership in the search-type literal: exactly the two labels are accepted. */
  function ParseSearchType(s: string): (r: Option<SearchType>)
    ensures r.Some? <==> s == "Hashtag" || s == "User Profile"
  {
    if s == "Hashtag" then Some(Hashtag)
    else if s == "User Profile" then Some(UserProfile)
    else None
  }

  /** The literal a caller writes for each timeframe. */
  function TimeframeLabel(tf: Timeframe): (s: string)
    ensures ParseTimeframe(s) == Some(tf)
  {
    match tf
    case Last24Hours => "Last 24 hours"
    case Last7Days => "Last 7 days"
    case Last30Days => "Last 30 days"
    case Last6Months => "Last 6 months"
    case AnyTime => "Any time"
  }

  /** Membership in the timeframe literal: exactly the five labels are accepted. */
  function ParseTimeframe(s: string): (r: Option<Timeframe>)
    ensures r.Some? <==> s in {"Last 24 hours", "Last 7 days", "Last 30 days", "Last 6 months", "Any time"}
  {
    if s == "Last 24 hours" then Some(Last24Hours)
    else if s == "Last 7 days" then Some(Last7Days)
    else if s == "Last 30 days" then Some(Last30Days)
    else if s == "Last 6 months" then Some(Last6Months)
    else if s == "Any time" then Some(AnyTime)
    else None
  }

  /** A label parses to a value exactly when it is that value's label. */
  lemma SearchTypeLabelRoundTrip(s: string, t: SearchType)
    ensures ParseSearchType(s) == Some(t) <==> SearchTypeLabel(t) == s
  {
  }

  /** A label parses to a value exactly when it is that value's label. */
  lemma TimeframeLabelRoundTrip(s: string, tf: Timeframe)
    ensures ParseTimeframe(s) == Some(tf) <==> TimeframeLabel(tf) == s
  {
  }

  /** The fields whose validation can fail. */
  datatype Field = SearchTypeField | TimeframeField | PostsLimitField | CommentsPerPostLimitField

  /**
   * Builds the record from raw field values; `None` for an optional field means
   * "not given" and selects its default. Every rejected field is reported, as
   * a validation error lists all of them.
   */
  function MakeParams(
    searchType: string,
    searchTerm: string,
    postsLimit: Option<int>,
    timeframe: Option<string>,
    includeComments: Option<bool>,
    commentsPerPostLimit: Option<int>,
    location: Option<string>): (r: Result<Params, set<Field>>)
    ensures r.Ok? <==>
      && ParseSearchType(searchType).Some?
      && (timeframe.None? || ParseTimeframe(timeframe.value).Some?)
      && 0 <= postsLimit.GetOr(DefaultPostsLimit) <= MaxPostsLimit
      && 0 <= commentsPerPostLimit.GetOr(DefaultCommentsPerPostLimit) <= MaxCommentsPerPostLimit
    ensures r.Ok? ==>
      && WithinBounds(r.value)
      && SearchTypeLabel(r.value.searchType) == searchType
      && r.value.searchTerm == searchTerm
      && r.value.postsLimit == postsLimit.GetOr(DefaultPostsLimit)
      && TimeframeLabel(r.value.timeframe) == timeframe.GetOr(TimeframeLabel(DefaultTimeframe))
      && r.value.includeComments == includeComments.GetOr(DefaultIncludeComments)
      && r.value.commentsPerPostLimit == commentsPerPostLimit.GetOr(DefaultCommentsPerPostLimit)
      && r.value.location == location
    ensures r.Err? ==>
      && r.error != {}
      && (SearchTypeField in r.error <==> ParseSearchType(searchType).None?)
      && (TimeframeField in r.error <==> timeframe.Some? && ParseTimeframe(timeframe.value).None?)
      && (PostsLimitField in r.error <==> !(0 <= postsLimit.GetOr(DefaultPostsLimit) <= MaxPostsLimit))
      && (CommentsPerPostLimitField in r.error <==>
            !(0 <= commentsPerPostLimit.GetOr(DefaultCommentsPerPostLimit) <= MaxCommentsPerPostLimit))
  {
    var st := ParseSearchType(searchType);
    var tf := if timeframe.Some? then ParseTimeframe(timeframe.value) else Some(DefaultTimeframe);
    var pl := postsLimit.GetOr(DefaultPostsLimit);
    var cl := commentsPerPostLimit.GetOr(DefaultCommentsPerPostLimit);
    var errors :=
      (if st.None? then {SearchTypeField} else {})
      + (if tf.None? then {TimeframeField} else {})
      + (if 0 <= pl <= MaxPostsLimit then {} else {PostsLimitField})
      + (if 0 <= cl <= MaxCommentsPerPostLimit then {} else {CommentsPerPostLimitField});
    if errors == {} then
      Ok(Params(st.value, searchTerm, pl, tf.value, includeComments.GetOr(DefaultIncludeComments), cl, location))
    else
      Err(errors)
  }
}
