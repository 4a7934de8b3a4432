/** The keys a job payload may hold, and the JSON field name each one is sent under. */
module PayloadKeys {
  import opened Wrappers

  datatype Key =
    | AddParentData
    | EnhanceUserSearchWithFacebookPage
    | IsUserReelFeedURL
    | IsUserTaggedFeedURL
    | IncludeComments
    | CommentsLimit
    | Location
    | OnlyPostsNewerThan
    | SearchType
    | ResultsType
    | Search
    | ResultsLimit
    | SearchLimit
    | DirectUrls
  {
    /** Whether the key belongs to the part every payload shares, rather than to one search kind. */
    predicate Shared() {
      || AddParentData? || EnhanceUserSearchWithFacebookPage? || IsUserReelFeedURL? || IsUserTaggedFeedURL?
      || IncludeComments? || CommentsLimit? || Location? || OnlyPostsNewerThan?
    }
  }

  /** The field name the provider expects for each key. */
  function KeyName(k: Key): (s: string)
    ensures ParseKey(s) == Some(k)
  {
    match k
    case AddParentData => "addParentData"
    case EnhanceUserSearchWithFacebookPage => "enhanceUserSearchWithFacebookPage"
    case IsUserReelFeedURL => "isUserReelFeedURL"
    case IsUserTaggedFeedURL => "isUserTaggedFeedURL"
    case IncludeComments => "includeComments"
    case CommentsLimit => "commentsLimit"
    case Location => "location"
    case OnlyPostsNewerThan => "onlyPostsNewerThan"
    case SearchType => "searchType"
    case ResultsType => "resultsType"
    case Search => "search"
    case ResultsLimit => "resultsLimit"
    case SearchLimit => "searchLimit"
    case DirectUrls => "directUrls"
  }

  /** The key a field name stands for, if any. */
  function ParseKey(s: string): Option<Key> {
    if s == "addParentData" then Some(AddParentData)
    else if s == "enhanceUserSearchWithFacebookPage" then Some(EnhanceUserSearchWithFacebookPage)
    else if s == "isUserReelFeedURL" then Some(IsUserReelFeedURL)
    else if s == "isUserTaggedFeedURL" then Some(IsUserTaggedFeedURL)
    else if s == "includeComments" then Some(IncludeComments)
    else if s == "commentsLimit" then Some(CommentsLimit)
    else if s == "location" then Some(Location)
    else if s == "onlyPostsNewerThan" then Some(OnlyPostsNewerThan)
    else if s == "searchType" then Some(SearchType)
    else if s == "resultsType" then Some(ResultsType)
    else if s == "search" then Some(Search)
    else if s == "resultsLimit" then Some(ResultsLimit)
    else if s == "searchLimit" then Some(SearchLimit)
    else if s == "directUrls" then Some(DirectUrls)
    else None
  }

  /** Distinct keys are sent under distinct field names. */
  lemma KeyNameInjective(a: Key, b: Key)
    ensures KeyName(a) == KeyName(b) ==> a == b
  {
    if KeyName(a) == KeyName(b) {
      assert ParseKey(KeyName(a)) == Some(a);
    }
  }
}
