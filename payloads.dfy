/**
 * Request shaping: how one parameter record becomes the job payloads sent to
 * the scraping provider. The timeframe becomes a relative-age string, a fixed
 * set of flags is always present, comments, location and the age filter are
 * added only when asked for, and the search-specific fields are merged on top.
 */
module Payloads {
  import opened Wrappers
  import opened Json
  import opened ScraperParams
  import K = PayloadKeys

  /** A job payload: field values by key. */
  type Payload = map<K.Key, Value>

  /*** Timeframe ***/

  /** The relative age the provider filters on, or None when there is no filter. */
  function MapTimeframe(tf: Timeframe): (r: Option<string>)
    ensures r.None? <==> tf == AnyTime
    ensures r.Some? ==> r.value in {"1 day", "7 days", "30 days", "180 days"}
  {
    match tf
    case Last24Hours => Some("1 day")
    case Last7Days => Some("7 days")
    case Last30Days => Some("30 days")
    case Last6Months => Some("180 days")
    case AnyTime => None
  }

  /** Distinct timeframes never share a filter string. */
  lemma MapTimeframeInjective(a: Timeframe, b: Timeframe)
    ensures MapTimeframe(a) == MapTimeframe(b) ==> a == b
  {
  }

  /*** Fields shared by every payload ***/

  /** The flags every payload carries, all switched off. */
  const FixedFlags: Payload := map[
    K.AddParentData := Bool(false),
    K.EnhanceUserSearchWithFacebookPage := Bool(false),
    K.IsUserReelFeedURL := Bool(false),
    K.IsUserTaggedFeedURL := Bool(false)]

  /** Python truthiness of an optional string: present and non-empty. */
  predicate Truthy(s: Option<string>) {
    s.Some? && s.value != ""
  }

  /** The shared fields: the fixed flags, then whatever each condition contributes. */
  function CommonFields(p: Params): Payload {
    FixedFlags + CommentFields(p) + LocationField(p) + AgeField(p)
  }

  /** The comment settings, present only when comments are asked for. */
  function CommentFields(p: Params): Payload {
    if p.includeComments
    then map[K.IncludeComments := Bool(true), K.CommentsLimit := Int(p.commentsPerPostLimit)]
    else map[]
  }

  /** The location filter, present only for a non-empty location. */
  function LocationField(p: Params): Payload {
    if Truthy(p.location) then map[K.Location := Str(p.location.value)] else map[]
  }

  /** The age filter, present only when the timeframe maps to an age. */
  function AgeField(p: Params): Payload {
    if MapTimeframe(p.timeframe).Some?
    then map[K.OnlyPostsNewerThan := Str(MapTimeframe(p.timeframe).value)]
    else map[]
  }

  /** The shared part holds shared keys only, so it never collides with a search kind's own keys. */
  lemma CommonFieldsShared(p: Params)
    ensures forall k :: k in CommonFields(p) ==> k.Shared()
  {
  }

  /** The four flags are always present and always false. */
  lemma CommonFieldsFlags(p: Params)
    ensures forall k :: k in FixedFlags ==> k in CommonFields(p) && CommonFields(p)[k] == Bool(false)
  {
    var extra := CommentFields(p) + LocationField(p) + AgeField(p);
    assert extra.Keys <= {K.IncludeComments, K.CommentsLimit, K.Location, K.OnlyPostsNewerThan};
    assert FixedFlags.Keys !! extra.Keys;
  }

  /** Comment settings are present exactly when comments are asked for, with the per-post limit. */
  lemma CommonFieldsComments(p: Params)
    ensures K.IncludeComments in CommonFields(p) <==> p.includeComments
    ensures K.CommentsLimit in CommonFields(p) <==> p.includeComments
    ensures p.includeComments ==>
      CommonFields(p)[K.IncludeComments] == Bool(true)
      && CommonFields(p)[K.CommentsLimit] == Int(p.commentsPerPostLimit)
  {
  }

  /** The location is present exactly when it is given and non-empty, and is passed on unchanged. */
  lemma CommonFieldsLocation(p: Params)
    ensures K.Location in CommonFields(p) <==> Truthy(p.location)
    ensures Truthy(p.location) ==> CommonFields(p)[K.Location] == Str(p.location.value)
  {
  }

  /** The age filter is present exactly when the timeframe is not "Any time", and holds the mapped age. */
  lemma CommonFieldsAge(p: Params)
    ensures K.OnlyPostsNewerThan in CommonFields(p) <==> p.timeframe != AnyTime
    ensures p.timeframe != AnyTime ==>
      CommonFields(p)[K.OnlyPostsNewerThan] == Str(MapTimeframe(p.timeframe).value)
  {
  }

  /** Builds the shared fields the way the node does: start from the flags, insert keys under conditions. */
  method GetCommonFields(p: Params) returns (payload: Payload)
    ensures payload == CommonFields(p)
  {
    payload := map[
      K.AddParentData := Bool(false),
      K.EnhanceUserSearchWithFacebookPage := Bool(false),
      K.IsUserReelFeedURL := Bool(false),
      K.IsUserTaggedFeedURL := Bool(false)];
    assert payload == FixedFlags;
    if p.includeComments {
      payload := payload[K.IncludeComments := Bool(true)];
      payload := payload[K.CommentsLimit := Int(p.commentsPerPostLimit)];
      assert payload == FixedFlags + CommentFields(p);
    }
    ghost var sofar := FixedFlags + CommentFields(p);
    assert payload == sofar;
    if p.location.Some? && p.location.value != "" {
      payload := payload[K.Location := Str(p.location.value)];
      assert payload == sofar + LocationField(p);
    }
    sofar := sofar + LocationField(p);
    assert payload == sofar;
    var tf := MapTimeframe(p.timeframe);
    if tf.Some? && tf.value != "" {
      payload := payload[K.OnlyPostsNewerThan := Str(tf.value)];
      assert payload == sofar + AgeField(p);
    }
  }

  /*** Hashtag terms ***/

  /** A run of `n` '#' characters. */
  function Hashes(n: nat): (s: string)
    ensures |s| == n && forall i :: 0 <= i < n ==> s[i] == '#'
  {
    seq(n, _ => '#')
  }

  /** The term with every leading '#' removed (Python's `lstrip("#")`). */
  function StripHashes(s: string): (r: string)
    ensures |r| <= |s|
    ensures s == Hashes(|s| - |r|) + r
    ensures r == [] || r[0] != '#'
    ensures (s == [] || s[0] != '#') ==> r == s
    decreases |s|
  {
    if s != [] && s[0] == '#' then StripHashes(s[1..]) else s
  }

  /** Any run of '#' in front of a term that does not start with '#' is removed, and nothing else. */
  lemma {:induction false} StripHashesOfHashesPrefix(n: nat, t: string)
    requires t == [] || t[0] != '#'
    ensures StripHashes(Hashes(n) + t) == t
  {
    if n > 0 {
      assert (Hashes(n) + t)[1..] == Hashes(n - 1) + t;
      StripHashesOfHashesPrefix(n - 1, t);
    } else {
      assert Hashes(n) + t == t;
    }
  }

  /** Stripping twice is stripping once. */
  lemma StripHashesIdempotent(s: string)
    ensures StripHashes(StripHashes(s)) == StripHashes(s)
  {
  }

  /*** Profile URLs ***/

  const ProfileUrlPrefix: string := "https://www.instagram.com/"

  /** The canonical profile address of a user name. */
  function ProfileUrl(term: string): (url: string)
    ensures ProfileTerm(url) == Some(term)
  {
    ProfileUrlPrefix + term + "/"
  }

  /** Reads the user name back out of a canonical profile address, if it is one. */
  function ProfileTerm(url: string): (r: Option<string>)
    ensures r.Some? ==> |url| == |ProfileUrlPrefix| + |r.value| + 1
  {
    if |url| > |ProfileUrlPrefix| && url[..|ProfileUrlPrefix|] == ProfileUrlPrefix && url[|url| - 1] == '/'
    then Some(url[|ProfileUrlPrefix|..|url| - 1])
    else None
  }

  /** Different user names never share a profile address. */
  lemma ProfileUrlInjective(a: string, b: string)
    ensures ProfileUrl(a) == ProfileUrl(b) ==> a == b
  {
    if ProfileUrl(a) == ProfileUrl(b) {
      assert ProfileTerm(ProfileUrl(a)) == Some(a);
    }
  }

  /*** The three payloads ***/

  /** `m` holds every field of `base`, with the same value. */
  predicate Keeps(m: Payload, base: Payload) {
    forall k :: k in base ==> k in m && m[k] == base[k]
  }

  /**
   * Python's `{**base, **extra}`: every key of either, the value from `extra`
   * where both have one. When the key sets are disjoint, nothing of `base` is overridden.
   */
  function Merge(base: Payload, extra: Payload): (m: Payload)
    ensures m.Keys == base.Keys + extra.Keys
    ensures Keeps(m, extra)
    ensures forall k :: k in base && k !in extra ==> m[k] == base[k]
    ensures base.Keys !! extra.Keys ==> Keeps(m, base)
  {
    base + extra
  }

  /** Keys a hashtag payload adds on top of the shared fields. */
  const HashtagKeys: set<K.Key> := {K.SearchType, K.ResultsType, K.Search, K.ResultsLimit, K.SearchLimit}

  /** Keys a profile posts payload adds on top of the shared fields. */
  const ProfilePostsKeys: set<K.Key> := {K.SearchType, K.ResultsType, K.DirectUrls, K.ResultsLimit, K.SearchLimit}

  /** Keys a profile details payload adds on top of the shared fields: no limits. */
  const ProfileDetailsKeys: set<K.Key> := {K.SearchType, K.ResultsType, K.DirectUrls}

  /** The single request of a hashtag search. */
  function HashtagPayload(p: Params): (m: Payload)
    ensures m.Keys == CommonFields(p).Keys + HashtagKeys
    ensures Keeps(m, CommonFields(p))
    ensures m[K.SearchType] == Str("hashtag") && m[K.ResultsType] == Str("posts")
    ensures m[K.Search] == Str(StripHashes(p.searchTerm))
    ensures m[K.ResultsLimit] == m[K.SearchLimit] == Int(p.postsLimit)
  {
    var extra := map[
      K.SearchType := Str("hashtag"),
      K.ResultsType := Str("posts"),
      K.Search := Str(StripHashes(p.searchTerm)),
      K.ResultsLimit := Int(p.postsLimit),
      K.SearchLimit := Int(p.postsLimit)];
    assert extra.Keys == HashtagKeys && forall k :: k in extra ==> !k.Shared();
    CommonFieldsShared(p);
    Merge(CommonFields(p), extra)
  }

  /** The request for a profile's posts. */
  function ProfilePostsPayload(p: Params): (m: Payload)
    ensures m.Keys == CommonFields(p).Keys + ProfilePostsKeys
    ensures Keeps(m, CommonFields(p))
    ensures m[K.SearchType] == Str("user") && m[K.ResultsType] == Str("posts")
    ensures m[K.DirectUrls] == Arr([Str(ProfileUrl(p.searchTerm))])
    ensures m[K.ResultsLimit] == m[K.SearchLimit] == Int(p.postsLimit)
  {
    var extra := map[
      K.SearchType := Str("user"),
      K.ResultsType := Str("posts"),
      K.DirectUrls := Arr([Str(ProfileUrl(p.searchTerm))]),
      K.ResultsLimit := Int(p.postsLimit),
      K.SearchLimit := Int(p.postsLimit)];
    assert extra.Keys == ProfilePostsKeys && forall k :: k in extra ==> !k.Shared();
    CommonFieldsShared(p);
    Merge(CommonFields(p), extra)
  }

  /** The request for a profile's details. */
  function ProfileDetailsPayload(p: Params): (m: Payload)
    ensures m.Keys == CommonFields(p).Keys + ProfileDetailsKeys
    ensures Keeps(m, CommonFields(p))
    ensures m[K.SearchType] == Str("user") && m[K.ResultsType] == Str("details")
    ensures m[K.DirectUrls] == Arr([Str(ProfileUrl(p.searchTerm))])
  {
    var extra := map[
      K.SearchType := Str("user"),
      K.ResultsType := Str("details"),
      K.DirectUrls := Arr([Str(ProfileUrl(p.searchTerm))])];
    assert extra.Keys == ProfileDetailsKeys && forall k :: k in extra ==> !k.Shared();
    CommonFieldsShared(p);
    Merge(CommonFields(p), extra)
  }

  /** The details request carries no limit fields. */
  lemma ProfileDetailsPayloadHasNoLimits(p: Params)
    ensures K.ResultsLimit !in ProfileDetailsPayload(p) && K.SearchLimit !in ProfileDetailsPayload(p)
  {
    CommonFieldsShared(p);
    assert !(K.ResultsLimit).Shared() && !(K.SearchLimit).Shared();
  }

  /*** The wire form ***/

  /** The JSON object a payload is posted as: each value under its key's field name. */
  function Render(m: Payload): (d: Dict)
    ensures forall k :: k in m ==> K.KeyName(k) in d && d[K.KeyName(k)] == m[k]
    ensures forall s :: s in d ==> K.ParseKey(s).Some? && K.ParseKey(s).value in m
  {
    map k | k in m :: K.KeyName(k) := m[k]
  }

  /** Distinct payloads are posted as distinct JSON objects: rendering loses nothing. */
  lemma RenderInjective(a: Payload, b: Payload)
    ensures Render(a) == Render(b) ==> a == b
  {
    if Render(a) == Render(b) {
      forall k | k in a
        ensures k in b && a[k] == b[k]
      {
        assert K.ParseKey(K.KeyName(k)) == Some(k);
      }
      forall k | k in b
        ensures k in a
      {
        assert K.ParseKey(K.KeyName(k)) == Some(k);
      }
      assert a.Keys == b.Keys;
    }
  }
}
