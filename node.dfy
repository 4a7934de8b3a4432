/**
 * The scraper node (`InstagramScraperNode`): it refuses to exist without an
 * API key and an actor id, accepts only status 200 or 201 from the provider,
 * and turns one parameter record into one or two provider requests whose
 * answers it wraps in a response envelope.
 *
 * The provider is seen through `Provider`, the answer it gives to each
 * payload; the ghost log `posted` records every payload handed to it, in order.
 */
module ScraperNode {
  import opened Wrappers
  import opened Json
  import opened ScraperParams
  import opened Payloads
  import K = PayloadKeys

  /** What the provider answers to one posted payload: status code, raw text and decoded body. */
  datatype Response = Response(status: int, text: string, body: Value)

  /** The provider as the node sees it. */
  type Provider = Payload -> Response

  /** The errors the node raises. */
  datatype Failure =
    | MissingApiKey
    | MissingActorId
    | ZeroPostsLimit
    | ProviderError(providerStatus: int, text: string)
  {
    /** The HTTP status each error is raised with. */
    function Status(): int {
      match this
      case MissingApiKey => 401
      case MissingActorId => 500
      case ZeroPostsLimit => 400
      case ProviderError(_, _) => 502
    }
  }

  /** The two values the node reads from its environment, once both are known to be usable. */
  datatype Config = Config(apiKey: string, actorId: string)

  /*** Construction ***/

  /** The configuration checks of construction: the key first, then the actor id. */
  function CheckConfig(apiKey: Option<string>, actorId: Option<string>): (r: Result<Config, Failure>)
    ensures r.Ok? <==> Truthy(apiKey) && Truthy(actorId)
    ensures r.Ok? ==> r.value == Config(apiKey.value, actorId.value)
    ensures !Truthy(apiKey) ==> r == Err(MissingApiKey) && r.error.Status() == 401
    ensures Truthy(apiKey) && !Truthy(actorId) ==> r == Err(MissingActorId) && r.error.Status() == 500
  {
    if !Truthy(apiKey) then Err(MissingApiKey)
    else if !Truthy(actorId) then Err(MissingActorId)
    else Ok(Config(apiKey.value, actorId.value))
  }

  const ApiUrlBase: string := "https://api.apify.com/v2/acts/"
  const ApiUrlPath: string := "/run-sync-get-dataset-items?token="

  /** The synchronous run endpoint of the actor, authenticated by the key. */
  function ApiUrl(c: Config): (url: string)
    ensures |url| == |ApiUrlBase| + |c.actorId| + |ApiUrlPath| + |c.apiKey|
    ensures url[..|ApiUrlBase|] == ApiUrlBase
    ensures url[|ApiUrlBase|..|ApiUrlBase| + |c.actorId|] == c.actorId
    ensures url[|ApiUrlBase| + |c.actorId|..|url| - |c.apiKey|] == ApiUrlPath
    ensures url[|url| - |c.apiKey|..] == c.apiKey
  {
    ApiUrlBase + c.actorId + ApiUrlPath + c.apiKey
  }

  /*** One provider call ***/

  /** The acceptance rule for a provider answer: only 200 and 201 succeed, anything else is a 502. */
  function Accept(resp: Response): (r: Result<Value, Failure>)
    ensures r.Ok? <==> resp.status == 200 || resp.status == 201
    ensures r.Ok? ==> r.value == resp.body
    ensures r.Err? ==> r.error == ProviderError(resp.status, resp.text) && r.error.Status() == 502
  {
    if resp.status == 200 || resp.status == 201 then Ok(resp.body)
    else Err(ProviderError(resp.status, resp.text))
  }

  /** The profile of a details answer: its first record when it is a non-empty list, else the answer itself. */
  function PickProfile(details: Value): (r: Value)
    ensures details.Arr? && details.items != [] ==> r == details.items[0]
    ensures !details.Arr? || details.items == [] ==> r == details
  {
    if details.Arr? && |details.items| > 0 then details.items[0] else details
  }

  /*** The whole request ***/

  /** What one `execute` call produces: its result, and every payload it posted, in order. */
  datatype Outcome = Outcome(result: Result<Value, Failure>, posted: seq<Payload>)

  /** The posts of a profile: requested only for a positive limit, otherwise the empty list. */
  function ProfilePosts(p: Params, provider: Provider): Outcome {
    if p.postsLimit > 0 then
      Outcome(Accept(provider(ProfilePostsPayload(p))), [ProfilePostsPayload(p)])
    else
      Outcome(Ok(Arr([])), [])
  }

  /** The specification of `execute`: which requests are made, and what comes back. */
  function Run(p: Params, provider: Provider): Outcome {
    match p.searchType
    case Hashtag =>
      if p.postsLimit == 0 then Outcome(Err(ZeroPostsLimit), [])
      else
        var payload := HashtagPayload(p);
        var fetched := Accept(provider(payload));
        if fetched.Err? then Outcome(Err(fetched.error), [payload])
        else Outcome(Ok(Obj(map["posts" := fetched.value])), [payload])
    case UserProfile =>
      var posts := ProfilePosts(p, provider);
      if posts.result.Err? then posts
      else
        var payload := ProfileDetailsPayload(p);
        var details := Accept(provider(payload));
        if details.Err? then Outcome(Err(details.error), posts.posted + [payload])
        else Outcome(Ok(Obj(map["profile" := PickProfile(details.value), "posts" := posts.result.value])),
                     posts.posted + [payload])
  }

  /** A hashtag search with a zero limit fails with 400 before posting anything. */
  lemma RunHashtagZeroLimit(p: Params, provider: Provider)
    requires p.searchType == Hashtag && p.postsLimit == 0
    ensures Run(p, provider).result == Err(ZeroPostsLimit)
    ensures Run(p, provider).result.error.Status() == 400
    ensures Run(p, provider).posted == []
  {
  }

  /** Any other hashtag search posts exactly the hashtag payload, once, and returns its answer as "posts". */
  lemma RunHashtag(p: Params, provider: Provider)
    requires p.searchType == Hashtag && p.postsLimit > 0
    ensures Run(p, provider).posted == [HashtagPayload(p)]
    ensures var resp := provider(HashtagPayload(p));
      Run(p, provider).result ==
        if resp.status == 200 || resp.status == 201 then Ok(Obj(map["posts" := resp.body]))
        else Err(ProviderError(resp.status, resp.text))
  {
  }

  /**
   * A corollary of `RunProfileRequestSequence`: a profile search makes one or two
   * requests, the posts request exactly for a positive limit and then first, and
   * on success the details request last.
   */
  lemma RunProfileRequests(p: Params, provider: Provider)
    requires p.searchType == UserProfile
    ensures var o := Run(p, provider);
      && 1 <= |o.posted| <= 2
      && (ProfilePostsPayload(p) in o.posted <==> p.postsLimit > 0)
      && (p.postsLimit > 0 ==> o.posted[0] == ProfilePostsPayload(p))
      && (o.result.Ok? ==> o.posted[|o.posted| - 1] == ProfileDetailsPayload(p))
  {
    RunProfileRequestSequence(p, provider);
    assert ProfilePostsPayload(p) != ProfileDetailsPayload(p) by {
      assert ProfilePostsPayload(p)[K.ResultsType] != ProfileDetailsPayload(p)[K.ResultsType];
    }
  }

  /**
   * The exact requests of a profile search: the posts request for a positive
   * limit, then the details request unless the posts request was refused,
   * whatever the provider answers to the details request.
   */
  lemma RunProfileRequestSequence(p: Params, provider: Provider)
    requires p.searchType == UserProfile
    ensures var postsAnswer := provider(ProfilePostsPayload(p));
      Run(p, provider).posted ==
        (if p.postsLimit > 0 then [ProfilePostsPayload(p)] else [])
        + (if p.postsLimit <= 0 || postsAnswer.status == 200 || postsAnswer.status == 201
           then [ProfileDetailsPayload(p)] else [])
  {
    var step := ProfilePosts(p, provider);
    var o := Run(p, provider);
    if p.postsLimit > 0 {
      assert step.posted == [ProfilePostsPayload(p)];
      assert step.result == Accept(provider(ProfilePostsPayload(p)));
      if step.result.Ok? {
        assert o.posted == [ProfilePostsPayload(p)] + [ProfileDetailsPayload(p)];
      } else {
        assert o.posted == [ProfilePostsPayload(p)] + [];
      }
    } else {
      assert o.posted == [] + [ProfileDetailsPayload(p)];
    }
  }

  /** Every request of a profile search names the profile by its canonical address. */
  lemma RunProfileAddresses(p: Params, provider: Provider)
    requires p.searchType == UserProfile
    ensures forall m :: m in Run(p, provider).posted ==>
      m[K.SearchType] == Str("user") && m[K.DirectUrls] == Arr([Str(ProfileUrl(p.searchTerm))])
  {
    var o := Run(p, provider);
    var posts := ProfilePostsPayload(p);
    var details := ProfileDetailsPayload(p);
    if p.postsLimit > 0 {
      assert o.posted == [posts] || o.posted == [posts, details];
    } else {
      assert o.posted == [details];
    }
  }

  /** A successful profile search returns the picked profile and the posts (the empty list for a zero limit). */
  lemma RunProfileResult(p: Params, provider: Provider)
    requires p.searchType == UserProfile && Run(p, provider).result.Ok?
    ensures var details := provider(ProfileDetailsPayload(p)).body;
      var posts := if p.postsLimit > 0 then provider(ProfilePostsPayload(p)).body else Arr([]);
      Run(p, provider).result.value == Obj(map["profile" := PickProfile(details), "posts" := posts])
  {
  }

  /**
   * Which error a failed search returns: 400 only for a hashtag search with a
   * zero limit, and otherwise the 502 of a refused provider answer.
   */
  lemma RunErrorKinds(p: Params, provider: Provider)
    ensures var o := Run(p, provider);
      o.result.Err? ==>
        && (o.result.error == ZeroPostsLimit <==> p.searchType == Hashtag && p.postsLimit == 0)
        && (o.result.error != ZeroPostsLimit ==> o.result.error.ProviderError? && o.result.error.Status() == 502)
  {
  }

  /** A search succeeds exactly when it posted something and every answer was 200 or 201. */
  lemma RunSucceedsIffAllAccepted(p: Params, provider: Provider)
    ensures var o := Run(p, provider);
      o.result.Ok? <==>
        o.posted != [] && forall m :: m in o.posted ==> provider(m).status == 200 || provider(m).status == 201
  {
    var o := Run(p, provider);
    var ok := (m: Payload) => provider(m).status == 200 || provider(m).status == 201;
    match p.searchType
    case Hashtag =>
    case UserProfile =>
      var posts := ProfilePostsPayload(p);
      var details := ProfileDetailsPayload(p);
      if p.postsLimit > 0 {
        if ok(posts) {
          assert o.posted == [posts, details];
        } else {
          assert o.posted == [posts];
        }
      } else {
        assert o.posted == [details];
      }
  }

  /** A search that fails on a provider answer fails on the last request it posted, with that answer. */
  lemma RunProviderFailureIsLastAnswer(p: Params, provider: Provider)
    ensures var o := Run(p, provider);
      o.result.Err? && o.result.error.ProviderError? ==>
        && o.posted != []
        && var last := provider(o.posted[|o.posted| - 1]);
        && o.result.error == ProviderError(last.status, last.text)
        && last.status != 200 && last.status != 201
  {
  }

  /** Nothing is posted only in the case the node refuses up front. */
  lemma RunPostsNothingOnlyWhenRefused(p: Params, provider: Provider)
    ensures Run(p, provider).posted == [] <==> p.searchType == Hashtag && p.postsLimit == 0
  {
  }

  /** A hashtag search for "#nature" with two posts sends the bare tag, once, and returns the provider's list. */
  lemma HashtagScenario(provider: Provider, posts: seq<Value>)
    requires forall m :: provider(m) == Response(201, "", Arr(posts))
    ensures var p := Params(Hashtag, "#nature", 2, AnyTime, false, DefaultCommentsPerPostLimit, None);
      && |Run(p, provider).posted| == 1
      && Run(p, provider).posted[0][K.Search] == Str("nature")
      && Run(p, provider).posted[0][K.ResultsLimit] == Int(2)
      && Run(p, provider).result == Ok(Obj(map["posts" := Arr(posts)]))
  {
    var p := Params(Hashtag, "#nature", 2, AnyTime, false, DefaultCommentsPerPostLimit, None);
    StripHashesOfHashesPrefix(1, "nature");
    assert Hashes(1) + "nature" == "#nature";
    RunHashtag(p, provider);
  }

  /*** The node object ***/

  class Node {
    const params: Params
    const config: Config
    const apiUrl: string
    /** Every payload this node has handed to the provider, in order: a record for the proofs only. */
    ghost var posted: seq<Payload>

    /**
     * What construction guarantees: parameters within their bounds, a usable
     * key and actor id, and the endpoint built from them. `Run` is total, so
     * the results of `Execute` do not depend on it.
     */
    ghost predicate Valid() {
      && WithinBounds(params)
      && config.apiKey != "" && config.actorId != ""
      && apiUrl == ApiUrl(config)
    }

    /** Only reached through `Create`, once the configuration has passed its checks. */
    constructor (params: Params, config: Config)
      requires WithinBounds(params) && config.apiKey != "" && config.actorId != ""
      ensures Valid() && this.params == params && this.config == config && posted == []
    {
      this.params := params;
      this.config := config;
      this.apiUrl := ApiUrl(config);
      this.posted := [];
    }

    /** Construction from the environment's values: fails on a missing or empty key (401) or actor id (500). */
    static method Create(params: Params, apiKey: Option<string>, actorId: Option<string>)
      returns (r: Result<Node, Failure>)
      requires WithinBounds(params)
      ensures r.Err? <==> CheckConfig(apiKey, actorId).Err?
      ensures r.Err? ==> r.error == CheckConfig(apiKey, actorId).error
      ensures r.Ok? ==>
        && fresh(r.value) && r.value.Valid()
        && r.value.params == params
        && r.value.config == CheckConfig(apiKey, actorId).value
        && r.value.posted == []
    {
      var checked := CheckConfig(apiKey, actorId);
      if checked.Err? {
        return Err(checked.error);
      }
      var node := new Node(params, checked.value);
      return Ok(node);
    }

    /** Posts one payload and applies the acceptance rule to the answer. */
    method Fetch(payload: Payload, provider: Provider) returns (r: Result<Value, Failure>)
      modifies this`posted
      ensures posted == old(posted) + [payload]
      ensures r == Accept(provider(payload))
    {
      posted := posted + [payload];
      var resp := provider(payload);
      if resp.status != 200 && resp.status != 201 {
        return Err(ProviderError(resp.status, resp.text));
      }
      return Ok(resp.body);
    }

    /** Runs the search: the requests it posts and the result it returns are those of `Run`. */
    method Execute(provider: Provider) returns (r: Result<Value, Failure>)
      requires Valid()
      modifies this`posted
      ensures r == Run(params, provider).result
      ensures posted == old(posted) + Run(params, provider).posted
    {
      if params.searchType == Hashtag {
        r := SearchHashtag(provider);
      } else {
        r := SearchProfile(provider);
      }
    }

    /** The hashtag branch of `Execute`: refuse a zero limit, else one request. */
    method SearchHashtag(provider: Provider) returns (r: Result<Value, Failure>)
      requires Valid() && params.searchType == Hashtag
      modifies this`posted
      ensures r == Run(params, provider).result
      ensures posted == old(posted) + Run(params, provider).posted
    {
      if params.postsLimit == 0 {
        return Err(ZeroPostsLimit);
      }
      var common := GetCommonFields(params);
      var payload := Merge(common, map[
        K.SearchType := Str("hashtag"),
        K.ResultsType := Str("posts"),
        K.Search := Str(StripHashes(params.searchTerm)),
        K.ResultsLimit := Int(params.postsLimit),
        K.SearchLimit := Int(params.postsLimit)]);
      assert payload == HashtagPayload(params);
      var result := Fetch(payload, provider);
      if result.Err? {
        return Err(result.error);
      }
      return Ok(Obj(map["posts" := result.value]));
    }

    /** The profile branch of `Execute`: the posts request for a positive limit, then the details request. */
    method SearchProfile(provider: Provider) returns (r: Result<Value, Failure>)
      requires Valid() && params.searchType == UserProfile
      modifies this`posted
      ensures r == Run(params, provider).result
      ensures posted == old(posted) + Run(params, provider).posted
    {
      var directUrl := ProfileUrl(params.searchTerm);
      var posts := Arr([]);
      if params.postsLimit > 0 {
        var common := GetCommonFields(params);
        var postPayload := Merge(common, map[
          K.SearchType := Str("user"),
          K.ResultsType := Str("posts"),
          K.DirectUrls := Arr([Str(directUrl)]),
          K.ResultsLimit := Int(params.postsLimit),
          K.SearchLimit := Int(params.postsLimit)]);
        assert postPayload == ProfilePostsPayload(params);
        var fetched := Fetch(postPayload, provider);
        if fetched.Err? {
          return Err(fetched.error);
        }
        posts := fetched.value;
      }
      ghost var before := ProfilePosts(params, provider);
      assert before.result == Ok(posts) && posted == old(posted) + before.posted;
      var common := GetCommonFields(params);
      var detailsPayload := Merge(common, map[
        K.SearchType := Str("user"),
        K.ResultsType := Str("details"),
        K.DirectUrls := Arr([Str(directUrl)])]);
      assert detailsPayload == ProfileDetailsPayload(params);
      var details := Fetch(detailsPayload, provider);
      if details.Err? {
        return Err(details.error);
      }
      return Ok(Obj(map["profile" := PickProfile(details.value), "posts" := posts]));
    }
  }
}
