# Instagram scraper node — request shaping, in Dafny

This project models the core of an Instagram scraping service: the
`InstagramScraperNode` class, a thin client of the Apify actor platform.
Given a validated parameter record, the node

- refuses to exist without an API key (401) or an actor id (500), checked in that order;
- maps the timeframe label to a relative age ("1 day", "7 days", "30 days", "180 days"), or to no filter for "Any time";
- builds the fields every payload shares: four flags that are always false,
  the comment settings when comments are asked for, the location when one is given, and the age filter;
- for a hashtag search, rejects a zero post limit with 400 before any request.
  Otherwise it posts one payload whose search term has every leading `#` removed,
  with both limit fields set to the post limit;
- for a profile search, names the profile by `https://www.instagram.com/<term>/`.
  It posts a posts request only for a positive limit, then a details request without limits, unless the posts request was refused.
  The profile it returns is the first details record when the answer is a non-empty list, and the answer itself otherwise;
- accepts only status 200 or 201 from the provider and turns anything else into a 502.

Modules, one per concern of `instagram_scraper_node.py`:

- `wrappers.dfy`: `Option` and `Result`.
- `json.dfy`: JSON values.
- `params.dfy` (`ScraperParams`): the parameter record, its two enumerations and their labels,
  the bounds, the defaults, and validation.
- `keys.dfy` (`PayloadKeys`): the payload keys and the field name each is sent under.
- `payloads.dfy` (`Payloads`): the timeframe mapping, the shared fields, hashtag stripping,
  the profile address, the three payloads and the JSON object each is posted as.
- `node.dfy` (`ScraperNode`): the configuration check, the acceptance rule,
  `Run` (the specification of `execute`: what it posts and what it returns),
  lemmas about `Run`, and the `Node` class.
  `Node.Execute` is proved to post exactly `Run`'s payloads and to return `Run`'s result.

The provider is a parameter: `Provider`, a function from a payload to a response (status, text, decoded body).
The environment's two values are parameters of `Node.Create`.
`Node.posted` is a ghost log of every payload the node has handed to the provider, in order.
This makes "which requests are made" something the contracts can state.
`Payloads.Render` gives the JSON object each payload is posted as.

Facts about the code that shape the model:

- The timeframe becomes a fixed relative-age string; no date is computed.
- `lstrip("#")` removes every leading `#`.
- Each provider request is one synchronous call to the run-sync endpoint.
  Answers are not normalised: they are wrapped under "posts", and under "profile" as the first details record of a non-empty list.
  An empty answer is wrapped like any other.
- The search types are "Hashtag" and "User Profile".
- A missing key is a 401 and a missing actor id a 500.

## Model

| member | source | states |
|---|---|---|
| ScraperParams.ParseSearchType | instagram_scraper_node.py:13 | a search-type label is accepted exactly when it is "Hashtag" or "User Profile" |
| ScraperParams.SearchTypeLabel | instagram_scraper_node.py:13 | every search type's label is accepted and parses back to that type |
| ScraperParams.SearchTypeLabelRoundTrip | instagram_scraper_node.py:13 | parsing a label yields a type exactly when that type's label is the string |
| ScraperParams.ParseTimeframe | instagram_scraper_node.py:16-18 | a timeframe label is accepted exactly when it is one of the five literals |
| ScraperParams.TimeframeLabel | instagram_scraper_node.py:16-18 | every timeframe's label is accepted and parses back to that timeframe |
| ScraperParams.TimeframeLabelRoundTrip | instagram_scraper_node.py:16-18 | parsing a label yields a timeframe exactly when that timeframe's label is the string |
| ScraperParams.MakeParams | instagram_scraper_node.py:12-21 | a record is built exactly when both labels are accepted, 0 ≤ posts_limit ≤ 1000 and 0 ≤ comments_per_post_limit ≤ 200, after the defaults 10, "Any time", false and 20 are applied. It then holds the given or default values. Otherwise the error names exactly the rejected fields |
| PayloadKeys.KeyName | instagram_scraper_node.py:47-114 | each payload key's field name maps back to that key |
| PayloadKeys.KeyNameInjective | instagram_scraper_node.py:47-114 | distinct keys are sent under distinct field names |
| Payloads.MapTimeframe | instagram_scraper_node.py:37-44 | total over the five timeframes: no age exactly for "Any time", otherwise one of "1 day", "7 days", "30 days", "180 days" |
| Payloads.MapTimeframeInjective | instagram_scraper_node.py:37-44 | distinct timeframes never share an age string |
| Payloads.CommonFields | instagram_scraper_node.py:46-60 | the shared fields as one value: the fixed flags, then the comment, location and age fields each under its condition; its properties are the five members below |
| Payloads.CommonFieldsShared | instagram_scraper_node.py:46-60 | the shared fields use only the eight shared keys, so no search kind's own field can override them |
| Payloads.CommonFieldsFlags | instagram_scraper_node.py:47-52 | the four flags addParentData, enhanceUserSearchWithFacebookPage, isUserReelFeedURL and isUserTaggedFeedURL are always present and false |
| Payloads.CommonFieldsComments | instagram_scraper_node.py:53-55 | includeComments and commentsLimit are present exactly when comments are asked for, and are then true and comments_per_post_limit |
| Payloads.CommonFieldsLocation | instagram_scraper_node.py:56-57 | location is present exactly when it is given and non-empty, and carries the given value |
| Payloads.CommonFieldsAge | instagram_scraper_node.py:58-59 | onlyPostsNewerThan is present exactly when the timeframe is not "Any time", and holds the mapped age |
| Payloads.GetCommonFields | instagram_scraper_node.py:46-60 | inserting keys under the conditions, one after another, yields exactly the shared fields |
| Payloads.StripHashes | instagram_scraper_node.py:86 | the stripped term never starts with '#'. The term is a run of '#' followed by the result, and a term not starting with '#' is unchanged |
| Payloads.StripHashesOfHashesPrefix | instagram_scraper_node.py:86 | any run of '#' before a term that does not start with '#' is removed, and nothing else is |
| Payloads.StripHashesIdempotent | instagram_scraper_node.py:86 | stripping a stripped term changes nothing |
| Payloads.ProfileUrl | instagram_scraper_node.py:95 | the user name can be read back out of its profile address |
| Payloads.ProfileUrlInjective | instagram_scraper_node.py:95 | different user names get different profile addresses |
| Payloads.Merge | instagram_scraper_node.py:82-89 | a dict spread holds the keys of both parts, with the later part's values, and keeps the earlier part whole when the key sets are disjoint |
| Payloads.HashtagPayload | instagram_scraper_node.py:82-89 | the hashtag payload keeps every shared field and adds searchType "hashtag", resultsType "posts", the stripped search term, and resultsLimit = searchLimit = posts_limit |
| Payloads.ProfilePostsPayload | instagram_scraper_node.py:98-105 | the posts payload keeps every shared field and adds searchType "user", resultsType "posts", the one-element directUrls list with the profile address, and both limits = posts_limit |
| Payloads.ProfileDetailsPayload | instagram_scraper_node.py:109-114 | the details payload keeps every shared field and adds searchType "user", resultsType "details" and the directUrls list |
| Payloads.ProfileDetailsPayloadHasNoLimits | instagram_scraper_node.py:109-114 | the details payload has neither resultsLimit nor searchLimit |
| Payloads.Render | instagram_scraper_node.py:65 | the JSON object posted for a payload holds each value under its key's field name, and no other field |
| Payloads.RenderInjective | instagram_scraper_node.py:65 | distinct payloads are posted as distinct JSON objects |
| ScraperNode.CheckConfig | instagram_scraper_node.py:27-33 | configuration passes exactly when key and actor id are both present and non-empty. A missing or empty key fails with 401 whatever the actor id; otherwise a missing or empty actor id fails with 500 |
| ScraperNode.ApiUrl | instagram_scraper_node.py:35 | the endpoint is the actor base address, then the actor id, then the run-sync path with the token parameter, then the key, each at its stated position |
| ScraperNode.Accept | instagram_scraper_node.py:66-71 | an answer is accepted exactly when its status is 200 or 201, yielding its body; otherwise it fails with 502, carrying the provider's status and text |
| ScraperNode.PickProfile | instagram_scraper_node.py:118 | the profile is the first details record when the answer is a non-empty list, and the answer itself otherwise |
| ScraperNode.ProfilePosts | instagram_scraper_node.py:96-106 | the posts step of a profile search as a value: one accepted-or-refused posts request for a positive limit, otherwise the empty list and no request; RunProfileRequestSequence and RunProfileResult state its effect |
| ScraperNode.Run | instagram_scraper_node.py:77-120 | the specification of `execute` as a value (its result and the payloads it posts, in order); its properties are the Run lemmas below, and Node.Execute is proved to agree with it |
| ScraperNode.RunHashtagZeroLimit | instagram_scraper_node.py:78-80 | a hashtag search with posts_limit 0 fails with 400 and posts nothing |
| ScraperNode.RunHashtag | instagram_scraper_node.py:78-91 | any other hashtag search posts exactly the hashtag payload, once. It returns {"posts": body} on 200/201 and a 502 otherwise |
| ScraperNode.RunProfileRequests | instagram_scraper_node.py:93-115 | a profile search makes one or two requests. The posts request is made exactly when posts_limit > 0, and then first. On success the last request is the details request |
| ScraperNode.RunProfileRequestSequence | instagram_scraper_node.py:96-115 | the exact requests of a profile search: the posts request when posts_limit > 0, then the details request unless the posts request was refused, whatever the details answer is |
| ScraperNode.RunProfileAddresses | instagram_scraper_node.py:95-113 | every request of a profile search has searchType "user" and directUrls = [the profile address] |
| ScraperNode.RunProfileResult | instagram_scraper_node.py:96-120 | a successful profile search returns {"profile": picked details, "posts": the posts answer, or [] when posts_limit is 0} |
| ScraperNode.RunErrorKinds | instagram_scraper_node.py:66-115 | a search fails with 400 exactly when it is a hashtag search with posts_limit 0; every other failure is the 502 provider error of a refused answer |
| ScraperNode.RunSucceedsIffAllAccepted | instagram_scraper_node.py:62-120 | a search succeeds exactly when it posted something and every answer had status 200 or 201 |
| ScraperNode.RunProviderFailureIsLastAnswer | instagram_scraper_node.py:66-70 | a provider failure comes from the last request posted, carries its status and text, and that status is neither 200 nor 201 |
| ScraperNode.RunPostsNothingOnlyWhenRefused | instagram_scraper_node.py:77-120 | nothing is posted exactly in the case of a hashtag search with posts_limit 0 |
| ScraperNode.HashtagScenario | instagram_scraper_node.py:82-91 | "#nature" with posts_limit 2, answered 201 with any list, sends one request with search "nature" and resultsLimit 2, and returns that list under "posts" |
| ScraperNode.Node.constructor | instagram_scraper_node.py:25-35 | a node holds its parameters, its checked configuration and the endpoint built from both, and has posted nothing |
| ScraperNode.Node.Create | instagram_scraper_node.py:25-35 | construction fails exactly as the configuration check does, with the same error. Otherwise it yields a fresh valid node with the given parameters and nothing posted |
| ScraperNode.Node.Fetch | instagram_scraper_node.py:62-71 | one call appends the payload to the ghost log and returns the acceptance rule applied to the provider's answer |
| ScraperNode.Node.Execute | instagram_scraper_node.py:77-120 | the result is Run's result, and the posted log grows by exactly Run's payloads, in order |
| ScraperNode.Node.SearchHashtag | instagram_scraper_node.py:78-91 | the hashtag branch of Execute, with the same promise |
| ScraperNode.Node.SearchProfile | instagram_scraper_node.py:93-120 | the profile branch of Execute, with the same promise |

## Left out

- Network traffic: `requests.post` (the provider is not shown the endpoint address), the 90-second timeout, and the mapping of a timeout to 504 and of other request errors to 502 (instagram_scraper_node.py:62-75).
  The provider is a function from payload to (status, text, decoded body). It therefore gives the same answer to the same payload.
  A body that fails to decode as JSON is not modelled.
- Reading the environment (instagram_scraper_node.py:27-28): the two values are parameters of `Node.Create`.
- The detail strings of the raised HTTP errors: each error is a `Failure` constructor with its status code.
  A provider error keeps the provider's status and text, but not the formatted message.
- Logging (instagram_scraper_node.py:8-9, 64).
- The final `else` branch of `execute` (instagram_scraper_node.py:122-123) and the KeyError an unknown timeframe would raise in `_map_timeframe`.
  Both are unreachable: `SearchType` and `Timeframe` have only the accepted values.
- Pydantic's type coercion (for instance a numeric string accepted as an int): `MakeParams` takes values that already have their types.
- main.py (HTTP routes, request schemas, the blanket conversion of every exception to 500) is not part of this model.
  Its keyword route passes a search type that validation always rejects (`ParseSearchType("Keyword Search")` is `None`).
- The test files describe a polling, record-normalising variant of the node that this source does not contain, so none of that is modelled.
- ScraperNode.Node.Execute: it is split into two methods, `SearchHashtag` and `SearchProfile`, one for each branch of the source's `execute`.
