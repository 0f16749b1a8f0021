# Twitch API client: argument checks and request construction

A Dafny model of the request layer of an asynchronous Python client for
Twitch's web APIs. It covers what each endpoint method does before and
after the network call:

* the Helix client `TwitchHelix` (`twitch/helix/api.py`):
  * the credentials the object holds;
  * how `get_oauth` builds the token URL and reads the token response;
  * for every endpoint, the fail-fast argument checks (at most 100 ids per
    list, at most 100 objects per page, "at least one of" filters, enum
    membership for video queries) and the request it hands to the
    paginating cursor (`APICursor(...).next_page()`) or the one-shot getter
    (`APIGet(...).fetch()`);
* the v5 classes `Communities`, `Search` and `Teams`
  (`twitch/api/communities.py`, `search.py`, `teams.py`):
  * the verb, path, query parameters and body of each request;
  * the page-size checks;
  * how the reply is read: one resource, the raw body, or the list under
    one field decoded element by element, with `or []` turning a null list
    into an empty one in the searches.

Modules: `Wrappers` (Option/Result/Outcome), `Text` (join/split and their
round trip), `Values` (parameter values, resource kinds, errors, Python
truthiness), `Validation` (the fail-fast check runner), `Responses` (JSON
bodies and how replies are read), `Helix`, `V5` (the v5 request record and
path segments), `Communities`, `Search`, `Teams`.

Conventions:

* A parameter map keeps entries whose argument was None, as `Null`.
* An argument that Python tests for truth (`if ids and len(ids) > 100`,
  `if not from_id`) is absent when it is None or empty (`TruthyStr`,
  `TruthyList`).
* Raised exceptions are `Err` values:
  * `AttributeError` is `TwitchAttributeException`;
  * `OAuthError` is `TwitchOAuthException`;
  * `KeyError` and `TypeError` are what Python raises while reading a
    malformed reply.

Three behaviours of the code that the model keeps, though a client like this might be expected to act otherwise:

* The parameter dictionaries keep None-valued entries. Any omission happens
  in the request helpers, which are not part of this model.
* `get_videos` checks page size, period, sort and type only when a user or
  game is given, not for every call.
* The video-choice error message ends with whatever the constant prints as.
  Nothing in the core enumerates the set itself.

## Model

| member | source | states |
|---|---|---|
| `Validation.Validated` | twitch/helix/api.py:79-94 | fail-fast checking: the call is accepted iff every check holds, the accepted value is returned unchanged, and a rejected call raises the message of the first failing check in order, whatever the later checks say |
| `Helix.TwitchHelix.constructor` | twitch/helix/api.py:32-41 | secret and scopes are stored as given; with a truthy client id the given id and token are kept, otherwise both come from the configuration file's credentials |
| `Helix.TwitchHelix.GetOAuth` | twitch/helix/api.py:43-65 | without both a client id and a secret it raises the "not both present" error and leaves the token alone; otherwise it posts to the token URL, stores the returned access token, or raises with the reply's error and keeps the old token |
| `Helix.TokenUrl` | twitch/helix/api.py:49-58 | the URL always starts with the client-credentials request for this id and secret; without scopes it is exactly that; with scopes it is exactly that followed by "&scope=" and the scopes joined by '+', and when no scope contains '+' the rest splits on '+' back into the scopes in order |
| `Helix.TokenFromResponse` | twitch/helix/api.py:60-65 | a token is obtained iff the reply has "access_token", and it is that value; otherwise an OAuth error carrying the reply's "message" when there is one and no message when there is none |
| `Helix.StreamsRequest` | twitch/helix/api.py:79-112 | accepted iff each of the five filter lists is absent, empty or at most 100 long and the page size is at most 100; the first oversized list in the order community ids, game ids, languages, user ids, user logins decides the message, and the page-size message comes only after all lists pass (stated both check by check and for every first failure of the shared check list); an accepted call is a cursor request with exactly the eight parameters, every argument passed through verbatim (None kept) and the page size under "first" |
| `Helix.GetStreams` | twitch/helix/api.py:67-114 | the stream listing is accepted under the same limits and rejected with the message of the first failing check of the shared list, as a cursor request on "streams" for Stream resources, with the page size (0 included) copied into "first" |
| `Helix.GetStreamsMetadata` | twitch/helix/api.py:281-329 | the same limits, messages and parameters as the stream listing, on "streams/metadata" for StreamMetadata resources |
| `Helix.GetGames` | twitch/helix/api.py:116-134 | accepted iff neither the id list nor the name list exceeds 100, ids checked first; an accepted call is a one-shot request on "games" with exactly "id" and "name", passed through |
| `Helix.GetClips` | twitch/helix/api.py:136-189 | accepted iff a broadcaster, clip ids or a game is given, the clip ids do not exceed 100 and the page size is at most 100; with none of the three the "at least one" message is raised whatever else is wrong, then more than 100 clip ids raises the clip-id message, then a page size over 100 the page-size message; a broadcaster or game gives a cursor request carrying "first", clip ids alone a one-shot request without it, both on "clips" with the seven filter parameters |
| `Helix.GetTopGames` | twitch/helix/api.py:191-209 | accepted iff the page size is at most 100; a cursor request on "games/top" with exactly "after", "before" and "first" |
| `Helix.GetVideos` | twitch/helix/api.py:211-279 | more than 100 video ids is always rejected; page size, period, sort and type are checked only when a user or game is given, in that order, each with its own message (period, sort and type against their allowed sets, the message naming the printed constant), so with video ids alone anything else is accepted; with a user or game a cursor request with all ten parameters, otherwise a one-shot request with exactly "id", "user_id" and "game_id" |
| `Helix.GetUserFollows` | twitch/helix/api.py:331-351 | accepted iff a follower or followed id is given and the page size is at most 100, the missing-id error first; a cursor request on "users/follows" with exactly "after", "first", "from_id" and "to_id" |
| `Helix.OrEmpty` | twitch/helix/api.py:355-358 | a given list, even an empty one, is sent unchanged; only None is replaced by [] |
| `Helix.GetUsers` | twitch/helix/api.py:353-370 | accepted iff the login names and ids together number at most 100, even when each list alone is within 100; a one-shot request on "users" whose "login" and "id" are the lists with absent ones sent as empty lists |
| `Helix.GetTags` | twitch/helix/api.py:372-390 | accepted iff at most 100 tag ids and a page size of at most 100, the id check first; a cursor request on "tags/streams" with exactly "after", "first" and "tag_id" |
| `Text.Join` | twitch/helix/api.py:55 | the join of no parts is empty, it starts with the first part, and with separator-free parts it holds the separator exactly when there are at least two parts |
| `Text.Split` | twitch/helix/api.py:55 | splitting yields at least one piece and no piece contains the separator |
| `Text.SplitJoin` | twitch/helix/api.py:55 | joining separator-free pieces and splitting the result gives the pieces back, so the '+'-joined scope list is unambiguous |
| `Text.JoinSplit` | twitch/helix/api.py:55 | splitting any string and joining the pieces gives the string back |
| `Responses.DecodeAll` | twitch/api/communities.py:35 | one decoded resource per element, the i-th result decoding the i-th element |
| `Responses.Field` | twitch/api/communities.py:35 | `body[field]` succeeds iff the body is an object holding the field; a missing field is a KeyError, a non-object body a TypeError |
| `Responses.Interpret` | twitch/api/search.py:15 | a list field yields one decoded resource per element in order; a null, numeric or boolean field is a TypeError for a plain comprehension, an empty string or object gives an empty result, and under `or []` every falsy field gives an empty result; a missing field is a KeyError; "no value", "one resource" and "raw body" replies return exactly that |
| `Communities.GetByName` | twitch/api/communities.py:8-11 | a GET on "communities" whose only query parameter is the name; the reply is one Community |
| `Communities.GetById` | twitch/api/communities.py:13-15 | no argument is checked; a GET whose path, for an id without '/', splits into "communities" and the id; the reply is one Community |
| `Communities.Update` | twitch/api/communities.py:17-26 | a PUT on the community's path whose body always has exactly the four keys summary, description, rules and email, the ones not given as None |
| `Communities.GetTop` | twitch/api/communities.py:28-35 | accepted iff the limit is at most 100 (so 100 and the default 10 pass); a GET on "communities/top" with exactly "limit" and "cursor", the cursor passed on verbatim even when None; the reply's "communities" list is decoded |
| `Communities.GetBannedUsers` | twitch/api/communities.py:37-48 | the same limit rule and parameters, OAuth-gated, on the path "communities", id, "bans"; the reply's "banned_users" list is decoded as users |
| `Communities.BanUser` | twitch/api/communities.py:50-52 | an OAuth-gated PUT without parameters or body on the path "communities", community, "bans", user |
| `Communities.UnbanUser` | twitch/api/communities.py:54-56 | an OAuth-gated DELETE on that same path |
| `Communities.CreateAvatarImage` | twitch/api/communities.py:58-65 | an OAuth-gated POST of exactly the avatar image to "communities/{id}/images/avatar", which for an id without '/' splits into "communities", id, "images", "avatar" |
| `Communities.DeleteAvatarImage` | twitch/api/communities.py:67-69 | an OAuth-gated DELETE of "communities/{id}/images/avatar" |
| `Communities.CreateCoverImage` | twitch/api/communities.py:71-78 | an OAuth-gated POST of exactly the cover image to "communities/{id}/images/cover", which for an id without '/' splits into "communities", id, "images", "cover" |
| `Communities.DeleteCoverImage` | twitch/api/communities.py:80-82 | an OAuth-gated DELETE of "communities/{id}/images/cover" |
| `Communities.GetModerators` | twitch/api/communities.py:84-86 | takes no limit and checks nothing; a GET on the path "communities", id, "moderators" whose "moderators" list is decoded as users |
| `Communities.AddModerator` | twitch/api/communities.py:88-90 | an OAuth-gated PUT on the path "communities", community, "moderators", user |
| `Communities.DeleteModerator` | twitch/api/communities.py:92-96 | an OAuth-gated DELETE on that same path |
| `Communities.GetPermissions` | twitch/api/communities.py:98-101 | an OAuth-gated GET on the path "communities", id, "permissions" returning the body as it came |
| `Communities.ReportViolation` | twitch/api/communities.py:103-110 | an OAuth-gated POST of exactly the channel id to the path "communities", id, "report_channel" |
| `Communities.GetTimedOutUsers` | twitch/api/communities.py:112-122 | the same limit rule and parameters as the other listings, OAuth-gated, on the path "communities", id, "timeouts"; the reply's "timed_out_users" list is decoded as users |
| `Communities.AddTimedOutUser` | twitch/api/communities.py:124-132 | an OAuth-gated PUT on the path "communities", community, "timeouts", user whose body is exactly the duration and the reason (None when not given) |
| `Communities.DeleteTimedOutUser` | twitch/api/communities.py:134-136 | an OAuth-gated DELETE on that same path |
| `Communities.DefaultPagesAccepted` | twitch/api/communities.py:28-122 | the three listings accept their default limit of 10 with no cursor, which `get_top` sends as limit 10 and cursor None |
| `Communities.AddAndRemoveShareResource` | twitch/api/communities.py:50-136 | ban/unban, add/delete moderator and add/delete timeout each address one identical path, with PUT and DELETE |
| `Communities.ListingsDecodeEachElement` | twitch/api/communities.py:28-122 | each listing returns one decoded resource per element of its reply field, in order; a null "communities" field is a TypeError and a missing one a KeyError |
| `Search.Channels` | twitch/api/search.py:7-15 | accepted iff the limit is at most 100 (100 and the default 25 pass), the offset unchecked; a GET on "search/channels" with exactly "query", "limit" and "offset"; the "channels" list is read with `or []` |
| `Search.Games` | twitch/api/search.py:17-23 | never raises a validation error; a GET on "search/games" with exactly "query" and "live"; the "games" list is read with `or []` |
| `Search.Streams` | twitch/api/search.py:25-33 | the same limit rule as channels; parameters exactly "query", "limit", "offset" and "hls", the last sent even when None; the "streams" list is read with `or []` |
| `Search.DefaultSearchesAccepted` | twitch/api/search.py:7-33 | the channel and stream searches accept their defaults (limit 25, offset 0), sending limit 25 and `hls` as None |
| `Search.SearchRepliesTolerateNull` | twitch/api/search.py:15-33 | a null or empty result field of any of the three searches yields an empty result instead of an error; a result list yields one resource per element, in order |
| `Teams.Get` | twitch/api/teams.py:7-9 | checks nothing; a GET whose path, for a name without '/', splits into "teams" and the name; the reply is one Team |
| `Teams.GetAll` | twitch/api/teams.py:11-19 | accepted iff the limit is at most 100 (100 and the default 10 pass), the offset unchecked; a GET on "teams" with exactly "limit" and "offset"; the "teams" list is decoded |
| `Teams.DefaultPageAccepted` | twitch/api/teams.py:11-19 | `get_all` accepts its defaults and sends exactly limit 10 and offset 0 |
| `Teams.GetAllDecodesEachTeam` | twitch/api/teams.py:19 | the result has one decoded team per element of the reply's "teams" list, in order |

## Left out

- The cursor and one-shot getter (`APICursor`, `APIGet` in twitch/helix/base.py, which is not part of this model). A Helix request is only a dispatch tag with path, resource kind, parameters and credentials. Paging, continuation tokens and accumulation are not modelled.
- HTTP transport. The v5 `_request_get/_put/_post/_delete` helpers (twitch/api/base.py, not part of this model) are represented by the `Request` record. The token POST of `get_oauth` is the `post` parameter, and its HTTP error statuses are not modelled.
- `credentials_from_config_file` (twitch/conf, not part of this model) is file I/O. Its result is the constructor's `fromConfig` argument, used only when the client id is falsy.
- `construct_from` decoding (twitch/resources, not part of this model) is the `decode` parameter.
- `@oauth_required` (twitch/decorators, not part of this model): a v5 request only carries a `needsOAuth` tag. What the decorator checks, and that it runs before the limit check, is not modelled.
- `BASE_OAUTH_URL`, `PERIODS`, `VIDEO_SORTS`, `VIDEO_TYPES` and the default values `PERIOD_ALL`, `VIDEO_SORT_TIME`, `VIDEO_TYPE_ALL` (twitch/constants, not part of this model) are parameters: `baseUrl`, and `Choices`, which holds the accepted set and its printed form. The query records have no default values.
- async/await suspension, which does not affect the sequential logic.
- Parameter dictionaries are maps, so the insertion order of Python dicts is not modelled.
- Argument types are narrowed. Ids, names and cursors are strings and page sizes are integers. The TypeError Python raises for, say, a None page size is not modelled.
- `Responses.Interpret`: a non-empty string or non-empty object in a list field is reported as a TypeError. Python would instead iterate over its characters or keys and decode those. Empty ones give an empty result, as in Python.
- `Helix.TokenFromResponse`: the token reply is a map from strings to strings. Non-string JSON values are not modelled.
- The Helix endpoint methods are functions of the credentials (`Helix.Credentials`) that the `TwitchHelix` object holds, rather than members of the class; `TwitchHelix.Creds` is the credentials value an endpoint call on the object passes.
