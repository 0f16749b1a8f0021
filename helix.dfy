/**
 * The Helix client (`TwitchHelix`): the credentials the object holds, how
 * `get_oauth` obtains a token, and, for every endpoint, the argument checks
 * and the request it hands to the paginating cursor or the one-shot getter.
 */
module Helix {
  import opened Wrappers
  import opened Values
  import opened Validation
  import opened Text

  /** `APICursor(...).next_page()` or `APIGet(...).fetch()`. */
  datatype Dispatch = Cursor | Get

  /** The client id and OAuth token every request is sent with. */
  datatype Credentials = Credentials(clientId: Option<string>, oauthToken: Option<string>)

  /** What an endpoint hands to the cursor or the getter. */
  datatype HelixRequest = HelixRequest(
    dispatch: Dispatch, path: string, resource: Resource, params: Params, creds: Credentials)

  /** A fixed set of accepted values and the text `str.format` prints for the constant. */
  datatype Choices = Choices(values: set<string>, shown: string)

  /** The PERIODS, VIDEO_SORTS and VIDEO_TYPES constants. */
  datatype VideoChoices = VideoChoices(periods: Choices, sorts: Choices, types: Choices)

  const TooManyCommunityIds := "Maximum of 100 Community IDs can be supplied"
  const TooManyGameIds := "Maximum of 100 Game IDs can be supplied"
  const TooManyLanguages := "Maximum of 100 languages can be supplied"
  const TooManyUserIds := "Maximum of 100 User IDs can be supplied"
  const TooManyUserLogins := "Maximum of 100 User login names can be supplied"
  const TooManyGameNames := "Maximum of 100 Game names can be supplied"
  const TooManyClipIds := "Maximum of 100 Clip IDs can be supplied"
  const TooManyVideoIds := "Maximum of 100 Video IDs can be supplied"
  const TooManyTagIds := "Maximum of 100 Tag IDs can be supplied"
  const TooManyObjects := "Maximum number of objects to return is 100"
  const ClipsNeedFilter :=
    "At least one of the following parameters must be provided [broadcaster_id, clip_ids, game_id]"
  const FollowsNeedEnd := "from_id or to_id must be provided."
  const TooManyUsers := "Sum of names and ids must not exceed 100!"
  const MissingClientCredentials := "Client Id and Client Secret are not both present."

  /** The message raised for a value outside `choices`. */
  function InvalidChoice(name: string, choices: Choices): string
  {
    "Invalid value for " + name + ". Valid values are " + choices.shown
  }

  // ---------------------------------------------------------------------------
  // The client object and its OAuth token

  /** URL of the client-credentials token request, with the scopes joined by '+'. */
  function TokenUrl(baseUrl: string, clientId: string, clientSecret: string, scopes: Option<seq<string>>): (url: string)
    ensures var prefix := baseUrl + "token?client_id=" + clientId + "&client_secret=" + clientSecret
                          + "&grant_type=client_credentials";
            && |prefix| <= |url| && url[..|prefix|] == prefix
            && (!TruthyList(scopes) ==> url == prefix)
            && (TruthyList(scopes) ==> |prefix| + 7 <= |url| && url[..|prefix| + 7] == prefix + "&scope=")
            && (TruthyList(scopes) ==> url == prefix + "&scope=" + Join(scopes.value, '+'))
            && (TruthyList(scopes) && (forall i :: 0 <= i < |scopes.value| ==> '+' !in scopes.value[i]) ==>
                  |prefix| + 7 <= |url|
                  && Split(url[|prefix| + 7..], '+') == scopes.value)
  {
    var prefix := baseUrl + "token?client_id=" + clientId + "&client_secret=" + clientSecret
                  + "&grant_type=client_credentials";
    if !TruthyList(scopes) then prefix
    else
      var joined := Join(scopes.value, '+');
      var url := prefix + "&scope=" + joined;
      assert url[..|prefix|] == prefix;
      assert url[..|prefix| + 7] == prefix + "&scope=";
      assert url[|prefix| + 7..] == joined;
      assert (forall i :: 0 <= i < |scopes.value| ==> '+' !in scopes.value[i]) ==> Split(joined, '+') == scopes.value by {
        if forall i :: 0 <= i < |scopes.value| ==> '+' !in scopes.value[i] {
          SplitJoin(scopes.value, '+');
        }
      }
      url
  }

  /** Reads the token response: the token, else the server's message, else a bare error. */
  function TokenFromResponse(response: map<string, string>): (r: Result<string, Error>)
    ensures r.Ok? <==> "access_token" in response
    ensures r.Ok? ==> r.value == response["access_token"]
    ensures r.Err? ==> r.error.OAuthError?
    ensures r.Err? ==> (r.error.detail.Some? <==> "message" in response)
    ensures r.Err? && "message" in response ==> r.error.detail.value == response["message"]
  {
    if "access_token" in response then Ok(response["access_token"])
    else if "message" in response then Err(OAuthError(Some(response["message"])))
    else Err(OAuthError(None))
  }

  class TwitchHelix {
    var clientId: Option<string>
    var oauthToken: Option<string>
    var clientSecret: Option<string>
    var scopes: Option<seq<string>>

    /**
     * Stores the given credentials; without a client id, the client id and
     * token read from the configuration file (`fromConfig`) are used instead.
     */
    constructor (clientId: Option<string>, oauthToken: Option<string>, clientSecret: Option<string>,
                 scopes: Option<seq<string>>, fromConfig: Credentials)
      ensures this.clientSecret == clientSecret && this.scopes == scopes
      ensures TruthyStr(clientId) ==> this.clientId == clientId && this.oauthToken == oauthToken
      ensures !TruthyStr(clientId) ==>
                this.clientId == fromConfig.clientId && this.oauthToken == fromConfig.oauthToken
    {
      this.clientId := clientId;
      this.oauthToken := oauthToken;
      this.clientSecret := clientSecret;
      this.scopes := scopes;
      if !TruthyStr(clientId) {
        this.clientId := fromConfig.clientId;
        this.oauthToken := fromConfig.oauthToken;
      }
    }

    /** The credentials every endpoint request carries. */
    function Creds(): (c: Credentials)
      reads this
      ensures c.clientId == clientId && c.oauthToken == oauthToken
    {
      Credentials(clientId, oauthToken)
    }

    /** True when `get_oauth` may send its request. */
    predicate CanRequestToken()
      reads this
    {
      TruthyStr(clientSecret) && TruthyStr(clientId)
    }

    /**
     * `get_oauth`: refuses without both a client id and a secret; otherwise
     * posts to the token URL (`post` stands for the HTTP round trip) and
     * keeps the returned token, or raises with the server's message.
     */
    method GetOAuth(baseUrl: string, post: string -> map<string, string>) returns (outcome: Outcome<Error>)
      modifies this`oauthToken
      ensures !CanRequestToken() ==>
                outcome == Fail(OAuthError(Some(MissingClientCredentials))) && oauthToken == old(oauthToken)
      ensures CanRequestToken() ==>
                var response := post(TokenUrl(baseUrl, clientId.value, clientSecret.value, scopes));
                match TokenFromResponse(response)
                case Ok(token) => outcome == Pass && oauthToken == Some(token)
                case Err(e) => outcome == Fail(e) && oauthToken == old(oauthToken)
    {
      if !TruthyStr(clientSecret) || !TruthyStr(clientId) {
        return Fail(OAuthError(Some(MissingClientCredentials)));
      }
      var response := post(TokenUrl(baseUrl, clientId.value, clientSecret.value, scopes));
      var token := TokenFromResponse(response);
      match token
      case Ok(t) =>
        oauthToken := Some(t);
        outcome := Pass;
      case Err(e) =>
        outcome := Fail(e);
    }
  }

  // ---------------------------------------------------------------------------
  // Endpoints

  datatype StreamsQuery = StreamsQuery(
    after: Option<string>, before: Option<string>, communityIds: Option<seq<string>>, pageSize: int,
    gameIds: Option<seq<string>>, languages: Option<seq<string>>, userIds: Option<seq<string>>,
    userLogins: Option<seq<string>>)

  /** The five list-size checks and the page-size check shared by the stream listings, in order. */
  function StreamChecks(q: StreamsQuery): seq<Check>
  {
    [ Check(WithinLimit(q.communityIds), TooManyCommunityIds),
      Check(WithinLimit(q.gameIds), TooManyGameIds),
      Check(WithinLimit(q.languages), TooManyLanguages),
      Check(WithinLimit(q.userIds), TooManyUserIds),
      Check(WithinLimit(q.userLogins), TooManyUserLogins),
      Check(q.pageSize <= MaxObjects, TooManyObjects) ]
  }

  /** True when every list filter of a stream listing names at most 100 entries. */
  predicate StreamListsWithinLimit(q: StreamsQuery)
  {
    WithinLimit(q.communityIds) && WithinLimit(q.gameIds) && WithinLimit(q.languages)
    && WithinLimit(q.userIds) && WithinLimit(q.userLogins)
  }

  /** The cursor request of a stream listing on `path`; every argument is passed through as given. */
  function StreamsRequest(creds: Credentials, path: string, resource: Resource, q: StreamsQuery): (r: Result<HelixRequest, Error>)
    ensures r.Ok? <==> StreamListsWithinLimit(q) && q.pageSize <= MaxObjects
    ensures !WithinLimit(q.communityIds) ==> r == Err(AttributeError(TooManyCommunityIds))
    ensures WithinLimit(q.communityIds) && !WithinLimit(q.gameIds) ==> r == Err(AttributeError(TooManyGameIds))
    ensures WithinLimit(q.communityIds) && WithinLimit(q.gameIds) && !WithinLimit(q.languages) ==>
              r == Err(AttributeError(TooManyLanguages))
    ensures WithinLimit(q.communityIds) && WithinLimit(q.gameIds) && WithinLimit(q.languages)
            && !WithinLimit(q.userIds) ==>
              r == Err(AttributeError(TooManyUserIds))
    ensures WithinLimit(q.communityIds) && WithinLimit(q.gameIds) && WithinLimit(q.languages)
            && WithinLimit(q.userIds) && !WithinLimit(q.userLogins) ==>
              r == Err(AttributeError(TooManyUserLogins))
    ensures StreamListsWithinLimit(q) && q.pageSize > MaxObjects ==> r == Err(AttributeError(TooManyObjects))
    ensures forall i :: FirstFailure(StreamChecks(q), i) ==> r == Err(AttributeError(StreamChecks(q)[i].message))
    ensures r.Ok? ==> r.value.dispatch == Cursor && r.value.path == path && r.value.resource == resource
                      && r.value.creds == creds
    ensures r.Ok? ==>
              r.value.params.Keys ==
                {"after", "before", "community_id", "first", "game_id", "language", "user_id", "user_login"}
    ensures r.Ok? ==> r.value.params["first"] == Int(q.pageSize)
                      && r.value.params["after"] == OptStr(q.after)
                      && r.value.params["before"] == OptStr(q.before)
                      && r.value.params["community_id"] == OptStrs(q.communityIds)
                      && r.value.params["game_id"] == OptStrs(q.gameIds)
                      && r.value.params["language"] == OptStrs(q.languages)
                      && r.value.params["user_id"] == OptStrs(q.userIds)
                      && r.value.params["user_login"] == OptStrs(q.userLogins)
  {
    var checks := StreamChecks(q);
    assert checks[0].passes == WithinLimit(q.communityIds) && checks[1].passes == WithinLimit(q.gameIds)
           && checks[2].passes == WithinLimit(q.languages) && checks[3].passes == WithinLimit(q.userIds)
           && checks[4].passes == WithinLimit(q.userLogins) && checks[5].passes == (q.pageSize <= MaxObjects);
    assert !WithinLimit(q.communityIds) ==> FirstFailure(checks, 0);
    assert WithinLimit(q.communityIds) && !WithinLimit(q.gameIds) ==> FirstFailure(checks, 1);
    assert WithinLimit(q.communityIds) && WithinLimit(q.gameIds) && !WithinLimit(q.languages) ==>
             FirstFailure(checks, 2);
    assert WithinLimit(q.communityIds) && WithinLimit(q.gameIds) && WithinLimit(q.languages)
           && !WithinLimit(q.userIds)
           ==> FirstFailure(checks, 3);
    assert WithinLimit(q.communityIds) && WithinLimit(q.gameIds) && WithinLimit(q.languages)
           && WithinLimit(q.userIds) && !WithinLimit(q.userLogins)
           ==> FirstFailure(checks, 4);
    assert StreamListsWithinLimit(q) && q.pageSize > MaxObjects ==> FirstFailure(checks, 5);
    var params := map[
      "after" := OptStr(q.after),
      "before" := OptStr(q.before),
      "community_id" := OptStrs(q.communityIds),
      "first" := Int(q.pageSize),
      "game_id" := OptStrs(q.gameIds),
      "language" := OptStrs(q.languages),
      "user_id" := OptStrs(q.userIds),
      "user_login" := OptStrs(q.userLogins)];
    Validated(checks, HelixRequest(Cursor, path, resource, params, creds))
  }

  /** `get_streams`: the stream listing on "streams". */
  function GetStreams(creds: Credentials, q: StreamsQuery): (r: Result<HelixRequest, Error>)
    ensures r.Ok? <==> StreamListsWithinLimit(q) && q.pageSize <= MaxObjects
    ensures forall i :: FirstFailure(StreamChecks(q), i) ==> r == Err(AttributeError(StreamChecks(q)[i].message))
    ensures r.Ok? ==> r.value.dispatch == Cursor && r.value.path == "streams" && r.value.resource == Stream
    ensures r.Ok? ==> "first" in r.value.params && r.value.params["first"] == Int(q.pageSize)
  {
    StreamsRequest(creds, "streams", Stream, q)
  }

  /** `get_streams_metadata`: the same checks and parameters on "streams/metadata". */
  function GetStreamsMetadata(creds: Credentials, q: StreamsQuery): (r: Result<HelixRequest, Error>)
    ensures r.Ok? <==> StreamListsWithinLimit(q) && q.pageSize <= MaxObjects
    ensures forall i :: FirstFailure(StreamChecks(q), i) ==> r == Err(AttributeError(StreamChecks(q)[i].message))
    ensures r.Ok? ==> r.value.dispatch == Cursor && r.value.path == "streams/metadata"
                      && r.value.resource == StreamMetadata
    ensures r.Ok? ==> "first" in r.value.params && r.value.params["first"] == Int(q.pageSize)
  {
    StreamsRequest(creds, "streams/metadata", StreamMetadata, q)
  }

  /** `get_games`: a one-shot request on "games" by ids and names. */
  function GetGames(creds: Credentials, gameIds: Option<seq<string>>, names: Option<seq<string>>): (r: Result<HelixRequest, Error>)
    ensures r.Ok? <==> WithinLimit(gameIds) && WithinLimit(names)
    ensures !WithinLimit(gameIds) ==> r == Err(AttributeError(TooManyGameIds))
    ensures WithinLimit(gameIds) && !WithinLimit(names) ==> r == Err(AttributeError(TooManyGameNames))
    ensures r.Ok? ==> r.value.dispatch == Get && r.value.path == "games" && r.value.resource == Game
                      && r.value.creds == creds
    ensures r.Ok? ==> r.value.params.Keys == {"id", "name"}
                      && r.value.params["id"] == OptStrs(gameIds) && r.value.params["name"] == OptStrs(names)
  {
    var checks := [Check(WithinLimit(gameIds), TooManyGameIds), Check(WithinLimit(names), TooManyGameNames)];
    assert !WithinLimit(gameIds) ==> FirstFailure(checks, 0);
    assert WithinLimit(gameIds) && !WithinLimit(names) ==> FirstFailure(checks, 1);
    Validated(checks,
      HelixRequest(Get, "games", Game, map["id" := OptStrs(gameIds), "name" := OptStrs(names)], creds))
  }

  datatype ClipsQuery = ClipsQuery(
    broadcasterId: Option<string>, gameId: Option<string>, clipIds: Option<seq<string>>,
    after: Option<string>, before: Option<string>, startedAt: Option<string>, endedAt: Option<string>,
    pageSize: int)

  /**
   * `get_clips`: needs a broadcaster, a game or clip ids. Filtering by
   * broadcaster or game pages through a cursor with a page size; clip ids
   * alone are fetched in one request without one.
   */
  function GetClips(creds: Credentials, q: ClipsQuery): (r: Result<HelixRequest, Error>)
    ensures r.Ok? <==> (TruthyStr(q.broadcasterId) || TruthyList(q.clipIds) || TruthyStr(q.gameId))
                       && WithinLimit(q.clipIds) && q.pageSize <= MaxObjects
    ensures !TruthyStr(q.broadcasterId) && !TruthyList(q.clipIds) && !TruthyStr(q.gameId) ==>
              r == Err(AttributeError(ClipsNeedFilter))
    ensures (TruthyStr(q.broadcasterId) || TruthyList(q.clipIds) || TruthyStr(q.gameId)) && !WithinLimit(q.clipIds) ==>
              r == Err(AttributeError(TooManyClipIds))
    ensures (TruthyStr(q.broadcasterId) || TruthyList(q.clipIds) || TruthyStr(q.gameId)) && WithinLimit(q.clipIds)
            && q.pageSize > MaxObjects ==>
              r == Err(AttributeError(TooManyObjects))
    ensures r.Ok? ==> r.value.path == "clips" && r.value.resource == Clip && r.value.creds == creds
    ensures r.Ok? ==> (r.value.dispatch == Cursor <==> TruthyStr(q.broadcasterId) || TruthyStr(q.gameId))
    ensures r.Ok? ==> ("first" in r.value.params <==> r.value.dispatch == Cursor)
    ensures r.Ok? && r.value.dispatch == Cursor ==> r.value.params["first"] == Int(q.pageSize)
    ensures r.Ok? ==>
              r.value.params.Keys - {"first"} ==
                {"broadcaster_id", "game_id", "id", "after", "before", "started_at", "ended_at"}
    ensures r.Ok? ==> r.value.params["broadcaster_id"] == OptStr(q.broadcasterId)
                      && r.value.params["game_id"] == OptStr(q.gameId)
                      && r.value.params["id"] == OptStrs(q.clipIds)
                      && r.value.params["after"] == OptStr(q.after)
                      && r.value.params["before"] == OptStr(q.before)
                      && r.value.params["started_at"] == OptStr(q.startedAt)
                      && r.value.params["ended_at"] == OptStr(q.endedAt)
  {
    var checks := [
      Check(TruthyStr(q.broadcasterId) || TruthyList(q.clipIds) || TruthyStr(q.gameId), ClipsNeedFilter),
      Check(WithinLimit(q.clipIds), TooManyClipIds),
      Check(q.pageSize <= MaxObjects, TooManyObjects)];
    assert checks[1].passes == WithinLimit(q.clipIds) && checks[2].passes == (q.pageSize <= MaxObjects);
    assert !checks[0].passes ==> FirstFailure(checks, 0);
    assert checks[0].passes && !checks[1].passes ==> FirstFailure(checks, 1);
    assert checks[0].passes && checks[1].passes && !checks[2].passes ==> FirstFailure(checks, 2);
    var params := map[
      "broadcaster_id" := OptStr(q.broadcasterId),
      "game_id" := OptStr(q.gameId),
      "id" := OptStrs(q.clipIds),
      "after" := OptStr(q.after),
      "before" := OptStr(q.before),
      "started_at" := OptStr(q.startedAt),
      "ended_at" := OptStr(q.endedAt)];
    var request :=
      if TruthyStr(q.broadcasterId) || TruthyStr(q.gameId) then
        HelixRequest(Cursor, "clips", Clip, params["first" := Int(q.pageSize)], creds)
      else
        HelixRequest(Get, "clips", Clip, params, creds);
    Validated(checks, request)
  }

  /** `get_top_games`: the cursor listing on "games/top". */
  function GetTopGames(creds: Credentials, after: Option<string>, before: Option<string>, pageSize: int): (r: Result<HelixRequest, Error>)
    ensures r.Ok? <==> pageSize <= MaxObjects
    ensures r.Err? ==> r.error == AttributeError(TooManyObjects)
    ensures r.Ok? ==> r.value.dispatch == Cursor && r.value.path == "games/top" && r.value.resource == Game
                      && r.value.creds == creds
    ensures r.Ok? ==> r.value.params.Keys == {"after", "before", "first"}
                      && r.value.params["first"] == Int(pageSize)
                      && r.value.params["after"] == OptStr(after) && r.value.params["before"] == OptStr(before)
  {
    Validated([Check(pageSize <= MaxObjects, TooManyObjects)],
      HelixRequest(Cursor, "games/top", Game,
        map["after" := OptStr(after), "before" := OptStr(before), "first" := Int(pageSize)], creds))
  }

  datatype VideosQuery = VideosQuery(
    videoIds: Option<seq<string>>, userId: Option<string>, gameId: Option<string>,
    after: Option<string>, before: Option<string>, pageSize: int, language: Option<string>,
    period: string, sort: string, videoType: string)

  /** True when `get_videos` lists by user or game rather than by video ids. */
  predicate ListsVideos(q: VideosQuery)
  {
    TruthyStr(q.userId) || TruthyStr(q.gameId)
  }

  /**
   * `get_videos`: listing by user or game checks the page size and the
   * period, sort and type against their fixed sets and pages through a
   * cursor; by video ids alone none of these is looked at and only the ids,
   * user and game are sent, in one request.
   */
  function GetVideos(creds: Credentials, choices: VideoChoices, q: VideosQuery): (r: Result<HelixRequest, Error>)
    ensures r.Ok? <==> WithinLimit(q.videoIds)
                       && (ListsVideos(q) ==>
                             q.pageSize <= MaxObjects && q.period in choices.periods.values
                             && q.sort in choices.sorts.values && q.videoType in choices.types.values)
    ensures !WithinLimit(q.videoIds) ==> r == Err(AttributeError(TooManyVideoIds))
    ensures WithinLimit(q.videoIds) && ListsVideos(q) && q.pageSize > MaxObjects ==>
              r == Err(AttributeError(TooManyObjects))
    ensures WithinLimit(q.videoIds) && ListsVideos(q) && q.pageSize <= MaxObjects
            && q.period !in choices.periods.values ==>
              r == Err(AttributeError(InvalidChoice("period", choices.periods)))
    ensures WithinLimit(q.videoIds) && ListsVideos(q) && q.pageSize <= MaxObjects
            && q.period in choices.periods.values && q.sort !in choices.sorts.values ==>
              r == Err(AttributeError(InvalidChoice("sort", choices.sorts)))
    ensures WithinLimit(q.videoIds) && ListsVideos(q) && q.pageSize <= MaxObjects
            && q.period in choices.periods.values && q.sort in choices.sorts.values
            && q.videoType !in choices.types.values ==>
              r == Err(AttributeError(InvalidChoice("video_type", choices.types)))
    ensures r.Ok? ==> r.value.path == "videos" && r.value.resource == Video && r.value.creds == creds
    ensures r.Ok? ==> (r.value.dispatch == Cursor <==> ListsVideos(q))
    ensures r.Ok? ==> {"id", "user_id", "game_id"} <= r.value.params.Keys
    ensures r.Ok? ==> r.value.params["id"] == OptStrs(q.videoIds)
                      && r.value.params["user_id"] == OptStr(q.userId)
                      && r.value.params["game_id"] == OptStr(q.gameId)
    ensures r.Ok? && r.value.dispatch == Get ==> r.value.params.Keys == {"id", "user_id", "game_id"}
    ensures r.Ok? && r.value.dispatch == Cursor ==>
              r.value.params.Keys == {"id", "user_id", "game_id", "after", "before", "first",
                                      "language", "period", "sort", "type"}
              && r.value.params["first"] == Int(q.pageSize)
              && r.value.params["after"] == OptStr(q.after)
              && r.value.params["before"] == OptStr(q.before)
              && r.value.params["language"] == OptStr(q.language)
              && r.value.params["period"] == Str(q.period)
              && r.value.params["sort"] == Str(q.sort)
              && r.value.params["type"] == Str(q.videoType)
  {
    if !WithinLimit(q.videoIds) then Err(AttributeError(TooManyVideoIds))
    else
      var params := map["id" := OptStrs(q.videoIds), "user_id" := OptStr(q.userId), "game_id" := OptStr(q.gameId)];
      if ListsVideos(q) then
        var checks := [
          Check(q.pageSize <= MaxObjects, TooManyObjects),
          Check(q.period in choices.periods.values, InvalidChoice("period", choices.periods)),
          Check(q.sort in choices.sorts.values, InvalidChoice("sort", choices.sorts)),
          Check(q.videoType in choices.types.values, InvalidChoice("video_type", choices.types))];
        assert checks[0].passes == (q.pageSize <= MaxObjects)
               && checks[1].passes == (q.period in choices.periods.values)
               && checks[2].passes == (q.sort in choices.sorts.values)
               && checks[3].passes == (q.videoType in choices.types.values);
        assert q.pageSize > MaxObjects ==> FirstFailure(checks, 0);
        assert q.pageSize <= MaxObjects && q.period !in choices.periods.values ==> FirstFailure(checks, 1);
        assert q.pageSize <= MaxObjects && q.period in choices.periods.values
               && q.sort !in choices.sorts.values
               ==> FirstFailure(checks, 2);
        assert q.pageSize <= MaxObjects && q.period in choices.periods.values && q.sort in choices.sorts.values
               && q.videoType !in choices.types.values
               ==> FirstFailure(checks, 3);
        var listing := params["after" := OptStr(q.after)]["before" := OptStr(q.before)]
                             ["first" := Int(q.pageSize)]["language" := OptStr(q.language)]
                             ["period" := Str(q.period)]["sort" := Str(q.sort)]["type" := Str(q.videoType)];
        Validated(checks, HelixRequest(Cursor, "videos", Video, listing, creds))
      else
        Ok(HelixRequest(Get, "videos", Video, params, creds))
  }

  /** `get_user_follows`: the cursor listing on "users/follows"; needs a follower or a followed id. */
  function GetUserFollows(creds: Credentials, after: Option<string>, pageSize: int,
                          fromId: Option<string>, toId: Option<string>): (r: Result<HelixRequest, Error>)
    ensures r.Ok? <==> (TruthyStr(fromId) || TruthyStr(toId)) && pageSize <= MaxObjects
    ensures !TruthyStr(fromId) && !TruthyStr(toId) ==> r == Err(AttributeError(FollowsNeedEnd))
    ensures (TruthyStr(fromId) || TruthyStr(toId)) && pageSize > MaxObjects ==>
              r == Err(AttributeError(TooManyObjects))
    ensures r.Ok? ==> r.value.dispatch == Cursor && r.value.path == "users/follows"
                      && r.value.resource == Follow && r.value.creds == creds
    ensures r.Ok? ==> r.value.params.Keys == {"after", "first", "from_id", "to_id"}
                      && r.value.params["first"] == Int(pageSize)
                      && r.value.params["after"] == OptStr(after)
                      && r.value.params["from_id"] == OptStr(fromId)
                      && r.value.params["to_id"] == OptStr(toId)
  {
    var checks := [
      Check(TruthyStr(fromId) || TruthyStr(toId), FollowsNeedEnd),
      Check(pageSize <= MaxObjects, TooManyObjects)];
    assert !checks[0].passes ==> FirstFailure(checks, 0);
    assert checks[0].passes && !checks[1].passes ==> FirstFailure(checks, 1);
    Validated(checks,
      HelixRequest(Cursor, "users/follows", Follow,
        map["after" := OptStr(after), "first" := Int(pageSize), "from_id" := OptStr(fromId), "to_id" := OptStr(toId)],
        creds))
  }

  /** `if not xs: xs = []`: a given list, even an empty one, is kept as it is; only None becomes []. */
  function OrEmpty(xs: Option<seq<string>>): (r: seq<string>)
    ensures xs.Some? ==> r == xs.value
    ensures xs.None? ==> r == []
  {
    if TruthyList(xs) then xs.value else []
  }

  /**
   * `get_users`: a one-shot request on "users"; the login names and ids
   * together may number at most 100, and absent lists are sent as empty ones.
   */
  function GetUsers(creds: Credentials, loginNames: Option<seq<string>>, ids: Option<seq<string>>): (r: Result<HelixRequest, Error>)
    ensures r.Ok? <==> |OrEmpty(loginNames)| + |OrEmpty(ids)| <= MaxObjects
    ensures r.Err? ==> r.error == AttributeError(TooManyUsers)
    ensures r.Ok? ==> r.value.dispatch == Get && r.value.path == "users" && r.value.resource == User
                      && r.value.creds == creds
    ensures r.Ok? ==> r.value.params.Keys == {"login", "id"}
                      && r.value.params["login"] == Strs(OrEmpty(loginNames))
                      && r.value.params["id"] == Strs(OrEmpty(ids))
  {
    var logins := OrEmpty(loginNames);
    var userIds := OrEmpty(ids);
    if |logins| + |userIds| > MaxObjects then Err(AttributeError(TooManyUsers))
    else Ok(HelixRequest(Get, "users", User, map["login" := Strs(logins), "id" := Strs(userIds)], creds))
  }

  /** `get_tags`: the cursor listing on "tags/streams". */
  function GetTags(creds: Credentials, after: Option<string>, pageSize: int, tagIds: Option<seq<string>>): (r: Result<HelixRequest, Error>)
    ensures r.Ok? <==> WithinLimit(tagIds) && pageSize <= MaxObjects
    ensures !WithinLimit(tagIds) ==> r == Err(AttributeError(TooManyTagIds))
    ensures WithinLimit(tagIds) && pageSize > MaxObjects ==> r == Err(AttributeError(TooManyObjects))
    ensures r.Ok? ==> r.value.dispatch == Cursor && r.value.path == "tags/streams" && r.value.resource == Tag
                      && r.value.creds == creds
    ensures r.Ok? ==> r.value.params.Keys == {"after", "first", "tag_id"}
                      && r.value.params["first"] == Int(pageSize)
                      && r.value.params["after"] == OptStr(after)
                      && r.value.params["tag_id"] == OptStrs(tagIds)
  {
    var checks := [Check(WithinLimit(tagIds), TooManyTagIds), Check(pageSize <= MaxObjects, TooManyObjects)];
    assert !checks[0].passes ==> FirstFailure(checks, 0);
    assert checks[0].passes && !checks[1].passes ==> FirstFailure(checks, 1);
    Validated(checks,
      HelixRequest(Cursor, "tags/streams", Tag,
        map["after" := OptStr(after), "first" := Int(pageSize), "tag_id" := OptStrs(tagIds)], creds))
  }
}
