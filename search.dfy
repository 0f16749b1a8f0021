/** `Search`, the v5 search endpoints. */
module Search {
  import opened Wrappers
  import opened Values
  import opened Validation
  import opened Responses
  import opened V5

  /** The default page size of the channel and stream searches. */
  const DefaultLimit := 25

  /** `channels`: at most 100 channels per page; a null result reads as no channels. */
  function Channels(query: string, limit: int, offset: int): (r: Result<Call, Error>)
    ensures r.Ok? <==> limit <= MaxObjects
    ensures r.Err? ==> r.error == AttributeError(TooManyObjects)
    ensures r.Ok? ==> r.value.request.verb == GET && r.value.request.path == "search/channels"
                      && !r.value.request.needsOAuth && r.value.request.data == None
    ensures r.Ok? ==> r.value.request.params.Some?
                      && r.value.request.params.value.Keys == {"query", "limit", "offset"}
                      && r.value.request.params.value["query"] == Str(query)
                      && r.value.request.params.value["limit"] == Int(limit)
                      && r.value.request.params.value["offset"] == Int(offset)
    ensures r.Ok? ==> r.value.reply == ItemsOrEmpty(Channel, "channels")
  {
    if limit > MaxObjects then Err(AttributeError(TooManyObjects))
    else
      var params := map["query" := Str(query), "limit" := Int(limit), "offset" := Int(offset)];
      Ok(Call(Request(GET, "search/channels", Some(params), None, false), ItemsOrEmpty(Channel, "channels")))
  }

  /** `games`: no page size and nothing checked. */
  function Games(query: string, live: bool): (c: Call)
    ensures c.request.verb == GET && c.request.path == "search/games" && !c.request.needsOAuth
    ensures c.request.params == Some(map["query" := Str(query), "live" := Bool(live)]) && c.request.data == None
    ensures c.reply == ItemsOrEmpty(Game, "games")
  {
    Call(Request(GET, "search/games", Some(map["query" := Str(query), "live" := Bool(live)]), None, false),
         ItemsOrEmpty(Game, "games"))
  }

  /** `streams`: like `channels`, with the `hls` filter sent even when it is None. */
  function Streams(query: string, limit: int, offset: int, hls: Option<bool>): (r: Result<Call, Error>)
    ensures r.Ok? <==> limit <= MaxObjects
    ensures r.Err? ==> r.error == AttributeError(TooManyObjects)
    ensures r.Ok? ==> r.value.request.verb == GET && r.value.request.path == "search/streams"
                      && !r.value.request.needsOAuth && r.value.request.data == None
    ensures r.Ok? ==> r.value.request.params.Some?
                      && r.value.request.params.value.Keys == {"query", "limit", "offset", "hls"}
                      && r.value.request.params.value["query"] == Str(query)
                      && r.value.request.params.value["limit"] == Int(limit)
                      && r.value.request.params.value["offset"] == Int(offset)
                      && r.value.request.params.value["hls"] == OptBool(hls)
    ensures r.Ok? ==> r.value.reply == ItemsOrEmpty(Stream, "streams")
  {
    if limit > MaxObjects then Err(AttributeError(TooManyObjects))
    else
      var params := map["query" := Str(query), "limit" := Int(limit), "offset" := Int(offset), "hls" := OptBool(hls)];
      Ok(Call(Request(GET, "search/streams", Some(params), None, false), ItemsOrEmpty(Stream, "streams")))
  }

  /** The searches accept their default arguments (limit 25, offset 0, `hls` None, `live` False). */
  lemma DefaultSearchesAccepted(query: string)
    ensures Channels(query, DefaultLimit, 0).Ok?
    ensures Streams(query, DefaultLimit, 0, None).Ok?
    ensures Channels(query, DefaultLimit, 0).value.request.params.value["limit"] == Int(25)
    ensures Streams(query, DefaultLimit, 0, None).value.request.params.value["hls"] == Null
  {
  }

  /**
   * A search whose result field is null (or empty) returns no results
   * instead of failing, and a result list gives one resource per element,
   * in order.
   */
  lemma SearchRepliesTolerateNull<R>(query: string, limit: int, offset: int, live: bool, hls: Option<bool>,
                                     fields: map<string, Json>, decode: (Resource, Json) -> R)
    requires limit <= MaxObjects
    ensures "channels" in fields && !Truthy(fields["channels"]) ==>
              Interpret(Channels(query, limit, offset).value.reply, JObj(fields), decode) == Ok(Many([]))
    ensures "games" in fields && !Truthy(fields["games"]) ==>
              Interpret(Games(query, live).reply, JObj(fields), decode) == Ok(Many([]))
    ensures "streams" in fields && !Truthy(fields["streams"]) ==>
              Interpret(Streams(query, limit, offset, hls).value.reply, JObj(fields), decode) == Ok(Many([]))
    ensures "channels" in fields && fields["channels"].JArr? ==>
              DecodedEach(Interpret(Channels(query, limit, offset).value.reply, JObj(fields), decode),
                          Channel, fields["channels"].items, decode)
    ensures "games" in fields && fields["games"].JArr? ==>
              DecodedEach(Interpret(Games(query, live).reply, JObj(fields), decode), Game, fields["games"].items, decode)
    ensures "streams" in fields && fields["streams"].JArr? ==>
              DecodedEach(Interpret(Streams(query, limit, offset, hls).value.reply, JObj(fields), decode),
                          Stream, fields["streams"].items, decode)
  {
  }
}
