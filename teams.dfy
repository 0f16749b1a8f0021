/** `Teams`, the v5 team endpoints. */
module Teams {
  import opened Wrappers
  import opened Values
  import opened Validation
  import opened Responses
  import opened V5

  /** The default page size of `get_all`. */
  const DefaultLimit := 10

  /** `get`: reads one team at `teams/{team_name}`; nothing is checked. */
  function Get(teamName: string): (c: Call)
    ensures c.request.verb == GET && c.request.path == "teams/" + teamName && !c.request.needsOAuth
    ensures Plain(teamName) ==> Segments(c.request.path) == ["teams", teamName]
    ensures c.request.params == None && c.request.data == None
    ensures c.reply == Object(Team)
  {
    var c := Call(Request(GET, "teams/" + teamName, None, None, false), Object(Team));
    assert c.request.path == "teams" + "/" + teamName;
    Segments2("teams", teamName); c
  }

  /** `get_all`: a page of at most 100 teams from `offset`, which is not checked. */
  function GetAll(limit: int, offset: int): (r: Result<Call, Error>)
    ensures r.Ok? <==> limit <= MaxObjects
    ensures r.Err? ==> r.error == AttributeError(TooManyObjects)
    ensures r.Ok? ==> r.value.request.verb == GET && r.value.request.path == "teams"
                      && !r.value.request.needsOAuth && r.value.request.data == None
    ensures r.Ok? ==> r.value.request.params.Some?
                      && r.value.request.params.value.Keys == {"limit", "offset"}
                      && r.value.request.params.value["limit"] == Int(limit)
                      && r.value.request.params.value["offset"] == Int(offset)
    ensures r.Ok? ==> r.value.reply == Items(Team, "teams")
  {
    if limit > MaxObjects then Err(AttributeError(TooManyObjects))
    else
      Ok(Call(Request(GET, "teams", Some(map["limit" := Int(limit), "offset" := Int(offset)]), None, false),
              Items(Team, "teams")))
  }

  /** `get_all` accepts its default arguments (limit 10, offset 0). */
  lemma DefaultPageAccepted()
    ensures GetAll(DefaultLimit, 0).Ok?
    ensures GetAll(DefaultLimit, 0).value.request.params == Some(map["limit" := Int(10), "offset" := Int(0)])
  {
  }

  /** `get_all` returns one decoded team per element of the reply's "teams" list, in order. */
  lemma GetAllDecodesEachTeam<R>(limit: int, offset: int, fields: map<string, Json>, decode: (Resource, Json) -> R)
    requires limit <= MaxObjects
    ensures "teams" in fields && fields["teams"].JArr? ==>
              DecodedEach(Interpret(GetAll(limit, offset).value.reply, JObj(fields), decode),
                          Team, fields["teams"].items, decode)
  {
  }
}
