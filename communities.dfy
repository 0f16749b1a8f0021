/**
 * `Communities`, the v5 community endpoints: which request each method
 * sends, the page-size check of the paginated listings, and how each reads
 * its reply.
 */
module Communities {
  import opened Wrappers
  import opened Values
  import opened Validation
  import opened Responses
  import opened V5

  /** The default page size of the paginated listings. */
  const DefaultLimit := 10

  /** `get_by_name`: looks a community up by the name query parameter. */
  function GetByName(communityName: string): (c: Call)
    ensures c.request.verb == GET && c.request.path == "communities" && !c.request.needsOAuth
    ensures c.request.params == Some(map["name" := Str(communityName)]) && c.request.data == None
    ensures c.reply == Object(Community)
  {
    Call(Request(GET, "communities", Some(map["name" := Str(communityName)]), None, false), Object(Community))
  }

  /** `get_by_id`: reads the community at its own path; no argument is checked. */
  function GetById(communityId: string): (c: Call)
    ensures c.request.verb == GET && c.request.path == "communities/" + communityId && !c.request.needsOAuth
    ensures Plain(communityId) ==> Segments(c.request.path) == ["communities", communityId]
    ensures c.request.params == None && c.request.data == None
    ensures c.reply == Object(Community)
  {
    var c := Call(Request(GET, "communities/" + communityId, None, None, false), Object(Community));
    assert c.request.path == "communities" + "/" + communityId;
    Segments2("communities", communityId); c
  }

  /** `update`: puts all four fields to the community, the ones left out as None. */
  function Update(communityId: string, summary: Option<string>, description: Option<string>,
                  rules: Option<string>, email: Option<string>): (c: Call)
    ensures c.request.verb == PUT && c.request.path == "communities/" + communityId && !c.request.needsOAuth
    ensures Plain(communityId) ==> Segments(c.request.path) == ["communities", communityId]
    ensures c.request.params == None && c.request.data.Some?
    ensures c.request.data.value.Keys == {"summary", "description", "rules", "email"}
    ensures c.request.data.value["summary"] == OptStr(summary)
            && c.request.data.value["description"] == OptStr(description)
            && c.request.data.value["rules"] == OptStr(rules)
            && c.request.data.value["email"] == OptStr(email)
    ensures c.reply == Nothing
  {
    assert "communities/" + communityId == "communities" + "/" + communityId;
    var data := map["summary" := OptStr(summary), "description" := OptStr(description),
                    "rules" := OptStr(rules), "email" := OptStr(email)];
    var call := Call(Request(PUT, "communities/" + communityId, None, Some(data), false), Nothing);
    Segments2("communities", communityId); call
  }

  /** A page of a listing: at most 100 objects, and the cursor passed on as given. */
  function PagedListing(path: string, limit: int, cursor: Option<string>, needsOAuth: bool, reply: Reply): (r: Result<Call, Error>)
    ensures r.Ok? <==> limit <= MaxObjects
    ensures r.Err? ==> r.error == AttributeError(TooManyObjects)
    ensures r.Ok? ==> r.value.request == Request(GET, path, Some(map["limit" := Int(limit), "cursor" := OptStr(cursor)]), None, needsOAuth)
    ensures r.Ok? ==> r.value.reply == reply
  {
    if limit > MaxObjects then Err(AttributeError(TooManyObjects))
    else Ok(Call(Request(GET, path, Some(map["limit" := Int(limit), "cursor" := OptStr(cursor)]), None, needsOAuth), reply))
  }

  /** `get_top`: a page of the top communities. */
  function GetTop(limit: int, cursor: Option<string>): (r: Result<Call, Error>)
    ensures r.Ok? <==> limit <= MaxObjects
    ensures r.Err? ==> r.error == AttributeError(TooManyObjects)
    ensures r.Ok? ==> r.value.request.verb == GET && r.value.request.path == "communities/top"
                      && !r.value.request.needsOAuth && r.value.request.data == None
    ensures r.Ok? ==> r.value.request.params.Some? && r.value.request.params.value.Keys == {"limit", "cursor"}
                      && r.value.request.params.value["limit"] == Int(limit)
                      && r.value.request.params.value["cursor"] == OptStr(cursor)
    ensures r.Ok? ==> r.value.reply == Items(Community, "communities")
  {
    PagedListing("communities/top", limit, cursor, false, Items(Community, "communities"))
  }

  /** `get_banned_users`: a page of the users banned from a community. */
  function GetBannedUsers(communityId: string, limit: int, cursor: Option<string>): (r: Result<Call, Error>)
    ensures r.Ok? <==> limit <= MaxObjects
    ensures r.Err? ==> r.error == AttributeError(TooManyObjects)
    ensures r.Ok? ==> r.value.request.verb == GET && r.value.request.path == "communities/" + communityId + "/bans"
                      && r.value.request.needsOAuth && r.value.request.data == None
    ensures r.Ok? && Plain(communityId) ==> Segments(r.value.request.path) == ["communities", communityId, "bans"]
    ensures r.Ok? ==> r.value.request.params.Some? && r.value.request.params.value.Keys == {"limit", "cursor"}
                      && r.value.request.params.value["limit"] == Int(limit)
                      && r.value.request.params.value["cursor"] == OptStr(cursor)
    ensures r.Ok? ==> r.value.reply == Items(User, "banned_users")
  {
    assert "communities/" + communityId + "/bans" == "communities" + "/" + communityId + "/" + "bans";
    var r := PagedListing("communities/" + communityId + "/bans", limit, cursor, true, Items(User, "banned_users"));
    Segments3("communities", communityId, "bans"); r
  }

  /** A request on `communities/{community}/{collection}/{member}`. */
  function MemberRequest(verb: Verb, communityId: string, collection: string, memberId: string, data: Option<Params>): (q: Request)
    requires Plain(collection)
    ensures q.verb == verb && q.needsOAuth && q.params == None && q.data == data
    ensures q.path == "communities/" + communityId + "/" + collection + "/" + memberId
    ensures Plain(communityId) && Plain(memberId) ==>
              Segments(q.path) == ["communities", communityId, collection, memberId]
  {
    var path := "communities/" + communityId + "/" + collection + "/" + memberId;
    assert path == "communities" + "/" + communityId + "/" + collection + "/" + memberId;
    var q := Request(verb, path, None, data, true);
    Segments4("communities", communityId, collection, memberId); q
  }

  /** `ban_user`: puts the user into the community's bans. */
  function BanUser(communityId: string, userId: string): (c: Call)
    ensures c.request.verb == PUT && c.request.needsOAuth && c.request.params == None && c.request.data == None
    ensures c.request.path == "communities/" + communityId + "/bans/" + userId
    ensures Plain(communityId) && Plain(userId) ==>
              Segments(c.request.path) == ["communities", communityId, "bans", userId]
    ensures c.reply == Nothing
  {
    Call(MemberRequest(PUT, communityId, "bans", userId, None), Nothing)
  }

  /** `unban_user`: deletes the user from the community's bans. */
  function UnbanUser(communityId: string, userId: string): (c: Call)
    ensures c.request.verb == DELETE && c.request.needsOAuth && c.request.params == None && c.request.data == None
    ensures c.request.path == "communities/" + communityId + "/bans/" + userId
    ensures Plain(communityId) && Plain(userId) ==>
              Segments(c.request.path) == ["communities", communityId, "bans", userId]
    ensures c.reply == Nothing
  {
    Call(MemberRequest(DELETE, communityId, "bans", userId, None), Nothing)
  }

  /** A request on one of the community's images. */
  function ImageRequest(verb: Verb, communityId: string, image: string, data: Option<Params>): (q: Request)
    requires Plain(image)
    ensures q.verb == verb && q.needsOAuth && q.params == None && q.data == data
    ensures q.path == "communities/" + communityId + "/images/" + image
    ensures Plain(communityId) ==> Segments(q.path) == ["communities", communityId, "images", image]
  {
    var path := "communities/" + communityId + "/images/" + image;
    assert path == "communities" + "/" + communityId + "/" + "images" + "/" + image;
    var q := Request(verb, path, None, data, true);
    Segments4("communities", communityId, "images", image); q
  }

  /** `create_avatar_image`: posts the avatar image. */
  function CreateAvatarImage(communityId: string, avatarImage: string): (c: Call)
    ensures c.request.verb == POST && c.request.needsOAuth && c.request.params == None
    ensures c.request.data == Some(map["avatar_image" := Str(avatarImage)])
    ensures c.request.path == "communities/" + communityId + "/images/avatar"
    ensures Plain(communityId) ==> Segments(c.request.path) == ["communities", communityId, "images", "avatar"]
    ensures c.reply == Nothing
  {
    Call(ImageRequest(POST, communityId, "avatar", Some(map["avatar_image" := Str(avatarImage)])), Nothing)
  }

  /** `delete_avatar_image`. */
  function DeleteAvatarImage(communityId: string): (c: Call)
    ensures c.request.verb == DELETE && c.request.needsOAuth && c.request.params == None && c.request.data == None
    ensures c.request.path == "communities/" + communityId + "/images/avatar"
    ensures Plain(communityId) ==> Segments(c.request.path) == ["communities", communityId, "images", "avatar"]
    ensures c.reply == Nothing
  {
    Call(ImageRequest(DELETE, communityId, "avatar", None), Nothing)
  }

  /** `create_cover_image`: posts the cover image. */
  function CreateCoverImage(communityId: string, coverImage: string): (c: Call)
    ensures c.request.verb == POST && c.request.needsOAuth && c.request.params == None
    ensures c.request.data == Some(map["cover_image" := Str(coverImage)])
    ensures c.request.path == "communities/" + communityId + "/images/cover"
    ensures Plain(communityId) ==> Segments(c.request.path) == ["communities", communityId, "images", "cover"]
    ensures c.reply == Nothing
  {
    Call(ImageRequest(POST, communityId, "cover", Some(map["cover_image" := Str(coverImage)])), Nothing)
  }

  /** `delete_cover_image`. */
  function DeleteCoverImage(communityId: string): (c: Call)
    ensures c.request.verb == DELETE && c.request.needsOAuth && c.request.params == None && c.request.data == None
    ensures c.request.path == "communities/" + communityId + "/images/cover"
    ensures Plain(communityId) ==> Segments(c.request.path) == ["communities", communityId, "images", "cover"]
    ensures c.reply == Nothing
  {
    Call(ImageRequest(DELETE, communityId, "cover", None), Nothing)
  }

  /** `get_moderators`: every moderator at once; takes no page size and checks nothing. */
  function GetModerators(communityId: string): (c: Call)
    ensures c.request.verb == GET && !c.request.needsOAuth && c.request.params == None && c.request.data == None
    ensures c.request.path == "communities/" + communityId + "/moderators"
    ensures Plain(communityId) ==> Segments(c.request.path) == ["communities", communityId, "moderators"]
    ensures c.reply == Items(User, "moderators")
  {
    var path := "communities/" + communityId + "/moderators";
    assert path == "communities" + "/" + communityId + "/" + "moderators";
    var c := Call(Request(GET, path, None, None, false), Items(User, "moderators"));
    Segments3("communities", communityId, "moderators"); c
  }

  /** `add_moderator`. */
  function AddModerator(communityId: string, userId: string): (c: Call)
    ensures c.request.verb == PUT && c.request.needsOAuth && c.request.params == None && c.request.data == None
    ensures c.request.path == "communities/" + communityId + "/moderators/" + userId
    ensures Plain(communityId) && Plain(userId) ==>
              Segments(c.request.path) == ["communities", communityId, "moderators", userId]
    ensures c.reply == Nothing
  {
    Call(MemberRequest(PUT, communityId, "moderators", userId, None), Nothing)
  }

  /** `delete_moderator`. */
  function DeleteModerator(communityId: string, userId: string): (c: Call)
    ensures c.request.verb == DELETE && c.request.needsOAuth && c.request.params == None && c.request.data == None
    ensures c.request.path == "communities/" + communityId + "/moderators/" + userId
    ensures Plain(communityId) && Plain(userId) ==>
              Segments(c.request.path) == ["communities", communityId, "moderators", userId]
    ensures c.reply == Nothing
  {
    Call(MemberRequest(DELETE, communityId, "moderators", userId, None), Nothing)
  }

  /** `get_permissions`: returns the body as it came. */
  function GetPermissions(communityId: string): (c: Call)
    ensures c.request.verb == GET && c.request.needsOAuth && c.request.params == None && c.request.data == None
    ensures c.request.path == "communities/" + communityId + "/permissions"
    ensures Plain(communityId) ==> Segments(c.request.path) == ["communities", communityId, "permissions"]
    ensures c.reply == RawBody
  {
    var path := "communities/" + communityId + "/permissions";
    assert path == "communities" + "/" + communityId + "/" + "permissions";
    var c := Call(Request(GET, path, None, None, true), RawBody);
    Segments3("communities", communityId, "permissions"); c
  }

  /** `report_violation`: posts the reported channel. */
  function ReportViolation(communityId: string, channelId: string): (c: Call)
    ensures c.request.verb == POST && c.request.needsOAuth && c.request.params == None
    ensures c.request.data == Some(map["channel_id" := Str(channelId)])
    ensures c.request.path == "communities/" + communityId + "/report_channel"
    ensures Plain(communityId) ==> Segments(c.request.path) == ["communities", communityId, "report_channel"]
    ensures c.reply == Nothing
  {
    var path := "communities/" + communityId + "/report_channel";
    assert path == "communities" + "/" + communityId + "/" + "report_channel";
    var c := Call(Request(POST, path, None, Some(map["channel_id" := Str(channelId)]), true), Nothing);
    Segments3("communities", communityId, "report_channel"); c
  }

  /** `get_timed_out_users`: a page of the users timed out in a community. */
  function GetTimedOutUsers(communityId: string, limit: int, cursor: Option<string>): (r: Result<Call, Error>)
    ensures r.Ok? <==> limit <= MaxObjects
    ensures r.Err? ==> r.error == AttributeError(TooManyObjects)
    ensures r.Ok? ==> r.value.request.verb == GET && r.value.request.path == "communities/" + communityId + "/timeouts"
                      && r.value.request.needsOAuth && r.value.request.data == None
    ensures r.Ok? && Plain(communityId) ==> Segments(r.value.request.path) == ["communities", communityId, "timeouts"]
    ensures r.Ok? ==> r.value.request.params.Some? && r.value.request.params.value.Keys == {"limit", "cursor"}
                      && r.value.request.params.value["limit"] == Int(limit)
                      && r.value.request.params.value["cursor"] == OptStr(cursor)
    ensures r.Ok? ==> r.value.reply == Items(User, "timed_out_users")
  {
    assert "communities/" + communityId + "/timeouts" == "communities" + "/" + communityId + "/" + "timeouts";
    var r := PagedListing("communities/" + communityId + "/timeouts", limit, cursor, true, Items(User, "timed_out_users"));
    Segments3("communities", communityId, "timeouts"); r
  }

  /** `add_timed_out_user`: puts the timeout's duration and reason (None when not given). */
  function AddTimedOutUser(communityId: string, userId: string, duration: int, reason: Option<string>): (c: Call)
    ensures c.request.verb == PUT && c.request.needsOAuth && c.request.params == None
    ensures c.request.data == Some(map["duration" := Int(duration), "reason" := OptStr(reason)])
    ensures c.request.path == "communities/" + communityId + "/timeouts/" + userId
    ensures Plain(communityId) && Plain(userId) ==>
              Segments(c.request.path) == ["communities", communityId, "timeouts", userId]
    ensures c.reply == Nothing
  {
    Call(MemberRequest(PUT, communityId, "timeouts", userId,
                       Some(map["duration" := Int(duration), "reason" := OptStr(reason)])), Nothing)
  }

  /** `delete_timed_out_user`. */
  function DeleteTimedOutUser(communityId: string, userId: string): (c: Call)
    ensures c.request.verb == DELETE && c.request.needsOAuth && c.request.params == None && c.request.data == None
    ensures c.request.path == "communities/" + communityId + "/timeouts/" + userId
    ensures Plain(communityId) && Plain(userId) ==>
              Segments(c.request.path) == ["communities", communityId, "timeouts", userId]
    ensures c.reply == Nothing
  {
    Call(MemberRequest(DELETE, communityId, "timeouts", userId, None), Nothing)
  }

  /** The listings accept their default arguments (limit 10, no cursor). */
  lemma DefaultPagesAccepted(communityId: string)
    ensures GetTop(DefaultLimit, None).Ok?
    ensures GetBannedUsers(communityId, DefaultLimit, None).Ok?
    ensures GetTimedOutUsers(communityId, DefaultLimit, None).Ok?
    ensures GetTop(DefaultLimit, None).value.request.params == Some(map["limit" := Int(10), "cursor" := Null])
  {
  }

  /**
   * Each add/remove pair addresses one member resource: banning and
   * unbanning, adding and deleting a moderator, timing out and lifting a
   * timeout use the same path, with PUT and DELETE.
   */
  lemma AddAndRemoveShareResource(communityId: string, userId: string, duration: int, reason: Option<string>)
    ensures BanUser(communityId, userId).request.path == UnbanUser(communityId, userId).request.path
    ensures AddModerator(communityId, userId).request.path == DeleteModerator(communityId, userId).request.path
    ensures AddTimedOutUser(communityId, userId, duration, reason).request.path
            == DeleteTimedOutUser(communityId, userId).request.path
    ensures BanUser(communityId, userId).request.verb == PUT && UnbanUser(communityId, userId).request.verb == DELETE
  {
  }

  /**
   * The listings return one decoded resource per element of their reply's
   * list field, in order; unlike the searches, a null field is an error.
   */
  lemma ListingsDecodeEachElement<R>(communityId: string, limit: int, cursor: Option<string>,
                                     fields: map<string, Json>, decode: (Resource, Json) -> R)
    requires limit <= MaxObjects
    ensures "communities" in fields && fields["communities"].JArr? ==>
              DecodedEach(Interpret(GetTop(limit, cursor).value.reply, JObj(fields), decode),
                          Community, fields["communities"].items, decode)
    ensures "banned_users" in fields && fields["banned_users"].JArr? ==>
              DecodedEach(Interpret(GetBannedUsers(communityId, limit, cursor).value.reply, JObj(fields), decode),
                          User, fields["banned_users"].items, decode)
    ensures "moderators" in fields && fields["moderators"].JArr? ==>
              DecodedEach(Interpret(GetModerators(communityId).reply, JObj(fields), decode),
                          User, fields["moderators"].items, decode)
    ensures "timed_out_users" in fields && fields["timed_out_users"].JArr? ==>
              DecodedEach(Interpret(GetTimedOutUsers(communityId, limit, cursor).value.reply, JObj(fields), decode),
                          User, fields["timed_out_users"].items, decode)
    ensures "communities" in fields && fields["communities"] == JNull ==>
              Interpret(GetTop(limit, cursor).value.reply, JObj(fields), decode) == Err(TypeError("communities"))
    ensures "communities" !in fields ==>
              Interpret(GetTop(limit, cursor).value.reply, JObj(fields), decode) == Err(KeyError("communities"))
  {
  }
}
