/**
 What the user routes promise their clients, stated over `Response` (what a
 new recorder shows after `getUsers`), `Trace` (the usecase calls) and
 `Writes` (the calls on the writer), for every parsed path, token, backend
 answer and connection.
 */
module RouteUsersProperties {
  import opened Wrappers
  import opened Envelope
  import opened Writer
  import opened Collaborators
  import opened RouteUsers

  /**
   A 404 comes exactly from an item outside {information, favorites, articles}
   (the empty item included): no body, and nothing reaches the usecase layer.
   */
  lemma NotFoundIffUnknownItem(parts: PathParts, token: string, be: Backend, writeError: Option<string>)
    ensures Response(parts, token, be, writeError).status == StatusNotFound
        <==> parts.item !in {"information", "favorites", "articles"}
    ensures parts.item !in {"information", "favorites", "articles"} ==>
      Response(parts, token, be, writeError).body == [] && Trace(parts, token, be) == []
  {
  }

  /**
   A recognised item runs one handler with the parsed user id unchanged: the
   permission gate is called first, once, with [ReadUserInformation] and
   {"user_id": userID}; after it comes a fetch, of that item's resource for
   that same user, exactly when the gate lets the request through.
   */
  lemma GateComesFirst(parts: PathParts, token: string, be: Backend)
    requires parts.item in {"information", "favorites", "articles"}
    ensures var t := Trace(parts, token, be);
      && 1 <= |t| <= 2
      && (|t| == 2 <==> !Denied(parts.userID, token, be))
      && t[0] == CheckPermissionCall(token, [ReadUserInformation], map["user_id" := parts.userID])
      && forall i :: 1 <= i < |t| ==>
           && !t[i].CheckPermissionCall?
           && t[i].userID == parts.userID
           && t[i] == FetchCall(Route(parts.item).value, parts.userID)
  {
  }

  /**
   A 401 comes exactly from a recognised item whose permission check fails;
   then nothing is written to the body and no fetch is made.
   */
  lemma UnauthorizedIffDenied(parts: PathParts, token: string, be: Backend, writeError: Option<string>)
    ensures Response(parts, token, be, writeError).status == StatusUnauthorized
        <==> Route(parts.item).Some? && Denied(parts.userID, token, be)
    ensures Route(parts.item).Some? && Denied(parts.userID, token, be) ==>
      && Response(parts, token, be, writeError).body == []
      && Trace(parts, token, be) == [CheckPermissionCall(token, RequiredPermissions, UserAttributes(parts.userID))]
  {
  }

  /**
   `information`, once the gate passes: a fetch error is a 500 whose body is
   {"error": "find_userrec_error", "error_description": <message>}; success is
   a 200 whose body is {"data": <profile>}, so its "user_id" is the backend's.
   */
  lemma InformationResponse(parts: PathParts, token: string, be: Backend, writeError: Option<string>)
    requires parts.item == "information" && !Denied(parts.userID, token, be)
    ensures var reply := be.information(parts.userID);
      var resp := Response(parts, token, be, writeError);
      && (reply.err.Some? ==>
            && resp.status == StatusInternalServerError
            && resp.body == (if writeError.None? then [ErrorBody("find_userrec_error", reply.err.value)] else []))
      && (reply.err.None? ==>
            && resp.status == StatusOK
            && resp.body == (if writeError.None? then [Data(reply.value)] else []))
      && (reply.err.None? && writeError.None? && "user_id" in reply.value ==>
            resp.body[0].profile["user_id"] == reply.value["user_id"])
  {
  }

  /**
   `favorites`, once the gate passes: a fetch error is a bare 400; success is
   a 200 whose body is {"data": {"items": <list>}} in the backend's order.
   */
  lemma FavoritesResponse(parts: PathParts, token: string, be: Backend, writeError: Option<string>)
    requires parts.item == "favorites" && !Denied(parts.userID, token, be)
    ensures var reply := be.favorites(parts.userID);
      var resp := Response(parts, token, be, writeError);
      && (reply.err.Some? ==> resp.status == StatusBadRequest && resp.body == [])
      && (reply.err.None? ==>
            && resp.status == StatusOK
            && resp.body == (if writeError.None? then [DataItems(reply.value)] else []))
      && (reply.err.None? && writeError.None? && reply.value.List? && |reply.value.records| > 0 ==>
            resp.body[0].items.records[0] == reply.value.records[0])
  {
  }

  /**
   `articles`, once the gate passes: the status is never set, so the answer is
   200 whether or not the fetch fails, and the body always carries "data".
   */
  lemma ArticlesAlwaysOk(parts: PathParts, token: string, be: Backend, writeError: Option<string>)
    requires parts.item == "articles" && !Denied(parts.userID, token, be)
    ensures var resp := Response(parts, token, be, writeError);
      && resp.status == StatusOK
      && resp.body == (if writeError.None? then [DataItems(be.articles(parts.userID).value)] else [])
  {
  }

  /**
   A failing body write changes nothing but the body: the status is the one a
   healthy connection gets, and no handler ever writes the body twice.
   */
  lemma WriteFailureKeepsStatus(parts: PathParts, token: string, be: Backend, e: string)
    ensures Response(parts, token, be, Some(e)).status == Response(parts, token, be, None).status
    ensures Response(parts, token, be, Some(e)).body == []
    ensures |Chunks(Writes(parts, token, be))| <= 1
    ensures |Response(parts, token, be, None).body| <= 1
  {
  }

  /**
   Whatever `getUsers` writes, the status is one of the five the routes use.
   */
  lemma StatusIsKnown(parts: PathParts, token: string, be: Backend, writeError: Option<string>)
    ensures Response(parts, token, be, writeError).status
      in {StatusOK, StatusBadRequest, StatusUnauthorized, StatusNotFound, StatusInternalServerError}
  {
  }

  /** The expectations of the path parser's tests, taken as a hypothesis about a parser. */
  ghost predicate PassesParseUserPathTests(parse: string -> PathParts) {
    && parse("/v1/users/Pichu/information") == PathParts("Pichu", "information", None)
    && parse("/v1/users/Pichu/") == PathParts("Pichu", "", None)
    && parse("/v1/users/Pichu") == PathParts("Pichu", "", None)
  }

  /**
   With a parser that meets its tests, a request for Pichu's information is
   gated for user "Pichu", and a path with no item (with or without the
   trailing slash) is a 404 that reaches no collaborator.
   */
  lemma PichuPaths(parse: string -> PathParts, token: string, be: Backend, writeError: Option<string>)
    requires PassesParseUserPathTests(parse)
    ensures var t := Trace(parse("/v1/users/Pichu/information"), token, be);
      |t| >= 1 && t[0] == CheckPermissionCall(token, RequiredPermissions, map["user_id" := "Pichu"])
    ensures Response(parse("/v1/users/Pichu/"), token, be, writeError).status == StatusNotFound
    ensures Response(parse("/v1/users/Pichu"), token, be, writeError).status == StatusNotFound
    ensures Trace(parse("/v1/users/Pichu/"), token, be) == []
    ensures Trace(parse("/v1/users/Pichu"), token, be) == []
  {
  }

  /**
   One request served the way the tests serve it: a new recorder, `getUsers`,
   then the recorder's code and body. The answer depends only on the request
   and the collaborators' answers, so repeating the request repeats it.
   */
  method ServeRequest(d: Delivery, r: Request, writeError: Option<string>) returns (status: int, body: seq<Body>)
    modifies d.usecase, d.logger
    ensures var resp := Response(d.parseUserPath(r.path), d.tokenFromRequest(r), d.usecase.backend, writeError);
      status == resp.status && body == resp.body
    ensures d.usecase.calls == old(d.usecase.calls) + Trace(d.parseUserPath(r.path), d.tokenFromRequest(r), d.usecase.backend)
  {
    var w := new Recorder(writeError);
    d.GetUsers(w, r);
    status, body := w.status, w.body;
  }

}
