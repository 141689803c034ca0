/**
 The `/users/{id}/{item}` routes of the HTTP delivery layer: `getUsers`
 dispatches on the item the path parser returns, and each of the three
 handlers runs the permission gate, calls the backend and maps its outcome to
 a status and a body on the response writer.

 The functions below say, for a parsed path, an access token and the
 collaborators' answers, which calls reach the usecase layer, which calls
 reach the response writer and what is logged; the `Delivery` methods are
 proved to make exactly those calls.
 */
module RouteUsers {
  import opened Wrappers
  import opened Envelope
  import opened Writer
  import opened Collaborators

  /** What `parseUserPath` returns: the user id, the item (selector) and an error. */
  datatype PathParts = PathParts(userID: string, item: string, err: Option<string>)

  /** The parts of an HTTP request the routes look at. */
  datatype Request = Request(path: string, authorization: string)

  /** The sub-resources a user has. */
  datatype Resource = Information | Favorites | Articles

  /** The item strings `getUsers` recognises; every other item is a routing miss. */
  function Route(item: string): (r: Option<Resource>)
    ensures r.Some? <==> item in {"information", "favorites", "articles"}
  {
    match item
    case "information" => Some(Information)
    case "favorites" => Some(Favorites)
    case "articles" => Some(Articles)
    case _ => None
  }

  /** All three sub-resources are guarded by the same single permission ... */
  const RequiredPermissions: seq<Permission> := [ReadUserInformation]

  /** ... scoped to the requested user. */
  function UserAttributes(userID: string): map<string, string> {
    map["user_id" := userID]
  }

  /** The error code of the `information` handler's 500 body. */
  const FindUserRecError := "find_userrec_error"

  // Log formats, one per place the routes log.
  const NotFoundFormat := "user id: %v not exist but be queried, info: %v err: %v"
  const InformationErrorResponseFormat := "getUserInformation error response err: %w"
  const InformationSuccessResponseFormat := "getUserInformation success response err: %w"
  const FavoritesFetchFormat := "failed to get user favorites: %s\n"
  const ArticlesFetchFormat := "failed to get user's articles: %s\n"
  const ArticlesResponseFormat := "getUserFavorites success response err: %w"

  /** The permission gate's call for `userID`. */
  function GateCall(userID: string, token: string): UsecaseCall {
    CheckPermissionCall(token, RequiredPermissions, UserAttributes(userID))
  }

  /** Whether the permission gate refuses `token` for `userID` (any non-nil error). */
  predicate Denied(userID: string, token: string, be: Backend) {
    be.checkPermission(token, RequiredPermissions, UserAttributes(userID)).Some?
  }

  /** The backend fetch a handler makes for its resource. */
  function FetchCall(res: Resource, userID: string): UsecaseCall {
    match res
    case Information => GetUserInformationCall(userID)
    case Favorites => GetUserFavoritesCall(userID)
    case Articles => GetUserArticlesCall(userID)
  }

  /** Whether the backend fetch for `res` reports an error. */
  predicate FetchFails(res: Resource, userID: string, be: Backend) {
    match res
    case Information => be.information(userID).err.Some?
    case Favorites => be.favorites(userID).err.Some?
    case Articles => be.articles(userID).err.Some?
  }

  /** The usecase calls a handler makes: the gate, then the fetch unless refused. */
  function HandlerTrace(res: Resource, userID: string, token: string, be: Backend): seq<UsecaseCall> {
    [GateCall(userID, token)] + (if Denied(userID, token, be) then [] else [FetchCall(res, userID)])
  }

  /** The calls a handler makes on the response writer. */
  function HandlerWrites(res: Resource, userID: string, token: string, be: Backend): seq<Call> {
    if Denied(userID, token, be) then [WriteHeader(StatusUnauthorized)]
    else
      match res
      case Information =>
        var reply := be.information(userID);
        if reply.err.Some? then
          [WriteHeader(StatusInternalServerError), Write(ErrorBody(FindUserRecError, reply.err.value))]
        else
          [Write(Data(reply.value))]
      case Favorites =>
        var reply := be.favorites(userID);
        if reply.err.Some? then [WriteHeader(StatusBadRequest)] else [Write(DataItems(reply.value))]
      case Articles =>
        // The fetch error is only logged: the items go out whatever it says.
        [Write(DataItems(be.articles(userID).value))]
  }

  /** The log line for a failed body write, if the write failed. */
  function WriteFailureLog(format: string, writeError: Option<string>): seq<LogEntry> {
    if writeError.Some? then [Error(format, writeError.value)] else []
  }

  /** What a handler logs when every body write returns `writeError`. */
  function HandlerLogs(res: Resource, userID: string, token: string, be: Backend, writeError: Option<string>): seq<LogEntry> {
    if Denied(userID, token, be) then []
    else
      match res
      case Information =>
        if be.information(userID).err.Some? then WriteFailureLog(InformationErrorResponseFormat, writeError)
        else WriteFailureLog(InformationSuccessResponseFormat, writeError)
      case Favorites =>
        // The result of the body write is not checked here.
        var err := be.favorites(userID).err;
        if err.Some? then [Error(FavoritesFetchFormat, err.value)] else []
      case Articles =>
        var err := be.articles(userID).err;
        (if err.Some? then [Error(ArticlesFetchFormat, err.value)] else [])
        + WriteFailureLog(ArticlesResponseFormat, writeError)
  }

  /** The usecase calls `getUsers` makes for a parsed path. */
  function Trace(parts: PathParts, token: string, be: Backend): (t: seq<UsecaseCall>)
    ensures |t| <= 2
    ensures t != [] ==> t[0] == GateCall(parts.userID, token)
    ensures forall i :: 0 < i < |t| ==> !t[i].CheckPermissionCall? && t[i].userID == parts.userID
  {
    match Route(parts.item)
    case None => []
    case Some(res) => HandlerTrace(res, parts.userID, token, be)
  }

  /** The calls `getUsers` makes on the response writer for a parsed path. */
  function Writes(parts: PathParts, token: string, be: Backend): (calls: seq<Call>)
    ensures calls != []
    ensures |Chunks(calls)| <= 1
  {
    var calls :=
      match Route(parts.item)
      case None => [WriteHeader(StatusNotFound)]
      case Some(res) => HandlerWrites(res, parts.userID, token, be);
    AtMostOneChunk(calls);
    calls
  }

  /** What `getUsers` logs for a parsed path. */
  function Logs(parts: PathParts, token: string, be: Backend, writeError: Option<string>): seq<LogEntry> {
    match Route(parts.item)
    case None => [Notice(NotFoundFormat, parts.userID, parts.item, parts.err)]
    case Some(res) => HandlerLogs(res, parts.userID, token, be, writeError)
  }

  /** What the client of a new recorder receives. */
  function Response(parts: PathParts, token: string, be: Backend, writeError: Option<string>): WriterState {
    Run(Fresh(writeError.Some?), Writes(parts, token, be))
  }

  /** The delivery object that owns the user routes. */
  class Delivery {
    const usecase: Usecase
    const logger: Logger
    /** `parseUserPath`, whose body is not part of this model: any function of the path. */
    const parseUserPath: string -> PathParts
    /** `getTokenFromRequest`, whose body is not part of this model: any function of the request. */
    const tokenFromRequest: Request -> string

    constructor (usecase: Usecase, logger: Logger, parseUserPath: string -> PathParts, tokenFromRequest: Request -> string)
      ensures this.usecase == usecase && this.logger == logger
      ensures this.parseUserPath == parseUserPath && this.tokenFromRequest == tokenFromRequest
    {
      this.usecase := usecase;
      this.logger := logger;
      this.parseUserPath := parseUserPath;
      this.tokenFromRequest := tokenFromRequest;
    }

    /** `getUsers`: route on the parsed item; an unknown item is answered 404 and logged. */
    method GetUsers(w: Recorder, r: Request)
      modifies w, usecase, logger
      ensures w.calls == old(w.calls) + Writes(parseUserPath(r.path), tokenFromRequest(r), usecase.backend)
      ensures w.Snapshot() == Run(old(w.Snapshot()), Writes(parseUserPath(r.path), tokenFromRequest(r), usecase.backend))
      ensures usecase.calls == old(usecase.calls) + Trace(parseUserPath(r.path), tokenFromRequest(r), usecase.backend)
      ensures logger.entries == old(logger.entries) + Logs(parseUserPath(r.path), tokenFromRequest(r), usecase.backend, w.writeError)
    {
      var parts := parseUserPath(r.path);
      var userID, item, err := parts.userID, parts.item, parts.err;
      match item
      case "information" =>
        GetUserInformation(w, r, userID);
      case "favorites" =>
        GetUserFavorites(w, r, userID);
      case "articles" =>
        GetUserArticles(w, r, userID);
      case _ =>
        logger.Noticef(NotFoundFormat, userID, item, err);
        w.WriteHeader(StatusNotFound);
        RunOne(old(w.Snapshot()), Call.WriteHeader(StatusNotFound));
    }

    /** `getUserInformation`: gate, fetch the profile; a fetch error is a 500 with an error body. */
    method GetUserInformation(w: Recorder, r: Request, userID: string)
      modifies w, usecase, logger
      ensures w.calls == old(w.calls) + HandlerWrites(Information, userID, tokenFromRequest(r), usecase.backend)
      ensures w.Snapshot() == Run(old(w.Snapshot()), HandlerWrites(Information, userID, tokenFromRequest(r), usecase.backend))
      ensures usecase.calls == old(usecase.calls) + HandlerTrace(Information, userID, tokenFromRequest(r), usecase.backend)
      ensures logger.entries == old(logger.entries) + HandlerLogs(Information, userID, tokenFromRequest(r), usecase.backend, w.writeError)
    {
      var token := tokenFromRequest(r);
      var err := usecase.CheckPermission(token, RequiredPermissions, UserAttributes(userID));
      if err.Some? {
        w.WriteHeader(StatusUnauthorized);
        RunOne(old(w.Snapshot()), Call.WriteHeader(StatusUnauthorized));
        return;
      }

      var dataMap, fetchErr := usecase.GetUserInformation(userID);
      if fetchErr.Some? {
        w.WriteHeader(StatusInternalServerError);
        var writeErr := w.Write(ErrorBody(FindUserRecError, fetchErr.value));
        if writeErr.Some? {
          logger.Errorf(InformationErrorResponseFormat, writeErr.value);
        }
        RunTwo(old(w.Snapshot()), Call.WriteHeader(StatusInternalServerError), Call.Write(ErrorBody(FindUserRecError, fetchErr.value)));
        return;
      }

      var writeErr := w.Write(Data(dataMap));
      if writeErr.Some? {
        logger.Errorf(InformationSuccessResponseFormat, writeErr.value);
      }
      RunOne(old(w.Snapshot()), Call.Write(Data(dataMap)));
    }

    /** `getUserFavorites`: gate, fetch the favorites; a fetch error is a bare 400. */
    method GetUserFavorites(w: Recorder, r: Request, userID: string)
      modifies w, usecase, logger
      ensures w.calls == old(w.calls) + HandlerWrites(Favorites, userID, tokenFromRequest(r), usecase.backend)
      ensures w.Snapshot() == Run(old(w.Snapshot()), HandlerWrites(Favorites, userID, tokenFromRequest(r), usecase.backend))
      ensures usecase.calls == old(usecase.calls) + HandlerTrace(Favorites, userID, tokenFromRequest(r), usecase.backend)
      ensures logger.entries == old(logger.entries) + HandlerLogs(Favorites, userID, tokenFromRequest(r), usecase.backend, w.writeError)
    {
      var token := tokenFromRequest(r);
      var err := usecase.CheckPermission(token, RequiredPermissions, UserAttributes(userID));
      if err.Some? {
        w.WriteHeader(StatusUnauthorized);
        RunOne(old(w.Snapshot()), Call.WriteHeader(StatusUnauthorized));
        return;
      }

      var dataItems, fetchErr := usecase.GetUserFavorites(userID);
      if fetchErr.Some? {
        logger.Errorf(FavoritesFetchFormat, fetchErr.value);
        w.WriteHeader(StatusBadRequest);
        RunOne(old(w.Snapshot()), Call.WriteHeader(StatusBadRequest));
        return;
      }

      var _ := w.Write(DataItems(dataItems));
      RunOne(old(w.Snapshot()), Call.Write(DataItems(dataItems)));
    }

    /** `getUserArticles`: gate, fetch the articles; a fetch error is only logged. */
    method GetUserArticles(w: Recorder, r: Request, userID: string)
      modifies w, usecase, logger
      ensures w.calls == old(w.calls) + HandlerWrites(Articles, userID, tokenFromRequest(r), usecase.backend)
      ensures w.Snapshot() == Run(old(w.Snapshot()), HandlerWrites(Articles, userID, tokenFromRequest(r), usecase.backend))
      ensures usecase.calls == old(usecase.calls) + HandlerTrace(Articles, userID, tokenFromRequest(r), usecase.backend)
      ensures logger.entries == old(logger.entries) + HandlerLogs(Articles, userID, tokenFromRequest(r), usecase.backend, w.writeError)
    {
      var token := tokenFromRequest(r);
      var err := usecase.CheckPermission(token, RequiredPermissions, UserAttributes(userID));
      if err.Some? {
        w.WriteHeader(StatusUnauthorized);
        RunOne(old(w.Snapshot()), Call.WriteHeader(StatusUnauthorized));
        return;
      }

      // The status is never set here, so the body write commits 200 even when the fetch failed.
      var dataItems, fetchErr := usecase.GetUserArticles(userID);
      if fetchErr.Some? {
        logger.Errorf(ArticlesFetchFormat, fetchErr.value);
      }

      var writeErr := w.Write(DataItems(dataItems));
      if writeErr.Some? {
        logger.Errorf(ArticlesResponseFormat, writeErr.value);
      }
      RunOne(old(w.Snapshot()), Call.Write(DataItems(dataItems)));
    }
  }

}
