/**
 The collaborators the user routes call but whose code is not part of this
 model: the usecase layer (permission check and the three backend fetches)
 and the logger. Their outcomes are supplied from outside as a `Backend`;
 each object keeps a ghost history of the calls made on it.
 */
module Collaborators {
  import opened Wrappers
  import opened Envelope

  /** `usecase.Permission`; the user routes only ever ask for this one. */
  datatype Permission = ReadUserInformation

  /** A Go `(value, err)` pair: the value is there even when `err` is not nil. */
  datatype Reply<T> = Reply(value: T, err: Option<string>)

  /** What the usecase layer answers, as functions of the arguments it receives. */
  datatype Backend = Backend(
    checkPermission: (string, seq<Permission>, map<string, string>) -> Option<string>,
    information: string -> Reply<Profile>,
    favorites: string -> Reply<Items>,
    articles: string -> Reply<Items>)

  /** A call made on the usecase layer, with its arguments. */
  datatype UsecaseCall =
    | CheckPermissionCall(token: string, permissions: seq<Permission>, attributes: map<string, string>)
    | GetUserInformationCall(userID: string)
    | GetUserFavoritesCall(userID: string)
    | GetUserArticlesCall(userID: string)

  class Usecase {
    const backend: Backend
    ghost var calls: seq<UsecaseCall>

    constructor (backend: Backend)
      ensures this.backend == backend && calls == []
    {
      this.backend := backend;
      calls := [];
    }

    method CheckPermission(token: string, permissions: seq<Permission>, attributes: map<string, string>)
      returns (err: Option<string>)
      modifies this
      ensures err == backend.checkPermission(token, permissions, attributes)
      ensures calls == old(calls) + [CheckPermissionCall(token, permissions, attributes)]
    {
      err := backend.checkPermission(token, permissions, attributes);
      calls := calls + [CheckPermissionCall(token, permissions, attributes)];
    }

    method GetUserInformation(userID: string) returns (profile: Profile, err: Option<string>)
      modifies this
      ensures Reply(profile, err) == backend.information(userID)
      ensures calls == old(calls) + [GetUserInformationCall(userID)]
    {
      var reply := backend.information(userID);
      profile, err := reply.value, reply.err;
      calls := calls + [GetUserInformationCall(userID)];
    }

    method GetUserFavorites(userID: string) returns (items: Items, err: Option<string>)
      modifies this
      ensures Reply(items, err) == backend.favorites(userID)
      ensures calls == old(calls) + [GetUserFavoritesCall(userID)]
    {
      var reply := backend.favorites(userID);
      items, err := reply.value, reply.err;
      calls := calls + [GetUserFavoritesCall(userID)];
    }

    method GetUserArticles(userID: string) returns (items: Items, err: Option<string>)
      modifies this
      ensures Reply(items, err) == backend.articles(userID)
      ensures calls == old(calls) + [GetUserArticlesCall(userID)]
    {
      var reply := backend.articles(userID);
      items, err := reply.value, reply.err;
      calls := calls + [GetUserArticlesCall(userID)];
    }
  }

  /** A log line: its level, its format string and the values formatted into it. */
  datatype LogEntry =
    | Notice(format: string, userID: string, item: string, parseErr: Option<string>)
    | Error(format: string, message: string)

  /** The logger: it has no effect on the response, so it only records what it was asked to log. */
  class Logger {
    ghost var entries: seq<LogEntry>

    constructor ()
      ensures entries == []
    {
      entries := [];
    }

    method Noticef(format: string, userID: string, item: string, err: Option<string>)
      modifies this
      ensures entries == old(entries) + [Notice(format, userID, item, err)]
    {
      entries := entries + [Notice(format, userID, item, err)];
    }

    method Errorf(format: string, err: string)
      modifies this
      ensures entries == old(entries) + [Error(format, err)]
    {
      entries := entries + [Error(format, err)];
    }
  }

}
