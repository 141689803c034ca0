# Ptt-backend user routes — a verified model

This project models the `/users/{id}/{item}` routes of the Ptt-backend HTTP
delivery layer (`internal/delivery/http/route_users.go`).

- `getUsers` takes the user id and item from the path parser. It sends the
  items `information`, `favorites` and `articles` to their handlers. Any other
  item gets a 404 and a log notice.
- Each handler follows the same steps. It reads the access token. It asks the
  usecase layer's `CheckPermission` for the single permission
  `PermissionReadUserInformation`, scoped to `{"user_id": userID}`. It answers
  401 on any error. Otherwise it calls its backend fetch and maps the result
  to a status and a JSON envelope.
- The three handlers map a fetch failure differently. `information` answers
  500 with `{"error": "find_userrec_error", "error_description": …}`.
  `favorites` answers a bare 400. `articles` logs the error and still
  answers 200, because it never sets a status.

Files and modules:

- `wrappers.dfy` (`Wrappers`): `Option`, for Go's nil-able errors.
- `envelope.dfy` (`Envelope`): the JSON envelopes as a datatype `Body`, with
  `Data`, `DataItems` and `ErrorBody`. `Items` tells a nil slice (`null`)
  apart from a list.
- `writer.dfy` (`Writer`): the Go response-writer rules the handlers depend
  on. `Step` and `Run` are pure functions: the first `WriteHeader` wins, a
  `Write` with no header commits 200, and a failed `Write` delivers nothing.
  `Recorder` is the writer object that the handlers update in place. Its
  methods are proved to follow `Step`, and it keeps a ghost history of the
  calls made on it.
- `collaborators.dfy` (`Collaborators`): the usecase layer and the logger,
  whose code is not part of this model. `Backend` supplies their answers as
  functions of their arguments. `Usecase` and `Logger` record every call in a
  ghost history.
- `route_users.dfy` (`RouteUsers`): the routes. The functions `Writes`,
  `Trace` and `Logs` give, for a parsed path, a token and the backend's
  answers, the exact calls on the writer, on the usecase layer and on the
  logger. `Response` is what a new recorder shows afterwards. The `Delivery`
  class holds `GetUsers` and the three handlers as imperative methods, with
  the same branches and early returns as the Go code. Each is proved to make
  exactly those calls.
- `route_users_properties.dfy` (`RouteUsersProperties`): the properties the
  routes promise their clients, proved over those functions for all inputs.

Collaborators, the path parser (`parseUserPath`) and token extraction
(`getTokenFromRequest`) are not part of this model. The parser and the token
function are fields of `Delivery` of function type, so nothing is assumed
about them. The write error of a broken connection is a constructor
parameter of `Recorder`.

Points where the code decides and the model follows it:

- `getUsers` switches on the item alone and only logs the parser's error
  (route_users.go:12-21). So a parse error gives 404 only when the parser
  also returns an unrecognised item. `GetUsers` and `Writes` dispatch on the
  item, and `Logs` carries the error into the notice.
- The information handler forwards whatever profile the backend returns
  (route_users.go:41-60). The test at route_users_test.go:42 expects
  `user_id == "id"`, the token's user, while requesting `SYSOP`, so the
  `user_id` in the body is the backend's choice, not the requested id.
  `InformationResponse` states that forwarding.
- The articles handler logs a failed body write under the label
  "getUserFavorites success response err". The favorites handler does not
  check its body write at all. Both are kept as written.
- The inconsistent failure statuses (500, 400, swallowed 200) are kept as
  written. Nothing is unified.

## Model

| member | source | states |
|---|---|---|
| `RouteUsers.Delivery.GetUsers` | internal/delivery/http/route_users.go:11-24 | the writer receives exactly `Writes`, the usecase layer exactly `Trace` and the logger exactly `Logs` for the parsed path. An unknown item gets `WriteHeader(404)` and a notice that carries the id, the item and the parse error |
| `RouteUsers.Delivery.GetUserInformation` | internal/delivery/http/route_users.go:26-66 | gate first, then the profile fetch only if allowed. 401, or 500 plus an error body, or a data body. A failed body write is only logged, and the new writer state is `Run` of the old one |
| `RouteUsers.Delivery.GetUserFavorites` | internal/delivery/http/route_users.go:68-98 | gate first, then the favorites fetch only if allowed. 401, or a logged fetch error and a bare 400, or an items body. The body write's error is ignored |
| `RouteUsers.Delivery.GetUserArticles` | internal/delivery/http/route_users.go:100-132 | gate first, then the articles fetch only if allowed. 401, or else one items body write whatever the fetch returned. A fetch error and a write error are each only logged |
| `RouteUsers.Route` | internal/delivery/http/route_users.go:13-20 | an item is routed to a handler if and only if it is one of information, favorites or articles |
| `RouteUsers.Trace` | internal/delivery/http/route_users.go:12-33 | at most two usecase calls. The first is the permission gate for the parsed user id, and no later call is a second permission check or concerns another user |
| `RouteUsers.Writes` | internal/delivery/http/route_users.go:11-24 | every request makes at least one writer call, so a status is always committed, and at most one body write |
| `Writer.Run` | internal/delivery/http/route_users.go:114-131 | a run of writer calls commits the status of its first call, or 200 if that call is a `Write`, and never changes an already committed status. The body is exactly the chunks written, or nothing on a broken connection |
| `Writer.RunAppend` | internal/delivery/http/route_users.go:44-50 | running two call sequences one after the other is the same as running their concatenation, so the effect of a handler's calls composes with whatever was written before them |
| `Writer.CommittedStatusIsFinal` | internal/delivery/http/route_users.go:44-53 | once one writer call has been made, no later calls change the status or un-commit the header |
| `Writer.Recorder.WriteHeader` | internal/delivery/http/route_users.go:35-39 | the recorder's new state is `Step` of the old one (only a first call sets the status), and the call is appended to its history |
| `Writer.Recorder.Write` | internal/delivery/http/route_users.go:62-65 | commits 200 if no header was written, appends the chunk unless the connection is broken, returns the connection's error, and records the call |
| `RouteUsersProperties.NotFoundIffUnknownItem` | internal/delivery/http/route_users.go:13-23 | status 404 if and only if the item is not one of information, favorites or articles (the empty item included). Then the body is empty and no permission check or fetch happens |
| `RouteUsersProperties.GateComesFirst` | internal/delivery/http/route_users.go:12-33 | for a recognised item, the first usecase call is `CheckPermission(token, [ReadUserInformation], {"user_id": userID})` with the parsed id unchanged. After it comes a second call exactly when the check returns no error, and that call is the fetch of that item's resource for the same user, never a second permission check |
| `RouteUsersProperties.UnauthorizedIffDenied` | internal/delivery/http/route_users.go:35-39 | status 401 if and only if the item is recognised and the permission check returns an error. Then the body is empty and the permission check is the only usecase call |
| `RouteUsersProperties.InformationResponse` | internal/delivery/http/route_users.go:41-65 | once the gate passes, a fetch error gives 500 and `ErrorBody("find_userrec_error", message)`. Success gives 200 and `Data(profile)`, whose "user_id" is the backend's |
| `RouteUsersProperties.FavoritesResponse` | internal/delivery/http/route_users.go:82-97 | once the gate passes, a fetch error gives 400 with an empty body. Success gives 200 and `DataItems(list)` in the backend's order, so the first item is the backend's first record |
| `RouteUsersProperties.ArticlesAlwaysOk` | internal/delivery/http/route_users.go:114-128 | once the gate passes, the status is 200 whether or not the fetch fails. The body is `DataItems` of whatever the backend returned, possibly nil, so "data" is always present |
| `RouteUsersProperties.WriteFailureKeepsStatus` | internal/delivery/http/route_users.go:50-53 | with a failing connection the status is the same as with a healthy one and no body arrives. No path writes the body more than once |
| `RouteUsersProperties.StatusIsKnown` | internal/delivery/http/route_users.go:20-23 | every answer's status is one of 200, 400, 401, 404 or 500 |
| `RouteUsersProperties.PichuPaths` | internal/delivery/http/route_users_test.go:56-72 | for any parser meeting the parser tests' expectations, `/v1/users/Pichu/information` is gated for user "Pichu". `/v1/users/Pichu` and `/v1/users/Pichu/` both get 404 with no usecase call |
| `RouteUsersProperties.ServeRequest` | internal/delivery/http/route_users_test.go:24-27 | serving a request on a new recorder yields exactly `Response` of the parsed path, the token and the backend's answers. That is a function of the request and those answers alone, so a repeated request gets the same answer |

## Left out

- `parseUserPath` and `routeUsers` are not part of this model. The parser is an arbitrary function field of `Delivery`, and its test cases appear only as the hypothesis `PassesParseUserPathTests`.
- `getTokenFromRequest` is not part of this model. It is an arbitrary function of the request.
- `CheckPermission`, `GetUserInformation`, `GetUserFavorites` and `GetUserArticles` are not part of this model. Their answers are supplied by `Backend`, and `context.Background()` is dropped.
- JSON serialisation (`json.MarshalIndent`, indentation, bytes) is not modelled. Bodies are `Body` values.
- The ignored `json.MarshalIndent` error of the response maps (route_users.go:49, 60, 95, 126) is not modelled. Those maps hold `interface{}` values from the usecase layer, and a value JSON cannot encode makes the handler write nil bytes, giving 200 with an empty body. The model excludes that case because its values are strings.
- Profile field values and record field values (`Envelope.Profile`, `Envelope.Record`, Go `interface{}`) are modelled as strings. A nil profile map is not told apart from an empty one.
- `httptest.ResponseRecorder` details outside status and body are not modelled: headers, `Flush`, and the panic on an invalid status code.
- A failing `Write` is all-or-nothing in the model. A partial delivery is not modelled.
- Logging is reduced to a ghost history of format strings and arguments. Formatting and output are not modelled.
- Concurrency between requests is not modelled. The routes share no mutable state.
