/** The request handler: where the HTTP method is found in the gateway
    event, how it is normalised, and how method, caller identity and path
    parameter lead to a status code and a body. */
module Handler {
  import opened Values
  import opened Chats
  import opened Projection
  import opened Store

  /** A method location: None when the key is absent, Some(None) when it
      holds null, Some(Some(s)) when it holds the string s. */
  type MethodField = Option<Option<string>>

  /** `requestContext.http`, as HTTP API payloads carry it. */
  datatype HttpInfo = HttpInfo(methodName: MethodField)

  /** `requestContext.authorizer.jwt`: the verified token's claims. */
  datatype Jwt = Jwt(claims: Option<map<string, string>>)

  /** `requestContext.authorizer`. */
  datatype Authorizer = Authorizer(jwt: Option<Jwt>)

  /** `requestContext`: each field is None when its key is absent. */
  datatype RequestContext = RequestContext(
    httpMethod: MethodField,
    http: Option<HttpInfo>,
    authorizer: Option<Authorizer>)

  /** The parts of the gateway event the handler reads. `pathParameters` is
      None when the key is absent or null. */
  datatype Event = Event(
    httpMethod: MethodField,
    requestContext: Option<RequestContext>,
    pathParameters: Option<map<string, string>>)

  const OK: int := 200
  const BAD_REQUEST: int := 400
  const UNAUTHORIZED: int := 401
  const NOT_FOUND: int := 404
  const METHOD_NOT_ALLOWED: int := 405

  /** Upper-casing of one character, for ASCII `a`-`z` only: every other
      character, including non-ASCII letters, is left as it is. */
  function UpperChar(c: char): char {
    if 'a' <= c <= 'z' then (c as int - 32) as char else c
  }

  /** The method's `.upper()`, for ASCII letters only: every character
      passed through UpperChar, the length unchanged. */
  function ToUpper(s: string): (r: string)
    ensures |r| == |s|
    ensures forall i :: 0 <= i < |s| ==> r[i] == UpperChar(s[i])
  {
    if s == [] then [] else [UpperChar(s[0])] + ToUpper(s[1..])
  }

  /** Upper-casing an upper-cased method changes nothing. */
  lemma ToUpperIdempotent(s: string)
    ensures ToUpper(ToUpper(s)) == ToUpper(s)
  {
  }

  /** The three places a method can be found, in order of precedence:
      `httpMethod`, `requestContext.httpMethod`, `requestContext.http.method`. */
  function MethodLocations(e: Event): seq<MethodField> {
    [ e.httpMethod,
      if e.requestContext.Some? then e.requestContext.value.httpMethod else None,
      if e.requestContext.Some? && e.requestContext.value.http.Some?
      then e.requestContext.value.http.value.methodName else None ]
  }

  /** The method as found, before upper-casing: the value of the first
      location whose key is present, even when that value is null or empty. */
  function RawMethod(e: Event): (r: MethodField)
    ensures r.Some? ==> exists i :: 0 <= i < 3 && MethodLocations(e)[i] == r
                           && forall j :: 0 <= j < i ==> MethodLocations(e)[j].None?
    ensures r.None? <==> forall i :: 0 <= i < 3 ==> MethodLocations(e)[i].None?
  {
    var locations := MethodLocations(e);
    if e.httpMethod.Some? then
      assert locations[0] == e.httpMethod;
      e.httpMethod
    else if e.requestContext.Some? && e.requestContext.value.httpMethod.Some? then
      assert locations[1] == e.requestContext.value.httpMethod;
      e.requestContext.value.httpMethod
    else if e.requestContext.Some? && e.requestContext.value.http.Some?
         && e.requestContext.value.http.value.methodName.Some? then
      assert locations[2] == e.requestContext.value.http.value.methodName;
      e.requestContext.value.http.value.methodName
    else
      None
  }

  /** The method the handler dispatches on: the raw method upper-cased, or
      None when none was found or it is null or empty. */
  function ResolvedMethod(e: Event): (r: Option<string>)
    ensures r.None? <==> RawMethod(e).None? || RawMethod(e).value.None? || RawMethod(e).value.value == ""
    ensures r.Some? ==> r.value != "" && forall i :: 0 <= i < |r.value| ==> !('a' <= r.value[i] <= 'z')
    ensures r.Some? ==> RawMethod(e).Some? && RawMethod(e).value.Some? && |r.value| == |RawMethod(e).value.value|
    ensures r.Some? ==> r.value == ToUpper(RawMethod(e).value.value)
  {
    match RawMethod(e)
    case Some(Some(m)) => if m != "" then Some(ToUpper(m)) else None
    case _ => None
  }

  /** `requestContext.authorizer.jwt.claims.sub`, or None when any key on
      that path is absent (the KeyError or TypeError the handler answers
      with 401). */
  function SubjectOf(e: Event): (r: Option<string>)
    ensures r.Some? <==> e.requestContext.Some? && e.requestContext.value.authorizer.Some?
                         && e.requestContext.value.authorizer.value.jwt.Some?
                         && e.requestContext.value.authorizer.value.jwt.value.claims.Some?
                         && "sub" in e.requestContext.value.authorizer.value.jwt.value.claims.value
    ensures r.Some? ==> r.value == e.requestContext.value.authorizer.value.jwt.value.claims.value["sub"]
  {
    if e.requestContext.Some? && e.requestContext.value.authorizer.Some?
       && e.requestContext.value.authorizer.value.jwt.Some?
       && e.requestContext.value.authorizer.value.jwt.value.claims.Some?
       && "sub" in e.requestContext.value.authorizer.value.jwt.value.claims.value
    then Some(e.requestContext.value.authorizer.value.jwt.value.claims.value["sub"])
    else None
  }

  /** `pathParameters.chatId`, or None when the parameters or the key are
      absent (the KeyError or TypeError the handler answers with 400). */
  function ChatIdOf(e: Event): (r: Option<string>)
    ensures r.Some? <==> e.pathParameters.Some? && "chatId" in e.pathParameters.value
    ensures r.Some? ==> r.value == e.pathParameters.value["chatId"]
  {
    if e.pathParameters.Some? && "chatId" in e.pathParameters.value
    then Some(e.pathParameters.value["chatId"])
    else None
  }

  /** Where the handler's early returns send an event. */
  datatype Route =
    | Preflight
    | MissingMethod
    | Unauthenticated
    | MissingChatId
    | Fetch(userId: string, chatId: string)
    | Remove(userId: string, chatId: string)
    | Unsupported(methodName: string)

  /** The handler's decision before it touches storage, in the order of its
      checks: OPTIONS, a missing method, a missing subject, then the method. */
  function RouteOf(e: Event): (r: Route)
    // a preflight needs neither a subject nor a chat id
    ensures r.Preflight? <==> ResolvedMethod(e) == Some("OPTIONS")
    ensures r.MissingMethod? <==> ResolvedMethod(e).None?
    ensures r.Unauthenticated? ==> SubjectOf(e).None?
    // the path parameter is looked at only once the caller is known
    ensures r.MissingChatId? ==> SubjectOf(e).Some? && ChatIdOf(e).None?
                                 && ResolvedMethod(e) in {Some("GET"), Some("DELETE")}
    // storage is reached only with a subject and a chat id
    ensures (r.Fetch? || r.Remove?) ==> SubjectOf(e) == Some(r.userId) && ChatIdOf(e) == Some(r.chatId)
    ensures r.Fetch? ==> ResolvedMethod(e) == Some("GET")
    ensures r.Remove? ==> ResolvedMethod(e) == Some("DELETE")
    ensures r.Unsupported? ==> SubjectOf(e).Some? && ResolvedMethod(e) == Some(r.methodName)
                               && r.methodName !in {"OPTIONS", "GET", "DELETE"}
  {
    var m := ResolvedMethod(e);
    if m == Some("OPTIONS") then Preflight
    else if m.None? then MissingMethod
    else if SubjectOf(e).None? then Unauthenticated
    else if m.value == "GET" || m.value == "DELETE" then
      if ChatIdOf(e).None? then MissingChatId
      else if m.value == "GET" then Fetch(SubjectOf(e).value, ChatIdOf(e).value)
      else Remove(SubjectOf(e).value, ChatIdOf(e).value)
    else Unsupported(m.value)
  }

  /** The status code the handler answers an event with, given the table
      as it is when the request arrives. */
  function ExpectedStatus(e: Event, t: Table): (s: int)
    ensures s in {OK, BAD_REQUEST, UNAUTHORIZED, NOT_FOUND, METHOD_NOT_ALLOWED}
    // a preflight is answered before any check of the caller
    ensures ResolvedMethod(e) == Some("OPTIONS") ==> s == OK
    ensures ResolvedMethod(e).None? ==> s == BAD_REQUEST
    ensures s == UNAUTHORIZED <==>
              ResolvedMethod(e).Some? && ResolvedMethod(e) != Some("OPTIONS") && SubjectOf(e).None?
    ensures s == METHOD_NOT_ALLOWED <==>
              ResolvedMethod(e).Some? && ResolvedMethod(e).value !in {"OPTIONS", "GET", "DELETE"}
              && SubjectOf(e).Some?
    ensures (ResolvedMethod(e) in {Some("GET"), Some("DELETE")} && SubjectOf(e).Some? && ChatIdOf(e).None?)
              ==> s == BAD_REQUEST
    ensures ResolvedMethod(e) == Some("GET") && SubjectOf(e).Some? && ChatIdOf(e).Some? ==>
              s == (if TargetMessages(ChatsOf(t, SubjectOf(e).value), ChatIdOf(e).value) != [] then OK else NOT_FOUND)
    ensures ResolvedMethod(e) == Some("DELETE") && SubjectOf(e).Some? && ChatIdOf(e).Some? ==>
              s == (if HasChat(ChatsOf(t, SubjectOf(e).value), ChatIdOf(e).value) then OK else NOT_FOUND)
  {
    match RouteOf(e)
    case Preflight => OK
    case MissingMethod => BAD_REQUEST
    case Unauthenticated => UNAUTHORIZED
    case MissingChatId => BAD_REQUEST
    case Fetch(u, c) => if TargetMessages(ChatsOf(t, u), c) != [] then OK else NOT_FOUND
    case Remove(u, c) => if HasChat(ChatsOf(t, u), c) then OK else NOT_FOUND
    case Unsupported(_) => METHOD_NOT_ALLOWED
  }

  /** A present but null or empty top-level `httpMethod` hides the method in
      the request context: the request is answered 400. */
  lemma EmptyTopLevelMethodShadows(e: Event, t: Table)
    requires e.httpMethod == Some(None) || e.httpMethod == Some(Some(""))
    ensures ExpectedStatus(e, t) == BAD_REQUEST
  {
  }

  /** The method is matched without regard to case: two events alike in
      caller and chat id, whose winning method locations hold `m` and its
      upper-cased form, whichever location that is, get the same answer. */
  lemma MethodCaseInsensitive(e: Event, e': Event, t: Table, m: string)
    requires RawMethod(e) == Some(Some(m)) && RawMethod(e') == Some(Some(ToUpper(m)))
    requires SubjectOf(e) == SubjectOf(e') && ChatIdOf(e) == ChatIdOf(e')
    ensures ExpectedStatus(e', t) == ExpectedStatus(e, t)
  {
    ToUpperIdempotent(m);
  }

  /** The JSON body of a response. */
  datatype Body =
    | NoBody
    | ErrorBody(message: string)
    | MessagesBody(messages: seq<Dict>)
    | DeletedBody

  datatype Response = Response(statusCode: int, body: Body)

  /** The `error` text of each failing answer: non-empty for every route
      but the preflight, and naming the refused method for a 405. */
  function ErrorText(r: Route): (text: string)
    ensures text == "" <==> r.Preflight?
    ensures r.Unsupported? ==> |text| > 7 + |r.methodName| && text[7..7 + |r.methodName|] == r.methodName
  {
    match r
    case Preflight => ""
    case MissingMethod => "HTTP method not found in request"
    case Unauthenticated => "Authentication failed"
    case MissingChatId => "Chat ID not found in path parameters"
    case Fetch(_, _) => "Chat not found"
    case Remove(_, _) => "Chat not found or already deleted"
    case Unsupported(m) => "Method " + m + " not allowed"
  }

  /** `lambda_handler`: answers one event, reading the table for GET and
      deleting from it for DELETE. */
  method Handle(table: ChatTable, e: Event) returns (resp: Response)
    modifies table
    ensures resp.statusCode == ExpectedStatus(e, old(table.items))
    ensures RouteOf(e).Preflight? ==> resp.body == NoBody
    ensures resp.statusCode != OK ==> resp.body == ErrorBody(ErrorText(RouteOf(e)))
    ensures RouteOf(e).Fetch? && resp.statusCode == OK ==>
              resp.body.MessagesBody?
              && IsMessagesView(TargetMessages(ChatsOf(old(table.items), RouteOf(e).userId), RouteOf(e).chatId),
                                resp.body.messages)
    ensures RouteOf(e).Remove? && resp.statusCode == OK ==> resp.body == DeletedBody
    // only a DELETE writes, and only what delete_chat writes
    ensures !RouteOf(e).Remove? ==> table.items == old(table.items)
    ensures RouteOf(e).Remove? ==>
              table.items == AfterDelete(old(table.items), RouteOf(e).userId, RouteOf(e).chatId)
  {
    var route := RouteOf(e);
    match route {
      case Preflight =>
        resp := Response(OK, NoBody);
      case MissingMethod =>
        resp := Response(BAD_REQUEST, ErrorBody(ErrorText(route)));
      case Unauthenticated =>
        resp := Response(UNAUTHORIZED, ErrorBody(ErrorText(route)));
      case MissingChatId =>
        resp := Response(BAD_REQUEST, ErrorBody(ErrorText(route)));
      case Fetch(u, c) =>
        var messages := table.GetChatMessages(u, c);
        if messages.None? {
          resp := Response(NOT_FOUND, ErrorBody(ErrorText(route)));
        } else {
          resp := Response(OK, MessagesBody(messages.value));
        }
      case Remove(u, c) =>
        var success := table.DeleteChat(u, c);
        if !success {
          resp := Response(NOT_FOUND, ErrorBody(ErrorText(route)));
        } else {
          resp := Response(OK, DeletedBody);
        }
      case Unsupported(_) =>
        resp := Response(METHOD_NOT_ALLOWED, ErrorBody(ErrorText(route)));
    }
  }
}
