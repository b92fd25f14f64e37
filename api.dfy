/** The browser client's HTTP layer (frontend/src/services/apiService.js):
    the auth gate, the headers and body of each request, and how a reply
    becomes either the parsed body or a thrown error. `fetch` and
    `response.json()` are not run: the reply to a request is an input, and
    the request the client would send is an output (`None` when it throws
    before fetching). */
module Api {
  import opened Wrappers
  import opened Js

  const DefaultBaseUrl := "http://localhost:8000"
  const TokenKey := "token"
  const MissingToken := "Authentication token not found."
  const RequestFallback := "Something went wrong with the API request."
  const LoginFallback := "Something went wrong with the login request."
  const UploadFallback := "Document upload failed."
  const JsonType := "application/json"
  const FormType := "application/x-www-form-urlencoded"

  /** `API_BASE_URL`: the configured `VITE_API_BASE_URL` when it is a
      non-empty string, else the local default. */
  function BaseUrl(configured: Option<string>): (r: string)
    ensures configured.Some? && configured.value != "" ==> r == configured.value
    ensures (configured.None? || configured.value == "") ==> r == DefaultBaseUrl
  {
    if configured.Some? && configured.value != "" then configured.value else DefaultBaseUrl
  }

  datatype Method = GET | POST | DELETE

  /** A file picked in the browser; only its name is observable here. */
  datatype FileHandle = FileHandle(name: string)

  /** The `body` of a fetch: none (`null`), `JSON.stringify(data)`, a
      URL-encoded form, or multipart form data. */
  datatype Body =
    | NoBody
    | JsonText(data: Value)
    | UrlEncoded(fields: seq<(string, string)>)
    | Multipart(parts: seq<(string, FileHandle)>)

  datatype HttpRequest = HttpRequest(url: string, verb: Method, headers: map<string, string>, body: Body)

  /** What `response.json()` gives: a parsed value, or the message of the
      error it rejects with. */
  datatype Payload = Parsed(json: Value) | Unparsable(error: string)

  /** What `fetch` gives: a response with its `ok` flag and body, or the
      message of the error it rejects with. */
  datatype Reply = Response(ok: bool, payload: Payload) | NetworkError(error: string)

  /** The stored token as `localStorage.getItem('token')` gives it, when it is
      truthy: the gate of `request` and `uploadDocument`. */
  predicate HasToken(items: map<string, string>)
    ensures HasToken(items) <==> TokenKey in items && Truthy(Str(items[TokenKey]))
  {
    TokenKey in items && items[TokenKey] != ""
  }

  function BearerHeader(items: map<string, string>): string
    requires HasToken(items)
  {
    "Bearer " + items[TokenKey]
  }

  /** How the common `try` block ends for a request already sent: the parsed
      body of an OK response; otherwise an error carrying the body's truthy
      `detail` (converted to a string) or else `fallback`. A network failure
      or an unparsable body re-throws its own error, and reading `detail` of
      a `null` body throws a TypeError. */
  function Settle(reply: Reply, fallback: string): (r: Outcome)
    ensures r.Returned? <==> reply.Response? && reply.ok && reply.payload.Parsed?
    ensures r.Returned? ==> r.value == reply.payload.json
    ensures reply.NetworkError? ==> r == Threw(reply.error)
    ensures reply.Response? && reply.payload.Unparsable? ==> r == Threw(reply.payload.error)
    ensures reply.Response? && !reply.ok && reply.payload.Parsed? && !Nullish(reply.payload.json) ==>
      var detail := Property(reply.payload.json, "detail");
      r == Threw(if Truthy(detail) then ToJsString(detail) else fallback)
  {
    match reply
    case NetworkError(e) => Threw(e)
    case Response(ok, payload) =>
      match payload
      case Unparsable(e) => Threw(e)
      case Parsed(body) =>
        if ok then Returned(body)
        else
          match Get(body, "detail")
          case Threw(e) => Threw(e)
          case Returned(detail) => Threw(if Truthy(detail) then ToJsString(detail) else fallback)
  }

  /** A non-OK reply whose body carries no truthy `detail` is reported with
      the fallback message, whatever the status; one with a string `detail`
      is reported with exactly that string. */
  lemma ErrorMessageChoice(body: map<string, Value>, fallback: string)
    ensures "detail" !in body ==> Settle(Response(false, Parsed(Obj(body))), fallback) == Threw(fallback)
    ensures "detail" in body && body["detail"].Str? && body["detail"].s != "" ==>
      Settle(Response(false, Parsed(Obj(body))), fallback) == Threw(body["detail"].s)
  {
  }

  /** `apiService.request`. */
  method Request(store: LocalStorage, baseUrl: string, endpoint: string, verb: Method, data: Value,
                 authRequired: bool, reply: Reply)
    returns (sent: Option<HttpRequest>, outcome: Outcome)
    ensures authRequired && !HasToken(store.items) ==> sent.None? && outcome == Threw(MissingToken)
    ensures !authRequired || HasToken(store.items) ==> sent.Some? && outcome == Settle(reply, RequestFallback)
    ensures sent.Some? ==> sent.value.url == baseUrl + endpoint && sent.value.verb == verb
    ensures sent.Some? ==> sent.value.body == (if Truthy(data) then JsonText(data) else NoBody)
    ensures sent.Some? && authRequired ==>
      sent.value.headers == map["Content-Type" := JsonType, "Authorization" := BearerHeader(store.items)]
    ensures sent.Some? && !authRequired ==> sent.value.headers == map["Content-Type" := JsonType]
  {
    var headers := map["Content-Type" := JsonType];
    if authRequired {
      var token := store.GetItem(TokenKey);
      if token.Some? && token.value != "" {
        headers := headers["Authorization" := "Bearer " + token.value];
      } else {
        return None, Threw(MissingToken);
      }
    }
    var body := if Truthy(data) then JsonText(data) else NoBody;
    sent := Some(HttpRequest(baseUrl + endpoint, verb, headers, body));
    outcome := Settle(reply, RequestFallback);
  }

  /** What `apiService.login` returns or throws, and whether it stores a
      token: only after an OK reply whose parsed body is not `null` and has a
      truthy `access_token`. */
  function LoginOutcome(reply: Reply): (r: Outcome)
    ensures r.Returned? ==> reply.Response? && reply.ok && reply.payload.Parsed?
    ensures r.Returned? ==> r.value == reply.payload.json && !Nullish(r.value)
    ensures Settle(reply, LoginFallback).Threw? ==> r == Settle(reply, LoginFallback)
    ensures Settle(reply, LoginFallback).Returned? && !Nullish(reply.payload.json) ==> r == Returned(reply.payload.json)
    ensures Settle(reply, LoginFallback).Returned? && Nullish(reply.payload.json) ==> r.Threw?
  {
    match Settle(reply, LoginFallback)
    case Threw(e) => Threw(e)
    case Returned(body) =>
      match Get(body, "access_token")
      case Threw(e) => Threw(e)
      case Returned(_) => Returned(body)
  }

  /** The token `apiService.login` writes to storage, if any. */
  function StoredToken(reply: Reply): (r: Option<string>)
    ensures r.Some? ==> LoginOutcome(reply).Returned?
    ensures r.Some? <==> LoginOutcome(reply).Returned? && Truthy(Property(LoginOutcome(reply).value, "access_token"))
    ensures r.Some? ==> r.value == ToJsString(Property(LoginOutcome(reply).value, "access_token"))
  {
    match LoginOutcome(reply)
    case Threw(_) => None
    case Returned(body) =>
      var token := Property(body, "access_token");
      if Truthy(token) then Some(ToJsString(token)) else None
  }

  /** `apiService.login`: a form POST to `/auth/login`, never gated. */
  method Login(store: LocalStorage, baseUrl: string, email: string, password: string, reply: Reply)
    returns (sent: HttpRequest, outcome: Outcome)
    modifies store
    ensures sent == HttpRequest(baseUrl + "/auth/login", POST, map["Content-Type" := FormType],
                                UrlEncoded([("username", email), ("password", password)]))
    ensures outcome == LoginOutcome(reply)
    ensures StoredToken(reply).None? ==> store.items == old(store.items)
    ensures StoredToken(reply).Some? ==> store.items == old(store.items)[TokenKey := StoredToken(reply).value]
  {
    var form := [("username", email), ("password", password)];
    var headers := map["Content-Type" := FormType];
    sent := HttpRequest(baseUrl + "/auth/login", POST, headers, UrlEncoded(form));
    var settled := Settle(reply, LoginFallback);
    if settled.Threw? {
      return sent, settled;
    }
    var responseData := settled.value;
    var accessToken := Get(responseData, "access_token");
    if accessToken.Threw? {
      return sent, accessToken;
    }
    if Truthy(accessToken.value) {
      store.SetItem(TokenKey, ToJsString(accessToken.value));
    }
    outcome := Returned(responseData);
  }

  /** What `apiService.uploadDocument` returns or throws. */
  function UploadOutcome(items: map<string, string>, reply: Reply): (r: Outcome)
    ensures r.Returned? ==> HasToken(items) && Settle(reply, UploadFallback) == r
    ensures !HasToken(items) ==> r == Threw(MissingToken)
    ensures HasToken(items) ==> r == Settle(reply, UploadFallback)
  {
    if !HasToken(items) then Threw(MissingToken) else Settle(reply, UploadFallback)
  }

  /** `apiService.uploadDocument`: a multipart POST with the bearer header as
      its only header, gated like `request`. */
  method UploadDocument(store: LocalStorage, baseUrl: string, file: FileHandle, reply: Reply)
    returns (sent: Option<HttpRequest>, outcome: Outcome)
    ensures !HasToken(store.items) ==> sent.None?
    ensures HasToken(store.items) ==>
      sent == Some(HttpRequest(baseUrl + "/documents/upload", POST,
                               map["Authorization" := BearerHeader(store.items)],
                               Multipart([("file", file)])))
    ensures outcome == UploadOutcome(store.items, reply)
  {
    var parts := [("file", file)];
    var headers: map<string, string> := map[];
    var token := store.GetItem(TokenKey);
    if token.Some? && token.value != "" {
      headers := headers["Authorization" := "Bearer " + token.value];
    } else {
      return None, Threw(MissingToken);
    }
    sent := Some(HttpRequest(baseUrl + "/documents/upload", POST, headers, Multipart(parts)));
    outcome := Settle(reply, UploadFallback);
  }

  /** The endpoint wrappers that delegate to `request`. */
  datatype Call =
    | Signup(email: string, password: string)
    | GetDocuments
    | GetDocument(documentId: Value)
    | DeleteDocument(documentId: Value)
    | SummarizeDocument(documentId: Value)
    | GenerateFlashcards(documentId: Value)

  /** The arguments each wrapper passes to `request`: endpoint, method, data
      and whether the call is gated. A document id is interpolated with
      `String(id)`. */
  function Route(call: Call): (r: (string, Method, Value, bool))
    ensures r.3 <==> !call.Signup?
    ensures !call.Signup? ==> r.2 == Null
    ensures call.Signup? ==> r.2 == Obj(map["email" := Str(call.email), "password" := Str(call.password)])
  {
    match call
    case Signup(email, password) =>
      ("/auth/signup", POST, Obj(map["email" := Str(email), "password" := Str(password)]), false)
    case GetDocuments => ("/documents/", GET, Null, true)
    case GetDocument(id) => ("/documents/" + ToJsString(id), GET, Null, true)
    case DeleteDocument(id) => ("/documents/" + ToJsString(id), DELETE, Null, true)
    case SummarizeDocument(id) => ("/ai/summarize/" + ToJsString(id), POST, Null, true)
    case GenerateFlashcards(id) => ("/ai/generate-flashcards/" + ToJsString(id), POST, Null, true)
  }

  /** What an endpoint wrapper returns or throws: the gate's error when the
      call is gated and no token is stored, else the settled reply. */
  function CallOutcome(items: map<string, string>, call: Call, reply: Reply): (r: Outcome)
    ensures r.Returned? ==> (call.Signup? || HasToken(items)) && Settle(reply, RequestFallback) == r
    ensures !call.Signup? && !HasToken(items) ==> r == Threw(MissingToken)
    ensures call.Signup? || HasToken(items) ==> r == Settle(reply, RequestFallback)
  {
    if !call.Signup? && !HasToken(items) then Threw(MissingToken) else Settle(reply, RequestFallback)
  }

  /** One endpoint wrapper: `request` with the wrapper's arguments. */
  method Invoke(store: LocalStorage, baseUrl: string, call: Call, reply: Reply)
    returns (sent: Option<HttpRequest>, outcome: Outcome)
    ensures sent.None? <==> !call.Signup? && !HasToken(store.items)
    ensures outcome == CallOutcome(store.items, call, reply)
    ensures sent.Some? ==> sent.value.url == baseUrl + Route(call).0 && sent.value.verb == Route(call).1
    ensures sent.Some? && call.Signup? ==>
      sent.value.headers == map["Content-Type" := JsonType]
      && sent.value.body == JsonText(Obj(map["email" := Str(call.email), "password" := Str(call.password)]))
    ensures sent.Some? && !call.Signup? ==>
      sent.value.headers == map["Content-Type" := JsonType, "Authorization" := BearerHeader(store.items)]
      && sent.value.body == NoBody
  {
    var (endpoint, verb, data, authRequired) := Route(call);
    sent, outcome := Request(store, baseUrl, endpoint, verb, data, authRequired, reply);
  }
}
