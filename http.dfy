/** The request and response vocabulary shared by the middleware, the authorization gate and
  * the handlers: JSON values, query-string values, replies and the request object. */
module Http {
  import Errors
  import Entities

  /** A JSON value handed to `res.json`. Numbers are integers in this model. */
  datatype Json =
    | JUndefined
    | JNull
    | JBool(b: bool)
    | JNumber(n: int)
    | JString(s: string)
    | JArray(items: seq<Json>)
    | JObject(fields: map<string, Json>)

  /** JavaScript truthiness: undefined, null, false, 0 and "" are falsy; arrays and objects,
    * even empty ones, are truthy. */
  predicate JsonTruthy(j: Json)
  {
    match j
    case JUndefined => false
    case JNull => false
    case JBool(b) => b
    case JNumber(n) => n != 0
    case JString(s) => s != ""
    case JArray(_) => true
    case JObject(_) => true
  }

  /** A value of the parsed query string: missing, one string, a repeated key (an array of
    * strings) or a bracketed key (an object). */
  datatype QueryValue = Absent | Single(s: string) | Repeated(items: seq<string>) | Nested

  function QueryLookup(q: map<string, QueryValue>, key: string): QueryValue
  {
    if key in q then q[key] else Absent
  }

  /** The bodies the handlers send. `CurrentUser` is `classToPlain(req.user)`. */
  datatype Body =
    | Empty
    | ErrorBody(error: Errors.ErrorMessage)
    | StandardErrorBody(standard: Errors.StandardError)
    | CurrentUser
    | GuestView(created: Entities.UserRow)
    | LoginView(token: string, user: Entities.Loaded)

  /** What the client receives; `NoReply` when the handler's promise rejects unhandled and
    * the request is never answered. */
  datatype Reply = Reply(status: int, body: Body) | NoReply

  function BadRequest(kind: string, message: string, errors: seq<Errors.FieldError>): Reply
  {
    Reply(400, ErrorBody(Errors.ErrorMessage(kind, message, errors)))
  }

  /** The express request: its method, URL pieces and the two properties the core assigns,
    * `query` (the limit normaliser) and `user` (the authorization gate). */
  class Request {
    const verb: string
    const url: string
    const path: string
    const baseUrl: string
    var query: map<string, QueryValue>
    var user: Entities.User?

    constructor (verb: string, url: string, path: string, baseUrl: string, query: map<string, QueryValue>)
      ensures this.verb == verb && this.url == url && this.path == path && this.baseUrl == baseUrl
      ensures this.query == query && user == null
    {
      this.verb, this.url, this.path, this.baseUrl := verb, url, path, baseUrl;
      this.query := query;
      user := null;
    }
  }
}
