/** What the API handlers receive and send: the request object, the JSON response and the decision
    each handler reaches before it touches the store. */
module Http {
  import opened Js

  /** The JSON bodies the handlers send. */
  datatype Payload =
    | ErrorBody(error: string)                              // `{ error }`
    | BoardList(boards: seq<Record>)                        // `{ boards }`
    | WithMessage(message: string, field: string, record: Record)  // `{ message, [field]: record }`
    | UserBody(user: Record)                                // `{ user }`
    | Crash                                                 // an uncaught exception: the framework's own 500 page

  /** `res.status(status).json(payload)`, with the `Set-Cookie` header when one was set. */
  datatype Response = Response(status: nat, payload: Payload, setCookie: Option<string>)

  function Error(status: nat, message: string): Response {
    Response(status, ErrorBody(message), None)
  }

  const MethodNotAllowed := Error(405, "Method not allowed")
  const InternalError := Error(500, "Internal server error")

  /** A handler either answers without writing, or asks for exactly one record to be created. */
  datatype Step = Reply(response: Response) | Insert(data: Record)

  /** `{ id: user.id, email: user.email, createdAt: user.createdAt }`: the user as register and login
      return it. */
  function PublicUser(user: Record): (r: Record)
    ensures r.Keys == {"id", "email", "createdAt"}
    ensures "password" !in r
    ensures forall k :: k in r ==> r[k] == Get(user, k)
  {
    map["id" := Get(user, "id"), "email" := Get(user, "email"), "createdAt" := Get(user, "createdAt")]
  }

  /** `const { password, ...rest } = user`: every field except the password. */
  function WithoutPassword(user: Record): (r: Record)
    ensures r.Keys == user.Keys - {"password"}
    ensures forall k :: k in r ==> r[k] == user[k]
  {
    user - {"password"}
  }

  /** The `req` object: method (`req.method`), parsed cookies (absent when no cookie parser ran), parsed body, and
      the `user` field that authentication fills in. */
  class Request {
    const httpMethod: string
    const cookies: Option<map<string, string>>
    const body: Record
    var user: Option<Record>

    constructor (httpMethod: string, cookies: Option<map<string, string>>, body: Record)
      ensures this.httpMethod == httpMethod && this.cookies == cookies && this.body == body
      ensures user == None
    {
      this.httpMethod := httpMethod;
      this.cookies := cookies;
      this.body := body;
      user := None;
    }
  }
}
