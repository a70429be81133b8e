/** pages/api/auth/user.js: the signed-in user's record without the password (GET). */
module UserApi {
  import opened Js
  import opened Db
  import opened Auth
  import opened Http
  import opened Middleware

  /** The current-user handler. It reads the token straight from `req.cookies`, so a request without
      parsed cookies throws outside any try block and the framework answers 500. */
  function CurrentUser(httpMethod: string, cookies: Option<map<string, string>>, users: seq<Record>,
                       verify: string -> Option<Record>): (r: Response)
    ensures httpMethod != "GET" ==> r == MethodNotAllowed
    ensures httpMethod == "GET" && cookies.None? ==> r == Response(500, Crash, None)
    ensures httpMethod == "GET" && cookies.Some? && GetTokenFromCookies(cookies).None? ==> r == Error(401, NoToken)
    ensures r.status == 200 ==> r.payload.UserBody? && "password" !in r.payload.user
    ensures r.status != 200 ==> r.setCookie == None
  {
    if httpMethod != "GET" then MethodNotAllowed
    else if cookies.None? then Response(500, Crash, None)
    else if "token" !in cookies.value || cookies.value["token"] == "" then Error(401, NoToken)
    else match verify(cookies.value["token"])
      case None => Error(401, BadToken)
      case Some(decoded) =>
        match Find(users, "id", Get(decoded, "userId"))
        case None => Error(401, UnknownUser)
        case Some(user) => Response(200, UserBody(WithoutPassword(user)), None)
  }

  /** With cookies present the handler applies authenticate's gate: it refuses with the same 401 and,
      when it lets the request through, returns the very user authenticate would install, with every
      field but the password. */
  lemma {:induction false} CurrentUserMatchesAuthenticate(cookies: map<string, string>, users: seq<Record>,
                                                          verify: string -> Option<Record>)
    ensures match Authentication(Some(cookies), users, verify)
      case Denied(r) => CurrentUser("GET", Some(cookies), users, verify) == r
      case Accepted(p) =>
        exists u :: u in users && p == Principal(u) &&
          CurrentUser("GET", Some(cookies), users, verify) == Response(200, UserBody(WithoutPassword(u)), None)
  {
    var token := GetTokenFromCookies(Some(cookies));
    if token.Some? && verify(token.value).Some? {
      var found := Find(users, "id", Get(verify(token.value).value, "userId"));
      if found.Some? {
        var u := found.value;
        assert u in users;
      }
    }
  }
}
