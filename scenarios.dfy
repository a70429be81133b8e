/** Properties of request sequences: what one handler's write means for the next request. */
module Scenarios {
  import opened Js
  import opened Db
  import opened Auth
  import opened Http
  import opened Middleware
  import RegisterApi
  import LoginApi
  import UserApi

  /** The user a successful registration stores. */
  function Registrant(body: Record, users: seq<Record>, hash: string -> string, id: string, now: string): Record
    requires RegisterApi.RegisterStep("POST", body, users, hash).Insert?
  {
    NewRecord(id, map[], RegisterApi.RegisterStep("POST", body, users, hash).data, now)
  }

  /** The new user is found under its lowered address, and nowhere earlier. */
  lemma {:induction false} RegistrantByEmail(body: Record, users: seq<Record>, hash: string -> string, id: string, now: string)
    requires RegisterApi.RegisterStep("POST", body, users, hash).Insert?
    ensures var user := Registrant(body, users, hash, id, now);
      Find(users + [user], "email", Str(ToLowerCase(Get(body, "email").s))) == Some(user) &&
      user["id"] == Str(id) && user["password"] == Str(hash(Get(body, "password").s))
  {
    var user := Registrant(body, users, hash, id, now);
    var lowered := Str(ToLowerCase(Get(body, "email").s));
    assert Matches(user, "email", lowered);
    FindAppend(users, user, "email", lowered);
  }

  /** Whoever registers can log in right away with the same password and the address in any letter
      case, and the session cookie names the new user's id (given that bcrypt accepts a password
      against its own hash). */
  lemma {:induction false} RegisterThenLogin(body: Record, users: seq<Record>, crypto: Crypto, production: bool,
                                             id: string, now: string, email: string)
    requires RegisterApi.RegisterStep("POST", body, users, crypto.hash).Insert?
    requires ToLowerCase(email) == ToLowerCase(Get(body, "email").s)
    requires crypto.compare(Get(body, "password").s, crypto.hash(Get(body, "password").s))
    ensures var user := Registrant(body, users, crypto.hash, id, now);
      LoginApi.Login("POST", body["email" := Str(email)], users + [user], crypto, production) ==
        Response(200, WithMessage("Login successful", "user", PublicUser(user)),
                 Some(SessionCookie(crypto.sign, Str(id), production)))
  {
    var user := Registrant(body, users, crypto.hash, id, now);
    RegistrantByEmail(body, users, crypto.hash, id, now);
    assert LoginApi.Account(body, users + [user]) == Some(user);
    LoginApi.LoginIgnoresCase(body, email, users + [user], crypto, production);
  }

  /** A second registration of the same address, in any letter case, is refused. */
  lemma {:induction false} DuplicateRegistration(body: Record, users: seq<Record>, hash: string -> string,
                                                 id: string, now: string, again: Record)
    requires RegisterApi.RegisterStep("POST", body, users, hash).Insert?
    requires ValidEmailValue(Get(again, "email")) && IsValidPassword(Get(again, "password"))
    requires ToLowerCase(Get(again, "email").s) == ToLowerCase(Get(body, "email").s)
    ensures RegisterApi.RegisterStep("POST", again, users + [Registrant(body, users, hash, id, now)], hash) ==
      Reply(Error(400, RegisterApi.EmailTaken))
  {
    RegistrantByEmail(body, users, hash, id, now);
  }

  /** The cookie set by registration, sent back by the browser, authenticates the new user: both
      authenticate and the current-user handler accept it, and the latter returns the stored record
      without its password. The id must be fresh, the token must verify to a payload carrying the
      `userId` it was signed with (jsonwebtoken adds `iat` and `exp` beside it), and it must be
      cookie-safe (no `;`, not empty). */
  lemma {:induction false} SessionRoundTrip(body: Record, users: seq<Record>, crypto: Crypto, production: bool,
                                            id: string, now: string)
    requires RegisterApi.RegisterStep("POST", body, users, crypto.hash).Insert?
    requires forall u :: u in users ==> Get(u, "id") != Str(id)
    requires var token := crypto.sign(map["userId" := Str(id)]);
      token != "" && ';' !in token && crypto.verify(token).Some? && Get(crypto.verify(token).value, "userId") == Str(id)
    ensures var user := Registrant(body, users, crypto.hash, id, now);
      var header := RegisterApi.Registered(user, crypto.sign, production).setCookie.value;
      var jar := map[StoredCookie(header).0 := StoredCookie(header).1];
      StoredCookie(header).0 == "token" &&
      Authentication(Some(jar), users + [user], crypto.verify) == Accepted(Principal(user)) &&
      UserApi.CurrentUser("GET", Some(jar), users + [user], crypto.verify) == Response(200, UserBody(WithoutPassword(user)), None)
  {
    var user := Registrant(body, users, crypto.hash, id, now);
    var token := crypto.sign(map["userId" := Str(id)]);
    RegistrantByEmail(body, users, crypto.hash, id, now);
    StoredCookieIsToken(token, GetCookieOptions(production));
    assert Find(users, "id", Str(id)).None?;
    FindAppend(users, user, "id", Str(id));
  }
}
