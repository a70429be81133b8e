/** pages/api/auth/login.js: check credentials and start a session (POST). Login only reads the store. */
module LoginApi {
  import opened Js
  import opened Db
  import opened Auth
  import opened Http

  const CredentialsRequired := "Email and password are required"
  const InvalidEmail := "Please provide a valid email address"
  const BadCredentials := "Invalid email or password"

  /** The stored user the submitted address names once lowered. */
  function Account(body: Record, users: seq<Record>): Option<Record>
    requires Get(body, "email").Str?
  {
    Find(users, "email", Str(ToLowerCase(Get(body, "email").s)))
  }

  /** `bcrypt.compare(password, user.password)` succeeds: both are strings (bcryptjs rejects anything
      else with "Illegal arguments") and they match. */
  predicate PasswordMatches(password: Json, user: Record, compare: (string, string) -> bool) {
    password.Str? && Get(user, "password").Str? && compare(password.s, Get(user, "password").s)
  }

  /** The login handler. An unknown address and a wrong password are answered alike; a password that
      bcrypt refuses to compare ends in the catch block with 500. */
  function Login(httpMethod: string, body: Record, users: seq<Record>, crypto: Crypto, production: bool): (r: Response)
    ensures httpMethod != "POST" ==> r == MethodNotAllowed
    ensures r.status == 200 <==>
      httpMethod == "POST" && Truthy(Get(body, "password")) && ValidEmailValue(Get(body, "email")) &&
      Account(body, users).Some? && PasswordMatches(Get(body, "password"), Account(body, users).value, crypto.compare)
    ensures r.status == 200 ==>
      r == Response(200, WithMessage("Login successful", "user", PublicUser(Account(body, users).value)),
                    Some(SessionCookie(crypto.sign, Get(Account(body, users).value, "id"), production)))
    ensures r.status != 200 ==> r.setCookie == None && r.payload.ErrorBody?
    ensures r.status == 401 <==>
      httpMethod == "POST" && Truthy(Get(body, "password")) && ValidEmailValue(Get(body, "email")) &&
      (Account(body, users).None? ||
       (Get(body, "password").Str? && Get(Account(body, users).value, "password").Str? &&
        !crypto.compare(Get(body, "password").s, Get(Account(body, users).value, "password").s)))
    ensures r.status == 401 ==> r == Error(401, BadCredentials)
    ensures httpMethod == "POST" && !(Truthy(Get(body, "email")) && Truthy(Get(body, "password"))) ==>
      r == Error(400, CredentialsRequired)
    ensures (httpMethod == "POST" && Truthy(Get(body, "email")) && Truthy(Get(body, "password")) &&
             !ValidEmailValue(Get(body, "email"))) ==> r == Error(400, InvalidEmail)
    ensures r.status == 500 <==>
      httpMethod == "POST" && Truthy(Get(body, "password")) && ValidEmailValue(Get(body, "email")) &&
      Account(body, users).Some? && !(Get(body, "password").Str? && Get(Account(body, users).value, "password").Str?)
    ensures r.status == 500 ==> r == InternalError
  {
    var email, password := Get(body, "email"), Get(body, "password");
    if httpMethod != "POST" then MethodNotAllowed
    else if !Truthy(email) || !Truthy(password) then Error(400, CredentialsRequired)
    else if !ValidEmailValue(email) then Error(400, InvalidEmail)
    else match Account(body, users)
      case None => Error(401, BadCredentials)
      case Some(user) =>
        if !password.Str? || !Get(user, "password").Str? then InternalError
        else if !crypto.compare(password.s, Get(user, "password").s) then Error(401, BadCredentials)
        else Response(200, WithMessage("Login successful", "user", PublicUser(user)),
                      Some(SessionCookie(crypto.sign, Get(user, "id"), production)))
  }

  /** The address is matched without regard to letter case: two spellings that lower to the same text
      get the same answer. */
  lemma LoginIgnoresCase(body: Record, email: string, users: seq<Record>, crypto: Crypto, production: bool)
    requires Get(body, "email").Str? && ToLowerCase(email) == ToLowerCase(Get(body, "email").s)
    ensures Login("POST", body["email" := Str(email)], users, crypto, production) == Login("POST", body, users, crypto, production)
  {
    var body' := body["email" := Str(email)];
    assert Get(body', "password") == Get(body, "password");
    assert Account(body', users) == Account(body, users);
    ValidEmailIgnoresCase(email);
    ValidEmailIgnoresCase(Get(body, "email").s);
  }
}
