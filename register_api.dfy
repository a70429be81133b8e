/** pages/api/auth/register.js: create an account and start a session (POST). */
module RegisterApi {
  import opened Js
  import opened Db
  import opened Auth
  import opened Http

  const CredentialsRequired := "Email and password are required"
  const InvalidEmail := "Please provide a valid email address"
  const ShortPassword := "Password must be at least 6 characters long"
  const EmailTaken := "User with this email already exists"

  /** The decision of the register handler: method, presence, email format, password length and the
      lookup of the lowered address, in that order; then the user to create, with the lowered
      address and the hash of the password. */
  function RegisterStep(httpMethod: string, body: Record, users: seq<Record>, hash: string -> string): (s: Step)
    ensures httpMethod != "POST" ==> s == Reply(MethodNotAllowed)
    ensures s.Insert? <==>
      httpMethod == "POST" && ValidEmailValue(Get(body, "email")) && IsValidPassword(Get(body, "password")) &&
      Find(users, "email", Str(ToLowerCase(Get(body, "email").s))).None?
    ensures s.Insert? ==>
      s.data == map["email" := Str(ToLowerCase(Get(body, "email").s)), "password" := Str(hash(Get(body, "password").s))]
    ensures s.Reply? ==> s.response.status in {400, 405} && s.response.payload.ErrorBody? && s.response.setCookie == None
    ensures httpMethod == "POST" && !(Truthy(Get(body, "email")) && Truthy(Get(body, "password"))) ==>
      s == Reply(Error(400, CredentialsRequired))
    ensures (httpMethod == "POST" && Truthy(Get(body, "email")) && Truthy(Get(body, "password")) &&
             !ValidEmailValue(Get(body, "email"))) ==> s == Reply(Error(400, InvalidEmail))
    ensures (httpMethod == "POST" && Truthy(Get(body, "password")) && ValidEmailValue(Get(body, "email")) &&
             !IsValidPassword(Get(body, "password"))) ==> s == Reply(Error(400, ShortPassword))
    ensures (httpMethod == "POST" && ValidEmailValue(Get(body, "email")) && IsValidPassword(Get(body, "password")) &&
             Find(users, "email", Str(ToLowerCase(Get(body, "email").s))).Some?) ==>
      s == Reply(Error(400, EmailTaken))
  {
    var email, password := Get(body, "email"), Get(body, "password");
    if httpMethod != "POST" then Reply(MethodNotAllowed)
    else if !Truthy(email) || !Truthy(password) then Reply(Error(400, CredentialsRequired))
    else if !ValidEmailValue(email) then Reply(Error(400, InvalidEmail))
    else if !IsValidPassword(password) then Reply(Error(400, ShortPassword))
    else if Find(users, "email", Str(ToLowerCase(email.s))).Some? then Reply(Error(400, EmailTaken))
    else Insert(map["email" := Str(ToLowerCase(email.s)), "password" := Str(hash(password.s))])
  }

  /** The 201 answer: the public fields of the new user and the session cookie for its id. */
  function Registered(user: Record, sign: Record -> string, production: bool): Response {
    Response(201, WithMessage("User registered successfully", "user", PublicUser(user)),
             Some(SessionCookie(sign, Get(user, "id"), production)))
  }

  /** The users and the response after `step` ran against `before`. */
  predicate Handled(step: Step, before: seq<Record>, after: seq<Record>, resp: Response,
                    sign: Record -> string, production: bool, id: string, now: string) {
    match step
    case Reply(r) => resp == r && after == before
    case Insert(data) =>
      after == before + [NewRecord(id, map[], data, now)] && resp == Registered(NewRecord(id, map[], data, now), sign, production)
  }

  /** Every stored address is a lowered string and no two users share one. */
  ghost predicate EmailsCanonical(users: seq<Record>) {
    (forall u :: u in users ==> Get(u, "email").Str? && ToLowerCase(Get(u, "email").s) == Get(u, "email").s) &&
    (forall i, j :: 0 <= i < j < |users| ==> Get(users[i], "email") != Get(users[j], "email"))
  }

  /** Registration keeps the stored addresses lowered and distinct: the address is lowered before it
      is stored, and an address equal to a stored one after lowering is refused. */
  lemma {:induction false} RegisterKeepsEmailsCanonical(body: Record, users: seq<Record>, hash: string -> string,
                                                        id: string, now: string)
    requires EmailsCanonical(users)
    requires RegisterStep("POST", body, users, hash).Insert?
    ensures EmailsCanonical(users + [NewRecord(id, map[], RegisterStep("POST", body, users, hash).data, now)])
  {
    var user := NewRecord(id, map[], RegisterStep("POST", body, users, hash).data, now);
    var lowered := ToLowerCase(Get(body, "email").s);
    var after := users + [user];
    ToLowerCaseIdempotent(Get(body, "email").s);
    assert Get(user, "email") == Str(lowered);
    forall i, j | 0 <= i < j < |after|
      ensures Get(after[i], "email") != Get(after[j], "email")
    {
      if j == |users| {
        assert after[i] == users[i] && !Matches(users[i], "email", Str(lowered));
      } else {
        assert after[i] == users[i] && after[j] == users[j];
      }
    }
    forall u | u in after
      ensures Get(u, "email").Str? && ToLowerCase(Get(u, "email").s) == Get(u, "email").s
    {
      if u != user {
        assert u in users;
      }
    }
  }

  /** register: the handler, writing at most one user. */
  method Handler(req: Request, db: Database, crypto: Crypto, production: bool, id: string, now: string)
    returns (resp: Response)
    modifies db
    ensures Handled(RegisterStep(req.httpMethod, req.body, old(db.users), crypto.hash), old(db.users), db.users, resp,
                    crypto.sign, production, id, now)
    ensures db.boards == old(db.boards) && db.tasks == old(db.tasks)
    ensures old(db.Consistent()) ==> db.Consistent()
  {
    if req.httpMethod != "POST" {
      return MethodNotAllowed;
    }
    var email, password := Get(req.body, "email"), Get(req.body, "password");
    if !Truthy(email) || !Truthy(password) {
      return Error(400, CredentialsRequired);
    }
    if !ValidEmailValue(email) {
      return Error(400, InvalidEmail);
    }
    if !IsValidPassword(password) {
      return Error(400, ShortPassword);
    }
    var existing := db.FindUserByEmail(Str(ToLowerCase(email.s)));
    if existing.Some? {
      return Error(400, EmailTaken);
    }
    var user := db.CreateUser(map["email" := Str(ToLowerCase(email.s)), "password" := Str(crypto.hash(password.s))], id, now);
    resp := Registered(user, crypto.sign, production);
  }
}
