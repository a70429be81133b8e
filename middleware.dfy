/** lib/middleware.js: the session gate in front of the protected handlers and the ownership checks. */
module Middleware {
  import opened Js
  import opened Db
  import opened Auth
  import opened Http

  /** A check that returns `true` or throws an `Error` with a message. */
  datatype Check = Pass | Fail(message: string)

  const BoardNotFound := "Board not found"
  const TaskNotFound := "Task not found"
  const AccessDenied := "Access denied"
  const OwnBoardsOnly := ". You can only access your own boards."
  const OwnTasksOnly := ". You can only access tasks from your own boards."
  const NotYourBoard := AccessDenied + OwnBoardsOnly
  const NotYourTask := AccessDenied + OwnTasksOnly

  /** checkBoardOwnership: the board must exist and belong to `userId` (compared with `!==`). */
  function CheckBoardOwnership(board: Option<Record>, userId: Json): (c: Check)
    ensures c.Pass? <==> board.Some? && Get(board.value, "userId") == userId
    ensures board.None? ==> c == Fail(BoardNotFound)
    ensures board.Some? && !c.Pass? ==> c == Fail(NotYourBoard)
  {
    if board.None? then Fail(BoardNotFound)
    else if Get(board.value, "userId") != userId then Fail(NotYourBoard)
    else Pass
  }

  /** checkTaskOwnership: task, then board, then owner. */
  function CheckTaskOwnership(task: Option<Record>, board: Option<Record>, userId: Json): (c: Check)
    ensures c.Pass? <==> task.Some? && board.Some? && Get(board.value, "userId") == userId
    ensures task.None? ==> c == Fail(TaskNotFound)
    ensures task.Some? && board.None? ==> c == Fail(BoardNotFound)
    ensures task.Some? && board.Some? && !c.Pass? ==> c == Fail(NotYourTask)
  {
    if task.None? then Fail(TaskNotFound)
    else if board.None? then Fail(BoardNotFound)
    else if Get(board.value, "userId") != userId then Fail(NotYourTask)
    else Pass
  }

  /** A failed ownership check mentions "Access denied" exactly when the resource exists but belongs to
      someone else; callers that test `message.includes('Access denied')` tell a 403 from the rest this way. */
  lemma {:induction false} DenialMessages(task: Option<Record>, board: Option<Record>, userId: Json)
    ensures CheckBoardOwnership(board, userId).Fail? ==>
      (Includes(CheckBoardOwnership(board, userId).message, AccessDenied) <==> board.Some?)
    ensures CheckTaskOwnership(task, board, userId).Fail? ==>
      (Includes(CheckTaskOwnership(task, board, userId).message, AccessDenied) <==> task.Some? && board.Some?)
  {
    AccessDeniedIn(OwnBoardsOnly);
    AccessDeniedIn(OwnTasksOnly);
    NoAccessDenied(BoardNotFound);
    NoAccessDenied(TaskNotFound);
  }

  /** A message that starts with "Access denied" contains it. */
  lemma AccessDeniedIn(rest: string)
    ensures Includes(AccessDenied + rest, AccessDenied)
  {
    var message := AccessDenied + rest;
    assert message[..|AccessDenied|] == AccessDenied;
    assert OccursAt(message, AccessDenied, 0);
  }

  /** A message whose capital letters include no `A` cannot contain "Access denied". */
  lemma NoAccessDenied(message: string)
    requires forall k :: 0 <= k < |message| ==> message[k] != 'A'
    ensures !Includes(message, AccessDenied)
  {
    forall i | 0 <= i <= |message| - 13
      ensures !OccursAt(message, AccessDenied, i)
    {
      assert message[i..i + 13][0] == message[i];
    }
  }

  /** `req.user` after authentication: the stored user's id and email, nothing else. */
  function Principal(user: Record): (p: Record)
    ensures p.Keys == {"id", "email"} && "password" !in p
    ensures p["id"] == Get(user, "id") && p["email"] == Get(user, "email")
  {
    map["id" := Get(user, "id"), "email" := Get(user, "email")]
  }

  const NoToken := "Access denied. No token provided."
  const BadToken := "Invalid token."
  const UnknownUser := "Invalid token. User not found."

  /** What authenticate decides: a principal, or the 401 it sends. */
  datatype AuthOutcome = Accepted(principal: Record) | Denied(response: Response)

  /** authenticate: no token, a token that does not verify, and a token whose `userId` names no stored
      user are the three 401s; otherwise the request is let through as that user. */
  function Authentication(cookies: Option<map<string, string>>, users: seq<Record>,
                          verify: string -> Option<Record>): (o: AuthOutcome)
    ensures o.Accepted? <==>
      GetTokenFromCookies(cookies).Some? && verify(GetTokenFromCookies(cookies).value).Some? &&
      Find(users, "id", Get(verify(GetTokenFromCookies(cookies).value).value, "userId")).Some?
    ensures o.Accepted? ==>
      o.principal == Principal(Find(users, "id", Get(verify(GetTokenFromCookies(cookies).value).value, "userId")).value)
    ensures o.Denied? ==> o.response.status == 401 && o.response.setCookie == None
    ensures GetTokenFromCookies(cookies).None? ==> o == Denied(Error(401, NoToken))
    ensures GetTokenFromCookies(cookies).Some? && verify(GetTokenFromCookies(cookies).value).None? ==>
      o == Denied(Error(401, BadToken))
    ensures (GetTokenFromCookies(cookies).Some? && verify(GetTokenFromCookies(cookies).value).Some? &&
             Find(users, "id", Get(verify(GetTokenFromCookies(cookies).value).value, "userId")).None?) ==>
      o == Denied(Error(401, UnknownUser))
  {
    match GetTokenFromCookies(cookies)
    case None => Denied(Error(401, NoToken))
    case Some(token) =>
      match VerifyToken(verify, token)
      case Err(_) => Denied(Error(401, BadToken))
      case Ok(decoded) =>
        match Find(users, "id", Get(decoded, "userId"))
        case None => Denied(Error(401, UnknownUser))
        case Some(user) => Accepted(Principal(user))
  }

  /** authenticate(req, res): on success sets `req.user` and reports `true` (no denial); otherwise
      leaves `req.user` alone and hands back the 401 it sent. */
  method Authenticate(req: Request, db: Database, verify: string -> Option<Record>) returns (denial: Option<Response>)
    modifies req
    ensures match Authentication(req.cookies, db.users, verify)
      case Accepted(p) => denial == None && req.user == Some(p)
      case Denied(r) => denial == Some(r) && req.user == old(req.user)
  {
    var token := GetTokenFromCookies(req.cookies);
    if token.None? {
      return Some(Error(401, NoToken));
    }
    var decoded := VerifyToken(verify, token.value);
    if decoded.Err? {
      return Some(Error(401, BadToken));
    }
    var user := db.FindUserById(Get(decoded.value, "userId"));
    if user.None? {
      return Some(Error(401, UnknownUser));
    }
    req.user := Some(Principal(user.value));
    denial := None;
  }
}
