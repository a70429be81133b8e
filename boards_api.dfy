/** pages/api/boards/index.js: list the caller's boards (GET) and create a board (POST). */
module BoardsApi {
  import opened Js
  import opened Db
  import opened Auth
  import opened Http
  import opened Middleware

  const MaxTitleLength := 100
  const TitleRequired := "Board title is required"
  const TitleTooLong := "Board title must be less than 100 characters"

  /** The title checks of createNewBoard: present, a string, not blank once trimmed, at most 100
      UTF-16 units once trimmed. The result is the trimmed title. A truthy non-string has no `trim`
      method, and the TypeError lands in the catch block. */
  function CheckTitle(title: Json): (r: Result<string, Response>)
    ensures r.Ok? <==> title.Str? && 0 < Utf16Length(Trim(title.s)) <= MaxTitleLength
    ensures r.Ok? ==> r.value == Trim(title.s) && r.value != []
    ensures !Truthy(title) ==> r == Err(Error(400, TitleRequired))
    ensures Truthy(title) && !title.Str? ==> r == Err(InternalError)
    ensures title.Str? && r.Err? ==>
      r.error == Error(400, if Trim(title.s) == [] then TitleRequired else TitleTooLong)
  {
    if !Truthy(title) then Err(Error(400, TitleRequired))
    else if !title.Str? then Err(InternalError)
    else if Utf16Length(Trim(title.s)) == 0 then Err(Error(400, TitleRequired))
    else if Utf16Length(Trim(title.s)) > MaxTitleLength then Err(Error(400, TitleTooLong))
    else Ok(Trim(title.s))
  }

  /** The answer of getBoards: the boards whose `userId` is the caller's id, in stored order; without
      `req.user` reading `req.user.id` throws and the catch block answers 500. */
  function ListStep(user: Option<Record>, boards: seq<Record>): (r: Response)
    ensures user.None? ==> r == InternalError
    ensures user.Some? ==> r.status == 200 && r.payload.BoardList? && r.setCookie == None
    ensures user.Some? ==> r.payload == BoardList(Filter(boards, "userId", Get(user.value, "id"), true))
    ensures user.Some? && r.payload.BoardList? ==>
      forall b :: b in r.payload.boards <==> b in boards && Get(b, "userId") == Get(user.value, "id")
  {
    match user
    case None => InternalError
    case Some(u) =>
      FilterMembers(boards, "userId", Get(u, "id"), true);
      Response(200, BoardList(Filter(boards, "userId", Get(u, "id"), true)), None)
  }

  /** The decision of createNewBoard: the title checks first, then the owner from `req.user.id`. */
  function CreateStep(user: Option<Record>, body: Record): (s: Step)
    ensures s.Insert? <==> CheckTitle(Get(body, "title")).Ok? && user.Some?
    ensures s.Insert? ==>
      s.data == map["userId" := Get(user.value, "id"), "title" := Str(Trim(Get(body, "title").s))]
    ensures CheckTitle(Get(body, "title")).Err? ==> s == Reply(CheckTitle(Get(body, "title")).error)
    ensures CheckTitle(Get(body, "title")).Ok? && user.None? ==> s == Reply(InternalError)
    ensures s.Reply? ==> s.response.status in {400, 500} && s.response.payload.ErrorBody?
  {
    match CheckTitle(Get(body, "title"))
    case Err(r) => Reply(r)
    case Ok(title) =>
      match user
      case None => Reply(InternalError)
      case Some(u) => Insert(map["userId" := Get(u, "id"), "title" := Str(title)])
  }

  /** handler: GET lists, POST creates, every other method is refused with 405. */
  function BoardsStep(httpMethod: string, user: Option<Record>, body: Record, boards: seq<Record>): (s: Step)
    ensures httpMethod != "GET" && httpMethod != "POST" ==> s == Reply(MethodNotAllowed)
    ensures httpMethod == "GET" ==> s == Reply(ListStep(user, boards))
    ensures httpMethod == "POST" ==> s == CreateStep(user, body)
    ensures s.Insert? ==> httpMethod == "POST"
  {
    if httpMethod == "GET" then Reply(ListStep(user, boards))
    else if httpMethod == "POST" then CreateStep(user, body)
    else Reply(MethodNotAllowed)
  }

  function Created(board: Record): Response {
    Response(201, WithMessage("Board created successfully", "board", board), None)
  }

  /** The boards and the response after `step` ran against `before`, the new board taking `id` and `now`. */
  predicate Handled(step: Step, before: seq<Record>, after: seq<Record>, resp: Response, id: string, now: string) {
    match step
    case Reply(r) => resp == r && after == before
    case Insert(data) => after == before + [NewRecord(id, map[], data, now)] && resp == Created(NewRecord(id, map[], data, now))
  }

  /** A created board is found again by its fresh id, carries the caller as owner and the trimmed
      title, and is listed last among the caller's boards. */
  lemma BoardRoundTrip(user: Option<Record>, body: Record, boards: seq<Record>, id: string, now: string)
    requires CreateStep(user, body).Insert?
    requires forall b :: b in boards ==> Get(b, "id") != Str(id)
    ensures var board := NewRecord(id, map[], CreateStep(user, body).data, now);
      Find(boards + [board], "id", Str(id)) == Some(board) &&
      board["title"] == Str(Trim(Get(body, "title").s)) && board["userId"] == Get(user.value, "id") &&
      Filter(boards + [board], "userId", Get(user.value, "id"), true) == Filter(boards, "userId", Get(user.value, "id"), true) + [board]
  {
    var data := CreateStep(user, body).data;
    var board := NewRecord(id, map[], data, now);
    assert board["title"] == Str(Trim(Get(body, "title").s)) && board["userId"] == Get(user.value, "id") by {
      assert data == map["userId" := Get(user.value, "id"), "title" := Str(Trim(Get(body, "title").s))];
      assert "title" in data && "userId" in data;
    }
    assert Get(board, "id") == Str(id) by {
      assert "id" !in data;
    }
    PushedBoardFound(boards, board, id, Get(user.value, "id"));
  }

  /** A pushed board with a fresh id is found by that id and comes last among its owner's boards. */
  lemma PushedBoardFound(boards: seq<Record>, board: Record, id: string, owner: Json)
    requires forall b :: b in boards ==> Get(b, "id") != Str(id)
    requires Get(board, "id") == Str(id) && Get(board, "userId") == owner
    ensures Find(boards + [board], "id", Str(id)) == Some(board)
    ensures Filter(boards + [board], "userId", owner, true) == Filter(boards, "userId", owner, true) + [board]
  {
    assert Find(boards, "id", Str(id)).None?;
    FindAppend(boards, board, "id", Str(id));
    FilterSnoc(boards, board, "userId", owner, true);
  }

  /** getBoards */
  method GetBoards(req: Request, db: Database) returns (resp: Response)
    ensures resp == ListStep(req.user, db.boards)
  {
    if req.user.None? {
      return InternalError;
    }
    var boards := db.GetBoardsByUserId(Get(req.user.value, "id"));
    resp := Response(200, BoardList(boards), None);
  }

  /** createNewBoard */
  method CreateNewBoard(req: Request, db: Database, id: string, now: string) returns (resp: Response)
    modifies db
    ensures Handled(CreateStep(req.user, req.body), old(db.boards), db.boards, resp, id, now)
    ensures db.users == old(db.users) && db.tasks == old(db.tasks)
    ensures old(db.Consistent()) ==> db.Consistent()
  {
    var title := CheckTitle(Get(req.body, "title"));
    if title.Err? {
      return title.error;
    }
    if req.user.None? {
      return InternalError;
    }
    var board := db.CreateBoard(map["userId" := Get(req.user.value, "id"), "title" := Str(title.value)], id, now);
    resp := Created(board);
  }

  /** handler */
  method Handler(req: Request, db: Database, id: string, now: string) returns (resp: Response)
    modifies db
    ensures Handled(BoardsStep(req.httpMethod, req.user, req.body, old(db.boards)), old(db.boards), db.boards, resp, id, now)
    ensures db.users == old(db.users) && db.tasks == old(db.tasks)
    ensures old(db.Consistent()) ==> db.Consistent()
  {
    if req.httpMethod == "GET" {
      resp := GetBoards(req, db);
    } else if req.httpMethod == "POST" {
      resp := CreateNewBoard(req, db, id, now);
    } else {
      resp := MethodNotAllowed;
    }
  }

  /** `export default withAuth(handler)`: the handler runs, as the authenticated user, only when
      authentication accepted the request. */
  method Endpoint(req: Request, db: Database, verify: string -> Option<Record>, id: string, now: string)
    returns (resp: Response)
    modifies req, db
    ensures match Authentication(req.cookies, old(db.users), verify)
      case Denied(r) => resp == r && req.user == old(req.user) && db.boards == old(db.boards)
      case Accepted(p) =>
        (req.user == Some(p) &&
         Handled(BoardsStep(req.httpMethod, Some(p), req.body, old(db.boards)), old(db.boards), db.boards, resp, id, now))
    ensures db.users == old(db.users) && db.tasks == old(db.tasks)
    ensures old(db.Consistent()) ==> db.Consistent()
  {
    var denial := Authenticate(req, db, verify);
    if denial.Some? {
      return denial.value;
    }
    resp := Handler(req, db, id, now);
  }
}
