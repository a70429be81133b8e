/** pages/api/tasks/index.js: create a task on one of the caller's boards (POST). */
module TasksApi {
  import opened Js
  import opened Db
  import opened Auth
  import opened Http
  import opened Middleware

  const MaxTitleLength := 200
  const MaxDescriptionLength := 1000
  const BoardIdRequired := "Board ID is required"
  const TitleRequired := "Task title is required"
  const TitleTooLong := "Task title must be less than 200 characters"
  const DescriptionTooLong := "Task description must be less than 1000 characters"
  const InvalidDueDate := "Invalid due date format"

  /** `description && description.length > 1000`: only a string has a length; for a truthy number or
      boolean `length` is `undefined` and the comparison is false. */
  predicate DescriptionTooLongValue(description: Json) {
    description.Str? && Utf16Length(description.s) > MaxDescriptionLength
  }

  /** The checks createNewTask makes before any lookup, in order: board id, title, title length,
      description length. The result is the trimmed title. */
  function CheckFields(body: Record): (r: Result<string, Response>)
    ensures r.Ok? <==>
      Truthy(Get(body, "boardId")) && Get(body, "title").Str? &&
      0 < Utf16Length(Trim(Get(body, "title").s)) <= MaxTitleLength &&
      !DescriptionTooLongValue(Get(body, "description"))
    ensures r.Ok? ==> r.value == Trim(Get(body, "title").s) && r.value != []
    ensures !Truthy(Get(body, "boardId")) ==> r == Err(Error(400, BoardIdRequired))
    ensures Truthy(Get(body, "boardId")) && !Truthy(Get(body, "title")) ==> r == Err(Error(400, TitleRequired))
    ensures Truthy(Get(body, "boardId")) && Get(body, "title").Str? && Trim(Get(body, "title").s) == [] ==>
      r == Err(Error(400, TitleRequired))
    ensures (Truthy(Get(body, "boardId")) && Get(body, "title").Str? &&
             Utf16Length(Trim(Get(body, "title").s)) > MaxTitleLength) ==> r == Err(Error(400, TitleTooLong))
    ensures (Truthy(Get(body, "boardId")) && Get(body, "title").Str? &&
             0 < Utf16Length(Trim(Get(body, "title").s)) <= MaxTitleLength &&
             DescriptionTooLongValue(Get(body, "description"))) ==> r == Err(Error(400, DescriptionTooLong))
    ensures Truthy(Get(body, "boardId")) && Truthy(Get(body, "title")) && !Get(body, "title").Str? ==>
      r == Err(InternalError)
    ensures r.Err? ==> r.error.status in {400, 500} && r.error.payload.ErrorBody?
    ensures r.Err? && r.error.status == 500 ==> Truthy(Get(body, "title")) && !Get(body, "title").Str?
  {
    var boardId, title, description := Get(body, "boardId"), Get(body, "title"), Get(body, "description");
    if !Truthy(boardId) then Err(Error(400, BoardIdRequired))
    else if !Truthy(title) then Err(Error(400, TitleRequired))
    else if !title.Str? then Err(InternalError)
    else if Utf16Length(Trim(title.s)) == 0 then Err(Error(400, TitleRequired))
    else if Utf16Length(Trim(title.s)) > MaxTitleLength then Err(Error(400, TitleTooLong))
    else if DescriptionTooLongValue(description) then Err(Error(400, DescriptionTooLong))
    else Ok(Trim(title.s))
  }

  /** The stored `dueDate`: null when none was given, otherwise the ISO text of the parsed date;
      `parseDate` is `new Date(v)` followed by `toISOString()`, `None` for an invalid date. */
  function ResolveDueDate(dueDate: Json, parseDate: Json -> Option<string>): (r: Result<Json, Response>)
    ensures !Truthy(dueDate) ==> r == Ok(Null)
    ensures Truthy(dueDate) ==>
      if parseDate(dueDate).None? then r == Err(Error(400, InvalidDueDate)) else r == Ok(Str(parseDate(dueDate).value))
  {
    if !Truthy(dueDate) then Ok(Null)
    else match parseDate(dueDate)
      case None => Err(Error(400, InvalidDueDate))
      case Some(iso) => Ok(Str(iso))
  }

  /** The stored description: trimmed, or empty when none was given; a truthy non-string has no
      `trim` method and the request ends in the catch block with 500. */
  function DescriptionValue(description: Json): (r: Result<Json, Response>)
    ensures r.Ok? <==> !Truthy(description) || description.Str?
    ensures r.Ok? ==> r.value == Str(if Truthy(description) then Trim(description.s) else "")
    ensures r.Err? ==> r.error == InternalError
  {
    if !Truthy(description) then Ok(Str(""))
    else if description.Str? then Ok(Str(Trim(description.s)))
    else Err(InternalError)
  }

  /** The catch block of createNewTask: a message mentioning "Access denied" is sent back with 403,
      anything else becomes 500. */
  function Caught(message: string): (r: Response)
    ensures r.status == 403 <==> Includes(message, AccessDenied)
    ensures r.status == 403 ==> r == Error(403, message)
    ensures r.status != 403 ==> r == InternalError
  {
    if Includes(message, AccessDenied) then Error(403, message) else InternalError
  }

  /** The decision of createNewTask. */
  function CreateStep(user: Option<Record>, body: Record, boards: seq<Record>, parseDate: Json -> Option<string>): (s: Step)
    ensures s.Insert? <==>
      CheckFields(body).Ok? && Find(boards, "id", Get(body, "boardId")).Some? && user.Some? &&
      Get(Find(boards, "id", Get(body, "boardId")).value, "userId") == Get(user.value, "id") &&
      ResolveDueDate(Get(body, "dueDate"), parseDate).Ok? && DescriptionValue(Get(body, "description")).Ok?
    ensures s.Insert? ==> s.data == map[
      "boardId" := Get(body, "boardId"),
      "title" := Str(CheckFields(body).value),
      "description" := DescriptionValue(Get(body, "description")).value,
      "dueDate" := ResolveDueDate(Get(body, "dueDate"), parseDate).value]
    ensures CheckFields(body).Err? ==> s == Reply(CheckFields(body).error)
    ensures CheckFields(body).Ok? && Find(boards, "id", Get(body, "boardId")).None? ==>
      s == Reply(Error(404, BoardNotFound))
    ensures CheckFields(body).Ok? && Find(boards, "id", Get(body, "boardId")).Some? && user.None? ==>
      s == Reply(InternalError)
    ensures (CheckFields(body).Ok? && Find(boards, "id", Get(body, "boardId")).Some? && user.Some? &&
             Get(Find(boards, "id", Get(body, "boardId")).value, "userId") == Get(user.value, "id") &&
             ResolveDueDate(Get(body, "dueDate"), parseDate).Err?) ==>
      s == Reply(ResolveDueDate(Get(body, "dueDate"), parseDate).error)
    ensures (CheckFields(body).Ok? && Find(boards, "id", Get(body, "boardId")).Some? && user.Some? &&
             Get(Find(boards, "id", Get(body, "boardId")).value, "userId") == Get(user.value, "id") &&
             ResolveDueDate(Get(body, "dueDate"), parseDate).Ok? && DescriptionValue(Get(body, "description")).Err?) ==>
      s == Reply(InternalError)
  {
    match CheckFields(body)
    case Err(r) => Reply(r)
    case Ok(title) =>
      match Find(boards, "id", Get(body, "boardId"))
      case None => Reply(Error(404, BoardNotFound))
      case Some(board) =>
        match user
        case None => Reply(InternalError)
        case Some(u) =>
          match CheckBoardOwnership(Some(board), Get(u, "id"))
          case Fail(message) => Reply(Caught(message))
          case Pass =>
            match ResolveDueDate(Get(body, "dueDate"), parseDate)
            case Err(r) => Reply(r)
            case Ok(dueDate) =>
              match DescriptionValue(Get(body, "description"))
              case Err(r) => Reply(r)
              case Ok(description) =>
                Insert(map["boardId" := Get(body, "boardId"), "title" := Str(title),
                            "description" := description, "dueDate" := dueDate])
  }

  /** handler: only POST is served. */
  function TasksStep(httpMethod: string, user: Option<Record>, body: Record, boards: seq<Record>,
                     parseDate: Json -> Option<string>): (s: Step)
    ensures httpMethod != "POST" ==> s == Reply(MethodNotAllowed)
    ensures httpMethod == "POST" ==> s == CreateStep(user, body, boards, parseDate)
  {
    if httpMethod == "POST" then CreateStep(user, body, boards, parseDate) else Reply(MethodNotAllowed)
  }

  /** A valid request against a board owned by someone else is answered 403 with the ownership
      message, and the due date is not even looked at. */
  lemma {:induction false} ForeignBoardIs403(user: Record, body: Record, boards: seq<Record>, parseDate: Json -> Option<string>)
    requires CheckFields(body).Ok? && Find(boards, "id", Get(body, "boardId")).Some?
    requires Get(Find(boards, "id", Get(body, "boardId")).value, "userId") != Get(user, "id")
    ensures CreateStep(Some(user), body, boards, parseDate) == Reply(Error(403, NotYourBoard))
  {
    DenialMessages(None, Find(boards, "id", Get(body, "boardId")), Get(user, "id"));
  }

  /** An unparsable due date is reported only for a request that passed the field checks and names
      a board of the caller. */
  lemma {:induction false} DueDateCheckedLast(user: Option<Record>, body: Record, boards: seq<Record>,
                                              parseDate: Json -> Option<string>)
    requires CreateStep(user, body, boards, parseDate) == Reply(Error(400, InvalidDueDate))
    ensures CheckFields(body).Ok? && Find(boards, "id", Get(body, "boardId")).Some? && user.Some?
    ensures Get(Find(boards, "id", Get(body, "boardId")).value, "userId") == Get(user.value, "id")
  {
    if CheckFields(body).Ok? && Find(boards, "id", Get(body, "boardId")).Some? && user.Some? {
      var board := Find(boards, "id", Get(body, "boardId"));
      if Get(board.value, "userId") != Get(user.value, "id") {
        ForeignBoardIs403(user.value, body, boards, parseDate);
      }
    } else {
      CheckFieldMessages(body);
    }
  }

  /** The field checks never answer with the due-date message. */
  lemma CheckFieldMessages(body: Record)
    ensures CheckFields(body).Err? ==> CheckFields(body).error != Error(400, InvalidDueDate)
  {
  }

  function Created(task: Record): Response {
    Response(201, WithMessage("Task created successfully", "task", task), None)
  }

  /** createTask's record for `data`: a fresh id, status pending unless `data` says otherwise. */
  function NewTask(data: Record, id: string, now: string): Record {
    NewRecord(id, map["status" := Str("pending")], data, now)
  }

  /** The tasks and the response after `step` ran against `before`. */
  predicate Handled(step: Step, before: seq<Record>, after: seq<Record>, resp: Response, id: string, now: string) {
    match step
    case Reply(r) => resp == r && after == before
    case Insert(data) => after == before + [NewTask(data, id, now)] && resp == Created(NewTask(data, id, now))
  }

  /** The record createTask builds from the handler's four fields. */
  lemma NewTaskFields(boardId: Json, title: Json, description: Json, dueDate: Json, id: string, now: string)
    ensures var task := NewTask(map["boardId" := boardId, "title" := title, "description" := description, "dueDate" := dueDate], id, now);
      task.Keys == {"id", "status", "boardId", "title", "description", "dueDate", "createdAt"} &&
      task["id"] == Str(id) && task["status"] == Str("pending") && task["createdAt"] == Str(now) &&
      task["boardId"] == boardId && task["title"] == title && task["description"] == description && task["dueDate"] == dueDate
  {
  }

  /** The four fields the handler passes to createTask name the request's board. */
  lemma TaskDataBoard(boardId: Json, title: Json, description: Json, dueDate: Json)
    ensures Get(map["boardId" := boardId, "title" := title, "description" := description, "dueDate" := dueDate], "boardId") == boardId
  {
  }

  /** A created task carries the request's board id, the trimmed title, the trimmed (or empty)
      description, the normalised (or null) due date, status pending and the fresh id, and it names a
      board of the caller. */
  lemma {:induction false} CreatedTask(user: Option<Record>, body: Record, boards: seq<Record>,
                                       parseDate: Json -> Option<string>, id: string, now: string)
    requires CreateStep(user, body, boards, parseDate).Insert?
    ensures var task := NewTask(CreateStep(user, body, boards, parseDate).data, id, now);
      task["id"] == Str(id) && task["status"] == Str("pending") &&
      task["boardId"] == Get(body, "boardId") && task["title"] == Str(Trim(Get(body, "title").s)) &&
      task["description"] == Str(if Truthy(Get(body, "description")) then Trim(Get(body, "description").s) else "") &&
      task["dueDate"] == (if Truthy(Get(body, "dueDate")) then Str(parseDate(Get(body, "dueDate")).value) else Null) &&
      exists b :: b in boards && Get(b, "id") == task["boardId"] && Get(b, "userId") == Get(user.value, "id")
  {
    var description := DescriptionValue(Get(body, "description")).value;
    var dueDate := ResolveDueDate(Get(body, "dueDate"), parseDate).value;
    var title := Str(CheckFields(body).value);
    assert CreateStep(user, body, boards, parseDate).data ==
      map["boardId" := Get(body, "boardId"), "title" := title, "description" := description, "dueDate" := dueDate];
    assert title == Str(Trim(Get(body, "title").s));
    assert description == Str(if Truthy(Get(body, "description")) then Trim(Get(body, "description").s) else "");
    assert dueDate == (if Truthy(Get(body, "dueDate")) then Str(parseDate(Get(body, "dueDate")).value) else Null);
    NewTaskFields(Get(body, "boardId"), title, description, dueDate, id, now);
    var board := Find(boards, "id", Get(body, "boardId")).value;
    assert board in boards && Get(board, "id") == Get(body, "boardId");
  }

  /** createNewTask */
  method CreateNewTask(req: Request, db: Database, parseDate: Json -> Option<string>, id: string, now: string)
    returns (resp: Response)
    modifies db
    ensures Handled(CreateStep(req.user, req.body, old(db.boards), parseDate), old(db.tasks), db.tasks, resp, id, now)
    ensures db.users == old(db.users) && db.boards == old(db.boards)
    ensures old(db.Consistent()) ==> db.Consistent()
  {
    ghost var step := CreateStep(req.user, req.body, db.boards, parseDate);
    var title := CheckFields(req.body);
    if title.Err? {
      return title.error;
    }
    var boardId := Get(req.body, "boardId");
    var board := db.GetBoardById(boardId);
    if board.None? {
      return Error(404, BoardNotFound);
    }
    if req.user.None? {
      assert step == Reply(InternalError);
      return InternalError;
    }
    var owned := CheckBoardOwnership(board, Get(req.user.value, "id"));
    if owned.Fail? {
      assert step == Reply(Caught(owned.message));
      return Caught(owned.message);
    }
    var dueDate := ResolveDueDate(Get(req.body, "dueDate"), parseDate);
    if dueDate.Err? {
      assert step == Reply(dueDate.error);
      return dueDate.error;
    }
    var description := DescriptionValue(Get(req.body, "description"));
    if description.Err? {
      assert step == Reply(description.error);
      return description.error;
    }
    var data := map["boardId" := boardId, "title" := Str(title.value),
                     "description" := description.value, "dueDate" := dueDate.value];
    TaskDataBoard(boardId, Str(title.value), description.value, dueDate.value);
    var task := db.CreateTask(data, id, now);
    resp := Created(task);
  }

  /** handler */
  method Handler(req: Request, db: Database, parseDate: Json -> Option<string>, id: string, now: string)
    returns (resp: Response)
    modifies db
    ensures Handled(TasksStep(req.httpMethod, req.user, req.body, old(db.boards), parseDate), old(db.tasks), db.tasks, resp, id, now)
    ensures db.users == old(db.users) && db.boards == old(db.boards)
    ensures old(db.Consistent()) ==> db.Consistent()
  {
    if req.httpMethod == "POST" {
      resp := CreateNewTask(req, db, parseDate, id, now);
    } else {
      resp := MethodNotAllowed;
    }
  }

  /** `export default withAuth(handler)` */
  method Endpoint(req: Request, db: Database, verify: string -> Option<Record>, parseDate: Json -> Option<string>,
                  id: string, now: string) returns (resp: Response)
    modifies req, db
    ensures match Authentication(req.cookies, old(db.users), verify)
      case Denied(r) => resp == r && req.user == old(req.user) && db.tasks == old(db.tasks)
      case Accepted(p) =>
        (req.user == Some(p) &&
         Handled(TasksStep(req.httpMethod, Some(p), req.body, old(db.boards), parseDate), old(db.tasks), db.tasks, resp, id, now))
    ensures db.users == old(db.users) && db.boards == old(db.boards)
    ensures old(db.Consistent()) ==> db.Consistent()
  {
    var denial := Authenticate(req, db, verify);
    if denial.Some? {
      return denial.value;
    }
    resp := Handler(req, db, parseDate, id, now);
  }
}
