/** The in-memory store of lib/db.js: three collections of records and the operations on them. */
module Db {
  import opened Js

  /** `record[key] === v` */
  predicate Matches(r: Record, key: string, v: Json) {
    Get(r, key) == v
  }

  /** `s.findIndex(r => r[key] === v)`: the first matching position, or -1. */
  function FindIndex(s: seq<Record>, key: string, v: Json): (i: int)
    ensures -1 <= i < |s|
    ensures i == -1 <==> forall j :: 0 <= j < |s| ==> !Matches(s[j], key, v)
    ensures 0 <= i ==> Matches(s[i], key, v) && forall j :: 0 <= j < i ==> !Matches(s[j], key, v)
  {
    if s == [] then -1
    else if Matches(s[0], key, v) then 0
    else
      var k := FindIndex(s[1..], key, v);
      assert forall j :: 1 <= j < |s| ==> s[j] == s[1..][j - 1];
      if k == -1 then -1 else k + 1
  }

  /** `s.find(r => r[key] === v)`: the first matching record, or nothing. */
  function Find(s: seq<Record>, key: string, v: Json): (r: Option<Record>)
    ensures r.None? <==> forall j :: 0 <= j < |s| ==> !Matches(s[j], key, v)
    ensures r.Some? ==> exists i :: 0 <= i < |s| && s[i] == r.value && Matches(s[i], key, v)
                                     && forall j :: 0 <= j < i ==> !Matches(s[j], key, v)
  {
    var i := FindIndex(s, key, v);
    if i < 0 then None else Some(s[i])
  }

  /** The record found in `s` is also the one found in any extension of `s`; a record appended
      after no match is found exactly when it matches. */
  lemma {:induction false} FindAppend(s: seq<Record>, x: Record, key: string, v: Json)
    ensures Find(s + [x], key, v) ==
      if Find(s, key, v).Some? then Find(s, key, v)
      else if Matches(x, key, v) then Some(x) else None
  {
    var s' := s + [x];
    assert forall j :: 0 <= j < |s| ==> s'[j] == s[j];
    assert s'[|s|] == x;
  }

  /** `s.filter(r => r[key] === v)` when `keep`, `s.filter(r => r[key] !== v)` otherwise:
      the records whose match against `v` equals `keep`, in stored order. */
  function Filter(s: seq<Record>, key: string, v: Json, keep: bool): (r: seq<Record>)
    ensures |r| <= |s|
  {
    if s == [] then []
    else
      var last := s[|s| - 1];
      Filter(s[..|s| - 1], key, v, keep) + (if Matches(last, key, v) == keep then [last] else [])
  }

  /** A record is kept exactly when it is stored and its match against `v` equals `keep`. */
  lemma {:induction false} FilterMembers(s: seq<Record>, key: string, v: Json, keep: bool)
    ensures forall x :: x in Filter(s, key, v, keep) <==> x in s && Matches(x, key, v) == keep
  {
    if s != [] {
      var init := s[..|s| - 1];
      FilterMembers(init, key, v, keep);
      assert s == init + [s[|s| - 1]];
    }
  }

  /** Filtering a collection with one more record at the end filters that record last: the stored
      order is kept. */
  lemma FilterSnoc(s: seq<Record>, x: Record, key: string, v: Json, keep: bool)
    ensures Filter(s + [x], key, v, keep) == Filter(s, key, v, keep) + (if Matches(x, key, v) == keep then [x] else [])
  {
    assert (s + [x])[..|s + [x]| - 1] == s;
  }

  /** Keeping the matches and keeping the rest split the collection: every record lands in exactly one part. */
  lemma {:induction false} FilterPartition(s: seq<Record>, key: string, v: Json)
    ensures multiset(Filter(s, key, v, true)) + multiset(Filter(s, key, v, false)) == multiset(s)
  {
    if s != [] {
      var init := s[..|s| - 1];
      FilterPartition(init, key, v);
      assert s == init + [s[|s| - 1]];
    }
  }

  /** After the non-matching records are kept, no record matches any more. */
  lemma RejectedLeaveNoMatch(s: seq<Record>, key: string, v: Json)
    ensures Filter(Filter(s, key, v, false), key, v, true) == []
  {
    var rest := Filter(s, key, v, false);
    var r := Filter(rest, key, v, true);
    FilterMembers(s, key, v, false);
    FilterMembers(rest, key, v, true);
    assert forall x :: x !in r;
    NoMembersEmpty(r);
  }

  lemma NoMembersEmpty(r: seq<Record>)
    ensures (forall x :: x !in r) ==> r == []
  {
    if r != [] {
      assert r[0] in r;
    }
  }

  /** `s.splice(i, 1)`: the record at `i` is removed and the later ones move down by one. */
  function RemoveAt(s: seq<Record>, i: nat): (r: seq<Record>)
    requires i < |s|
    ensures |r| == |s| - 1
    ensures forall j :: 0 <= j < i ==> r[j] == s[j]
    ensures forall j :: i <= j < |r| ==> r[j] == s[j + 1]
    ensures forall x :: x in r ==> x in s
  {
    s[..i] + s[i + 1..]
  }

  /** `{id, ...defaults, ...data, createdAt}`: the record built by createUser, createBoard
      (no defaults) and createTask (default status). */
  function NewRecord(id: string, defaults: Record, data: Record, now: string): (r: Record)
    ensures r.Keys == {"id", "createdAt"} + defaults.Keys + data.Keys
    ensures forall k :: k in data && k != "createdAt" ==> r[k] == data[k]
    ensures forall k :: k in defaults && k !in data && k != "createdAt" ==> r[k] == defaults[k]
    ensures "id" !in defaults && "id" !in data ==> r["id"] == Str(id)
    ensures r["createdAt"] == Str(now)
  {
    map["id" := Str(id)] + defaults + data + map["createdAt" := Str(now)]
  }

  /** `{...current, ...update, updatedAt}`: the record written by updateBoard and updateTask. */
  function Merge(current: Record, update: Record, now: string): (r: Record)
    ensures r.Keys == current.Keys + update.Keys + {"updatedAt"}
    ensures forall k :: k in current && k !in update && k != "updatedAt" ==> r[k] == current[k]
    ensures forall k :: k in update && k != "updatedAt" ==> r[k] == update[k]
    ensures r["updatedAt"] == Str(now)
  {
    current + update + map["updatedAt" := Str(now)]
  }

  /** Every task names (by `boardId`) a board that is in the store. */
  ghost predicate References(boards: seq<Record>, tasks: seq<Record>) {
    forall t :: t in tasks ==> exists b :: b in boards && Matches(b, "id", Get(t, "boardId"))
  }

  /** deleteBoard keeps every remaining task's board: the tasks of the removed board go with it. */
  lemma CascadePreservesReferences(boards: seq<Record>, tasks: seq<Record>, id: Json)
    requires References(boards, tasks)
    requires 0 <= FindIndex(boards, "id", id)
    ensures References(RemoveAt(boards, FindIndex(boards, "id", id)), Filter(tasks, "boardId", id, false))
  {
    var i := FindIndex(boards, "id", id);
    var rest := RemoveAt(boards, i);
    FilterMembers(tasks, "boardId", id, false);
    forall t | t in Filter(tasks, "boardId", id, false)
      ensures exists b :: b in rest && Matches(b, "id", Get(t, "boardId"))
    {
      var b :| b in boards && Matches(b, "id", Get(t, "boardId"));
      var j :| 0 <= j < |boards| && boards[j] == b;
      assert j != i;
      if j < i { assert rest[j] == b; } else { assert rest[j - 1] == b; }
    }
  }

  /** Removing one task never leaves another task without its board. */
  lemma RemoveTaskPreservesReferences(boards: seq<Record>, tasks: seq<Record>, i: nat)
    requires References(boards, tasks) && i < |tasks|
    ensures References(boards, RemoveAt(tasks, i))
  {
  }

  /** `array.findIndex`: a linear scan for the first record whose `key` is `v`. */
  method IndexOfMatch(s: seq<Record>, key: string, v: Json) returns (i: int)
    ensures i == FindIndex(s, key, v)
  {
    i := 0;
    while i < |s| && !Matches(s[i], key, v)
      invariant 0 <= i <= |s|
      invariant forall j :: 0 <= j < i ==> !Matches(s[j], key, v)
    {
      i := i + 1;
    }
    if i == |s| {
      i := -1;
    }
  }

  /** `array.filter`: a linear scan collecting the records whose match against `v` equals `keep`. */
  method CollectMatches(s: seq<Record>, key: string, v: Json, keep: bool) returns (found: seq<Record>)
    ensures found == Filter(s, key, v, keep)
  {
    found := [];
    var i := 0;
    while i < |s|
      invariant 0 <= i <= |s|
      invariant found == Filter(s[..i], key, v, keep)
    {
      assert s[..i + 1][..i] == s[..i];
      if Matches(s[i], key, v) == keep {
        found := found + [s[i]];
      }
      i := i + 1;
    }
    assert s[..i] == s;
  }

  /** The module-level `database` object. */
  class Database {
    var users: seq<Record>
    var boards: seq<Record>
    var tasks: seq<Record>

    constructor ()
      ensures users == [] && boards == [] && tasks == []
    {
      users, boards, tasks := [], [], [];
    }

    /** Every task refers to a stored board. */
    ghost predicate Consistent()
      reads this
    {
      References(boards, tasks)
    }

    /** createUser: appends `{id, ...userData, createdAt}` and returns it. */
    method CreateUser(userData: Record, id: string, now: string) returns (user: Record)
      modifies this
      ensures user == NewRecord(id, map[], userData, now)
      ensures users == old(users) + [user]
      ensures boards == old(boards) && tasks == old(tasks)
      ensures old(Consistent()) ==> Consistent()
    {
      user := NewRecord(id, map[], userData, now);
      users := users + [user];
    }

    /** findUserByEmail */
    method FindUserByEmail(email: Json) returns (user: Option<Record>)
      ensures user == Find(users, "email", email)
    {
      var i := IndexOfMatch(users, "email", email);
      user := if i < 0 then None else Some(users[i]);
    }

    /** findUserById */
    method FindUserById(id: Json) returns (user: Option<Record>)
      ensures user == Find(users, "id", id)
    {
      var i := IndexOfMatch(users, "id", id);
      user := if i < 0 then None else Some(users[i]);
    }

    /** createBoard: appends `{id, ...boardData, createdAt}` and returns it. */
    method CreateBoard(boardData: Record, id: string, now: string) returns (board: Record)
      modifies this
      ensures board == NewRecord(id, map[], boardData, now)
      ensures boards == old(boards) + [board]
      ensures users == old(users) && tasks == old(tasks)
      ensures old(Consistent()) ==> Consistent()
    {
      board := NewRecord(id, map[], boardData, now);
      boards := boards + [board];
    }

    /** getBoardsByUserId */
    method GetBoardsByUserId(userId: Json) returns (found: seq<Record>)
      ensures found == Filter(boards, "userId", userId, true)
    {
      found := CollectMatches(boards, "userId", userId, true);
    }

    /** getBoardById */
    method GetBoardById(id: Json) returns (board: Option<Record>)
      ensures board == Find(boards, "id", id)
    {
      var i := IndexOfMatch(boards, "id", id);
      board := if i < 0 then None else Some(boards[i]);
    }

    /** updateBoard: the first board with this id is replaced by its merge with `updateData`. */
    method UpdateBoard(id: Json, updateData: Record, now: string) returns (board: Option<Record>)
      modifies this
      ensures var i := FindIndex(old(boards), "id", id);
        if i < 0 then board == None && boards == old(boards)
        else board == Some(Merge(old(boards)[i], updateData, now)) && boards == old(boards)[i := board.value]
      ensures users == old(users) && tasks == old(tasks)
      ensures old(Consistent()) && "id" !in updateData ==> Consistent()
    {
      var i := IndexOfMatch(boards, "id", id);
      if i == -1 {
        return None;
      }
      ghost var before := boards;
      boards := boards[i := Merge(boards[i], updateData, now)];
      board := Some(boards[i]);
      forall t | old(Consistent()) && "id" !in updateData && t in tasks
        ensures exists b :: b in boards && Matches(b, "id", Get(t, "boardId"))
      {
        var b :| b in before && Matches(b, "id", Get(t, "boardId"));
        var j :| 0 <= j < |before| && before[j] == b;
        assert Matches(boards[j], "id", Get(t, "boardId"));
      }
    }

    /** deleteBoard: removes the first board with this id together with every task of that id. */
    method DeleteBoard(id: Json) returns (deleted: bool)
      modifies this
      ensures deleted <==> 0 <= FindIndex(old(boards), "id", id)
      ensures deleted ==> boards == RemoveAt(old(boards), FindIndex(old(boards), "id", id))
                          && tasks == Filter(old(tasks), "boardId", id, false)
      ensures deleted ==> Filter(tasks, "boardId", id, true) == []
      ensures !deleted ==> boards == old(boards) && tasks == old(tasks)
      ensures users == old(users)
      ensures old(Consistent()) ==> Consistent()
    {
      var i := IndexOfMatch(boards, "id", id);
      if i == -1 {
        return false;
      }
      var remaining := CollectMatches(tasks, "boardId", id, false);
      RejectedLeaveNoMatch(tasks, "boardId", id);
      if Consistent() {
        CascadePreservesReferences(boards, tasks, id);
      }
      tasks := remaining;
      boards := RemoveAt(boards, i);
      deleted := true;
    }

    /** createTask: appends `{id, status: 'pending', ...taskData, createdAt}` and returns it. */
    method CreateTask(taskData: Record, id: string, now: string) returns (task: Record)
      modifies this
      ensures task == NewRecord(id, map["status" := Str("pending")], taskData, now)
      ensures tasks == old(tasks) + [task]
      ensures users == old(users) && boards == old(boards)
      ensures old(Consistent()) && Find(boards, "id", Get(taskData, "boardId")).Some? ==> Consistent()
    {
      task := NewRecord(id, map["status" := Str("pending")], taskData, now);
      tasks := tasks + [task];
      if old(Consistent()) && Find(boards, "id", Get(taskData, "boardId")).Some? {
        var b := Find(boards, "id", Get(taskData, "boardId")).value;
        assert b in boards && Matches(b, "id", Get(task, "boardId"));
      }
    }

    /** getTasksByBoardId */
    method GetTasksByBoardId(boardId: Json) returns (found: seq<Record>)
      ensures found == Filter(tasks, "boardId", boardId, true)
    {
      found := CollectMatches(tasks, "boardId", boardId, true);
    }

    /** getTaskById */
    method GetTaskById(id: Json) returns (task: Option<Record>)
      ensures task == Find(tasks, "id", id)
    {
      var i := IndexOfMatch(tasks, "id", id);
      task := if i < 0 then None else Some(tasks[i]);
    }

    /** updateTask: the first task with this id is replaced by its merge with `updateData`. */
    method UpdateTask(id: Json, updateData: Record, now: string) returns (task: Option<Record>)
      modifies this
      ensures var i := FindIndex(old(tasks), "id", id);
        if i < 0 then task == None && tasks == old(tasks)
        else task == Some(Merge(old(tasks)[i], updateData, now)) && tasks == old(tasks)[i := task.value]
      ensures users == old(users) && boards == old(boards)
      ensures old(Consistent()) && "boardId" !in updateData ==> Consistent()
    {
      var i := IndexOfMatch(tasks, "id", id);
      if i == -1 {
        return None;
      }
      ghost var before := tasks;
      tasks := tasks[i := Merge(tasks[i], updateData, now)];
      task := Some(tasks[i]);
      forall t | old(Consistent()) && "boardId" !in updateData && t in tasks
        ensures exists b :: b in boards && Matches(b, "id", Get(t, "boardId"))
      {
        var j :| 0 <= j < |tasks| && tasks[j] == t;
        assert Get(t, "boardId") == Get(before[j], "boardId");
        assert before[j] in before;
      }
    }

    /** deleteTask: removes the first task with this id. */
    method DeleteTask(id: Json) returns (deleted: bool)
      modifies this
      ensures deleted <==> 0 <= FindIndex(old(tasks), "id", id)
      ensures deleted ==> tasks == RemoveAt(old(tasks), FindIndex(old(tasks), "id", id))
      ensures !deleted ==> tasks == old(tasks)
      ensures users == old(users) && boards == old(boards)
      ensures old(Consistent()) ==> Consistent()
    {
      var i := IndexOfMatch(tasks, "id", id);
      if i == -1 {
        return false;
      }
      tasks := RemoveAt(tasks, i);
      deleted := true;
    }
  }
}
