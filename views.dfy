/** The request handlers of kanban_app/api/views.py, each in the order the REST
    framework runs them: authentication, has_permission, the object lookup and
    has_object_permission, serializer validation, then the write. Reads are functions
    of a database snapshot; writes are methods on the Store. */
module Views {
  import opened Requests
  import opened Models
  import opened Permissions
  import opened Serializers

  /** What every handler relies on and keeps: the store's own invariant, the
      application invariant, and an authenticated actor who is a user. */
  ghost predicate Serving(store: Store, p: Principal)
    reads store
  {
    store.Valid() && Consistent(store.State()) && (p.Authenticated? ==> p.id in store.users)
  }

  // ---------------------------------------------------------------------------
  // BoardViewSet

  /** list (views.py:19-30, the `list` branch at 27-28): the boards the actor owns or
      belongs to, each with its summary; they are exactly the boards a retrieve would
      let the actor see. */
  function ListBoards(db: Db, p: Principal): (r: Result<map<Id, BoardSummary>>)
    ensures p.Anonymous? <==> r == Err(Unauthenticated)
    ensures r.Ok? ==> forall b :: b in r.value <==> b in db.boards && BoardObjectPermission(db.boards[b], p.id, GET)
    ensures r.Ok? ==> forall b :: b in r.value ==> r.value[b] == Summary(db, b)
  {
    if !BoardHasPermission(p) then Err(Unauthenticated)
    else Ok(map b | b in db.boards && OwnerOrMember(db.boards[b], p.id) :: Summary(db, b))
  }

  /** get_object on a board followed by has_object_permission (views.py:16, 29-30;
      permissions.py:84-93): outside the list action every board is looked up, so an
      unknown id is 404 and a board the actor may not use is 403. */
  function BoardLookup(db: Db, actor: Id, m: Method, id: Id): (r: Result<Board>)
    ensures id !in db.boards <==> r == Err(NotFound)
    ensures r.Ok? <==> id in db.boards && BoardObjectPermission(db.boards[id], actor, m)
    ensures r.Ok? ==> r.value == db.boards[id]
  {
    if id !in db.boards then Err(NotFound)
    else if !BoardObjectPermission(db.boards[id], actor, m) then Err(Forbidden)
    else Ok(db.boards[id])
  }

  /** A board with the tasks BoardDetailSerializer nests in it. */
  datatype BoardDetail = BoardDetail(board: Board, tasks: map<Id, Task>)

  /** retrieve: owner and members see the board with every task on it. */
  function RetrieveBoard(db: Db, p: Principal, id: Id): (r: Result<BoardDetail>)
    ensures p.Anonymous? ==> r == Err(Unauthenticated)
    ensures r.Ok? <==> p.Authenticated? && id in db.boards && OwnerOrMember(db.boards[id], p.id)
    ensures p.Authenticated? && id !in db.boards ==> r == Err(NotFound)
    ensures p.Authenticated? && id in db.boards && !OwnerOrMember(db.boards[id], p.id) ==> r == Err(Forbidden)
    ensures r.Ok? ==> r.value.board == db.boards[id]
    ensures r.Ok? ==> forall t :: t in r.value.tasks <==> t in db.tasks && db.tasks[t].board == id
    ensures r.Ok? ==> forall t :: t in r.value.tasks ==> r.value.tasks[t] == db.tasks[t]
  {
    if !BoardHasPermission(p) then Err(Unauthenticated)
    else
      match BoardLookup(db, p.id, GET, id)
      case Err(e) => Err(e)
      case Ok(board) => Ok(BoardDetail(board, map t | t in db.tasks && db.tasks[t].board == id :: db.tasks[t]))
  }

  /** create with BoardSerializer: the actor becomes owner and member of a new board. */
  method CreateBoard(store: Store, p: Principal, payload: BoardPayload) returns (r: Result<Id>)
    requires Serving(store, p)
    modifies store
    ensures Serving(store, p)
    ensures p.Anonymous? ==> r == Err(Unauthenticated)
    ensures p.Authenticated? ==>
      (r.Ok? <==> ValidateNewBoard(old(store.users), payload).Ok?) &&
      (r.Err? ==> r == Err(ValidateNewBoard(old(store.users), payload).error))
    ensures r.Err? ==> store.State() == old(store.State())
    ensures r.Ok? ==>
      && r.value !in old(store.boards)
      && store.State() == old(store.State()).(boards := old(store.boards)[r.value :=
           CreatedBoard(old(store.users), payload.title.value, payload.members.value, p.id)])
  {
    if !BoardHasPermission(p) {
      return Err(Unauthenticated);
    }
    var v := ValidateNewBoard(store.users, payload);
    if v.Err? {
      return Err(v.error);
    }
    var before := store.State();
    var board := CreatedBoard(store.users, payload.title.value, v.value, p.id);
    var id := store.InsertBoard(board);
    AddBoardKeepsConsistent(before, id, board);
    return Ok(id);
  }

  /** The member list a board update writes, when it writes one. */
  function MembersWritten(board: Board, members: Option<seq<Id>>): Option<seq<Id>> {
    if members.Some? then Some(NewMemberIds(board, members.value)) else None
  }

  /** update / partial_update with BoardUpdateSerializer (serializers.py:184-223): owner
      and members may rename the board and replace its members; PUT requires a title;
      the owner stays, and a member linked to a task of the board cannot be removed. */
  method UpdateBoard(store: Store, p: Principal, m: Method, id: Id, payload: BoardPayload) returns (r: Result<Board>)
    requires Serving(store, p) && (m == PUT || m == PATCH)
    modifies store
    ensures Serving(store, p)
    ensures p.Anonymous? ==> r == Err(Unauthenticated)
    ensures p.Authenticated? && BoardLookup(old(store.State()), p.id, m, id).Err? ==>
      r == Err(BoardLookup(old(store.State()), p.id, m, id).error)
    ensures r.Ok? ==> id in old(store.boards) && OwnerOrMember(old(store.boards)[id], p.id)
    ensures r.Ok? ==> r.value.owner == old(store.boards)[id].owner && r.value.owner in r.value.members
    ensures r.Ok? && payload.members.Some? ==>
      var ids := NewMemberIds(old(store.boards)[id], payload.members.value);
      Blocked(old(store.State()), id, old(store.boards)[id].members - Elements(ids)) == {}
    ensures p.Authenticated? && BoardLookup(old(store.State()), p.id, m, id).Ok? && m == PUT && payload.title.None? ==>
      r == Err(ValidationFailed(FieldErrors))
    ensures p.Authenticated? && BoardLookup(old(store.State()), p.id, m, id).Ok? && (m == PUT ==> payload.title.Some?) ==>
      if payload.members.None? then r.Ok?
      else
        var ids := NewMemberIds(old(store.boards)[id], payload.members.value);
        var blocked := Blocked(old(store.State()), id, old(store.boards)[id].members - Elements(ids));
        && (!AllUsersExist(old(store.users), ids) ==> r == Err(ValidationFailed(UnknownUsers)))
        && (AllUsersExist(old(store.users), ids) && blocked == {} ==> r.Ok?)
        && (AllUsersExist(old(store.users), ids) && blocked != {} ==> r == Err(ValidationFailed(MembersLinkedToTasks(blocked))))
    ensures r.Ok? ==>
      r.value == UpdatedBoard(old(store.users), old(store.boards)[id], payload.title,
                              MembersWritten(old(store.boards)[id], payload.members)) &&
      store.State() == old(store.State()).(boards := old(store.boards)[id := r.value])
    ensures r.Err? ==> store.State() == old(store.State())
  {
    if !BoardHasPermission(p) {
      return Err(Unauthenticated);
    }
    var db := store.State();
    var found := BoardLookup(db, p.id, m, id);
    if found.Err? {
      return Err(found.error);
    }
    var board := found.value;
    if m == PUT && payload.title.None? {
      return Err(ValidationFailed(FieldErrors));
    }
    var written: Option<seq<Id>> := None;
    if payload.members.Some? {
      var checked := ValidateMembers(db, id, payload.members.value);
      if checked.Err? {
        return Err(checked.error);
      }
      written := Some(checked.value);
      MemberUpdateKeepsConsistent(db, id, payload.title, payload.members.value);
    } else {
      TitleOnlyUpdateKeepsConsistent(db, id, payload.title);
    }
    var updated := UpdatedBoard(db.users, board, payload.title, written);
    store.SaveBoard(id, updated);
    return Ok(updated);
  }

  /** destroy: only the owner deletes a board, and its tasks and their comments go
      with it (models.py:50, 72). */
  method DestroyBoard(store: Store, p: Principal, id: Id) returns (r: Result<()>)
    requires Serving(store, p)
    modifies store
    ensures Serving(store, p)
    ensures p.Anonymous? ==> r == Err(Unauthenticated)
    ensures p.Authenticated? && id !in old(store.boards) ==> r == Err(NotFound)
    ensures p.Authenticated? && id in old(store.boards) && old(store.boards)[id].owner != p.id ==> r == Err(Forbidden)
    ensures r.Ok? <==> p.Authenticated? && id in old(store.boards) && old(store.boards)[id].owner == p.id
    ensures r.Ok? ==> store.State() == WithoutBoard(old(store.State()), id)
    ensures r.Err? ==> store.State() == old(store.State())
  {
    if !BoardHasPermission(p) {
      return Err(Unauthenticated);
    }
    var db := store.State();
    var found := BoardLookup(db, p.id, DELETE, id);
    if found.Err? {
      return Err(found.error);
    }
    store.DeleteBoard(id);
    WithoutBoardKeepsConsistent(db, id);
    return Ok(());
  }

  // ---------------------------------------------------------------------------
  // TaskViewSet

  /** The task exists and the actor owns or belongs to its board: the gate of task
      retrieve and update and, as intended (views.py:119-129), of every comment route
      but destroy, where the task is the route's `task_pk`. */
  predicate ReadableTask(db: Db, actor: Id, id: Id)
    requires TaskRefsOk(db)
  {
    id in db.tasks && OwnerOrMember(db.boards[db.tasks[id].board], actor)
  }

  /** list (views.py:51-55). The handler would answer 405, but has_permission runs
      first and, with neither `pk` nor `task_pk` in the route, denies: the answer is
      403 to every authenticated user, never 405. */
  function ListAllTasks(db: Db, p: Principal): (e: Error)
    requires TaskRefsOk(db)
    ensures p.Anonymous? <==> e == Unauthenticated
    ensures p.Authenticated? ==> e == Forbidden
  {
    if p.Anonymous? then Unauthenticated
    else if !TaskHasPermission(db, p.id, GET, Absent, None, None) then Forbidden
    else MethodNotAllowed
  }

  /** retrieve. has_permission looks the task up before get_object does, so an unknown
      task id is 403 rather than 404. */
  function RetrieveTask(db: Db, p: Principal, id: Id): (r: Result<Task>)
    requires TaskRefsOk(db)
    ensures p.Anonymous? ==> r == Err(Unauthenticated)
    ensures r.Ok? <==> p.Authenticated? && ReadableTask(db, p.id, id)
    ensures p.Authenticated? && r.Err? ==> r == Err(Forbidden)
    ensures r.Ok? ==> r.value == db.tasks[id]
  {
    if p.Anonymous? then Err(Unauthenticated)
    else if !TaskHasPermission(db, p.id, GET, Absent, Some(id), None) then Err(Forbidden)
    else if id !in db.tasks then Err(NotFound)
    else if !TaskObjectPermission(db, p.id, GET, db.tasks[id]) then Err(Forbidden)
    else Ok(db.tasks[id])
  }

  /** create (POST tasks/): has_permission reads the payload's `board`, so a payload
      without one is refused with 403 before the serializer's "board required" check
      can run; the new task is the actor's, on a board the actor belongs to. */
  method CreateTask(store: Store, p: Principal, payload: TaskPayload) returns (r: Result<Id>)
    requires Serving(store, p)
    modifies store
    ensures Serving(store, p)
    ensures p.Anonymous? ==> r == Err(Unauthenticated)
    ensures p.Authenticated? && !Truthy(payload.board) ==> r == Err(Forbidden)
    ensures p.Authenticated? && !TaskHasPermission(old(store.State()), p.id, POST, payload.board, None, None) ==>
      r == Err(Forbidden)
    ensures p.Authenticated? && TaskHasPermission(old(store.State()), p.id, POST, payload.board, None, None) ==>
      if !TaskFieldsValid(old(store.State()), payload, false) then r == Err(ValidationFailed(FieldErrors))
      else
        var v := ValidateTask(old(store.State()), p.id, POST, payload, None);
        (v.Ok? ==> r.Ok?) && (v.Err? ==> r == Err(v.error))
    ensures r.Ok? ==>
      && payload.board.Given? && payload.board.value in old(store.boards)
      && p.id in old(store.boards)[payload.board.value].members
    ensures r.Ok? ==>
      && payload.title.Some? && r.value !in old(store.tasks)
      && store.State() == old(store.State()).(tasks := old(store.tasks)[r.value :=
           CreatedTask(payload.board.value, p.id, payload)])
    ensures r.Err? ==> store.State() == old(store.State())
  {
    if p.Anonymous? {
      return Err(Unauthenticated);
    }
    var db := store.State();
    if !TaskHasPermission(db, p.id, POST, payload.board, None, None) {
      return Err(Forbidden);
    }
    if !TaskFieldsValid(db, payload, false) {
      return Err(ValidationFailed(FieldErrors));
    }
    var v := ValidateTask(db, p.id, POST, payload, None);
    if v.Err? {
      return Err(v.error);
    }
    var task := CreatedTask(v.value, p.id, payload);
    CreatedTaskFacts(db, p.id, payload, v.value);
    var id := store.InsertTask(task);
    PutTaskKeepsConsistent(db, id, task);
    return Ok(id);
  }

  /** update / partial_update: owner and members of the task's board change it; PUT
      must carry a title; the board cannot change; an id of 0 passes validation as
      falsy and is then refused by the database. */
  method UpdateTask(store: Store, p: Principal, m: Method, id: Id, payload: TaskPayload) returns (r: Result<Task>)
    requires Serving(store, p) && (m == PUT || m == PATCH)
    modifies store
    ensures Serving(store, p)
    ensures p.Anonymous? ==> r == Err(Unauthenticated)
    ensures p.Authenticated? && !ReadableTask(old(store.State()), p.id, id) ==> r == Err(Forbidden)
    ensures r.Ok? ==>
      && id in old(store.tasks) && TaskFieldsValid(old(store.State()), payload, m == PATCH)
      && ValidateTask(old(store.State()), p.id, m, payload, Some(old(store.tasks)[id])).Ok?
    ensures p.Authenticated? && ReadableTask(old(store.State()), p.id, id) ==>
      if !TaskFieldsValid(old(store.State()), payload, m == PATCH) then r == Err(ValidationFailed(FieldErrors))
      else
        var v := ValidateTask(old(store.State()), p.id, m, payload, Some(old(store.tasks)[id]));
        && (v.Err? ==> r == Err(v.error))
        && (v.Ok? && TaskRefs(old(store.State()), UpdatedTask(old(store.tasks)[id], payload)) ==> r.Ok?)
        && (v.Ok? && !TaskRefs(old(store.State()), UpdatedTask(old(store.tasks)[id], payload)) ==> r == Err(IntegrityError))
    ensures r == Err(IntegrityError) ==> payload.assigneeId == Given(0) || payload.reviewerId == Given(0)
    ensures r.Ok? ==>
      && r.value == UpdatedTask(old(store.tasks)[id], payload)
      && store.State() == old(store.State()).(tasks := old(store.tasks)[id := r.value])
    ensures r.Err? ==> store.State() == old(store.State())
  {
    if p.Anonymous? {
      return Err(Unauthenticated);
    }
    var db := store.State();
    if !TaskHasPermission(db, p.id, m, Absent, Some(id), None) {
      return Err(Forbidden);
    }
    if id !in db.tasks {
      return Err(NotFound);
    }
    if !TaskObjectPermission(db, p.id, m, db.tasks[id]) {
      return Err(Forbidden);
    }
    if !TaskFieldsValid(db, payload, m == PATCH) {
      return Err(ValidationFailed(FieldErrors));
    }
    var v := ValidateTask(db, p.id, m, payload, Some(db.tasks[id]));
    if v.Err? {
      return Err(v.error);
    }
    var updated := UpdatedTask(db.tasks[id], payload);
    UpdatedTaskFacts(db, p.id, m, payload, id);
    if !TaskRefs(db, updated) {
      return Err(IntegrityError);
    }
    store.SaveTask(id, updated);
    PutTaskKeepsConsistent(db, id, updated);
    return Ok(updated);
  }

  /** destroy (views.py:58-64): has_permission admits owner and members of the task's
      board, the object permission then the owner and the task's creator; so a member
      deletes only the tasks they created, and a creator who left the board cannot
      delete. The task's comments go with it (models.py:72). */
  method DestroyTask(store: Store, p: Principal, id: Id) returns (r: Result<()>)
    requires Serving(store, p)
    modifies store
    ensures Serving(store, p)
    ensures p.Anonymous? ==> r == Err(Unauthenticated)
    ensures r.Ok? <==>
      && p.Authenticated? && ReadableTask(old(store.State()), p.id, id)
      && (old(store.boards)[old(store.tasks)[id].board].owner == p.id || old(store.tasks)[id].createdBy == p.id)
    ensures p.Authenticated? && r.Err? ==> r == Err(Forbidden)
    ensures r.Ok? ==> store.State() == WithoutTask(old(store.State()), id)
    ensures r.Err? ==> store.State() == old(store.State())
  {
    if p.Anonymous? {
      return Err(Unauthenticated);
    }
    var db := store.State();
    if !TaskHasPermission(db, p.id, DELETE, Absent, Some(id), None) {
      return Err(Forbidden);
    }
    if id !in db.tasks {
      return Err(NotFound);
    }
    if !TaskObjectPermission(db, p.id, DELETE, db.tasks[id]) {
      return Err(Forbidden);
    }
    store.DeleteTask(id);
    WithoutTaskKeepsConsistent(db, id);
    return Ok(());
  }

  /** assigned-to-me (views.py:66-74): every task whose assignee is the actor, with its
      comment count; only authentication is required. */
  function AssignedToMe(db: Db, p: Principal): (r: Result<map<Id, nat>>)
    ensures p.Anonymous? <==> r == Err(Unauthenticated)
    ensures r.Ok? ==> forall t :: t in r.value <==> t in db.tasks && db.tasks[t].assignee == Some(p.id)
    ensures r.Ok? ==> forall t :: t in r.value ==> r.value[t] == CommentCount(db, t)
  {
    if p.Anonymous? then Err(Unauthenticated)
    else Ok(map t | t in db.tasks && db.tasks[t].assignee == Some(p.id) :: CommentCount(db, t))
  }

  /** reviewing (views.py:76-84): every task whose reviewer is the actor. */
  function Reviewing(db: Db, p: Principal): (r: Result<map<Id, nat>>)
    ensures p.Anonymous? <==> r == Err(Unauthenticated)
    ensures r.Ok? ==> forall t :: t in r.value <==> t in db.tasks && db.tasks[t].reviewer == Some(p.id)
    ensures r.Ok? ==> forall t :: t in r.value ==> r.value[t] == CommentCount(db, t)
  {
    if p.Anonymous? then Err(Unauthenticated)
    else Ok(map t | t in db.tasks && db.tasks[t].reviewer == Some(p.id) :: CommentCount(db, t))
  }

  /** The two personal lists skip the board check, yet everything they show the actor
      may also retrieve: an assignee or reviewer is a member of the task's board. */
  lemma PersonalListsAreReadable(db: Db, actor: Id, t: Id)
    requires Consistent(db)
    requires AssignedToMe(db, Authenticated(actor)).Ok? && Reviewing(db, Authenticated(actor)).Ok?
    requires t in AssignedToMe(db, Authenticated(actor)).value || t in Reviewing(db, Authenticated(actor)).value
    ensures RetrieveTask(db, Authenticated(actor), t) == Ok(db.tasks[t])
  {
  }

  // ---------------------------------------------------------------------------
  // TaskCommentViewSet

  /** get_object (views.py:131-138): the comment with id `pk` on task `taskPk`. */
  function FindComment(db: Db, taskPk: Id, pk: Id): (r: Result<Comment>)
    ensures r.Ok? <==> pk in db.comments && db.comments[pk].task == taskPk
    ensures r.Err? ==> r == Err(NotFound)
    ensures r.Ok? ==> r.value == db.comments[pk]
  {
    if pk in db.comments && db.comments[pk].task == taskPk then Ok(db.comments[pk]) else Err(NotFound)
  }

  /** list (views.py:96-101): the comments of the route's task. Here has_permission
      falls back on `task_pk`, so the gate is the intended one. */
  function ListComments(db: Db, p: Principal, taskPk: Id): (r: Result<map<Id, Comment>>)
    requires TaskRefsOk(db)
    ensures p.Anonymous? ==> r == Err(Unauthenticated)
    ensures r.Ok? <==> p.Authenticated? && ReadableTask(db, p.id, taskPk)
    ensures p.Authenticated? && r.Err? ==> r == Err(Forbidden)
    ensures r.Ok? ==> forall c :: c in r.value <==> c in db.comments && db.comments[c].task == taskPk
    ensures r.Ok? ==> forall c :: c in r.value ==> r.value[c] == db.comments[c]
  {
    if p.Anonymous? then Err(Unauthenticated)
    else if !TaskHasPermission(db, p.id, GET, Absent, None, Some(taskPk)) then Err(Forbidden)
    else Ok(map c | c in db.comments && db.comments[c].task == taskPk :: db.comments[c])
  }

  /** The has_permission of comment creation as written (permissions.py:39-59): a
      truthy `board` in the payload is checked and the route's task plays no part. */
  function CreateCommentAllowedAsWritten(db: Db, actor: Id, payloadBoard: Field<Id>, taskPk: Id): (ok: bool)
    requires TaskRefsOk(db)
    ensures Truthy(payloadBoard) ==>
      (ok <==> payloadBoard.value in db.boards && OwnerOrMember(db.boards[payloadBoard.value], actor))
    ensures !Truthy(payloadBoard) ==> (ok <==> ReadableTask(db, actor, taskPk))
  {
    PostPermissionOrder(db, actor, payloadBoard, Some(taskPk));
    TaskHasPermission(db, actor, POST, payloadBoard, None, Some(taskPk))
  }

  /** retrieve of a comment as written (permissions.py:61-74, views.py:131-138): the
      comment id `pk` is looked up as a task id, so the request succeeds only when
      some task happens to share the comment's id, and it is that task's board the
      actor must belong to. */
  function RetrieveCommentAsWritten(db: Db, p: Principal, taskPk: Id, pk: Id): (r: Result<Comment>)
    requires TaskRefsOk(db)
    ensures r.Ok? ==> p.Authenticated? && ReadableTask(db, p.id, pk)
    ensures r.Ok? ==> r == FindComment(db, taskPk, pk)
  {
    if p.Anonymous? then Err(Unauthenticated)
    else if !TaskHasPermission(db, p.id, GET, Absent, Some(pk), Some(taskPk)) then Err(Forbidden)
    else FindComment(db, taskPk, pk)
  }

  /** A member of board 1 only, commenting on task 10 of board 2 with `board: 1` in
      the payload, passes the as-written check; the intended gate refuses. */
  lemma CommentCreateBoardBypass()
    ensures var db := Db({1, 2},
                         map[1 := Board("mine", 1, {1}), 2 := Board("theirs", 2, {2})],
                         map[10 := Task(2, "t", "", "to-do", "low", None, None, None, 2)],
                         map[]);
      && Consistent(db)
      && CreateCommentAllowedAsWritten(db, 1, Given(1), 10)
      && !ReadableTask(db, 1, 10)
  {
  }

  /** Comment 5 on task 6 of board 2 is readable by a member of board 1 only, because
      task 5 is on board 1; comment 7 on task 5 is refused to that same member,
      because there is no task 7. */
  lemma CommentPkReadAsTaskId()
    ensures var db := Db({1, 2},
                         map[1 := Board("mine", 1, {1}), 2 := Board("theirs", 2, {2})],
                         map[5 := Task(1, "a", "", "to-do", "low", None, None, None, 1),
                             6 := Task(2, "b", "", "to-do", "low", None, None, None, 2)],
                         map[5 := Comment(6, 2, "secret"), 7 := Comment(5, 1, "hello")]);
      && Consistent(db)
      && RetrieveCommentAsWritten(db, Authenticated(1), 6, 5) == Ok(Comment(6, 2, "secret"))
      && !ReadableTask(db, 1, 6)
      && RetrieveCommentAsWritten(db, Authenticated(1), 5, 7) == Err(Forbidden)
      && ReadableTask(db, 1, 5)
  {
  }

  /** retrieve of a comment, with the intended gate: owner and members of the route
      task's board read the comments of that task. */
  function RetrieveComment(db: Db, p: Principal, taskPk: Id, pk: Id): (r: Result<Comment>)
    requires TaskRefsOk(db)
    ensures p.Anonymous? ==> r == Err(Unauthenticated)
    ensures r.Ok? <==> p.Authenticated? && ReadableTask(db, p.id, taskPk) &&
                       pk in db.comments && db.comments[pk].task == taskPk
    ensures p.Authenticated? && !ReadableTask(db, p.id, taskPk) ==> r == Err(Forbidden)
    ensures p.Authenticated? && ReadableTask(db, p.id, taskPk) && FindComment(db, taskPk, pk).Err? ==>
      r == Err(NotFound)
    ensures r.Ok? ==> r.value == db.comments[pk] &&
                      OwnerOrMember(db.boards[db.tasks[r.value.task].board], p.id)
  {
    if p.Anonymous? then Err(Unauthenticated)
    else if !ReadableTask(db, p.id, taskPk) then Err(Forbidden)
    else FindComment(db, taskPk, pk)
  }

  datatype CommentPayload = CommentPayload(board: Field<Id>, content: Option<string>)

  /** create (views.py:103-109, serializers.py:239-243) with the intended gate: owner
      and members of the route task's board comment on it as themselves; the payload's
      `board` plays no part. */
  method CreateComment(store: Store, p: Principal, taskPk: Id, payload: CommentPayload) returns (r: Result<Id>)
    requires Serving(store, p)
    modifies store
    ensures Serving(store, p)
    ensures p.Anonymous? ==> r == Err(Unauthenticated)
    ensures p.Authenticated? && !ReadableTask(old(store.State()), p.id, taskPk) ==> r == Err(Forbidden)
    ensures p.Authenticated? && ReadableTask(old(store.State()), p.id, taskPk) ==>
      (payload.content.Some? <==> r.Ok?) && (payload.content.None? ==> r == Err(ValidationFailed(FieldErrors)))
    ensures r.Ok? ==>
      && payload.content.Some? && r.value !in old(store.comments)
      && store.State() == old(store.State()).(comments := old(store.comments)[r.value :=
           Comment(taskPk, p.id, payload.content.value)])
    ensures r.Err? ==> store.State() == old(store.State())
  {
    if p.Anonymous? {
      return Err(Unauthenticated);
    }
    var db := store.State();
    if !ReadableTask(db, p.id, taskPk) {
      return Err(Forbidden);
    }
    if payload.content.None? {
      return Err(ValidationFailed(FieldErrors));
    }
    if taskPk !in db.tasks {
      return Err(NotFound);
    }
    var comment := Comment(taskPk, p.id, payload.content.value);
    var id := store.InsertComment(comment);
    PutCommentKeepsConsistent(db, id, comment);
    return Ok(id);
  }

  /** update / partial_update of a comment with the intended gate: any owner or
      member of the route task's board may change the text of a comment of that task
      (only destroy is kept to the author); PUT must carry the content. */
  method UpdateComment(store: Store, p: Principal, m: Method, taskPk: Id, pk: Id, content: Option<string>)
    returns (r: Result<Comment>)
    requires Serving(store, p) && (m == PUT || m == PATCH)
    modifies store
    ensures Serving(store, p)
    ensures p.Anonymous? ==> r == Err(Unauthenticated)
    ensures r.Ok? ==>
      && p.Authenticated? && ReadableTask(old(store.State()), p.id, taskPk)
      && pk in old(store.comments) && old(store.comments)[pk].task == taskPk
    ensures p.Authenticated? && !ReadableTask(old(store.State()), p.id, taskPk) ==> r == Err(Forbidden)
    ensures p.Authenticated? && ReadableTask(old(store.State()), p.id, taskPk) ==>
      (FindComment(old(store.State()), taskPk, pk).Err? ==> r == Err(NotFound))
    ensures p.Authenticated? && ReadableTask(old(store.State()), p.id, taskPk) &&
            pk in old(store.comments) && old(store.comments)[pk].task == taskPk ==>
      (r.Ok? <==> m == PATCH || content.Some?) && (m == PUT && content.None? ==> r == Err(ValidationFailed(FieldErrors)))
    ensures r.Ok? ==>
      && r.value == old(store.comments)[pk].(content := content.GetOr(old(store.comments)[pk].content))
      && store.State() == old(store.State()).(comments := old(store.comments)[pk := r.value])
    ensures r.Err? ==> store.State() == old(store.State())
  {
    if p.Anonymous? {
      return Err(Unauthenticated);
    }
    var db := store.State();
    var found := RetrieveComment(db, p, taskPk, pk);
    if found.Err? {
      return Err(found.error);
    }
    if m == PUT && content.None? {
      return Err(ValidationFailed(FieldErrors));
    }
    var updated := found.value.(content := content.GetOr(found.value.content));
    store.SaveComment(pk, updated);
    PutCommentKeepsConsistent(db, pk, updated);
    return Ok(updated);
  }

  /** destroy (views.py:111-117): IsCommentAuthor admits every request and then lets
      only the author delete; an id that is not a comment of the route's task is 404. */
  method DestroyComment(store: Store, p: Principal, taskPk: Id, pk: Id) returns (r: Result<()>)
    requires Serving(store, p)
    modifies store
    ensures Serving(store, p)
    ensures p.Anonymous? ==> r == Err(Unauthenticated)
    ensures p.Authenticated? && FindComment(old(store.State()), taskPk, pk).Err? ==> r == Err(NotFound)
    ensures p.Authenticated? && FindComment(old(store.State()), taskPk, pk).Ok? ==>
      (old(store.comments)[pk].author != p.id ==> r == Err(Forbidden))
    ensures r.Ok? <==>
      && p.Authenticated? && pk in old(store.comments)
      && old(store.comments)[pk].task == taskPk && old(store.comments)[pk].author == p.id
    ensures r.Ok? ==> store.State() == WithoutComment(old(store.State()), pk)
    ensures r.Err? ==> store.State() == old(store.State())
  {
    if p.Anonymous? {
      return Err(Unauthenticated);
    }
    var db := store.State();
    var found := FindComment(db, taskPk, pk);
    if found.Err? {
      return Err(found.error);
    }
    if !CommentObjectPermission(found.value, p.id) {
      return Err(Forbidden);
    }
    store.DeleteComment(pk);
    WithoutCommentKeepsConsistent(db, pk);
    return Ok(());
  }
}
