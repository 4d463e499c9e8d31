/** The validation and construction logic of kanban_app/api/serializers.py: which
    payloads are accepted, which rows they produce, and the summary counts shown for a
    board. */
module Serializers {
  import opened Requests
  import opened Models

  // ---------------------------------------------------------------------------
  // Member id lists (BoardSerializer, BoardUpdateSerializer)

  /** `set(ids)` */
  function Elements(ids: seq<Id>): set<Id> {
    set i | i in ids
  }

  /** The owner's id is appended when the list lacks it (serializers.py:153-154 and
      187-188); nothing else about the list changes. */
  function WithOwner(ids: seq<Id>, owner: Id): (r: seq<Id>)
    ensures owner in r
    ensures Elements(r) == Elements(ids) + {owner}
    ensures |ids| <= |r| <= |ids| + 1 && r[..|ids|] == ids
  {
    if owner in ids then ids else ids + [owner]
  }

  lemma SubsetCard(a: set<Id>, b: set<Id>)
    requires a <= b
    ensures |a| <= |b|
  {
    assert b == a + (b - a);
  }

  /** The users matched by `wanted` are as many as `wanted` exactly when all of it names users. */
  lemma MatchCount(users: set<Id>, wanted: set<Id>)
    ensures |users * wanted| == |wanted| <==> wanted <= users
  {
    assert wanted == users * wanted + (wanted - users);
    assert (users * wanted) * (wanted - users) == {};
    if wanted - users == {} {
      assert users * wanted == wanted;
    }
  }

  /** The existence check `len(User.objects.filter(id__in=ids)) != len(set(ids))`
      (serializers.py:128-129, 190-191): it passes exactly when every id names a user,
      duplicates in the list being harmless. */
  function AllUsersExist(users: set<Id>, ids: seq<Id>): (ok: bool)
    ensures ok <==> Elements(ids) <= users
  {
    var wanted := Elements(ids);
    MatchCount(users, wanted);
    |users * wanted| == |wanted|
  }

  // ---------------------------------------------------------------------------
  // Boards

  datatype BoardPayload = BoardPayload(title: Option<string>, members: Option<seq<Id>>)

  /** BoardSerializer: the field checks (title and members are required) and validate
      (serializers.py:125-131). On success returns the member id list. */
  function ValidateNewBoard(users: set<Id>, p: BoardPayload): (r: Result<seq<Id>>)
    ensures r.Ok? <==> p.title.Some? && p.members.Some? && Elements(p.members.value) <= users
    ensures r.Ok? ==> r.value == p.members.value
    ensures p.title.Some? && p.members.Some? && !(Elements(p.members.value) <= users) ==>
              r == Err(ValidationFailed(UnknownUsers))
  {
    if p.title.None? || p.members.None? then Err(ValidationFailed(FieldErrors))
    else if !AllUsersExist(users, p.members.value) then Err(ValidationFailed(UnknownUsers))
    else Ok(p.members.value)
  }

  /** BoardSerializer.create (serializers.py:149-158): the requesting user owns the new
      board and is among its members, next to every listed user. */
  function CreatedBoard(users: set<Id>, title: string, ids: seq<Id>, owner: Id): (b: Board)
    requires owner in users
    ensures b.title == title
    ensures b.owner == owner && owner in b.members && b.members <= users
    ensures Elements(ids) <= users ==> b.members == Elements(ids) + {owner}
  {
    Board(title, owner, users * Elements(WithOwner(ids, owner)))
  }

  /** The id list validate_members hands on (serializers.py:186-188): the owner's id is
      appended when it is truthy and missing. */
  function NewMemberIds(board: Board, value: seq<Id>): (r: seq<Id>)
    ensures board.owner != 0 ==> board.owner in r && Elements(r) == Elements(value) + {board.owner}
    ensures board.owner == 0 ==> r == value
  {
    if board.owner != 0 then WithOwner(value, board.owner) else value
  }

  /** A task links one of the `removed` users as assignee or reviewer
      (`task.assignee_id in removed_ids or task.reviewer_id in removed_ids`). */
  predicate Links(t: Task, removed: set<Id>) {
    (t.assignee.Some? && t.assignee.value in removed) || (t.reviewer.Some? && t.reviewer.value in removed)
  }

  /** The non-null ids among a task's assignee and reviewer. */
  function People(t: Task): set<Id> {
    (if t.assignee.Some? then {t.assignee.value} else {}) + (if t.reviewer.Some? then {t.reviewer.value} else {})
  }

  /** The users reported for the tasks `ts`: assignee and reviewer of every one of them
      that links a removed user. */
  function BlockedAmong(db: Db, ts: set<Id>, removed: set<Id>): set<Id> {
    set t, u | t in ts && t in db.tasks && Links(db.tasks[t], removed) && u in People(db.tasks[t]) :: u
  }

  /** The users reported when `removed` leave board `b` (serializers.py:198-206). */
  function Blocked(db: Db, b: Id, removed: set<Id>): set<Id> {
    BlockedAmong(db, TasksOn(db, {b}), removed)
  }

  /** The loop of validate_members (serializers.py:198-206): for every task of the
      board that links a removed user, both its assignee id and its reviewer id are
      collected, null included; null is discarded at the end. */
  method BlockedUsers(db: Db, b: Id, removed: set<Id>) returns (blocked: set<Id>)
    ensures blocked == Blocked(db, b, removed)
  {
    var boardTasks := TasksOn(db, {b});
    var found: set<Option<Id>> := {};
    var todo := boardTasks;
    while exists t :: t in todo
      invariant todo <= boardTasks
      invariant NonNull(found) == BlockedAmong(db, boardTasks - todo, removed)
      decreases todo
    {
      var t :| t in todo;
      var task := db.tasks[t];
      BlockedAmongStep(db, boardTasks - todo, t, removed);
      if Links(task, removed) {
        NonNullAdd(found, task);
        found := found + {task.assignee, task.reviewer};
      }
      assert boardTasks - (todo - {t}) == (boardTasks - todo) + {t};
      todo := todo - {t};
    }
    assert boardTasks - todo == boardTasks;
    blocked := NonNull(found);
  }

  /** `discard(None)` */
  function NonNull(found: set<Option<Id>>): set<Id> {
    set o | o in found && o.Some? :: o.value
  }

  lemma NonNullAdd(found: set<Option<Id>>, task: Task)
    ensures NonNull(found + {task.assignee, task.reviewer}) == NonNull(found) + People(task)
  {
  }

  lemma BlockedAmongStep(db: Db, done: set<Id>, t: Id, removed: set<Id>)
    requires t in db.tasks
    ensures BlockedAmong(db, done + {t}, removed) ==
      BlockedAmong(db, done, removed) + (if Links(db.tasks[t], removed) then People(db.tasks[t]) else {})
  {
    var extra := if Links(db.tasks[t], removed) then People(db.tasks[t]) else {};
    forall u | u in extra
      ensures u in BlockedAmong(db, done + {t}, removed)
    {
      assert t in done + {t};
    }
  }

  /** BoardUpdateSerializer.validate_members (serializers.py:184-211): the owner is put
      back, every id must name a user, and no task of the board may link a user the
      new list drops; on success the (possibly extended) list is handed on. */
  method ValidateMembers(db: Db, b: Id, value: seq<Id>) returns (r: Result<seq<Id>>)
    requires b in db.boards
    ensures var ids := NewMemberIds(db.boards[b], value);
      && (!AllUsersExist(db.users, ids) ==> r == Err(ValidationFailed(UnknownUsers)))
      && (AllUsersExist(db.users, ids) ==>
            var blocked := Blocked(db, b, db.boards[b].members - Elements(ids));
            r == if blocked == {} then Ok(ids) else Err(ValidationFailed(MembersLinkedToTasks(blocked))))
  {
    var ids := NewMemberIds(db.boards[b], value);
    if !AllUsersExist(db.users, ids) {
      return Err(ValidationFailed(UnknownUsers));
    }
    var removed := db.boards[b].members - Elements(ids);
    var blocked := BlockedUsers(db, b, removed);
    if blocked != {} {
      return Err(ValidationFailed(MembersLinkedToTasks(blocked)));
    }
    return Ok(ids);
  }

  /** BoardUpdateSerializer.update (serializers.py:213-223): the title changes only when
      one is supplied, the members only when a list is supplied. */
  function UpdatedBoard(users: set<Id>, board: Board, title: Option<string>, members: Option<seq<Id>>): (r: Board)
    ensures r.owner == board.owner
    ensures title.Some? ==> r.title == title.value
    ensures title.None? ==> r.title == board.title
    ensures members.None? ==> r.members == board.members
    ensures members.Some? ==> forall u :: u in r.members <==> u in users && u in members.value
  {
    board.(title := title.GetOr(board.title),
           members := if members.Some? then users * Elements(members.value) else board.members)
  }

  // ---------------------------------------------------------------------------
  // What the member checks guarantee

  /** The report is empty exactly when no task of the board has its assignee or its
      reviewer among the removed users. */
  lemma BlockedEmptyIff(db: Db, b: Id, removed: set<Id>)
    ensures Blocked(db, b, removed) == {} <==>
      forall t :: t in db.tasks && db.tasks[t].board == b ==> !Links(db.tasks[t], removed)
  {
    if exists t :: t in db.tasks && db.tasks[t].board == b && Links(db.tasks[t], removed) {
      var t :| t in db.tasks && db.tasks[t].board == b && Links(db.tasks[t], removed);
      var u := if db.tasks[t].assignee.Some? && db.tasks[t].assignee.value in removed
               then db.tasks[t].assignee.value else db.tasks[t].reviewer.value;
      assert u in People(db.tasks[t]);
      assert u in Blocked(db, b, removed);
    }
  }

  /** Every removed user that a task of the board links is reported, and so is that
      task's other linked user even when that one is staying. */
  lemma BlockedReportsBothLinks(db: Db, b: Id, removed: set<Id>, t: Id)
    requires t in db.tasks && db.tasks[t].board == b && Links(db.tasks[t], removed)
    ensures People(db.tasks[t]) <= Blocked(db, b, removed)
  {
    forall u | u in People(db.tasks[t])
      ensures u in Blocked(db, b, removed)
    {
      assert t in TasksOn(db, {b});
    }
  }

  /** Dropping members that the board's tasks do not link keeps every task of the
      board staffed and keeps the owner a member: the check lets through only updates
      that preserve the application invariant. */
  lemma MemberUpdateKeepsConsistent(db: Db, b: Id, title: Option<string>, value: seq<Id>)
    requires Consistent(db) && b in db.boards
    requires var ids := NewMemberIds(db.boards[b], value);
      AllUsersExist(db.users, ids) && Blocked(db, b, db.boards[b].members - Elements(ids)) == {}
    ensures var ids := NewMemberIds(db.boards[b], value);
      Consistent(db.(boards := db.boards[b := UpdatedBoard(db.users, db.boards[b], title, Some(ids))]))
  {
    var ids := NewMemberIds(db.boards[b], value);
    var removed := db.boards[b].members - Elements(ids);
    var nb := UpdatedBoard(db.users, db.boards[b], title, Some(ids));
    var db' := db.(boards := db.boards[b := nb]);
    BlockedEmptyIff(db, b, removed);
    forall t | t in db'.tasks && db'.tasks[t].board in db'.boards
      ensures Staffed(db'.tasks[t], db'.boards[db'.tasks[t].board])
    {
      if db.tasks[t].board == b {
        assert !Links(db.tasks[t], removed);
      }
    }
  }

  /** Leaving the member list out leaves the board's members as they are. */
  lemma TitleOnlyUpdateKeepsConsistent(db: Db, b: Id, title: Option<string>)
    requires Consistent(db) && b in db.boards
    ensures Consistent(db.(boards := db.boards[b := UpdatedBoard(db.users, db.boards[b], title, None)]))
  {
  }

  // ---------------------------------------------------------------------------
  // Tasks

  datatype TaskPayload = TaskPayload(
    board: Field<Id>,
    title: Option<string>,
    description: Option<string>,
    status: Option<string>,
    priority: Option<string>,
    assigneeId: Field<Id>,
    reviewerId: Field<Id>,
    dueDate: Field<int>)

  /** The field-level checks DRF runs before TaskSerializer.validate: the title is
      required unless the update is partial, status and priority must be among the
      choices, and `board` must name a board (null is refused). */
  predicate TaskFieldsValid(db: Db, p: TaskPayload, partial: bool) {
    && (partial || p.title.Some?)
    && (p.status.Some? ==> p.status.value in StatusChoices)
    && (p.priority.Some? ==> p.priority.value in PriorityChoices)
    && !p.board.Null?
    && (p.board.Given? ==> p.board.value in db.boards)
  }

  /** TaskSerializer.validate (serializers.py:53-83). On success returns the task's
      board (`data['board']`): the payload's on POST, the stored one otherwise. */
  function ValidateTask(db: Db, actor: Id, m: Method, p: TaskPayload, instance: Option<Task>): (r: Result<Id>)
    requires TaskFieldsValid(db, p, true)
    requires m != POST ==> instance.Some? && instance.value.board in db.boards
    ensures r.Ok? ==> r.value in db.boards && actor in db.boards[r.value].members
    ensures r.Ok? ==> (Truthy(p.assigneeId) ==> p.assigneeId.value in db.boards[r.value].members)
    ensures r.Ok? ==> (Truthy(p.reviewerId) ==> p.reviewerId.value in db.boards[r.value].members)
    ensures m == POST ==> (p.board.Absent? <==> r == Err(ValidationFailed(BoardRequired)))
    ensures m == POST && r.Ok? ==> p.board == Given(r.value)
    ensures m != POST ==> (p.board.Given? <==> r == Err(ValidationFailed(BoardChangeForbidden)))
    ensures m != POST && r.Ok? ==> r.value == instance.value.board
  {
    if m == POST && !p.board.Given? then Err(ValidationFailed(BoardRequired))
    else if m != POST && p.board.Given? then Err(ValidationFailed(BoardChangeForbidden))
    else
      var b := if m == POST then p.board.value else instance.value.board;
      var members := db.boards[b].members;
      if actor !in members then Err(ValidationFailed(ActorNotMember))
      else if Truthy(p.assigneeId) && p.assigneeId.value !in members then Err(ValidationFailed(AssigneeNotMember))
      else if Truthy(p.reviewerId) && p.reviewerId.value !in members then Err(ValidationFailed(ReviewerNotMember))
      else Ok(b)
  }

  /** The membership checks run in a fixed order once the board is known: the actor,
      then a given assignee, then a given reviewer, each failure with its own reason;
      the payload passes exactly when all three hold. */
  lemma ValidateTaskOrder(db: Db, actor: Id, m: Method, p: TaskPayload, instance: Option<Task>, b: Id)
    requires TaskFieldsValid(db, p, true)
    requires m != POST ==> instance.Some? && instance.value.board in db.boards
    requires if m == POST then p.board == Given(b) else p.board.Absent? && b == instance.value.board
    ensures var members := db.boards[b].members;
      var r := ValidateTask(db, actor, m, p, instance);
      && (actor !in members ==> r == Err(ValidationFailed(ActorNotMember)))
      && (actor in members && Truthy(p.assigneeId) && p.assigneeId.value !in members ==>
            r == Err(ValidationFailed(AssigneeNotMember)))
      && (actor in members && (Truthy(p.assigneeId) ==> p.assigneeId.value in members) &&
          Truthy(p.reviewerId) && p.reviewerId.value !in members ==>
            r == Err(ValidationFailed(ReviewerNotMember)))
      && (r == Ok(b) <==>
            actor in members && (Truthy(p.assigneeId) ==> p.assigneeId.value in members) &&
            (Truthy(p.reviewerId) ==> p.reviewerId.value in members))
  {
  }

  /** The user a truthy id names, or null (serializers.py:96-97). */
  function UserOrNull(f: Field<Id>): Option<Id> {
    if Truthy(f) then Some(f.value) else None
  }

  /** TaskSerializer.create (serializers.py:89-100) with the model's defaults for the
      fields the payload leaves out. */
  function CreatedTask(board: Id, actor: Id, p: TaskPayload): (t: Task)
    requires p.title.Some?
    ensures t.board == board && t.createdBy == actor && t.title == p.title.value
    ensures t.description == (if p.description.Some? then p.description.value else "")
    ensures t.assignee.Some? <==> Truthy(p.assigneeId)
    ensures Truthy(p.assigneeId) ==> t.assignee == Some(p.assigneeId.value)
    ensures t.reviewer.Some? <==> Truthy(p.reviewerId)
    ensures Truthy(p.reviewerId) ==> t.reviewer == Some(p.reviewerId.value)
    ensures t.dueDate == (if p.dueDate.Given? then Some(p.dueDate.value) else None)
    ensures t.status == (if p.status.Some? then p.status.value else StatusDefault)
    ensures t.priority == (if p.priority.Some? then p.priority.value else PriorityDefault)
  {
    Task(board, p.title.value, p.description.GetOr(""),
         p.status.GetOr(StatusDefault), p.priority.GetOr(PriorityDefault),
         UserOrNull(p.assigneeId), UserOrNull(p.reviewerId),
         if p.dueDate.Given? then Some(p.dueDate.value) else None,
         actor)
  }

  /** A created task belongs to the validated board, is created by the actor, refers
      only to existing rows and keeps assignee and reviewer among the board's members;
      an id that is not given (or is 0) leaves the link null, and a task created
      without a status gets the default 'todo', which is none of the four choices. */
  lemma CreatedTaskFacts(db: Db, actor: Id, p: TaskPayload, b: Id)
    requires Integrity(db) && actor in db.users
    requires TaskFieldsValid(db, p, false) && ValidateTask(db, actor, POST, p, None) == Ok(b)
    ensures var t := CreatedTask(b, actor, p);
      && t.board == b && t.createdBy == actor
      && TaskRefs(db, t) && Staffed(t, db.boards[b])
      && (!Truthy(p.assigneeId) ==> t.assignee.None?)
      && (!Truthy(p.reviewerId) ==> t.reviewer.None?)
      && (p.status.None? <==> t.status !in StatusChoices)
      && t.priority in PriorityChoices
  {
  }

  /** The value ModelSerializer.update writes into a nullable foreign key. */
  function Written(current: Option<Id>, f: Field<Id>): Option<Id> {
    match f
    case Absent => current
    case Null => None
    case Given(v) => Some(v)
  }

  /** ModelSerializer.update after validate: every validated field is written onto the
      row; `board` is written back as it was and created_by is no serializer field. */
  function UpdatedTask(t: Task, p: TaskPayload): (r: Task)
    ensures r.board == t.board && r.createdBy == t.createdBy
    ensures p.title.Some? ==> r.title == p.title.value
    ensures p.title.None? ==> r.title == t.title
    ensures p.description.Some? ==> r.description == p.description.value
    ensures p.description.None? ==> r.description == t.description
    ensures p.status.Some? ==> r.status == p.status.value
    ensures p.status.None? ==> r.status == t.status
    ensures p.priority.Some? ==> r.priority == p.priority.value
    ensures p.priority.None? ==> r.priority == t.priority
    ensures p.dueDate.Given? ==> r.dueDate == Some(p.dueDate.value)
    ensures p.dueDate.Null? ==> r.dueDate.None?
    ensures p.dueDate.Absent? ==> r.dueDate == t.dueDate
    ensures p.assigneeId.Given? ==> r.assignee == Some(p.assigneeId.value)
    ensures p.assigneeId.Null? ==> r.assignee.None?
    ensures p.assigneeId.Absent? ==> r.assignee == t.assignee
    ensures p.reviewerId.Given? ==> r.reviewer == Some(p.reviewerId.value)
    ensures p.reviewerId.Null? ==> r.reviewer.None?
    ensures p.reviewerId.Absent? ==> r.reviewer == t.reviewer
    ensures p == EmptyPatch ==> r == t
  {
    t.(title := p.title.GetOr(t.title),
       description := p.description.GetOr(t.description),
       status := p.status.GetOr(t.status),
       priority := p.priority.GetOr(t.priority),
       assignee := Written(t.assignee, p.assigneeId),
       reviewer := Written(t.reviewer, p.reviewerId),
       dueDate := match p.dueDate case Absent => t.dueDate case Null => None case Given(d) => Some(d))
  }

  /** A PATCH that carries no field. */
  const EmptyPatch := TaskPayload(Absent, None, None, None, None, Absent, Absent, Absent)

  /** Sending the same payload twice writes the same row: the update is idempotent. */
  lemma UpdatedTaskIdempotent(t: Task, p: TaskPayload)
    ensures UpdatedTask(UpdatedTask(t, p), p) == UpdatedTask(t, p)
  {
  }

  /** An update with the payload a task was created from, its `board` key removed,
      leaves that task as it is, unless an assignee or reviewer id was sent as 0:
      create reads 0 as "nobody", update writes it as the id 0. */
  lemma ReplayCreatePayload(b: Id, actor: Id, p: TaskPayload)
    requires p.title.Some? && p.board.Absent?
    ensures UpdatedTask(CreatedTask(b, actor, p), p) == CreatedTask(b, actor, p) <==>
              p.assigneeId != Given(0) && p.reviewerId != Given(0)
  {
  }

  /** Field validation keeps status and priority among the choices: an update with a
      valid payload leaves a task whose status and priority are choices with choices,
      and of a created task only a missing status falls outside them. */
  lemma ValidFieldsKeepChoices(db: Db, p: TaskPayload, t: Task, b: Id, actor: Id)
    requires TaskFieldsValid(db, p, true)
    ensures t.status in StatusChoices && t.priority in PriorityChoices ==>
              UpdatedTask(t, p).status in StatusChoices && UpdatedTask(t, p).priority in PriorityChoices
    ensures p.title.Some? ==> CreatedTask(b, actor, p).priority in PriorityChoices
    ensures p.title.Some? ==> (CreatedTask(b, actor, p).status in StatusChoices <==> p.status.Some?)
  {
  }

  /** An update keeps the task's board and creator. Once validated, the written row
      refers only to existing users unless an id is 0 (validate lets 0 through as
      falsy, but no user has it), and then assignee and reviewer are members. */
  lemma UpdatedTaskFacts(db: Db, actor: Id, m: Method, p: TaskPayload, id: Id)
    requires Consistent(db) && id in db.tasks && m != POST
    requires TaskFieldsValid(db, p, true) && ValidateTask(db, actor, m, p, Some(db.tasks[id])).Ok?
    ensures var t := db.tasks[id]; var r := UpdatedTask(t, p);
      && r.board == t.board && r.createdBy == t.createdBy
      && (TaskRefs(db, r) <==> p.assigneeId != Given(0) && p.reviewerId != Given(0))
      && (TaskRefs(db, r) ==> Staffed(r, db.boards[r.board]))
  {
  }
  /** A member removal blocked by one task only goes through once that task's
      assignee is set to null: after the update no task of the board links a removed
      user, so the blocked report is empty. */
  lemma UnassignUnblocks(db: Db, b: Id, id: Id, removed: set<Id>, p: TaskPayload)
    requires id in db.tasks && db.tasks[id].board == b
    requires forall t :: t in db.tasks && db.tasks[t].board == b && t != id ==> !Links(db.tasks[t], removed)
    requires p.assigneeId.Null? && p.reviewerId.Absent?
    requires !(db.tasks[id].reviewer.Some? && db.tasks[id].reviewer.value in removed)
    ensures Blocked(db.(tasks := db.tasks[id := UpdatedTask(db.tasks[id], p)]), b, removed) == {}
  {
    var after := db.(tasks := db.tasks[id := UpdatedTask(db.tasks[id], p)]);
    BlockedEmptyIff(after, b, removed);
  }


  // ---------------------------------------------------------------------------
  // Counts

  /** BoardSerializer.get_ticket_count (serializers.py:137-139). */
  function TicketCount(db: Db, b: Id): (n: nat)
    ensures n <= |db.tasks|
    ensures n == 0 ==> forall t :: t in db.tasks ==> db.tasks[t].board != b
  {
    SubsetCard(TasksOn(db, {b}), db.tasks.Keys);
    var on := TasksOn(db, {b});
    assert forall t :: t in db.tasks && db.tasks[t].board == b ==> t in on;
    assert |on| == 0 ==> on == {};
    |on|
  }

  /** A new task adds one to the ticket count of its board and leaves every other
      board's count alone. */
  lemma TicketCountAfterCreate(db: Db, id: Id, t: Task, b: Id)
    requires id !in db.tasks
    ensures var after := db.(tasks := db.tasks[id := t]);
      TicketCount(after, b) == TicketCount(db, b) + (if t.board == b then 1 else 0)
  {
    var after := db.(tasks := db.tasks[id := t]);
    if t.board == b {
      assert TasksOn(after, {b}) == TasksOn(db, {b}) + {id};
    } else {
      assert TasksOn(after, {b}) == TasksOn(db, {b});
    }
  }

  /** The board's tasks whose status is 'to-do'. */
  function ToDoTasks(db: Db, b: Id): set<Id> {
    set t | t in TasksOn(db, {b}) && db.tasks[t].status == "to-do"
  }

  /** The board's tasks whose priority is 'high'. */
  function HighPrioTasks(db: Db, b: Id): set<Id> {
    set t | t in TasksOn(db, {b}) && db.tasks[t].priority == "high"
  }

  /** get_tasks_to_do_count (serializers.py:141-143): a filtered count of the board's tasks. */
  function ToDoCount(db: Db, b: Id): (n: nat)
    ensures n <= TicketCount(db, b)
  {
    SubsetCard(ToDoTasks(db, b), TasksOn(db, {b}));
    |ToDoTasks(db, b)|
  }

  /** get_tasks_high_prio_count (serializers.py:145-147). */
  function HighPrioCount(db: Db, b: Id): (n: nat)
    ensures n <= TicketCount(db, b)
  {
    SubsetCard(HighPrioTasks(db, b), TasksOn(db, {b}));
    |HighPrioTasks(db, b)|
  }

  /** Inserting task `id` adds it to the task set of its own board and to no other. */
  lemma TasksOnAfterCreate(db: Db, id: Id, t: Task, b: Id)
    requires id !in db.tasks
    ensures var after := db.(tasks := db.tasks[id := t]);
      TasksOn(after, {b}) == TasksOn(db, {b}) + (if t.board == b then {id} else {})
  {
    var after := db.(tasks := db.tasks[id := t]);
    if t.board == b {
      assert TasksOn(after, {b}) == TasksOn(db, {b}) + {id};
    } else {
      assert TasksOn(after, {b}) == TasksOn(db, {b});
    }
  }

  /** Inserting task `id` adds it to the to-do set of its board exactly when its
      status is 'to-do'. */
  lemma ToDoTasksAfterCreate(db: Db, id: Id, t: Task, b: Id)
    requires id !in db.tasks
    ensures var after := db.(tasks := db.tasks[id := t]);
      ToDoTasks(after, b) == ToDoTasks(db, b) + (if t.board == b && t.status == "to-do" then {id} else {})
  {
    var after := db.(tasks := db.tasks[id := t]);
    TasksOnAfterCreate(db, id, t, b);
    forall k | k != id && k in after.tasks
      ensures k in ToDoTasks(after, b) <==> k in ToDoTasks(db, b)
    {
      assert after.tasks[k] == db.tasks[k];
    }
  }

  /** Inserting task `id` adds it to the high-priority set of its board exactly when
      its priority is 'high'. */
  lemma HighPrioTasksAfterCreate(db: Db, id: Id, t: Task, b: Id)
    requires id !in db.tasks
    ensures var after := db.(tasks := db.tasks[id := t]);
      HighPrioTasks(after, b) == HighPrioTasks(db, b) + (if t.board == b && t.priority == "high" then {id} else {})
  {
    var after := db.(tasks := db.tasks[id := t]);
    TasksOnAfterCreate(db, id, t, b);
    forall k | k != id && k in after.tasks
      ensures k in HighPrioTasks(after, b) <==> k in HighPrioTasks(db, b)
    {
      assert after.tasks[k] == db.tasks[k];
    }
  }

  /** A new task adds one to the to-do count of its board when its status is 'to-do',
      and leaves every other count alone. */
  lemma ToDoCountAfterCreate(db: Db, id: Id, t: Task, b: Id)
    requires id !in db.tasks
    ensures var after := db.(tasks := db.tasks[id := t]);
      ToDoCount(after, b) == ToDoCount(db, b) + (if t.board == b && t.status == "to-do" then 1 else 0)
  {
    ToDoTasksAfterCreate(db, id, t, b);
    assert id !in ToDoTasks(db, b);
  }

  /** A new task adds one to the high-priority count of its board when its priority is
      'high', and leaves every other count alone. */
  lemma HighPrioCountAfterCreate(db: Db, id: Id, t: Task, b: Id)
    requires id !in db.tasks
    ensures var after := db.(tasks := db.tasks[id := t]);
      HighPrioCount(after, b) == HighPrioCount(db, b) + (if t.board == b && t.priority == "high" then 1 else 0)
  {
    HighPrioTasksAfterCreate(db, id, t, b);
    assert id !in HighPrioTasks(db, b);
  }

  /** TaskSerializer.get_comments_count (serializers.py:85-87). */
  function CommentCount(db: Db, t: Id): (n: nat)
    ensures n <= |db.comments|
  {
    var on := set c | c in db.comments && db.comments[c].task == t;
    SubsetCard(on, db.comments.Keys);
    |on|
  }

  /** A new comment adds one to the count of its task and leaves every other task's
      count alone. */
  lemma CommentCountAfterCreate(db: Db, id: Id, c: Comment, t: Id)
    requires id !in db.comments
    ensures var after := db.(comments := db.comments[id := c]);
      CommentCount(after, t) == CommentCount(db, t) + (if c.task == t then 1 else 0)
  {
    var after := db.(comments := db.comments[id := c]);
    var before := set k | k in db.comments && db.comments[k].task == t;
    if c.task == t {
      assert (set k | k in after.comments && after.comments[k].task == t) == before + {id};
    } else {
      assert (set k | k in after.comments && after.comments[k].task == t) == before;
    }
  }

  /** A task created without a status is not counted among the board's to-do tasks:
      the default 'todo' differs from the choice 'to-do'. */
  lemma DefaultStatusNotCounted(db: Db, b: Id, t: Id)
    requires t in db.tasks && db.tasks[t].board == b && db.tasks[t].status == StatusDefault
    ensures ToDoCount(db, b) < TicketCount(db, b)
  {
    assert t in TasksOn(db, {b}) && t !in ToDoTasks(db, b);
    SubsetCard(ToDoTasks(db, b), TasksOn(db, {b}) - {t});
  }

  /** The summary BoardSerializer renders for a board. */
  datatype BoardSummary = BoardSummary(
    title: string, owner: Id, memberCount: nat, ticketCount: nat, toDoCount: nat, highPrioCount: nat)

  function Summary(db: Db, b: Id): (s: BoardSummary)
    requires b in db.boards
    ensures s.title == db.boards[b].title && s.owner == db.boards[b].owner
    ensures s.memberCount == |db.boards[b].members|
    ensures s.ticketCount == TicketCount(db, b)
    ensures s.toDoCount == ToDoCount(db, b) && s.highPrioCount == HighPrioCount(db, b)
    ensures s.toDoCount <= s.ticketCount && s.highPrioCount <= s.ticketCount
  {
    BoardSummary(db.boards[b].title, db.boards[b].owner, |db.boards[b].members|,
                 TicketCount(db, b), ToDoCount(db, b), HighPrioCount(db, b))
  }
}
