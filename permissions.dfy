/** The allow/deny decisions of kanban_app/api/permissions.py. Each is a pure function
    of the database snapshot, the acting user, the HTTP method and the target; a lookup
    that finds nothing denies. */
module Permissions {
  import opened Requests
  import opened Models

  /** `board.owner == user or board.members.filter(id=user.id).exists()` */
  predicate OwnerOrMember(board: Board, actor: Id) {
    board.owner == actor || actor in board.members
  }

  // ---------------------------------------------------------------------------
  // IsTaskBoardMemberOrOwner

  /** has_object_permission on a task (permissions.py:14-31): DELETE is for the board
      owner and the task's creator, every other method for the board owner and members. */
  predicate TaskObjectPermission(db: Db, actor: Id, m: Method, task: Task)
    requires task.board in db.boards
  {
    var board := db.boards[task.board];
    if m == DELETE then board.owner == actor || task.createdBy == actor
    else OwnerOrMember(board, actor)
  }

  /** The board a POST is checked against (permissions.py:39-54): the payload's `board`
      when it is truthy, otherwise the board of the route's `task_pk`; None when the
      chosen id is missing or names no row. */
  function PostBoard(db: Db, payloadBoard: Field<Id>, taskPk: Option<Id>): (r: Option<Id>)
    requires TaskRefsOk(db)
    ensures r.Some? ==> r.value in db.boards
  {
    if Truthy(payloadBoard) then
      if payloadBoard.value in db.boards then Some(payloadBoard.value) else None
    else if taskPk.Some? && taskPk.value in db.tasks then
      var t := taskPk.value;
      Some(db.tasks[t].board)
    else
      None
  }

  /** The task a non-POST request is checked against (permissions.py:61-69): the route's
      `pk`, falling back to `task_pk` (route values are strings, so any given one is
      truthy); None when neither is given or the id names no task. */
  function RouteTask(db: Db, pk: Option<Id>, taskPk: Option<Id>): (r: Option<Id>)
    ensures r.Some? ==> r.value in db.tasks
  {
    var id := if pk.Some? then pk else taskPk;
    if id.Some? && id.value in db.tasks then id else None
  }

  /** has_permission (permissions.py:33-74), run before any object is fetched. */
  predicate TaskHasPermission(db: Db, actor: Id, m: Method, payloadBoard: Field<Id>,
                              pk: Option<Id>, taskPk: Option<Id>)
    requires TaskRefsOk(db)
  {
    if m == POST then
      match PostBoard(db, payloadBoard, taskPk)
      case None => false
      case Some(b) => OwnerOrMember(db.boards[b], actor)
    else
      match RouteTask(db, pk, taskPk)
      case None => false
      case Some(t) => OwnerOrMember(db.boards[db.tasks[t].board], actor)
  }

  // ---------------------------------------------------------------------------
  // IsBoardMemberOrOwner and IsCommentAuthor

  /** has_object_permission on a board (permissions.py:84-93). */
  predicate BoardObjectPermission(board: Board, actor: Id, m: Method) {
    if m == DELETE then board.owner == actor else OwnerOrMember(board, actor)
  }

  /** has_permission on boards (permissions.py:95-97): any authenticated user. */
  predicate BoardHasPermission(p: Principal) {
    p.Authenticated?
  }

  /** has_object_permission on a comment (permissions.py:103-105). */
  predicate CommentObjectPermission(c: Comment, actor: Id) {
    c.author == actor
  }

  // ---------------------------------------------------------------------------
  // What the decisions mean

  /** Reading or changing a board is for its owner and members; deleting it is for
      the owner alone, so a member who is not the owner may read but not delete. */
  lemma BoardAccessRule(board: Board, actor: Id, m: Method)
    ensures m != DELETE ==> (BoardObjectPermission(board, actor, m) <==> OwnerOrMember(board, actor))
    ensures BoardObjectPermission(board, actor, DELETE) <==> actor == board.owner
    ensures actor in board.members && actor != board.owner ==>
              BoardObjectPermission(board, actor, GET) && !BoardObjectPermission(board, actor, DELETE)
  {
  }

  /** The board gate is authentication alone: a user who neither owns nor belongs to a
      board passes it, and it is the object permission that then refuses every method. */
  lemma BoardGateAdmitsStrangers(board: Board, actor: Id)
    requires actor != board.owner && actor !in board.members
    ensures BoardHasPermission(Authenticated(actor)) && !BoardHasPermission(Anonymous)
    ensures forall m :: !BoardObjectPermission(board, actor, m)
  {
  }

  /** A task may be deleted by the board owner or by its creator; every other method is
      for owner and members. A plain member who did not create the task may change it
      but not delete it; a creator who is no longer a member may delete it (at the
      object level) but not read it. */
  lemma TaskAccessRule(db: Db, actor: Id, task: Task)
    requires task.board in db.boards
    ensures var board := db.boards[task.board];
      && (TaskObjectPermission(db, actor, DELETE, task) <==> actor == board.owner || actor == task.createdBy)
      && (forall m :: m != DELETE ==> (TaskObjectPermission(db, actor, m, task) <==> OwnerOrMember(board, actor)))
      && (actor in board.members && actor != board.owner && actor != task.createdBy ==>
            TaskObjectPermission(db, actor, PATCH, task) && !TaskObjectPermission(db, actor, DELETE, task))
  {
  }

  /** Comment permission is authorship alone: a board owner who did not write the
      comment is denied, although the same owner may delete any task of the board. */
  lemma CommentAuthorOnly(db: Db, owner: Id, c: Comment, task: Task)
    requires task.board in db.boards && db.boards[task.board].owner == owner
    requires c.author != owner
    ensures !CommentObjectPermission(c, owner)
    ensures TaskObjectPermission(db, owner, DELETE, task)
    ensures CommentObjectPermission(c, c.author)
  {
  }

  /** POST resolves its board in a fixed order: a truthy payload `board` decides alone
      (an unknown one denies, whatever the route says); otherwise the route's task
      decides; with neither the request is denied. */
  lemma PostPermissionOrder(db: Db, actor: Id, payloadBoard: Field<Id>, taskPk: Option<Id>)
    requires TaskRefsOk(db)
    ensures Truthy(payloadBoard) ==>
      (TaskHasPermission(db, actor, POST, payloadBoard, None, taskPk) <==>
         payloadBoard.value in db.boards && OwnerOrMember(db.boards[payloadBoard.value], actor))
    ensures !Truthy(payloadBoard) ==>
      (TaskHasPermission(db, actor, POST, payloadBoard, None, taskPk) <==>
         taskPk.Some? && taskPk.value in db.tasks &&
         var t := taskPk.value; OwnerOrMember(db.boards[db.tasks[t].board], actor))
    ensures !Truthy(payloadBoard) && taskPk.None? ==> !TaskHasPermission(db, actor, POST, payloadBoard, None, taskPk)
  {
  }

  /** For every other method the task comes from `pk`, else from `task_pk`; a missing id
      or an unknown task denies; otherwise the answer is the object permission for a
      read of that task. */
  lemma NonPostPermissionRule(db: Db, actor: Id, m: Method, pk: Option<Id>, taskPk: Option<Id>)
    requires TaskRefsOk(db) && m != POST
    ensures var id := if pk.Some? then pk else taskPk;
      TaskHasPermission(db, actor, m, Absent, pk, taskPk) <==>
        id.Some? && id.value in db.tasks && var t := id.value; TaskObjectPermission(db, actor, GET, db.tasks[t])
    ensures pk.None? && taskPk.None? ==> !TaskHasPermission(db, actor, m, Absent, pk, taskPk)
  {
  }

  /** Where every owner is a member, "owner or member" is plain membership. */
  lemma OwnerOrMemberIsMember(db: Db, b: Id, actor: Id)
    requires Consistent(db) && b in db.boards
    ensures OwnerOrMember(db.boards[b], actor) <==> actor in db.boards[b].members
  {
  }
}
