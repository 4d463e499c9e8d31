/** The tables of kanban_app/models.py (users, boards, tasks, comments), the foreign
    keys between them, and what deleting a row does to the rows that refer to it (the
    on_delete rules). Users are referenced, never owned: their other columns (email,
    names, credentials) belong to the authentication layer and are not modelled. */
module Models {
  import opened Requests

  /** Task.STATUS_CHOICES and the declared default (models.py:38-43, 53). The default
      is NOT one of the choices. */
  const StatusChoices: set<string> := {"to-do", "in-progress", "review", "done"}
  const StatusDefault: string := "todo"

  /** Task.PRIORITY_CHOICES and the declared default (models.py:45-49, 54). */
  const PriorityChoices: set<string> := {"low", "medium", "high"}
  const PriorityDefault: string := "medium"

  /** A board row with its many-to-many member set (models.py:16-18). */
  datatype Board = Board(title: string, owner: Id, members: set<Id>)

  /** A task row (models.py:50-59); the due date is an opaque day number. */
  datatype Task = Task(
    board: Id,
    title: string,
    description: string,
    status: string,
    priority: string,
    assignee: Option<Id>,
    reviewer: Option<Id>,
    dueDate: Option<int>,
    createdBy: Id)

  /** A comment row (models.py:72-74). */
  datatype Comment = Comment(task: Id, author: Id, content: string)

  /** One snapshot of the whole database. */
  datatype Db = Db(
    users: set<Id>,
    boards: map<Id, Board>,
    tasks: map<Id, Task>,
    comments: map<Id, Comment>)

  /** A nullable foreign key is either null or names a row of `s`. */
  predicate RefersTo(o: Option<Id>, s: set<Id>) {
    o.Some? ==> o.value in s
  }

  // ---------------------------------------------------------------------------
  // Referential integrity: what the database's foreign keys guarantee.

  predicate BoardRefs(db: Db, b: Board) {
    b.owner in db.users && b.members <= db.users
  }

  predicate TaskRefs(db: Db, t: Task) {
    && t.board in db.boards
    && t.createdBy in db.users
    && RefersTo(t.assignee, db.users)
    && RefersTo(t.reviewer, db.users)
  }

  predicate CommentRefs(db: Db, c: Comment) {
    c.task in db.tasks && c.author in db.users
  }

  /** Auto-increment keys start at 1, so no user id is 0. */
  predicate UserIdsPositive(db: Db) {
    forall u :: u in db.users ==> u >= 1
  }

  predicate BoardRefsOk(db: Db) {
    forall b :: b in db.boards ==> BoardRefs(db, db.boards[b])
  }

  predicate TaskRefsOk(db: Db) {
    forall t :: t in db.tasks ==> TaskRefs(db, db.tasks[t])
  }

  predicate CommentRefsOk(db: Db) {
    forall c :: c in db.comments ==> CommentRefs(db, db.comments[c])
  }

  /** No row refers to a missing row. */
  predicate Integrity(db: Db) {
    UserIdsPositive(db) && BoardRefsOk(db) && TaskRefsOk(db) && CommentRefsOk(db)
  }

  // ---------------------------------------------------------------------------
  // The application invariant the API keeps on top of the foreign keys.

  /** Assignee and reviewer, where set, are members of the board. */
  predicate Staffed(t: Task, b: Board) {
    RefersTo(t.assignee, b.members) && RefersTo(t.reviewer, b.members)
  }

  predicate OwnersAreMembers(db: Db) {
    forall b :: b in db.boards ==> db.boards[b].owner in db.boards[b].members
  }

  predicate TasksStaffed(db: Db) {
    forall t :: t in db.tasks && db.tasks[t].board in db.boards ==>
      Staffed(db.tasks[t], db.boards[db.tasks[t].board])
  }

  predicate Consistent(db: Db) {
    Integrity(db) && OwnersAreMembers(db) && TasksStaffed(db)
  }

  // ---------------------------------------------------------------------------
  // The on_delete rules as functions from the database before to the database after.

  /** Dropping task rows drops the comments on them (Comment.task is CASCADE). */
  function WithoutTasks(db: Db, doomed: set<Id>): Db {
    db.(tasks := db.tasks - doomed,
        comments := map c | c in db.comments && db.comments[c].task !in doomed :: db.comments[c])
  }

  /** The tasks that sit on one of the boards `bs` (Task.board). */
  function TasksOn(db: Db, bs: set<Id>): set<Id> {
    set t | t in db.tasks && db.tasks[t].board in bs
  }

  /** Deleting a comment: nothing refers to comments. */
  function WithoutComment(db: Db, c: Id): Db {
    db.(comments := db.comments - {c})
  }

  /** Deleting a task cascades to its comments (models.py:72). */
  function WithoutTask(db: Db, t: Id): Db {
    WithoutTasks(db, {t})
  }

  /** Deleting a board cascades to its tasks (models.py:50) and their comments. */
  function WithoutBoard(db: Db, b: Id): Db {
    WithoutTasks(db, TasksOn(db, {b})).(boards := db.boards - {b})
  }

  /** The member rows of a deleted user go with the user. */
  function Leave(b: Board, u: Id): Board {
    b.(members := b.members - {u})
  }

  /** SET_NULL of Task.assignee and Task.reviewer (models.py:55-56). */
  function Cleared(o: Option<Id>, u: Id): Option<Id> {
    if o == Some(u) then None else o
  }

  function Unlink(t: Task, u: Id): Task {
    t.(assignee := Cleared(t.assignee, u), reviewer := Cleared(t.reviewer, u))
  }

  /** Boards a user owns (Board.owner is CASCADE, models.py:17). */
  function OwnedBy(db: Db, u: Id): set<Id> {
    set b | b in db.boards && db.boards[b].owner == u
  }

  /** Tasks deleted with a user: those on boards the user owns, and those the user
      created (Task.created_by is CASCADE, models.py:59). */
  function DoomedWith(db: Db, u: Id): set<Id> {
    set t | t in db.tasks && (db.tasks[t].board in OwnedBy(db, u) || db.tasks[t].createdBy == u)
  }

  /** Deleting a user: owned boards, created tasks and authored comments
      (Comment.author is CASCADE, models.py:73) go, with everything that cascades
      from them; the user's assignments and reviews are set to null; the user's
      memberships are removed. */
  function WithoutUser(db: Db, u: Id): Db {
    var owned := OwnedBy(db, u);
    var d := WithoutTasks(db, DoomedWith(db, u));
    Db(db.users - {u},
       map b | b in db.boards && b !in owned :: Leave(db.boards[b], u),
       map t | t in d.tasks :: Unlink(d.tasks[t], u),
       map c | c in d.comments && d.comments[c].author != u :: d.comments[c])
  }

  /** Some row still refers to user `u`. */
  predicate Mentions(db: Db, u: Id) {
    || (exists b :: b in db.boards && (db.boards[b].owner == u || u in db.boards[b].members))
    || (exists t :: t in db.tasks &&
          (db.tasks[t].createdBy == u || db.tasks[t].assignee == Some(u) || db.tasks[t].reviewer == Some(u)))
    || (exists c :: c in db.comments && db.comments[c].author == u)
  }

  // ---------------------------------------------------------------------------
  // What each delete does.

  /** Deleting a comment removes that row alone. */
  lemma DeleteCommentEffect(db: Db, c: Id)
    ensures var r := WithoutComment(db, c);
      && r.users == db.users && r.boards == db.boards && r.tasks == db.tasks
      && (forall k :: k in r.comments <==> k in db.comments && k != c)
      && (forall k :: k in r.comments ==> r.comments[k] == db.comments[k])
  {
  }

  /** Deleting a task removes exactly the comments on it; every other row stays as it was. */
  lemma DeleteTaskEffect(db: Db, t: Id)
    ensures var r := WithoutTask(db, t);
      && r.users == db.users && r.boards == db.boards
      && r.tasks.Keys == db.tasks.Keys - {t}
      && (forall k :: k in r.tasks ==> r.tasks[k] == db.tasks[k])
      && (forall c :: c in r.comments <==> c in db.comments && db.comments[c].task != t)
      && (forall c :: c in r.comments ==> r.comments[c] == db.comments[c])
  {
  }

  /** Deleting a board removes the tasks on it and, through them, their comments;
      other boards, tasks and comments stay as they were. */
  lemma DeleteBoardEffect(db: Db, b: Id)
    requires Integrity(db)
    ensures var r := WithoutBoard(db, b);
      && r.users == db.users
      && r.boards.Keys == db.boards.Keys - {b}
      && (forall k :: k in r.boards ==> r.boards[k] == db.boards[k])
      && (forall t :: t in r.tasks <==> t in db.tasks && db.tasks[t].board != b)
      && (forall t :: t in r.tasks ==> r.tasks[t] == db.tasks[t])
      && (forall c :: c in r.comments <==>
            c in db.comments && db.tasks[db.comments[c].task].board != b)
      && (forall c :: c in r.comments ==> r.comments[c] == db.comments[c])
  {
  }

  /** Deleting a user removes the boards they own with everything on them, the tasks
      they created, the comments they wrote; the tasks they were assigned to or
      reviewing survive with that link set to null; afterwards no row refers to them. */
  lemma DeleteUserEffect(db: Db, u: Id)
    requires Integrity(db)
    ensures var r := WithoutUser(db, u);
      && r.users == db.users - {u}
      && (forall b :: b in r.boards <==> b in db.boards && db.boards[b].owner != u)
      && (forall b :: b in r.boards ==> r.boards[b] == Leave(db.boards[b], u))
      && (forall t :: t in r.tasks <==>
            t in db.tasks && db.tasks[t].createdBy != u && db.boards[db.tasks[t].board].owner != u)
      && (forall t :: t in r.tasks ==> r.tasks[t] == Unlink(db.tasks[t], u))
      && (forall c :: c in r.comments <==>
            c in db.comments && db.comments[c].author != u && db.comments[c].task in r.tasks)
      && (forall c :: c in r.comments ==> r.comments[c] == db.comments[c])
      && !Mentions(r, u)
  {
  }

  // ---------------------------------------------------------------------------
  // No delete leaves a dangling reference.

  lemma WithoutTasksKeepsIntegrity(db: Db, doomed: set<Id>)
    requires Integrity(db)
    ensures Integrity(WithoutTasks(db, doomed))
  {
  }

  lemma WithoutCommentKeepsIntegrity(db: Db, c: Id)
    requires Integrity(db)
    ensures Integrity(WithoutComment(db, c))
  {
  }

  lemma WithoutTaskKeepsIntegrity(db: Db, t: Id)
    requires Integrity(db)
    ensures Integrity(WithoutTask(db, t))
  {
    WithoutTasksKeepsIntegrity(db, {t});
  }

  lemma WithoutBoardKeepsIntegrity(db: Db, b: Id)
    requires Integrity(db)
    ensures Integrity(WithoutBoard(db, b))
  {
  }

  lemma WithoutUserKeepsIntegrity(db: Db, u: Id)
    requires Integrity(db)
    ensures Integrity(WithoutUser(db, u))
  {
  }

  // ---------------------------------------------------------------------------
  // The application invariant survives every delete.

  lemma WithoutCommentKeepsConsistent(db: Db, c: Id)
    requires Consistent(db)
    ensures Consistent(WithoutComment(db, c))
  {
  }

  lemma WithoutTaskKeepsConsistent(db: Db, t: Id)
    requires Consistent(db)
    ensures Consistent(WithoutTask(db, t))
  {
    WithoutTaskKeepsIntegrity(db, t);
  }

  lemma WithoutBoardKeepsConsistent(db: Db, b: Id)
    requires Consistent(db)
    ensures Consistent(WithoutBoard(db, b))
  {
    WithoutBoardKeepsIntegrity(db, b);
  }

  lemma WithoutUserKeepsConsistent(db: Db, u: Id)
    requires Consistent(db)
    ensures Consistent(WithoutUser(db, u))
  {
    WithoutUserKeepsIntegrity(db, u);
  }

  // ---------------------------------------------------------------------------
  // Writes that keep the invariant

  /** A new board whose owner is among its members, all of them users, keeps the
      invariant: no task refers to the fresh key yet. */
  lemma AddBoardKeepsConsistent(db: Db, id: Id, b: Board)
    requires Consistent(db) && id !in db.boards && BoardRefs(db, b) && b.owner in b.members
    ensures Consistent(db.(boards := db.boards[id := b]))
  {
  }

  /** Writing a task row (new or existing) that refers to existing rows and whose
      assignee and reviewer are members of its board keeps the invariant. */
  lemma PutTaskKeepsConsistent(db: Db, id: Id, t: Task)
    requires Consistent(db) && TaskRefs(db, t) && Staffed(t, db.boards[t.board])
    ensures Consistent(db.(tasks := db.tasks[id := t]))
  {
  }

  /** Writing a comment row that refers to existing rows keeps the invariant. */
  lemma PutCommentKeepsConsistent(db: Db, id: Id, c: Comment)
    requires Consistent(db) && CommentRefs(db, c)
    ensures Consistent(db.(comments := db.comments[id := c]))
  {
  }

  // ---------------------------------------------------------------------------
  // The database as the ORM changes it: one table at a time, in place.

  class Store {
    var users: set<Id>
    var boards: map<Id, Board>
    var tasks: map<Id, Task>
    var comments: map<Id, Comment>
    // the auto-increment sequences of the three tables
    var nextBoard: Id
    var nextTask: Id
    var nextComment: Id

    function State(): Db
      reads this
    {
      Db(users, boards, tasks, comments)
    }

    ghost predicate Valid()
      reads this
    {
      && Integrity(State())
      && (forall b :: b in boards ==> b < nextBoard)
      && (forall t :: t in tasks ==> t < nextTask)
      && (forall c :: c in comments ==> c < nextComment)
    }

    /** A database holding the given users and nothing else. */
    constructor (accounts: set<Id>)
      requires forall u :: u in accounts ==> u >= 1
      ensures Valid() && Consistent(State())
      ensures State() == Db(accounts, map[], map[], map[])
    {
      users := accounts;
      boards, tasks, comments := map[], map[], map[];
      nextBoard, nextTask, nextComment := 1, 1, 1;
    }

    method InsertBoard(b: Board) returns (id: Id)
      requires Valid() && BoardRefs(State(), b)
      modifies this
      ensures Valid() && id !in old(boards)
      ensures State() == old(State()).(boards := old(boards)[id := b])
    {
      id := nextBoard;
      boards := boards[id := b];
      nextBoard := nextBoard + 1;
    }

    method InsertTask(t: Task) returns (id: Id)
      requires Valid() && TaskRefs(State(), t)
      modifies this
      ensures Valid() && id !in old(tasks)
      ensures State() == old(State()).(tasks := old(tasks)[id := t])
    {
      id := nextTask;
      tasks := tasks[id := t];
      nextTask := nextTask + 1;
    }

    method InsertComment(c: Comment) returns (id: Id)
      requires Valid() && CommentRefs(State(), c)
      modifies this
      ensures Valid() && id !in old(comments)
      ensures State() == old(State()).(comments := old(comments)[id := c])
    {
      id := nextComment;
      comments := comments[id := c];
      nextComment := nextComment + 1;
    }

    method SaveBoard(id: Id, b: Board)
      requires Valid() && id in boards && BoardRefs(State(), b)
      modifies this
      ensures Valid()
      ensures State() == old(State()).(boards := old(boards)[id := b])
    {
      boards := boards[id := b];
    }

    method SaveTask(id: Id, t: Task)
      requires Valid() && id in tasks && TaskRefs(State(), t)
      modifies this
      ensures Valid()
      ensures State() == old(State()).(tasks := old(tasks)[id := t])
    {
      tasks := tasks[id := t];
    }

    method SaveComment(id: Id, c: Comment)
      requires Valid() && id in comments && CommentRefs(State(), c)
      modifies this
      ensures Valid()
      ensures State() == old(State()).(comments := old(comments)[id := c])
    {
      comments := comments[id := c];
    }

    method DeleteComment(id: Id)
      requires Valid()
      modifies this
      ensures Valid()
      ensures State() == WithoutComment(old(State()), id)
    {
      comments := comments - {id};
      WithoutCommentKeepsIntegrity(old(State()), id);
    }

    method DeleteTask(id: Id)
      requires Valid()
      modifies this
      ensures Valid()
      ensures State() == WithoutTask(old(State()), id)
    {
      comments := map c | c in comments && comments[c].task != id :: comments[c];
      tasks := tasks - {id};
      WithoutTaskKeepsIntegrity(old(State()), id);
    }

    method DeleteBoard(id: Id)
      requires Valid()
      modifies this
      ensures Valid()
      ensures State() == WithoutBoard(old(State()), id)
    {
      var doomed := TasksOn(State(), {id});
      comments := map c | c in comments && comments[c].task !in doomed :: comments[c];
      tasks := tasks - doomed;
      boards := boards - {id};
      WithoutBoardKeepsIntegrity(old(State()), id);
    }

    method DeleteUser(u: Id)
      requires Valid()
      modifies this
      ensures Valid()
      ensures State() == WithoutUser(old(State()), u)
    {
      var before := State();
      var owned := OwnedBy(before, u);
      // the rows that cascade: tasks on owned boards or created by u, with their comments
      var rest := WithoutTasks(before, DoomedWith(before, u));
      comments := map c | c in rest.comments && rest.comments[c].author != u :: rest.comments[c];
      tasks := map t | t in rest.tasks :: Unlink(rest.tasks[t], u);
      boards := map b | b in boards && b !in owned :: Leave(boards[b], u);
      users := users - {u};
      assert tasks.Keys <= before.tasks.Keys && comments.Keys <= before.comments.Keys;
      assert boards.Keys <= before.boards.Keys;
      WithoutUserKeepsIntegrity(before, u);
    }
  }
}
