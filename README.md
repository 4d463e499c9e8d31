# KanBan authorization and referential integrity, in Dafny

This project models the rules of the KanBan board API (a Django REST framework app). The rules cover:

- who may read, change or delete a board, a task or a comment;
- which payloads the serializers accept and which rows they write;
- what the database does to dependent rows when a row is deleted.

Users, boards, tasks and comments live in one store: finite maps from ids to rows, plus the set of user ids.

- `requests.dfy` (module `Requests`) holds the shape of a request and of its outcome:
  - the acting principal and the HTTP method;
  - payload keys that may be missing, null or given;
  - the error kinds a request ends in.
- `models.dfy` (module `Models`) holds the tables as datatypes and a database snapshot `Db`.
  - `Integrity` is what the foreign keys guarantee. `Consistent` adds the invariant the API keeps: owners are members, and assignees and reviewers are members of the task's board.
  - The `on_delete` rules are functions (`WithoutTask`, `WithoutBoard`, `WithoutUser`, ...) with lemmas saying what each removes and keeps.
  - `class Store` keeps the tables as fields. Its methods insert, save and delete in place, and each is proved equal to the corresponding function of the old state.
- `permissions.dfy` (module `Permissions`) holds the allow/deny decisions, with lemmas stating each rule both ways.
- `serializers.dfy` (module `Serializers`) holds the validators, the rows that create and update build, and the board summary counts. The member-removal check is a loop over the board's tasks (`BlockedUsers`), proved equal to a set definition (`Blocked`).
- `views.dfy` (module `Views`) holds the handlers, in the framework's order:
  1. authentication;
  2. `has_permission`;
  3. the object lookup and `has_object_permission`;
  4. validation;
  5. the write.

  Read-only endpoints are functions. Writing endpoints are methods on the `Store`. Each write requires and ensures `Serving`: the store's invariant, `Consistent`, and an acting user who exists.

Python truthiness is explicit:

- An integer id read from the JSON payload (`board`, `assignee_id`, `reviewer_id`) counts as given only when it is present, not null and not 0.
- Route ids are strings, so any route id that is present counts.

## Where the code decides

The model follows the code wherever it disagrees with the API's description:

- **Unscoped task list.** `GET tasks/` is described as answering 405, and `TaskViewSet.list` returns 405. But `has_permission` runs first. It finds neither `pk` nor `task_pk` in the route and denies, so every authenticated user gets 403 (`Views.ListAllTasks`).
- **Create a task without a board.** `POST tasks/` without a `board` in the payload is refused by `has_permission` (403). The serializer's "board required" error cannot be reached this way (`Views.CreateTask`).
- **Retrieve an unknown task.** `GET tasks/{id}/` for an unknown task is 403, not 404, because `has_permission` looks the task up first (`Views.RetrieveTask`).
- **Comment on an unknown task.** The intended gate refuses this with 403 before `perform_create` can answer 404. With the code as written, the 404 is reachable only through the payload-`board` path of the first finding.
- **Unknown member ids.** The error does not list them; it only says that some id is unknown (`Reason.UnknownUsers`).
- **Editing comments.** Under the corrected gate (the second finding), any owner or member of the route task's board may change a comment of that task; as written, the gate checks the board of the task whose id equals the comment id. Either way, only destroy is limited to the author.
- **Status default.** The declared default `todo` is none of the four status choices. A task created without a status is therefore never counted as to-do (`Serializers.DefaultStatusNotCounted`).

## Model

| member | source | states |
|---|---|---|
| Models.DeleteCommentEffect | kanban_app/models.py:72-74 | `WithoutComment`: deleting a comment removes that row alone; no other row refers to comments |
| Models.DeleteTaskEffect | kanban_app/models.py:72 | `WithoutTask`: deleting a task removes exactly it and the comments on it; every other row is unchanged |
| Models.DeleteBoardEffect | kanban_app/models.py:50 | `WithoutBoard`: deleting a board removes exactly it, the tasks on it and the comments on those tasks; everything else is unchanged |
| Models.DeleteUserEffect | kanban_app/models.py:17-73 | `WithoutUser`: deleting a user removes the boards they own (with their tasks and comments), the tasks they created and the comments they wrote; assignments and reviews of surviving tasks become null; memberships go; afterwards no row mentions the user |
| Models.WithoutTasksKeepsIntegrity | kanban_app/models.py:72 | dropping tasks together with their comments leaves no comment pointing at a missing task |
| Models.WithoutCommentKeepsIntegrity | kanban_app/models.py:72-73 | deleting a comment leaves every foreign key valid |
| Models.WithoutTaskKeepsIntegrity | kanban_app/models.py:72 | after a task delete no comment refers to a missing task |
| Models.WithoutBoardKeepsIntegrity | kanban_app/models.py:50 | after a board delete no task refers to a missing board and no comment to a missing task |
| Models.WithoutUserKeepsIntegrity | kanban_app/models.py:17-73 | after a user delete no row refers to a missing user, board or task |
| Models.WithoutCommentKeepsConsistent | kanban_app/models.py:72-73 | a comment delete keeps owners as members and tasks staffed by members |
| Models.WithoutTaskKeepsConsistent | kanban_app/models.py:72 | a task delete keeps the application invariant |
| Models.WithoutBoardKeepsConsistent | kanban_app/models.py:50 | a board delete keeps the application invariant |
| Models.WithoutUserKeepsConsistent | kanban_app/models.py:55-56 | the user cascade with SET_NULL keeps every remaining assignee and reviewer a member of the board |
| Models.AddBoardKeepsConsistent | kanban_app/api/serializers.py:149-158 | a new board whose owner is a member keeps the invariant |
| Models.PutTaskKeepsConsistent | kanban_app/api/serializers.py:89-100 | writing a task whose links are valid and whose assignee and reviewer are members keeps the invariant |
| Models.PutCommentKeepsConsistent | kanban_app/api/serializers.py:239-243 | writing a comment on an existing task by an existing user keeps the invariant |
| Models.Store.InsertBoard | kanban_app/api/serializers.py:156 | the new board gets a fresh id, and nothing else changes |
| Models.Store.InsertTask | kanban_app/api/serializers.py:99 | the new task gets a fresh id, and nothing else changes |
| Models.Store.InsertComment | kanban_app/api/serializers.py:243 | the new comment gets a fresh id, and nothing else changes |
| Models.Store.SaveBoard | kanban_app/api/serializers.py:217-221 | the board row is replaced, and nothing else changes |
| Models.Store.SaveTask | kanban_app/models.py:50-59 | the task row is replaced, and nothing else changes |
| Models.Store.SaveComment | kanban_app/models.py:72-74 | the comment row is replaced, and nothing else changes |
| Models.Store.DeleteComment | kanban_app/api/views.py:111-117 | the tables become `WithoutComment` of the old ones |
| Models.Store.DeleteTask | kanban_app/models.py:72 | the tables become `WithoutTask` of the old ones: the task and its comments are gone |
| Models.Store.DeleteBoard | kanban_app/models.py:50 | the tables become `WithoutBoard` of the old ones |
| Models.Store.DeleteUser | kanban_app/models.py:17-73 | the tables become `WithoutUser` of the old ones, with the store invariant kept |
| Permissions.PostBoard | kanban_app/api/permissions.py:39-54 | the board a POST is checked against is one that exists |
| Permissions.RouteTask | kanban_app/api/permissions.py:61-69 | the task a non-POST request is checked against is one that exists |
| Permissions.BoardAccessRule | kanban_app/api/permissions.py:84-93 | `BoardObjectPermission`: non-DELETE board access iff owner or member; DELETE iff owner; a plain member may read but not delete |
| Permissions.BoardGateAdmitsStrangers | kanban_app/api/permissions.py:95-97 | `BoardHasPermission`: the board gate admits every authenticated user, strangers to the board included, and refuses anonymous requests; the object permission then refuses a stranger every method |
| Permissions.TaskAccessRule | kanban_app/api/permissions.py:14-31 | `TaskObjectPermission`: task DELETE iff board owner or task creator; other methods iff owner or member; a plain non-creator member may edit but not delete |
| Permissions.CommentAuthorOnly | kanban_app/api/permissions.py:103-105 | `CommentObjectPermission`: comment permission is authorship; a board owner who did not write the comment is denied |
| Permissions.PostPermissionOrder | kanban_app/api/permissions.py:39-59 | `TaskHasPermission` on POST: a truthy payload board decides alone (unknown denies), else the route task's board, else deny |
| Permissions.NonPostPermissionRule | kanban_app/api/permissions.py:61-74 | `TaskHasPermission` on other methods: the task from `pk`, else `task_pk`; a missing or unknown task denies, otherwise owner-or-member of its board decides |
| Permissions.OwnerOrMemberIsMember | kanban_app/api/permissions.py:28-31 | where owners are members, owner-or-member is plain membership |
| Serializers.WithOwner | kanban_app/api/serializers.py:153-154 | the owner's id is in the result, which keeps the list as a prefix and adds at most the owner |
| Serializers.MatchCount | kanban_app/api/serializers.py:128-129 | comparing the count of matched users with the count of distinct ids succeeds iff every id is a user |
| Serializers.AllUsersExist | kanban_app/api/serializers.py:125-131 | the existence check passes iff every listed id is a user (duplicates tolerated) |
| Serializers.ValidateNewBoard | kanban_app/api/serializers.py:125-131 | accepted iff title and members are given and every member id is a user; otherwise an unknown id is the unknown-users error |
| Serializers.CreatedBoard | kanban_app/api/serializers.py:149-158 | the new board has the sent title; the actor owns it and is a member; the members are the listed users plus the owner, all of them users |
| Serializers.NewMemberIds | kanban_app/api/serializers.py:186-188 | the new member list holds exactly the listed ids plus the owner when the owner id is truthy; with an owner id of 0 the list is handed on unchanged |
| Serializers.BlockedUsers | kanban_app/api/serializers.py:198-206 | the loop's collected ids, null discarded, equal `Blocked`: assignee and reviewer of every board task that links a removed member |
| Serializers.ValidateMembers | kanban_app/api/serializers.py:184-211 | an unknown id fails first; then the update fails iff the blocked set is non-empty, reporting that set; otherwise it hands on the list with the owner restored |
| Serializers.BlockedEmptyIff | kanban_app/api/serializers.py:194-209 | the report is empty iff no task of the board has its assignee or reviewer among the removed members |
| Serializers.BlockedReportsBothLinks | kanban_app/api/serializers.py:201-204 | a linking task reports both its assignee and its reviewer, even the one who stays |
| Serializers.MemberUpdateKeepsConsistent | kanban_app/api/serializers.py:184-223 | a member update that passes the checks keeps the owner a member and every task of the board staffed |
| Serializers.TitleOnlyUpdateKeepsConsistent | kanban_app/api/serializers.py:213-223 | an update without a member list leaves the members and the invariant alone |
| Serializers.UpdatedBoard | kanban_app/api/serializers.py:213-223 | the owner never changes; a sent title becomes the board's title and a missing one leaves it; a given list makes the members exactly the listed ids that are users, a missing one leaves them |
| Serializers.ValidateTask | kanban_app/api/serializers.py:53-83 | POST without a board fails; a non-POST payload with `board` fails; success returns the payload's board (POST) or the stored one; the actor and any given assignee and reviewer are members of it |
| Serializers.ValidateTaskOrder | kanban_app/api/serializers.py:70-80 | actor, then assignee, then reviewer membership are checked in that order, each with its own error; success iff all hold |
| Serializers.ValidFieldsKeepChoices | kanban_app/models.py:38-54 | `TaskFieldsValid`: a payload that passes field validation keeps status and priority among the choices on update; on create the priority is always a choice and the status is one iff it was sent |
| Serializers.CreatedTask | kanban_app/api/serializers.py:89-100 | the new task is on the given board, created by the actor, with the sent title; the description is the sent one or empty; assignee and reviewer are the sent ids when truthy and null otherwise; the due date is the sent one or null; status and priority fall back to the model defaults |
| Serializers.CreatedTaskFacts | kanban_app/api/serializers.py:89-100 | the created task is the actor's, on the validated board, with valid links and member assignee and reviewer; ids not given become null; the status is a choice iff one was given |
| Serializers.UpdatedTask | kanban_app/api/serializers.py:53-83 | an update writes every sent field (title, description, status, priority, due date, assignee id, reviewer id), a null clears a due date, assignee or reviewer, and every field not sent keeps its value; board and creator never change |
| Serializers.UpdatedTaskIdempotent | kanban_app/api/serializers.py:53-83 | sending the same update twice writes the same row as sending it once |
| Serializers.ReplayCreatePayload | kanban_app/api/serializers.py:92-99 | an update with the create payload, its `board` key removed, leaves the created task unchanged iff no assignee or reviewer id is 0 (create reads 0 as nobody, update writes it) |
| Serializers.UpdatedTaskFacts | kanban_app/api/serializers.py:65-83 | an update keeps board and creator; the written row has valid links iff no id is 0, and then its assignee and reviewer are members |
| Serializers.UnassignUnblocks | kanban_app/api/serializers.py:194-209 | when one task alone blocks a member removal by its assignee, an update that sets that assignee to null leaves nothing blocked, so the removal can then go through |
| Serializers.TicketCount | kanban_app/api/serializers.py:137-139 | the ticket count is at most the number of tasks, and it is 0 only when no task is on the board |
| Serializers.TicketCountAfterCreate | kanban_app/api/serializers.py:137-139 | a new task adds exactly one to its own board's ticket count and leaves every other board's count unchanged |
| Serializers.ToDoCount | kanban_app/api/serializers.py:141-143 | the to-do count never exceeds the ticket count |
| Serializers.ToDoCountAfterCreate | kanban_app/api/serializers.py:141-143 | a new task adds one to its own board's to-do count exactly when its status is `to-do`; every other count is unchanged |
| Serializers.HighPrioCount | kanban_app/api/serializers.py:145-147 | the high-priority count never exceeds the ticket count |
| Serializers.HighPrioCountAfterCreate | kanban_app/api/serializers.py:145-147 | a new task adds one to its own board's high-priority count exactly when its priority is `high`; every other count is unchanged |
| Serializers.CommentCount | kanban_app/api/serializers.py:85-87 | a task's comment count is at most the number of comments |
| Serializers.CommentCountAfterCreate | kanban_app/api/serializers.py:85-87 | a new comment adds exactly one to its own task's count and leaves every other task's count unchanged |
| Serializers.DefaultStatusNotCounted | kanban_app/models.py:38-54 | a task holding the default status `todo` makes the to-do count smaller than the ticket count |
| Serializers.Summary | kanban_app/api/serializers.py:133-147 | the summary carries the board's title and owner, its number of members, and `TicketCount`, `ToDoCount` and `HighPrioCount` of the board; the two filtered counts are at most the ticket count |
| Views.ListBoards | kanban_app/api/views.py:19-30 | listing shows exactly the boards the actor may read (owner or member), each with its `Summary`; anonymous is refused |
| Views.BoardLookup | kanban_app/api/views.py:27-30 | outside listing every board is found: unknown id is 404, a known board is returned iff the object permission allows |
| Views.RetrieveBoard | kanban_app/api/serializers.py:160-169 | owner and members get the board with exactly the tasks on it, each as stored; an unknown id is 404 and a board the actor neither owns nor belongs to is 403 |
| Views.CreateBoard | kanban_app/api/views.py:11-40 | succeeds iff the board payload is valid; then exactly one board is added, owned by the actor; a refusal changes nothing |
| Views.UpdateBoard | kanban_app/api/serializers.py:184-223 | only owner or members update; PUT without a title fails; otherwise an update without a member list succeeds; with a list, unknown ids fail, and the update succeeds iff no task links a removed member, else it reports exactly those users; the owner stays a member; a refusal changes nothing |
| Views.DestroyBoard | kanban_app/api/permissions.py:87-88 | succeeds iff the actor owns the board (unknown 404, others 403); the board's tasks and comments go with it |
| Views.ListAllTasks | kanban_app/api/views.py:51-55 | the unscoped task list never answers 405: anonymous is 401, every authenticated user 403 |
| Views.RetrieveTask | kanban_app/api/permissions.py:61-74 | a task is returned iff the actor owns or belongs to its board; every refusal of a user is 403, unknown ids included |
| Views.CreateTask | kanban_app/api/permissions.py:39-59 | a refused permission check is 403, whether the payload board is missing, unknown or not the actor's; once the gate passes, a field error is reported, then any `ValidateTask` error, and otherwise the task is created; it lies on a board the actor belongs to and is built by `CreatedTask`; a refusal changes nothing |
| Views.UpdateTask | kanban_app/api/serializers.py:53-83 | only owner or members of the task's board update; for them a field error is reported, then any `ValidateTask` error; a validated payload succeeds iff the written row has valid links, the integrity error coming only from an id of 0; the new row is `UpdatedTask`; a refusal changes nothing |
| Views.DestroyTask | kanban_app/api/views.py:58-64 | succeeds iff the actor owns or belongs to the board and is its owner or the task's creator; the task's comments go with it |
| Views.AssignedToMe | kanban_app/api/views.py:66-74 | exactly the tasks assigned to the actor, each with its number of comments |
| Views.Reviewing | kanban_app/api/views.py:76-84 | exactly the tasks the actor reviews, each with its number of comments |
| Views.PersonalListsAreReadable | kanban_app/api/views.py:66-84 | every task in either personal list is one the actor may retrieve |
| Views.FindComment | kanban_app/api/views.py:131-138 | a comment is found iff its id exists and it belongs to the route task; otherwise 404 |
| Views.ListComments | kanban_app/api/views.py:96-101 | allowed iff the actor owns or belongs to the route task's board, every refusal of a user being 403; shows exactly that task's comments, each as stored |
| Views.CreateCommentAllowedAsWritten | kanban_app/api/permissions.py:39-59 | with a truthy payload board only that board's membership counts; otherwise the route task's board |
| Views.RetrieveCommentAsWritten | kanban_app/api/permissions.py:61-74 | succeeds only when a task shares the comment's id and the actor belongs to that task's board |
| Views.CommentCreateBoardBypass | kanban_app/api/permissions.py:39-59 | a member of another board passes the create check for a task of a board they do not belong to |
| Views.CommentPkReadAsTaskId | kanban_app/api/permissions.py:61-69 | the comment id read as a task id admits an outsider and refuses a member |
| Views.RetrieveComment | kanban_app/api/views.py:119-138 | a comment is returned iff the actor owns or belongs to the route task's board and the comment is on that task; a non-reader gets 403, and a reader asking for a comment not on the task gets 404 |
| Views.CreateComment | kanban_app/api/views.py:103-109 | only owner or members of the route task's board comment, and they succeed iff content is sent; the comment is on the route task, authored by the actor; a refusal changes nothing |
| Views.UpdateComment | kanban_app/api/views.py:119-129 | a user who cannot read the route task gets 403; for a reader, a comment not on that task is 404, a PUT without content fails, and otherwise only the content of the comment changes; a refusal changes nothing |
| Views.DestroyComment | kanban_app/api/views.py:111-117 | a comment not on the route task is 404; deletion succeeds iff the actor wrote it, and any other user, the board owner included, gets 403 |

## Left out

- Registration, login and tokens (`user_auth_app`): the actor arrives as a principal, anonymous or an authenticated user id.
- The admin site (`kanban_app/admin.py`): its counts repeat the serializer getters.
- Presentation:
  - the PATCH field hiding in `TaskSerializer.to_representation`;
  - full-name strings;
  - the German message texts. Only the error kind and the reported ids are kept.
- Timestamps. `created_at` is not modelled. `due_date` is an opaque number.
- Field-level string checks: `max_length` and blank strings.
- Payload values of the wrong type: payload ids are integers.
- When several fields fail, the framework reports all of them. The model returns one reason (`FieldErrors` first).
- Transactions and concurrency. Requests run one at a time. A board update's two writes (title, then members) are one step, and a refused request writes nothing.
- Deleting a user (`Models.Store.DeleteUser`) is modelled as the database cascade. The API itself has no endpoint for it.
- HTTP status codes beyond the outcome kind. HEAD and OPTIONS are treated like every other non-POST, non-DELETE method.
- The comment routes in `Views` use the corrected gate (see Findings). The code as written is modelled by `Views.CreateCommentAllowedAsWritten` and `Views.RetrieveCommentAsWritten`.
- Ids are unbounded integers. Database key width is not modelled.

## Findings

| source | as written | input that shows it | evidently intended | confidence | as-written member | corrected member |
|---|---|---|---|---|---|---|
| kanban_app/api/permissions.py:39-59 | on `POST tasks/{task_pk}/comments/` a truthy `board` in the payload is checked instead of the route task's board | user 1 is a member of board 1 only; task 10 is on board 2; user 1 posts to `tasks/10/comments/` with `board: 1` and is admitted (`Views.CommentCreateBoardBypass`) | only the owner and members of the route task's board comment on it | not executed | Views.CreateCommentAllowedAsWritten | Views.CreateComment |
| kanban_app/api/permissions.py:61-69 | on comment retrieve and update the route `pk`, a comment id, is looked up as a task id | comment 5 is on task 6 of board 2, and task 5 is on board 1; user 1, a member of board 1 only, reads `tasks/6/comments/5/`. A member of board 1 asking for comment 7 of task 5 is refused, because there is no task 7 (`Views.CommentPkReadAsTaskId`) | the route's `task_pk` decides, as for listing | not executed | Views.RetrieveCommentAsWritten | Views.RetrieveComment |
