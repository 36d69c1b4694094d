/** The task routes of the server (server/routes/tasks.js), with express and
    mongoose stripped away: each handler is an operation on an in-memory task
    store keyed by id, and the authenticated caller's id is a parameter. */
module TaskRoutes {
  import opened Wrappers
  import opened Strings
  import opened TaskSchema

  /** A JSON request body: its keys and their values. */
  type Body = map<string, string>

  /** What a handler answers. */
  datatype Reply =
    | TaskReply(code: nat, task: TaskRecord)     // 200 or 201 with one task
    | ListReply(tasks: seq<TaskRecord>)          // 200 with an array of tasks
    | MessageReply(code: nat, message: string)   // a status with `{ message }`
    | ErrorsReply(errors: seq<string>)           // 400 with the validators' `{ errors }`

  const NotFound: Reply := MessageReply(404, "Task not found")
  const ServerError: Reply := MessageReply(500, "Server error")

  /** The keys a PATCH body may carry. */
  const AllowedUpdates: set<string> := {"title", "description", "dueDate", "category", "status"}

  function Lookup(body: Body, key: string): Option<string> {
    if key in body then Some(body[key]) else None
  }

  /** The messages of the validator chain of POST /, in chain order. A missing
      field reads as the empty string, so title, category and status are all
      required. */
  function CreateErrors(body: Body): (errors: seq<string>)
    ensures errors == [] <==>
      && "title" in body && body["title"] != ""
      && "category" in body && ParseCategory(body["category"]).Some?
      && "status" in body && ParseStatus(body["status"]).Some?
  {
    (if "title" in body && body["title"] != "" then [] else ["Title is required"])
    + (if "category" in body && ParseCategory(body["category"]).Some? then [] else ["Invalid category"])
    + (if "status" in body && ParseStatus(body["status"]).Some? then [] else ["Invalid status"])
  }

  /** The messages of the validator chain of PATCH /:id, in chain order. Each
      check is optional: a missing field passes. */
  function PatchErrors(body: Body): (errors: seq<string>)
    ensures errors == [] <==>
      && ("title" in body ==> body["title"] != "")
      && ("category" in body ==> ParseCategory(body["category"]).Some?)
      && ("status" in body ==> ParseStatus(body["status"]).Some?)
  {
    (if "title" in body && body["title"] == "" then ["Title cannot be empty"] else [])
    + (if "category" in body && ParseCategory(body["category"]).None? then ["Invalid category"] else [])
    + (if "status" in body && ParseStatus(body["status"]).None? then ["Invalid status"] else [])
  }

  /** The five fields POST / copies out of a body that passed validation;
      every other key (an `owner` among them) is ignored. */
  function FieldsOf(body: Body): (fields: TaskFields)
    requires CreateErrors(body) == []
    ensures fields.title == body["title"] && fields.title != ""
    ensures fields.category.Some? && CategoryName(fields.category.value) == body["category"]
    ensures fields.status.Some? && StatusName(fields.status.value) == body["status"]
    ensures fields.description.Some? <==> "description" in body
    ensures fields.description.Some? ==> fields.description.value == body["description"]
    ensures fields.dueDate.Some? <==> "dueDate" in body
    ensures fields.dueDate.Some? ==> fields.dueDate.value == body["dueDate"]
  {
    TaskFields(
      body["title"],
      Lookup(body, "description"),
      Lookup(body, "dueDate"),
      ParseCategory(body["category"]),
      ParseStatus(body["status"]))
  }

  /** The task with id `id` if the caller owns it; another user's task looks
      exactly like a missing one. */
  function Owned(store: map<TaskId, TaskRecord>, caller: UserId, id: TaskId): (r: Option<TaskRecord>)
    ensures r.Some? <==> id in store && store[id].owner == caller
    ensures r.Some? ==> r.value == store[id]
  {
    if id in store && store[id].owner == caller then Some(store[id]) else None
  }

  /** The part of the store the caller owns. */
  function OwnedView(store: map<TaskId, TaskRecord>, caller: UserId): map<TaskId, TaskRecord> {
    map id | id in store && store[id].owner == caller :: store[id]
  }

  /** The answer of GET /:id. */
  function GetReply(store: map<TaskId, TaskRecord>, caller: UserId, id: TaskId): (reply: Reply)
    ensures reply.TaskReply? <==> id in store && store[id].owner == caller
    ensures reply.TaskReply? ==> reply.code == 200 && reply.task == store[id]
    ensures !reply.TaskReply? ==> reply == NotFound
  {
    match Owned(store, caller, id)
    case Some(t) => TaskReply(200, t)
    case None => NotFound
  }

  /** GET /:id depends on nothing but the caller's own tasks: changing, adding
      or removing other users' tasks cannot change its answer. */
  lemma GetSeesOnlyOwnTasks(s1: map<TaskId, TaskRecord>, s2: map<TaskId, TaskRecord>, caller: UserId, id: TaskId)
    requires OwnedView(s1, caller) == OwnedView(s2, caller)
    ensures GetReply(s1, caller, id) == GetReply(s2, caller, id)
  {
    if id in s1 && s1[id].owner == caller {
      assert id in OwnedView(s1, caller);
    }
    if id in s2 && s2[id].owner == caller {
      assert id in OwnedView(s2, caller);
    }
  }

  /** The `Task.find` filters of the three listing routes. */
  datatype Criterion = AnyTask | InCategory(category: Category) | InStatus(status: Status)

  predicate Matches(t: TaskRecord, caller: UserId, crit: Criterion) {
    && t.owner == caller
    && match crit
       case AnyTask => true
       case InCategory(c) => t.category == c
       case InStatus(s) => t.status == s
  }

  /** Sorted by `createdAt`, newest first. */
  predicate NewestFirst(r: seq<TaskRecord>) {
    forall i, j :: 0 <= i < j < |r| ==> r[i].createdAt >= r[j].createdAt
  }

  /** No task appears twice. */
  predicate NoRepeats(r: seq<TaskRecord>) {
    forall i, j :: 0 <= i < j < |r| ==> r[i] != r[j]
  }

  /** `r` is an answer to `Task.find(crit).sort({ createdAt: -1 })` over
      `store` for `caller`: each matching task exactly once, nothing else,
      newest first (ties in any order). */
  ghost predicate Lists(r: seq<TaskRecord>, store: map<TaskId, TaskRecord>, caller: UserId, crit: Criterion) {
    && NewestFirst(r)
    && NoRepeats(r)
    && (forall i :: 0 <= i < |r| ==> r[i].id in store && store[r[i].id] == r[i] && Matches(r[i], caller, crit))
    && (forall id :: id in store && Matches(store[id], caller, crit) ==> store[id] in r)
  }

  /** Whether a sequence is a valid listing depends only on the caller's own
      tasks. */
  lemma ListingSeesOnlyOwnTasks(r: seq<TaskRecord>, s1: map<TaskId, TaskRecord>, s2: map<TaskId, TaskRecord>, caller: UserId, crit: Criterion)
    requires OwnedView(s1, caller) == OwnedView(s2, caller)
    requires Lists(r, s1, caller, crit)
    ensures Lists(r, s2, caller, crit)
  {
    forall i | 0 <= i < |r|
      ensures r[i].id in s2 && s2[r[i].id] == r[i]
    {
      assert r[i].id in OwnedView(s1, caller);
    }
    forall id | id in s2 && Matches(s2[id], caller, crit)
      ensures s2[id] in r
    {
      assert id in OwnedView(s2, caller);
    }
  }

  /** Places `t` in a newest-first sequence after every strictly newer task. */
  function InsertNewestFirst(r: seq<TaskRecord>, t: TaskRecord): (out: seq<TaskRecord>)
    ensures |out| == |r| + 1
    ensures t in out
    ensures out[0] == t || out[0] == r[0]
  {
    if r == [] || r[0].createdAt <= t.createdAt then [t] + r
    else [r[0]] + InsertNewestFirst(r[1..], t)
  }

  /** Insertion brings in no task newer than a bound that the task and
      every old entry respect. */
  lemma {:induction false} InsertNewestFirstBounded(r: seq<TaskRecord>, t: TaskRecord, bound: Timestamp)
    requires forall i :: 0 <= i < |r| ==> r[i].createdAt <= bound
    requires t.createdAt <= bound
    ensures forall i :: 0 <= i < |InsertNewestFirst(r, t)| ==> InsertNewestFirst(r, t)[i].createdAt <= bound
  {
    if r != [] && r[0].createdAt > t.createdAt {
      InsertNewestFirstBounded(r[1..], t, bound);
    }
  }

  /** Insertion keeps a newest-first sequence newest first. */
  lemma {:induction false} InsertNewestFirstSorted(r: seq<TaskRecord>, t: TaskRecord)
    requires NewestFirst(r)
    ensures NewestFirst(InsertNewestFirst(r, t))
  {
    var out := InsertNewestFirst(r, t);
    if r == [] || r[0].createdAt <= t.createdAt {
      assert out == [t] + r;
      forall i, j | 0 <= i < j < |out|
        ensures out[i].createdAt >= out[j].createdAt
      {
        assert out[j] == r[j - 1];
        if i > 0 {
          assert out[i] == r[i - 1];
        } else if j > 1 {
          assert r[0].createdAt >= r[j - 1].createdAt;
        }
      }
    } else {
      var rest := InsertNewestFirst(r[1..], t);
      assert out == [r[0]] + rest;
      assert forall i :: 0 <= i < |r[1..]| ==> r[1..][i] == r[i + 1];
      InsertNewestFirstSorted(r[1..], t);
      InsertNewestFirstBounded(r[1..], t, r[0].createdAt);
      forall i, j | 0 <= i < j < |out|
        ensures out[i].createdAt >= out[j].createdAt
      {
        assert out[j] == rest[j - 1];
        if i > 0 {
          assert out[i] == rest[i - 1];
        }
      }
    }
  }

  /** Insertion adds exactly one copy of the new task and keeps every other
      entry. */
  lemma {:induction false} InsertNewestFirstCount(r: seq<TaskRecord>, t: TaskRecord)
    ensures multiset(InsertNewestFirst(r, t)) == multiset(r) + multiset{t}
  {
    if r != [] && r[0].createdAt > t.createdAt {
      InsertNewestFirstCount(r[1..], t);
      assert r == [r[0]] + r[1..];
    }
  }

  /** What insertion adds is the new task and nothing else. */
  lemma InsertNewestFirstMembers(r: seq<TaskRecord>, t: TaskRecord)
    ensures forall x :: x in InsertNewestFirst(r, t) <==> x in r || x == t
  {
    InsertNewestFirstCount(r, t);
    var out := InsertNewestFirst(r, t);
    assert forall x :: x in out <==> x in multiset(out);
  }

  /** Inserting a task that is not yet present creates no repeat. */
  lemma {:induction false} InsertKeepsNoRepeats(r: seq<TaskRecord>, t: TaskRecord)
    requires NoRepeats(r) && t !in r
    ensures NoRepeats(InsertNewestFirst(r, t))
  {
    var out := InsertNewestFirst(r, t);
    if r == [] || r[0].createdAt <= t.createdAt {
      assert out == [t] + r;
      forall i, j | 0 <= i < j < |out|
        ensures out[i] != out[j]
      {
        assert out[j] == r[j - 1];
        if i > 0 {
          assert out[i] == r[i - 1];
        }
      }
    } else {
      var rest := InsertNewestFirst(r[1..], t);
      assert out == [r[0]] + rest;
      assert r == [r[0]] + r[1..];
      InsertKeepsNoRepeats(r[1..], t);
      InsertNewestFirstMembers(r[1..], t);
      assert r[0] !in r[1..];
      forall i, j | 0 <= i < j < |out|
        ensures out[i] != out[j]
      {
        assert out[j] == rest[j - 1];
        if i > 0 {
          assert out[i] == rest[i - 1];
        }
      }
    }
  }

  /** How one key of a PATCH body is written onto the fetched document
      (`task[update] = req.body[update]`); the schema trims the text fields. */
  function Assign(t: TaskRecord, key: string, value: string): (r: TaskRecord)
    requires key in AllowedUpdates
    requires key == "category" ==> ParseCategory(value).Some?
    requires key == "status" ==> ParseStatus(value).Some?
    ensures r.id == t.id && r.owner == t.owner && r.createdAt == t.createdAt && r.updatedAt == t.updatedAt
    ensures key == "title" ==> IsTrimmed(r.title) && r.title == Trim(value)
    ensures key == "description" ==> r.description == Some(Trim(value))
    ensures key == "dueDate" ==> r.dueDate == Some(value)
    ensures key == "category" ==> CategoryName(r.category) == value
    ensures key == "status" ==> StatusName(r.status) == value
    ensures key != "title" ==> r.title == t.title
    ensures key != "description" ==> r.description == t.description
    ensures key != "dueDate" ==> r.dueDate == t.dueDate
    ensures key != "category" ==> r.category == t.category
    ensures key != "status" ==> r.status == t.status
  {
    if key == "title" then t.(title := Trim(value))
    else if key == "description" then t.(description := Some(Trim(value)))
    else if key == "dueDate" then t.(dueDate := Some(value))
    else if key == "category" then t.(category := ParseCategory(value).value)
    else t.(status := ParseStatus(value).value)
  }

  /** A body that passed both PATCH checks: its values are valid and its keys
      are allowed. */
  predicate PatchAccepted(body: Body) {
    PatchErrors(body) == [] && body.Keys <= AllowedUpdates
  }

  /** The document after the keys in `keys` of `body` have been written onto
      `t`: a key in `keys` overwrites its field, every other field (owner, id
      and timestamps among them) keeps its value. */
  function Patched(t: TaskRecord, body: Body, keys: set<string>): (r: TaskRecord)
    requires PatchAccepted(body) && keys <= body.Keys
    ensures r.id == t.id && r.owner == t.owner && r.createdAt == t.createdAt && r.updatedAt == t.updatedAt
    ensures keys == {} ==> r == t
    ensures "title" in keys ==> r.title == Trim(body["title"])
    ensures "description" in keys ==> r.description == Some(Trim(body["description"]))
    ensures "dueDate" in keys ==> r.dueDate == Some(body["dueDate"])
    ensures "category" in keys ==> CategoryName(r.category) == body["category"]
    ensures "status" in keys ==> StatusName(r.status) == body["status"]
    ensures "title" !in keys ==> r.title == t.title
    ensures "description" !in keys ==> r.description == t.description
    ensures "dueDate" !in keys ==> r.dueDate == t.dueDate
    ensures "category" !in keys ==> r.category == t.category
    ensures "status" !in keys ==> r.status == t.status
  {
    t.(
      title := if "title" in keys then Trim(body["title"]) else t.title,
      description := if "description" in keys then Some(Trim(body["description"])) else t.description,
      dueDate := if "dueDate" in keys then Some(body["dueDate"]) else t.dueDate,
      category := if "category" in keys then ParseCategory(body["category"]).value else t.category,
      status := if "status" in keys then ParseStatus(body["status"]).value else t.status)
  }

  /** Writing one more key of the body onto a partly patched document gives
      the document patched with that key as well. */
  lemma AssignStep(t: TaskRecord, body: Body, done: set<string>, key: string)
    requires PatchAccepted(body) && done <= body.Keys && key in body
    ensures Assign(Patched(t, body, done), key, body[key]) == Patched(t, body, done + {key})
  {
    assert key in AllowedUpdates;
    if key == "title" {
    } else if key == "description" {
    } else if key == "dueDate" {
    } else if key == "category" {
    } else {
      assert key == "status";
    }
  }

  /** The stored record after a successful PATCH of `t` with `body` at `now`. */
  function Updated(t: TaskRecord, body: Body, now: Timestamp): (r: TaskRecord)
    requires PatchAccepted(body)
    ensures r.id == t.id && r.owner == t.owner && r.createdAt == t.createdAt
    ensures r.updatedAt == now || r.updatedAt == t.updatedAt
    ensures r == t.(updatedAt := r.updatedAt) ==> r.updatedAt == t.updatedAt
    ensures Modified(t, r.(updatedAt := t.updatedAt)) ==> r.updatedAt == now
  {
    Touch(t, Patched(t, body, body.Keys), now)
  }

  /** A PATCH whose result passes the save-time validation keeps a record
      well formed. */
  lemma UpdatedWellFormed(t: TaskRecord, body: Body, now: Timestamp)
    requires WellFormed(t) && PatchAccepted(body)
    requires SaveValid(Patched(t, body, body.Keys))
    ensures WellFormed(Updated(t, body, now))
    ensures Updated(t, body, now).id == t.id
  {
  }

  /** A PATCH never changes the owner, the id or the creation time, and leaves
      every field the body does not name as it was. */
  lemma UpdateKeepsUnnamedFields(t: TaskRecord, body: Body, now: Timestamp)
    requires PatchAccepted(body)
    ensures Updated(t, body, now).owner == t.owner
    ensures Updated(t, body, now).id == t.id
    ensures Updated(t, body, now).createdAt == t.createdAt
    ensures "title" !in body ==> Updated(t, body, now).title == t.title
    ensures "description" !in body ==> Updated(t, body, now).description == t.description
    ensures "dueDate" !in body ==> Updated(t, body, now).dueDate == t.dueDate
    ensures "category" !in body ==> Updated(t, body, now).category == t.category
    ensures "status" !in body ==> Updated(t, body, now).status == t.status
  {
  }

  /** A PATCH writes every field the body names: the title and the
      description trimmed, the due date as given, and the category and
      status the body spells out. */
  lemma UpdateWritesNamedFields(t: TaskRecord, body: Body, now: Timestamp)
    requires PatchAccepted(body)
    ensures "title" in body ==> Updated(t, body, now).title == Trim(body["title"])
    ensures "description" in body ==> Updated(t, body, now).description == Some(Trim(body["description"]))
    ensures "dueDate" in body ==> Updated(t, body, now).dueDate == Some(body["dueDate"])
    ensures "category" in body ==> CategoryName(Updated(t, body, now).category) == body["category"]
    ensures "status" in body ==> StatusName(Updated(t, body, now).status) == body["status"]
  {
  }

  /** Applying the same PATCH a second time, at any later instant, gives back
      the record the first one produced: nothing is modified, so not even
      `updatedAt` moves. */
  lemma UpdateTwiceIsOnce(t: TaskRecord, body: Body, now1: Timestamp, now2: Timestamp)
    requires PatchAccepted(body)
    ensures Updated(Updated(t, body, now1), body, now2) == Updated(t, body, now1)
  {
    var once := Updated(t, body, now1);
    assert !Modified(once, Patched(once, body, body.Keys));
  }

  /** POST / reads nothing but the five task fields from the body: adding any
      other key (an `owner`, say) changes neither the validation nor the
      record. */
  lemma CreateIgnoresOtherKeys(body: Body, key: string, value: string)
    requires key !in AllowedUpdates
    ensures CreateErrors(body[key := value]) == CreateErrors(body)
    ensures CreateErrors(body) == [] ==> FieldsOf(body[key := value]) == FieldsOf(body)
  {
  }

  /** `updates.forEach((update) => (task[update] = req.body[update]))`: the
      keys of an accepted body are written onto `t` one at a time, in any
      order, and the result is the document with all of them written. */
  method WriteKeys(t: TaskRecord, body: Body) returns (task: TaskRecord)
    requires PatchAccepted(body)
    ensures task == Patched(t, body, body.Keys)
  {
    task := t;
    var done: set<string> := {};
    while done != body.Keys
      invariant done <= body.Keys
      invariant task == Patched(t, body, done)
      decreases body.Keys - done
    {
      assert !(body.Keys <= done);
      var key :| key in body.Keys && key !in done;
      AssignStep(t, body, done, key);
      task := Assign(task, key, body[key]);
      done := done + {key};
    }
  }

  /** The store invariant: each task sits under its own id, every id is
      below the next fresh one, and every record is well formed. */
  ghost predicate StoreValid(tasks: map<TaskId, TaskRecord>, nextId: TaskId) {
    forall id :: id in tasks ==> tasks[id].id == id && id < nextId && WellFormed(tasks[id])
  }

  /** Storing a well-formed record under the fresh id, and advancing the id,
      keeps the invariant; the fresh id was free. */
  lemma StoreFresh(tasks: map<TaskId, TaskRecord>, nextId: TaskId, t: TaskRecord)
    requires StoreValid(tasks, nextId)
    requires t.id == nextId && WellFormed(t)
    ensures nextId !in tasks
    ensures StoreValid(tasks[nextId := t], nextId + 1)
  {
  }

  /** Replacing a stored record by a well-formed one with the same id keeps
      the invariant. */
  lemma StoreReplace(tasks: map<TaskId, TaskRecord>, nextId: TaskId, id: TaskId, t: TaskRecord)
    requires StoreValid(tasks, nextId) && id in tasks
    requires t.id == id && WellFormed(t)
    ensures StoreValid(tasks[id := t], nextId)
  {
  }

  /** The task store behind the routes. */
  class TaskService {
    /** The stored tasks, by id. */
    var tasks: map<TaskId, TaskRecord>
    /** The next fresh id (the store's id generator). */
    var nextId: TaskId

    ghost predicate Valid()
      reads this
    {
      StoreValid(tasks, nextId)
    }

    constructor ()
      ensures Valid() && tasks == map[]
    {
      tasks := map[];
      nextId := 0;
    }

    /** `Task.find(crit).sort({ createdAt: -1 })`: collects the matching tasks
        one stored id at a time, inserting each at its place in the order. */
    method Select(caller: UserId, crit: Criterion) returns (r: seq<TaskRecord>)
      requires Valid()
      ensures Lists(r, tasks, caller, crit)
    {
      r := [];
      var pending := tasks.Keys;
      while pending != {}
        invariant pending <= tasks.Keys
        invariant NewestFirst(r) && NoRepeats(r)
        invariant forall x :: x in r ==> x.id in tasks && x.id !in pending && tasks[x.id] == x && Matches(x, caller, crit)
        invariant forall id :: id in tasks && id !in pending && Matches(tasks[id], caller, crit) ==> tasks[id] in r
        decreases pending
      {
        var id :| id in pending;
        if Matches(tasks[id], caller, crit) {
          var t := tasks[id];
          assert t.id == id && t !in r;
          InsertNewestFirstSorted(r, t);
          InsertKeepsNoRepeats(r, t);
          InsertNewestFirstMembers(r, t);
          r := InsertNewestFirst(r, t);
        }
        pending := pending - {id};
      }
    }

    /** GET /: the caller's tasks, newest first. */
    method List(caller: UserId) returns (reply: Reply)
      requires Valid()
      ensures reply.ListReply? && Lists(reply.tasks, tasks, caller, AnyTask)
    {
      var r := Select(caller, AnyTask);
      reply := ListReply(r);
    }

    /** GET /:id: the task if the caller owns it, else 404. */
    method Get(caller: UserId, id: TaskId) returns (reply: Reply)
      ensures reply == GetReply(tasks, caller, id)
      ensures reply.TaskReply? <==> id in tasks && tasks[id].owner == caller
      ensures reply.TaskReply? ==> reply.code == 200 && reply.task == tasks[id]
      ensures !reply.TaskReply? ==> reply == NotFound
    {
      if id in tasks && tasks[id].owner == caller {
        reply := TaskReply(200, tasks[id]);
      } else {
        reply := NotFound;
      }
    }

    /** GET /category/:category: 400 for a value outside the enumeration,
        otherwise the caller's tasks in that category, newest first. */
    method ListByCategory(caller: UserId, category: string) returns (reply: Reply)
      requires Valid()
      ensures ParseCategory(category).None? ==> reply == MessageReply(400, "Invalid category")
      ensures ParseCategory(category).Some? ==>
        reply.ListReply? && Lists(reply.tasks, tasks, caller, InCategory(ParseCategory(category).value))
    {
      var c := ParseCategory(category);
      if c.None? {
        return MessageReply(400, "Invalid category");
      }
      var r := Select(caller, InCategory(c.value));
      reply := ListReply(r);
    }

    /** GET /status/:status: 400 for a value outside the enumeration,
        otherwise the caller's tasks with that status, newest first. */
    method ListByStatus(caller: UserId, status: string) returns (reply: Reply)
      requires Valid()
      ensures ParseStatus(status).None? ==> reply == MessageReply(400, "Invalid status")
      ensures ParseStatus(status).Some? ==>
        reply.ListReply? && Lists(reply.tasks, tasks, caller, InStatus(ParseStatus(status).value))
    {
      var s := ParseStatus(status);
      if s.None? {
        return MessageReply(400, "Invalid status");
      }
      var r := Select(caller, InStatus(s.value));
      reply := ListReply(r);
    }

    /** POST /: validates the body, then stores a new task owned by the
        caller, whatever owner the body names. A title that is only whitespace
        passes the validator but fails the schema's `required` once trimmed,
        which the handler reports as a server error. */
    method Create(caller: UserId, body: Body, now: Timestamp) returns (reply: Reply)
      requires Valid()
      modifies this
      ensures Valid()
      ensures CreateErrors(body) != [] ==>
        reply == ErrorsReply(CreateErrors(body)) && tasks == old(tasks) && nextId == old(nextId)
      ensures CreateErrors(body) == [] && Trim(body["title"]) == "" ==>
        reply == ServerError && tasks == old(tasks) && nextId == old(nextId)
      ensures CreateErrors(body) == [] && Trim(body["title"]) != "" ==>
        && old(nextId) !in old(tasks)
        && reply.TaskReply? && reply.code == 201
        && NewTask(old(nextId), FieldsOf(body), caller, now) == Success(reply.task)
        && reply.task.owner == caller
        && tasks == old(tasks)[old(nextId) := reply.task]
        && nextId == old(nextId) + 1
      ensures forall u :: u != caller ==> OwnedView(tasks, u) == OwnedView(old(tasks), u)
    {
      var errors := CreateErrors(body);
      if errors != [] {
        return ErrorsReply(errors);
      }
      var fields := FieldsOf(body);
      assert fields.title == body["title"];
      var saved := NewTask(nextId, fields, caller, now);
      if saved.Failure? {
        return ServerError;
      }
      StoreFresh(tasks, nextId, saved.value);
      forall u | u != caller
        ensures OwnedView(tasks[nextId := saved.value], u) == OwnedView(tasks, u)
      {
        OtherUsersUnaffected(tasks, caller, nextId, saved.value, u);
      }
      tasks := tasks[nextId := saved.value];
      nextId := nextId + 1;
      reply := TaskReply(201, saved.value);
    }

    /** PATCH /:id: the validators first (400 with their messages), then the
        key allow-list (400 "Invalid updates", whether or not the task
        exists), then the ownership lookup (404). Only then is each key of the
        body written onto the fetched task and the task saved. */
    method Update(caller: UserId, id: TaskId, body: Body, now: Timestamp) returns (reply: Reply)
      requires Valid()
      modifies this
      ensures Valid() && nextId == old(nextId)
      ensures PatchErrors(body) != [] ==>
        reply == ErrorsReply(PatchErrors(body)) && tasks == old(tasks)
      ensures PatchErrors(body) == [] && !(body.Keys <= AllowedUpdates) ==>
        reply == MessageReply(400, "Invalid updates") && tasks == old(tasks)
      ensures PatchAccepted(body) && Owned(old(tasks), caller, id).None? ==>
        reply == NotFound && tasks == old(tasks)
      ensures PatchAccepted(body) && Owned(old(tasks), caller, id).Some? ==>
        var t := Updated(old(tasks)[id], body, now);
        if SaveValid(t) then reply == TaskReply(200, t) && tasks == old(tasks)[id := t]
        else reply == ServerError && tasks == old(tasks)
      ensures forall u :: u != caller ==> OwnedView(tasks, u) == OwnedView(old(tasks), u)
    {
      var errors := PatchErrors(body);
      if errors != [] {
        return ErrorsReply(errors);
      }
      if !(body.Keys <= AllowedUpdates) {
        return MessageReply(400, "Invalid updates");
      }
      if !(id in tasks && tasks[id].owner == caller) {
        return NotFound;
      }
      var before := tasks[id];
      var task := WriteKeys(before, body);
      if !SaveValid(task) {
        return ServerError;
      }
      UpdatedWellFormed(before, body, now);
      task := Touch(before, task, now);
      StoreReplace(tasks, nextId, id, task);
      forall u | u != caller
        ensures OwnedView(tasks[id := task], u) == OwnedView(tasks, u)
      {
        OtherUsersUnaffected(tasks, caller, id, task, u);
      }
      tasks := tasks[id := task];
      reply := TaskReply(200, task);
    }

    /** DELETE /:id: removes the caller's task with that id, or answers 404
        and changes nothing. */
    method Delete(caller: UserId, id: TaskId) returns (reply: Reply)
      requires Valid()
      modifies this
      ensures Valid() && nextId == old(nextId)
      ensures Owned(old(tasks), caller, id).Some? ==>
        reply == MessageReply(200, "Task deleted") && tasks == old(tasks) - {id}
      ensures Owned(old(tasks), caller, id).None? ==>
        reply == NotFound && tasks == old(tasks)
      ensures forall u :: u != caller ==> OwnedView(tasks, u) == OwnedView(old(tasks), u)
    {
      if !(id in tasks && tasks[id].owner == caller) {
        return NotFound;
      }
      forall u | u != caller
        ensures OwnedView(tasks - {id}, u) == OwnedView(tasks, u)
      {
        OtherUsersUnaffected(tasks, caller, id, tasks[id], u);
      }
      tasks := tasks - {id};
      reply := MessageReply(200, "Task deleted");
    }
  }

  /** No route run by `caller` changes what any other user sees: writing a
      caller-owned task at a caller-owned (or free) id, as POST and PATCH do,
      and removing a caller-owned id, as DELETE does, leave every other
      user's part of the store as it was. */
  lemma OtherUsersUnaffected(before: map<TaskId, TaskRecord>, caller: UserId, id: TaskId, t: TaskRecord, other: UserId)
    requires id !in before || before[id].owner == caller
    requires t.owner == caller
    requires other != caller
    ensures OwnedView(before[id := t], other) == OwnedView(before, other)
    ensures OwnedView(before - {id}, other) == OwnedView(before, other)
  {
    assert OwnedView(before[id := t], other).Keys == OwnedView(before, other).Keys;
    assert OwnedView(before - {id}, other).Keys == OwnedView(before, other).Keys;
  }

  /** After a successful DELETE the task is gone for its owner: GET /:id and a
      second DELETE both answer 404. */
  lemma DeleteThenGetIsNotFound(store: map<TaskId, TaskRecord>, caller: UserId, id: TaskId)
    ensures GetReply(store - {id}, caller, id) == NotFound
    ensures Owned(store - {id}, caller, id).None?
  {
  }
}
