/** The client's task state (src/context/TaskContext.tsx): the reducer over
    the task list, its active filter and the cached filtered view, and the
    provider methods that drive it through request/success/failure
    dispatches. */
module TaskContext {
  import opened Wrappers
  import opened Strings
  import opened Sequences
  import opened ClientApi

  /** A task as the client receives it from the server (src/types/index.ts).
      The enumerated fields are plain strings at run time. */
  datatype Task = Task(
    id: string,
    title: string,
    description: string,
    dueDate: string,
    category: string,
    status: string,
    createdAt: string,
    updatedAt: string)

  /** The active filter; a category or status of null means "any". */
  datatype Filter = Filter(category: Option<string>, status: Option<string>, search: string)

  /** The payload of FILTER_TASKS: a field left undefined is `None`; a
      category or status that is given may itself be null. */
  datatype FilterUpdate = FilterUpdate(
    category: Option<Option<string>>,
    status: Option<Option<string>>,
    search: Option<string>)

  datatype TaskState = TaskState(
    tasks: seq<Task>,
    filteredTasks: seq<Task>,
    activeTask: Option<Task>,
    isLoading: bool,
    error: Option<string>,
    filter: Filter)

  /** The fourteen actions of the reducer. */
  datatype TaskAction =
    | FetchTasksRequest
    | FetchTasksSuccess(fetched: seq<Task>)
    | FetchTasksFailure(message: string)
    | AddTaskRequest
    | AddTaskSuccess(task: Task)
    | AddTaskFailure(message: string)
    | UpdateTaskRequest
    | UpdateTaskSuccess(task: Task)
    | UpdateTaskFailure(message: string)
    | DeleteTaskRequest
    | DeleteTaskSuccess(id: string)
    | DeleteTaskFailure(message: string)
    | SetActiveTask(active: Option<Task>)
    | FilterTasks(update: FilterUpdate)
  {
    predicate IsRequest() {
      FetchTasksRequest? || AddTaskRequest? || UpdateTaskRequest? || DeleteTaskRequest?
    }
    predicate IsFailure() {
      FetchTasksFailure? || AddTaskFailure? || UpdateTaskFailure? || DeleteTaskFailure?
    }
  }

  /** A filter value is active when it is neither null nor the empty string
      (both are falsy). */
  predicate Truthy(v: Option<string>) {
    v.Some? && v.value != ""
  }

  /** The callback `applyFilters` passes to `tasks.filter`: three early
      rejections, in source order. */
  predicate PassesFilter(t: Task, f: Filter)
    ensures PassesFilter(t, f) && Truthy(f.category) ==> t.category == f.category.value
    ensures PassesFilter(t, f) && Truthy(f.status) ==> t.status == f.status.value
    ensures !Truthy(f.category) && !Truthy(f.status) && f.search == "" ==> PassesFilter(t, f)
  {
    if Truthy(f.category) && t.category != f.category.value then false
    else if Truthy(f.status) && t.status != f.status.value then false
    else if f.search != "" && !Includes(ToLower(t.title), ToLower(f.search)) then false
    else true
  }

  /** The filter as a conjunction: no category or a matching one, no status
      or a matching one, and no search text or a lower-cased title in which
      the lower-cased search text occurs. */
  ghost predicate MatchesFilter(t: Task, f: Filter) {
    && (f.category.None? || f.category.value == "" || t.category == f.category.value)
    && (f.status.None? || f.status.value == "" || t.status == f.status.value)
    && (f.search == "" || exists i :: OccursAt(ToLower(t.title), ToLower(f.search), i))
  }

  /** The early-return callback accepts a task exactly when the conjunction
      holds. */
  lemma PassesFilterIff(t: Task, f: Filter)
    ensures PassesFilter(t, f) <==> MatchesFilter(t, f)
  {
    IncludesIff(ToLower(t.title), ToLower(f.search));
  }

  /** `applyFilters`: `tasks.filter` with the callback above. */
  function ApplyFilters(tasks: seq<Task>, f: Filter): (r: seq<Task>)
    ensures |r| <= |tasks|
    ensures forall i :: 0 <= i < |r| ==> PassesFilter(r[i], f)
  {
    Keep(tasks, (t: Task) => PassesFilter(t, f))
  }

  /** `applyFilters` returns an order-preserving subsequence of its input,
      and keeps a task exactly when it matches the filter. */
  lemma ApplyFiltersSpec(tasks: seq<Task>, f: Filter)
    ensures IsSubsequence(ApplyFilters(tasks, f), tasks)
    ensures forall t :: t in ApplyFilters(tasks, f) <==> t in tasks && MatchesFilter(t, f)
    ensures forall t :: multiset(ApplyFilters(tasks, f))[t] == if MatchesFilter(t, f) then multiset(tasks)[t] else 0
  {
    forall t: Task
      ensures PassesFilter(t, f) <==> MatchesFilter(t, f)
    {
      PassesFilterIff(t, f);
    }
    KeepCount(tasks, (t: Task) => PassesFilter(t, f));
  }

  /** The filter of the initial state. */
  const NoFilter: Filter := Filter(None, None, "")

  /** With no category, no status and no search text nothing is filtered out. */
  lemma ApplyNoFilterIsIdentity(tasks: seq<Task>)
    ensures ApplyFilters(tasks, NoFilter) == tasks
  {
    KeepAll(tasks, (t: Task) => PassesFilter(t, NoFilter));
  }

  /** The cached view agrees with the tasks and the filter. */
  predicate Consistent(s: TaskState) {
    s.filteredTasks == ApplyFilters(s.tasks, s.filter)
  }

  /** `initialState`. */
  function InitialState(): (s: TaskState)
    ensures Consistent(s)
    ensures s.tasks == [] && s.activeTask.None? && !s.isLoading && s.error.None? && s.filter == NoFilter
  {
    TaskState([], [], None, false, None, NoFilter)
  }

  /** `state.tasks.map(task => task._id === updated._id ? updated : task)`. */
  function ReplaceById(tasks: seq<Task>, updated: Task): (r: seq<Task>)
    ensures |r| == |tasks|
    ensures forall i :: 0 <= i < |r| ==> r[i].id == tasks[i].id
  {
    if tasks == [] then []
    else [if tasks[0].id == updated.id then updated else tasks[0]] + ReplaceById(tasks[1..], updated)
  }

  /** The `map` keeps the length, puts `updated` in place of every entry with
      its id and leaves every other entry as it was. */
  lemma {:induction false} ReplaceByIdSpec(tasks: seq<Task>, updated: Task)
    ensures |ReplaceById(tasks, updated)| == |tasks|
    ensures forall i :: 0 <= i < |tasks| ==>
      ReplaceById(tasks, updated)[i] == if tasks[i].id == updated.id then updated else tasks[i]
  {
    if tasks != [] {
      ReplaceByIdSpec(tasks[1..], updated);
    }
  }

  /** `state.tasks.filter(task => task._id !== id)`. */
  function RemoveById(tasks: seq<Task>, id: string): (r: seq<Task>)
    ensures |r| <= |tasks|
    ensures forall i :: 0 <= i < |r| ==> r[i].id != id
  {
    Keep(tasks, (t: Task) => t.id != id)
  }

  /** The FILTER_TASKS merge: only the fields the payload defines replace
      those of the current filter. */
  function MergeFilter(f: Filter, u: FilterUpdate): (r: Filter)
    ensures r.category == (if u.category.Some? then u.category.value else f.category)
    ensures r.status == (if u.status.Some? then u.status.value else f.status)
    ensures r.search == (if u.search.Some? then u.search.value else f.search)
  {
    Filter(u.category.GetOr(f.category), u.status.GetOr(f.status), u.search.GetOr(f.search))
  }

  /** What a SUCCESS action does to the list: store it, recompute the view,
      stop loading and clear the error. */
  function WithTasks(s: TaskState, tasks: seq<Task>): TaskState {
    s.(isLoading := false, tasks := tasks, filteredTasks := ApplyFilters(tasks, s.filter), error := None)
  }

  /** The active task after UPDATE_TASK_SUCCESS: the payload if it has the
      active task's `_id`, otherwise unchanged. */
  function ActiveAfterUpdate(active: Option<Task>, task: Task): Option<Task> {
    if active.Some? && active.value.id == task.id then Some(task) else active
  }

  /** The active task after DELETE_TASK_SUCCESS: null if it has the deleted
      `_id`, otherwise unchanged. */
  function ActiveAfterDelete(active: Option<Task>, id: string): Option<Task> {
    if active.Some? && active.value.id == id then None else active
  }

  /** `taskReducer`. Every action keeps the cached view equal to the filtered
      task list. */
  function Reduce(s: TaskState, a: TaskAction): (r: TaskState)
    ensures Consistent(s) ==> Consistent(r)
  {
    match a
    case FetchTasksRequest => s.(isLoading := true, error := None)
    case AddTaskRequest => s.(isLoading := true, error := None)
    case UpdateTaskRequest => s.(isLoading := true, error := None)
    case DeleteTaskRequest => s.(isLoading := true, error := None)
    case FetchTasksSuccess(fetched) => WithTasks(s, fetched)
    case AddTaskSuccess(task) => WithTasks(s, [task] + s.tasks)
    case UpdateTaskSuccess(task) =>
      WithTasks(s, ReplaceById(s.tasks, task)).(activeTask := ActiveAfterUpdate(s.activeTask, task))
    case DeleteTaskSuccess(id) =>
      WithTasks(s, RemoveById(s.tasks, id)).(activeTask := ActiveAfterDelete(s.activeTask, id))
    case FetchTasksFailure(message) => s.(isLoading := false, error := Some(message))
    case AddTaskFailure(message) => s.(isLoading := false, error := Some(message))
    case UpdateTaskFailure(message) => s.(isLoading := false, error := Some(message))
    case DeleteTaskFailure(message) => s.(isLoading := false, error := Some(message))
    case SetActiveTask(active) => s.(activeTask := active)
    case FilterTasks(update) =>
      var f := MergeFilter(s.filter, update);
      s.(filter := f, filteredTasks := ApplyFilters(s.tasks, f))
  }

  /** In a consistent state the view holds, in list order, exactly the tasks
      that pass the filter. */
  lemma ViewIsFilteredList(s: TaskState)
    requires Consistent(s)
    ensures IsSubsequence(s.filteredTasks, s.tasks)
    ensures forall t :: t in s.filteredTasks <==> t in s.tasks && MatchesFilter(t, s.filter)
    ensures forall t :: multiset(s.filteredTasks)[t] == if MatchesFilter(t, s.filter) then multiset(s.tasks)[t] else 0
  {
    ApplyFiltersSpec(s.tasks, s.filter);
  }

  /** A REQUEST sets `isLoading` and clears `error`, and changes nothing else. */
  lemma RequestTouchesOnlyLoadingAndError(s: TaskState, a: TaskAction)
    requires a.IsRequest()
    ensures Reduce(s, a) == s.(isLoading := true, error := None)
  {
  }

  /** A FAILURE clears `isLoading` and records its message as `error`, and
      changes nothing else. */
  lemma FailureTouchesOnlyLoadingAndError(s: TaskState, a: TaskAction)
    requires a.IsFailure()
    ensures Reduce(s, a) == s.(isLoading := false, error := Some(a.message))
  {
  }

  /** ADD_TASK_SUCCESS puts the new task in front of the old list; the view
      gains it in front exactly when it passes the filter and is otherwise as
      before. */
  lemma AddPrepends(s: TaskState, task: Task)
    requires Consistent(s)
    ensures Reduce(s, AddTaskSuccess(task)).tasks == [task] + s.tasks
    ensures |Reduce(s, AddTaskSuccess(task)).tasks| == |s.tasks| + 1
    ensures Reduce(s, AddTaskSuccess(task)).filteredTasks ==
      (if PassesFilter(task, s.filter) then [task] else []) + s.filteredTasks
  {
    var p := (t: Task) => PassesFilter(t, s.filter);
    KeepAppend([task], s.tasks, p);
    assert Keep([task], p) == if p(task) then [task] else [] by {
      assert [task][1..] == [];
    }
  }

  /** UPDATE_TASK_SUCCESS keeps the length, puts the payload in place of every
      entry with its id and leaves the other entries alone; the active task
      is replaced only when it has that id. */
  lemma UpdateReplacesById(s: TaskState, task: Task)
    ensures |Reduce(s, UpdateTaskSuccess(task)).tasks| == |s.tasks|
    ensures forall i :: 0 <= i < |s.tasks| && s.tasks[i].id == task.id ==> Reduce(s, UpdateTaskSuccess(task)).tasks[i] == task
    ensures forall i :: 0 <= i < |s.tasks| && s.tasks[i].id != task.id ==> Reduce(s, UpdateTaskSuccess(task)).tasks[i] == s.tasks[i]
    ensures s.activeTask.Some? && s.activeTask.value.id == task.id ==> Reduce(s, UpdateTaskSuccess(task)).activeTask == Some(task)
    ensures !(s.activeTask.Some? && s.activeTask.value.id == task.id) ==> Reduce(s, UpdateTaskSuccess(task)).activeTask == s.activeTask
  {
    SuccessSettles(s, UpdateTaskSuccess(task));
    ReplaceByIdSpec(s.tasks, task);
  }

  /** DELETE_TASK_SUCCESS removes exactly the entries with the id and keeps
      the rest in order; the active task becomes null exactly when it has
      that id. */
  lemma DeleteRemovesById(s: TaskState, id: string)
    ensures IsSubsequence(Reduce(s, DeleteTaskSuccess(id)).tasks, s.tasks)
    ensures forall t :: t in Reduce(s, DeleteTaskSuccess(id)).tasks <==> t in s.tasks && t.id != id
    ensures forall t :: multiset(Reduce(s, DeleteTaskSuccess(id)).tasks)[t] == if t.id != id then multiset(s.tasks)[t] else 0
    ensures Reduce(s, DeleteTaskSuccess(id)).activeTask.None? <==>
      s.activeTask.None? || s.activeTask.value.id == id
    ensures Reduce(s, DeleteTaskSuccess(id)).activeTask.Some? ==> Reduce(s, DeleteTaskSuccess(id)).activeTask == s.activeTask
  {
    var r := Reduce(s, DeleteTaskSuccess(id)).tasks;
    assert forall t :: t in r ==> t in s.tasks && t.id != id;
    KeepCount(s.tasks, (t: Task) => t.id != id);
  }

  /** What a SUCCESS leaves behind besides its list edit: not loading, no
      error. */
  lemma SuccessSettles(s: TaskState, a: TaskAction)
    requires a.FetchTasksSuccess? || a.AddTaskSuccess? || a.UpdateTaskSuccess? || a.DeleteTaskSuccess?
    ensures !Reduce(s, a).isLoading && Reduce(s, a).error.None?
    ensures a.FetchTasksSuccess? ==> Reduce(s, a) == WithTasks(s, a.fetched)
    ensures a.AddTaskSuccess? ==> Reduce(s, a) == WithTasks(s, [a.task] + s.tasks)
    ensures a.UpdateTaskSuccess? ==>
      Reduce(s, a) == WithTasks(s, ReplaceById(s.tasks, a.task)).(activeTask := ActiveAfterUpdate(s.activeTask, a.task))
    ensures a.DeleteTaskSuccess? ==>
      Reduce(s, a) == WithTasks(s, RemoveById(s.tasks, a.id)).(activeTask := ActiveAfterDelete(s.activeTask, a.id))
  {
  }

  /** FILTER_TASKS overwrites only the filter fields the payload defines,
      leaves the task list alone and recomputes the view. */
  lemma FilterMergesDefinedFields(s: TaskState, u: FilterUpdate)
    ensures u.category.Some? ==> Reduce(s, FilterTasks(u)).filter.category == u.category.value
    ensures u.category.None? ==> Reduce(s, FilterTasks(u)).filter.category == s.filter.category
    ensures u.status.Some? ==> Reduce(s, FilterTasks(u)).filter.status == u.status.value
    ensures u.status.None? ==> Reduce(s, FilterTasks(u)).filter.status == s.filter.status
    ensures u.search.Some? ==> Reduce(s, FilterTasks(u)).filter.search == u.search.value
    ensures u.search.None? ==> Reduce(s, FilterTasks(u)).filter.search == s.filter.search
    ensures Reduce(s, FilterTasks(u)).tasks == s.tasks
    ensures Consistent(Reduce(s, FilterTasks(u)))
  {
  }

  /** Dispatching the same FILTER_TASKS payload twice is dispatching it once. */
  lemma FilterIdempotent(s: TaskState, u: FilterUpdate)
    ensures Reduce(Reduce(s, FilterTasks(u)), FilterTasks(u)) == Reduce(s, FilterTasks(u))
  {
  }

  /** The action a rejected call dispatches: its FAILURE with the server's
      message or the fallback text. */
  function FailureAction(kind: TaskAction, message: Option<string>): (r: TaskAction)
    requires kind.IsRequest()
    ensures r.IsFailure()
    ensures kind.FetchTasksRequest? <==> r.FetchTasksFailure?
    ensures kind.AddTaskRequest? <==> r.AddTaskFailure?
    ensures kind.UpdateTaskRequest? <==> r.UpdateTaskFailure?
    ensures message.Some? && message.value != "" ==> r.message == message.value
  {
    match kind
    case FetchTasksRequest => FetchTasksFailure(ErrorText(message, "Failed to fetch tasks"))
    case AddTaskRequest => AddTaskFailure(ErrorText(message, "Failed to add task"))
    case UpdateTaskRequest => UpdateTaskFailure(ErrorText(message, "Failed to update task"))
    case DeleteTaskRequest => DeleteTaskFailure(ErrorText(message, "Failed to delete task"))
  }

  /** `TaskProvider`: the `useReducer` cell and the functions it hands out.
      `dispatched` records every action dispatched, in order. */
  class TaskProvider {
    var state: TaskState
    var dispatched: seq<TaskAction>

    ghost predicate Valid()
      reads this
    {
      Consistent(state)
    }

    constructor ()
      ensures Valid() && state == InitialState() && dispatched == []
    {
      state := InitialState();
      dispatched := [];
    }

    method Dispatch(a: TaskAction)
      requires Valid()
      modifies this
      ensures Valid()
      ensures state == Reduce(old(state), a) && dispatched == old(dispatched) + [a]
    {
      state := Reduce(state, a);
      dispatched := dispatched + [a];
    }

    /** `fetchTasks`: nothing unless the session is authenticated; otherwise
        FETCH_TASKS_REQUEST, then SUCCESS with the fetched list or FAILURE. */
    method FetchTasks(isAuthenticated: bool, outcome: ApiOutcome<seq<Task>>)
      requires Valid()
      modifies this
      ensures Valid()
      ensures !isAuthenticated ==> state == old(state) && dispatched == old(dispatched)
      ensures isAuthenticated && outcome.Resolved? ==>
        && dispatched == old(dispatched) + [FetchTasksRequest, FetchTasksSuccess(outcome.payload)]
        && state == WithTasks(old(state), outcome.payload)
      ensures isAuthenticated && outcome.Rejected? ==>
        && dispatched == old(dispatched) + [FetchTasksRequest, FailureAction(FetchTasksRequest, outcome.message)]
        && state == old(state).(isLoading := false, error := Some(ErrorText(outcome.message, "Failed to fetch tasks")))
    {
      if !isAuthenticated {
        return;
      }
      RequestTouchesOnlyLoadingAndError(state, FetchTasksRequest);
      Dispatch(FetchTasksRequest);
      match outcome
      case Resolved(fetched) =>
        SuccessSettles(state, FetchTasksSuccess(fetched));
        Dispatch(FetchTasksSuccess(fetched));
      case Rejected(message) =>
        FailureTouchesOnlyLoadingAndError(state, FailureAction(FetchTasksRequest, message));
        Dispatch(FailureAction(FetchTasksRequest, message));
    }

    /** `addTask`: ADD_TASK_REQUEST, then SUCCESS with the created task, or
        FAILURE followed by rethrowing (`rejected`). */
    method AddTask(outcome: ApiOutcome<Task>) returns (rejected: bool)
      requires Valid()
      modifies this
      ensures Valid()
      ensures rejected <==> outcome.Rejected?
      ensures outcome.Resolved? ==>
        && dispatched == old(dispatched) + [AddTaskRequest, AddTaskSuccess(outcome.payload)]
        && state.tasks == [outcome.payload] + old(state.tasks)
        && !state.isLoading && state.error.None?
        && state == WithTasks(old(state), [outcome.payload] + old(state.tasks))
      ensures outcome.Rejected? ==>
        && dispatched == old(dispatched) + [AddTaskRequest, FailureAction(AddTaskRequest, outcome.message)]
        && state == old(state).(isLoading := false, error := Some(ErrorText(outcome.message, "Failed to add task")))
    {
      RequestTouchesOnlyLoadingAndError(state, AddTaskRequest);
      Dispatch(AddTaskRequest);
      match outcome
      case Resolved(task) =>
        SuccessSettles(state, AddTaskSuccess(task));
        Dispatch(AddTaskSuccess(task));
        rejected := false;
      case Rejected(message) =>
        FailureTouchesOnlyLoadingAndError(state, FailureAction(AddTaskRequest, message));
        Dispatch(FailureAction(AddTaskRequest, message));
        rejected := true;
    }

    /** `updateTask`: UPDATE_TASK_REQUEST, then SUCCESS with the task the
        server returned, or FAILURE followed by rethrowing. The id only
        addresses the request. */
    method UpdateTask(id: string, outcome: ApiOutcome<Task>) returns (rejected: bool)
      requires Valid()
      modifies this
      ensures Valid()
      ensures rejected <==> outcome.Rejected?
      ensures outcome.Resolved? ==>
        && dispatched == old(dispatched) + [UpdateTaskRequest, UpdateTaskSuccess(outcome.payload)]
        && state.tasks == ReplaceById(old(state.tasks), outcome.payload)
        && !state.isLoading && state.error.None?
        && state == WithTasks(old(state), ReplaceById(old(state.tasks), outcome.payload)).(
             activeTask := ActiveAfterUpdate(old(state.activeTask), outcome.payload))
      ensures outcome.Rejected? ==>
        && dispatched == old(dispatched) + [UpdateTaskRequest, FailureAction(UpdateTaskRequest, outcome.message)]
        && state == old(state).(isLoading := false, error := Some(ErrorText(outcome.message, "Failed to update task")))
    {
      RequestTouchesOnlyLoadingAndError(state, UpdateTaskRequest);
      Dispatch(UpdateTaskRequest);
      match outcome
      case Resolved(task) =>
        SuccessSettles(state, UpdateTaskSuccess(task));
        Dispatch(UpdateTaskSuccess(task));
        rejected := false;
      case Rejected(message) =>
        FailureTouchesOnlyLoadingAndError(state, FailureAction(UpdateTaskRequest, message));
        Dispatch(FailureAction(UpdateTaskRequest, message));
        rejected := true;
    }

    /** `deleteTask`: DELETE_TASK_REQUEST, then SUCCESS carrying the id that
        was asked for, or FAILURE followed by rethrowing. */
    method DeleteTask(id: string, outcome: ApiOutcome<()>) returns (rejected: bool)
      requires Valid()
      modifies this
      ensures Valid()
      ensures rejected <==> outcome.Rejected?
      ensures outcome.Resolved? ==>
        && dispatched == old(dispatched) + [DeleteTaskRequest, DeleteTaskSuccess(id)]
        && state.tasks == RemoveById(old(state.tasks), id)
        && !state.isLoading && state.error.None?
        && state == WithTasks(old(state), RemoveById(old(state.tasks), id)).(
             activeTask := ActiveAfterDelete(old(state.activeTask), id))
      ensures outcome.Rejected? ==>
        && dispatched == old(dispatched) + [DeleteTaskRequest, FailureAction(DeleteTaskRequest, outcome.message)]
        && state == old(state).(isLoading := false, error := Some(ErrorText(outcome.message, "Failed to delete task")))
    {
      RequestTouchesOnlyLoadingAndError(state, DeleteTaskRequest);
      Dispatch(DeleteTaskRequest);
      match outcome
      case Resolved(_) =>
        SuccessSettles(state, DeleteTaskSuccess(id));
        Dispatch(DeleteTaskSuccess(id));
        rejected := false;
      case Rejected(message) =>
        FailureTouchesOnlyLoadingAndError(state, FailureAction(DeleteTaskRequest, message));
        Dispatch(FailureAction(DeleteTaskRequest, message));
        rejected := true;
    }

    /** `setActiveTask`: one SET_ACTIVE_TASK dispatch. */
    method SetActive(task: Option<Task>)
      requires Valid()
      modifies this
      ensures Valid()
      ensures dispatched == old(dispatched) + [SetActiveTask(task)]
      ensures state == old(state).(activeTask := task)
    {
      Dispatch(SetActiveTask(task));
    }

    /** `filterTasks`: one FILTER_TASKS dispatch. */
    method Filter(update: FilterUpdate)
      requires Valid()
      modifies this
      ensures Valid()
      ensures dispatched == old(dispatched) + [FilterTasks(update)]
      ensures state.tasks == old(state.tasks) && state.filter == MergeFilter(old(state.filter), update)
      ensures state == old(state).(
        filter := MergeFilter(old(state.filter), update),
        filteredTasks := ApplyFilters(old(state.tasks), MergeFilter(old(state.filter), update)))
    {
      Dispatch(FilterTasks(update));
    }
  }
}
