/** The server's task record (server/models/Task.js): its fields, the two
    enumerations with their defaults, the required fields, trimming of the
    text fields and the two system timestamps. */
module TaskSchema {
  import opened Wrappers
  import opened Strings

  /** A document id and a user id; the store's ObjectIds, abstracted. */
  type TaskId = nat
  type UserId = nat
  /** An instant on the server's clock. */
  type Timestamp = int

  datatype Category = Personal | Work | Urgent | Other
  datatype Status = Pending | InProgress | Completed

  /** The spelling of each category value on the wire. */
  function CategoryName(c: Category): string {
    match c
    case Personal => "Personal"
    case Work => "Work"
    case Urgent => "Urgent"
    case Other => "Other"
  }

  /** The spelling of each status value on the wire. */
  function StatusName(s: Status): string {
    match s
    case Pending => "pending"
    case InProgress => "in-progress"
    case Completed => "completed"
  }

  /** Membership in `['Personal', 'Work', 'Urgent', 'Other']`, read back as a
      category; anything else (other case included) is rejected. */
  function ParseCategory(s: string): (r: Option<Category>)
    ensures r.Some? ==> CategoryName(r.value) == s
    ensures r.None? ==> forall c: Category :: CategoryName(c) != s
  {
    if s == "Personal" then Some(Personal)
    else if s == "Work" then Some(Work)
    else if s == "Urgent" then Some(Urgent)
    else if s == "Other" then Some(Other)
    else None
  }

  /** Membership in `['pending', 'in-progress', 'completed']`, read back as a
      status. */
  function ParseStatus(s: string): (r: Option<Status>)
    ensures r.Some? ==> StatusName(r.value) == s
    ensures r.None? ==> forall st: Status :: StatusName(st) != s
  {
    if s == "pending" then Some(Pending)
    else if s == "in-progress" then Some(InProgress)
    else if s == "completed" then Some(Completed)
    else None
  }

  /** Every category survives the trip to its name and back. */
  lemma CategoryRoundTrip(c: Category)
    ensures ParseCategory(CategoryName(c)) == Some(c)
  {
  }

  /** Every status survives the trip to its name and back. */
  lemma StatusRoundTrip(s: Status)
    ensures ParseStatus(StatusName(s)) == Some(s)
  {
  }

  /** A stored task. `description` and `dueDate` are optional; the due date
      is kept as the string it was given (date casting is not modelled). */
  datatype TaskRecord = TaskRecord(
    id: TaskId,
    title: string,
    description: Option<string>,
    dueDate: Option<string>,
    category: Category,
    status: Status,
    owner: UserId,
    createdAt: Timestamp,
    updatedAt: Timestamp)

  /** What the schema guarantees of every saved record: the required title is
      present (non-empty) and both text fields are stored trimmed. The enum
      and owner constraints are carried by the types. */
  ghost predicate WellFormed(t: TaskRecord) {
    && t.title != ""
    && IsTrimmed(t.title)
    && (t.description.Some? ==> IsTrimmed(t.description.value))
  }

  /** The fields a caller may give `new Task({...})`; a missing enum is None. */
  datatype TaskFields = TaskFields(
    title: string,
    description: Option<string>,
    dueDate: Option<string>,
    category: Option<Category>,
    status: Option<Status>)

  /** Why saving a record can fail: the required title is empty once trimmed. */
  datatype SchemaError = TitleRequired

  /** The record `new Task(fields)` then `save()` stores at instant `now`:
      text fields trimmed, missing enums defaulted, both timestamps set to
      `now`. Saving fails when the trimmed title is empty. */
  function NewTask(id: TaskId, fields: TaskFields, owner: UserId, now: Timestamp): (r: Result<TaskRecord, SchemaError>)
    ensures r.Success? <==> Trim(fields.title) != ""
    ensures r.Success? ==> WellFormed(r.value)
    ensures r.Success? ==> r.value.id == id && r.value.owner == owner
    ensures r.Success? ==> r.value.title == Trim(fields.title)
    ensures r.Success? ==> r.value.description == (if fields.description.Some? then Some(Trim(fields.description.value)) else None)
    ensures r.Success? ==> r.value.dueDate == fields.dueDate
    ensures r.Success? ==> r.value.createdAt == now && r.value.updatedAt == now
    ensures r.Success? && fields.category.None? ==> r.value.category == Other
    ensures r.Success? && fields.status.None? ==> r.value.status == Pending
    ensures r.Success? && fields.category.Some? ==> r.value.category == fields.category.value
    ensures r.Success? && fields.status.Some? ==> r.value.status == fields.status.value
  {
    var title := Trim(fields.title);
    if title == "" then Failure(TitleRequired)
    else
      Success(TaskRecord(
        id,
        title,
        if fields.description.Some? then Some(Trim(fields.description.value)) else None,
        fields.dueDate,
        fields.category.GetOr(Other),
        fields.status.GetOr(Pending),
        owner,
        now,
        now))
  }

  /** Creating a record fails exactly when the given title is nothing but
      whitespace (the empty title included). */
  lemma NewTaskFailsIffBlankTitle(id: TaskId, fields: TaskFields, owner: UserId, now: Timestamp)
    ensures NewTask(id, fields, owner, now).Failure? <==> SpaceBetween(fields.title, 0, |fields.title|)
  {
    TrimEmptyIffAllSpace(fields.title);
  }

  /** The validation `save()` runs on an existing record: the required title
      must be non-empty. */
  predicate SaveValid(t: TaskRecord) {
    t.title != ""
  }

  /** The user-editable fields differ, which is what makes mongoose mark a
      document modified (assigning an equal value does not). */
  predicate Modified(before: TaskRecord, after: TaskRecord) {
    || before.title != after.title
    || before.description != after.description
    || before.dueDate != after.dueDate
    || before.category != after.category
    || before.status != after.status
  }

  /** The timestamps plug-in on `save()` of an existing record: `updatedAt`
      becomes `now` if the record was modified, and nothing else changes. */
  function Touch(before: TaskRecord, after: TaskRecord, now: Timestamp): (r: TaskRecord)
    ensures r.updatedAt == (if Modified(before, after) then now else after.updatedAt)
    ensures r.(updatedAt := after.updatedAt) == after
  {
    if Modified(before, after) then after.(updatedAt := now) else after
  }
}
