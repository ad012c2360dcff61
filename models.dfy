/**
 * The task record and its payloads (src/models.py): pydantic models and
 * string enumerations, as datatypes.
 */
module Models {
  import opened Wrappers

  /** A point in time. The model only stores and passes these along. */
  type DateTime = int

  /** Input of a database-creation task: the requested server version. */
  datatype CreateDbInput = CreateDbInput(version: string)

  /** Output of a database-creation task: the pulled image and the created container. */
  datatype CreateDbOutput = CreateDbOutput(imageId: string, containerId: string)

  /** The four states of a task. */
  datatype TaskStatus = New | Running | Completed | Failed

  /** The string form of a status (a string enumeration in the source). */
  function StatusValue(s: TaskStatus): (v: string)
    ensures ParseStatus(v) == Some(s)
  {
    match s
    case New => "new"
    case Running => "running"
    case Completed => "completed"
    case Failed => "failed"
  }

  /** Validation of a string against the status enumeration. */
  function ParseStatus(v: string): (r: Option<TaskStatus>)
    ensures r.Some? <==> v in {"new", "running", "completed", "failed"}
  {
    if v == "new" then Some(New)
    else if v == "running" then Some(Running)
    else if v == "completed" then Some(Completed)
    else if v == "failed" then Some(Failed)
    else None
  }

  /** An accepted string is the string form of the status it parses to. */
  lemma ParseStatusInverse(v: string)
    ensures ParseStatus(v).Some? ==> StatusValue(ParseStatus(v).value) == v
  {
  }

  /** Distinct statuses have distinct string forms. */
  lemma StatusValueInjective(s: TaskStatus, t: TaskStatus)
    ensures StatusValue(s) == StatusValue(t) ==> s == t
  {
    if StatusValue(s) == StatusValue(t) {
      assert ParseStatus(StatusValue(s)) == Some(s);
    }
  }

  /** The task-type enumeration has one tag. */
  datatype TaskType = CreateDb

  function TaskTypeValue(t: TaskType): (v: string)
    ensures ParseTaskType(v) == Some(t)
  {
    match t
    case CreateDb => "create_db"
  }

  function ParseTaskType(v: string): (r: Option<TaskType>)
    ensures r.Some? <==> v == "create_db"
  {
    if v == "create_db" then Some(CreateDb) else None
  }

  /**
   * One unit of work. `id`, `taskType`, `status`, `data` and `createdAt` have
   * no default; `result`, `error`, `startedAt` and `finishedAt` default to absent.
   * The field order is the source's.
   */
  datatype Task<D, R> = Task(
    id: string,
    taskType: TaskType,
    status: TaskStatus,
    data: D,
    result: Option<R> := None,
    error: Option<string> := None,
    createdAt: DateTime,
    startedAt: Option<DateTime> := None,
    finishedAt: Option<DateTime> := None)

  /** A task built from its required fields alone. */
  function NewTask<D, R>(id: string, taskType: TaskType, status: TaskStatus, data: D, createdAt: DateTime): (t: Task<D, R>)
    ensures t.id == id && t.taskType == taskType && t.status == status && t.data == data
    ensures t.createdAt == createdAt
    ensures t.result.None? && t.error.None?
    ensures t.startedAt.None? && t.finishedAt.None?
  {
    Task(id, taskType, status, data, createdAt := createdAt)
  }
}
