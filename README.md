# Postgres VM agent: task registry, dispatch queue and container resolution

This project models the producer side of a small agent. The agent accepts HTTP requests to install, start or stop a Postgres container and tracks each request as a task.

- **Task records** (`models.dfy`, module `Models`). Covers the status and task-type string enumerations, the payload records and the generic `Task` record. The record's optional fields default to absent.
- **Agent errors** (`errors.dfy`, module `Errors`). Covers the not-found and multiple-found errors and their messages. Python's `", ".join` is modelled, along with the split that undoes it.
- **Container resolution** (`utils.dfy`, module `Utils`). It picks the one container whose name matches the reserved name from the list the Docker daemon returned. Zero matches is not-found. Several matches is multiple-found, carrying every id in list order.
- **Registry and queue** (`api.dfy`, module `Api`). The shared `tasks` dict and the FIFO `queue` of task ids are the fields of class `TaskRegistry`:
  - `tasks` is a map.
  - `order` gives the dict's insertion order.
  - `queue` is a sequence.
  - The three submit handlers store a new task under its id and then enqueue the id. They are methods proved against the value-level function `AfterSubmit`, whose properties are lemmas. The read handlers are functions.
  - The invariant `Consistent` says that `order` lists every key exactly once and that every queued id is a registry key.

Assignment to an existing dict key replaces the task and keeps the key's first position. Nothing in the handlers checks that the id is new, and the model does not require it either.

`wrappers.dfy` holds `Option` and `Result`.

## Model

| member | source | states |
|---|---|---|
| Models.StatusValue | src/models.py:16-20 | each of the four statuses has a string form that parses back to that status |
| Models.ParseStatus | src/models.py:16-20 | looking a string up in the status enumeration succeeds exactly for "new", "running", "completed" and "failed" |
| Models.ParseStatusInverse | src/models.py:16-20 | each accepted string parses to the status whose string form it is |
| Models.StatusValueInjective | src/models.py:16-20 | distinct statuses have distinct string forms |
| Models.TaskTypeValue | src/models.py:23-24 | the single task type's string form parses back to it |
| Models.ParseTaskType | src/models.py:23-24 | the only accepted task-type string is "create_db" |
| Models.NewTask | src/models.py:27-36 | a task built from id, type, status, data and creation time alone has those fields; result, error, started and finished times are absent |
| Errors.Join | src/errors.py:24 | the join of no parts is empty; otherwise its length is the parts' total length plus one separator between each pair of neighbours |
| Errors.JoinAppend | src/errors.py:24 | joining one more part appends the separator and that part, so parts appear in list order |
| Errors.SplitJoin | src/errors.py:24 | splitting the ", "-join of a non-empty list of comma-free ids gives the list back |
| Errors.Message | src/errors.py:7-25 | every agent error has a non-empty message; it starts with the multiple-found prefix exactly for the multiple-found error |
| Errors.NotFoundMessageFixed | src/errors.py:14-16 | the not-found message is exactly "Container postgres not found" |
| Errors.MultipleMessageListsIds | src/errors.py:23-25 | the multiple-found message is the prefix followed by text that splits back into exactly the ids, in order, each once |
| Errors.SingleIdMessage | src/errors.py:24-25 | with one id the message is the prefix followed by that id, with no separator |
| Errors.MultipleMessageAppend | src/errors.py:24-25 | one more id at the end of the list adds ", " and that id at the end of the message |
| Utils.ContainerIds | src/utils.py:12 | the id list has one entry per container, the i-th being the i-th container's id |
| Utils.GetPostgresContainer | src/utils.py:7-14 | an empty list yields not-found; a single container is returned itself and lies in the list; two or more yield multiple-found carrying every container's id in list order; exactly one outcome per length |
| Utils.OutcomeDecidedByLength | src/utils.py:9-14 | two lists give the same outcome exactly when both are empty, both have one element, or both have more than one |
| Utils.MultipleFoundMessage | src/utils.py:11-13 | for two or more comma-free ids, the resulting error's message lists every matched id in list order |
| Utils.ConstructMultipleError | src/errors.py:19-21 | the multiple-found dataclass accepts only the keyword `containers`; any other keyword is a TypeError |
| Utils.GetPostgresContainerAsWritten | src/utils.py:7-14 | as written, resolution agrees with the intended one on lists of at most one container |
| Utils.AsWrittenMultipleIsTypeError | src/utils.py:11-13 | as written, every list of two or more containers raises a TypeError for the keyword `container_ids`, where the multiple-found error is intended |
| Utils.TwoMatchesCounterexample | src/utils.py:11-13 | two matching containers: the source raises a TypeError, the corrected model the multiple-found error with both ids |
| Api.InstallPostgresTask | src/main.py:49 | the install task has the given id, status new, no result, error or start and finish times, and the request body as its data |
| Api.StartPostgresTask | src/main.py:57 | the start task has the given id, status new, no result, error or start and finish times, and is marked as a start request |
| Api.StopPostgresTask | src/main.py:65 | the stop task has the given id, status new, no result, error or start and finish times, and is marked as a stop request |
| Api.BuildersDistinct | src/main.py:49-65 | install, start and stop tasks are never equal, so a registry entry shows which handler built it |
| Api.AfterSubmit | src/main.py:50-51 | after a submit the keys are the old keys plus the task's id, which maps to the task; the queue is the old queue with the id appended; the key order grows by the id only if it was new, and its old part is unchanged |
| Api.Listing | src/main.py:39 | the listing has one entry per key in insertion order |
| Api.ListingAt | src/main.py:39 | position i of the listing holds the task stored under the i-th inserted key |
| Api.Lookup | src/main.py:44 | lookup succeeds exactly for registered ids and returns the stored task; an unregistered id is a KeyError for that id |
| Api.EmptyConsistent | src/main.py:12 | the empty registry and queue, the assumed starting state, satisfy the invariant and list nothing |
| Api.SubmitKeepsConsistent | src/main.py:47-68 | a submit keeps every queued id a registry key and the key order duplicate-free |
| Api.SubmitEffect | src/main.py:49-52 | a submit maps the id to the new task, appends exactly that id behind the earlier queued ids, adds no key but the id, leaves every other entry unchanged, and the id then looks up to the task |
| Api.ListingComplete | src/main.py:37-39 | the listing has as many entries as the registry has keys, and every registered task appears at its key's position |
| Api.SubmitFreshListsLast | src/main.py:50 | a task with a new id is listed last, after all earlier tasks in their order |
| Api.SubmitExistingReplacesInPlace | src/main.py:50 | a task with an existing id replaces the old task at the old position; the listing's length is unchanged |
| Api.SubmitAllQueue | src/main.py:51 | a run of submits enqueues the ids in submission order behind what was already queued |
| Api.SubmitAllFreshConsistent | src/main.py:47-68 | a run of submits with distinct new ids keeps the invariant |
| Api.SubmitAllFresh | src/main.py:47-68 | a run of submits with distinct new ids lists the new tasks after the old ones, in submission order |
| Api.SubmitAllFreshCount | src/main.py:47-68 | N submits with distinct new ids register exactly N more tasks |
| Api.TaskRegistry.constructor | src/main.py:12 | the registry and queue, assumed to start empty, start consistent |
| Api.TaskRegistry.Put | src/main.py:50 | storing replaces or adds the id's entry, extends the key order only for a new id, and leaves the queue alone |
| Api.TaskRegistry.Submit | src/main.py:50-52 | the new state is `AfterSubmit` of the old one; the returned id is the key written and the id enqueued; other entries are unchanged; the invariant holds |
| Api.TaskRegistry.InstallPostgres | src/main.py:47-52 | submits an install task whose data is the request body unchanged and whose status is new; returns its id, which is appended to the queue |
| Api.TaskRegistry.StartPostgres | src/main.py:55-60 | submits a new task marked as a start request under the id; returns the id, which is appended to the queue |
| Api.TaskRegistry.StopPostgres | src/main.py:63-68 | submits a new task marked as a stop request under the id; returns the id, which is appended to the queue |
| Api.TaskRegistry.ListTasks | src/main.py:37-39 | returns every registered task once, one per key, in insertion order |
| Api.TaskRegistry.GetTask | src/main.py:42-44 | returns the stored task for a registered id and a KeyError for any other id |

## Findings

| source | as written | input that shows it | evidently intended | confidence | as-written member | corrected member |
|---|---|---|---|---|---|---|
| src/utils.py:13 | The code builds `MultiplePostgresContainersError(container_ids=...)`, but the dataclass declares only the field `containers` (src/errors.py:21), so the call raises TypeError. Its `message` also reads `c.id` from each element (src/errors.py:24), so a list of id strings would fail there too. | two containers match the reserved name, with ids "a1" and "b2" | raise the multiple-found error carrying the matched containers' ids, with a message listing them | high; not executed | Utils.GetPostgresContainerAsWritten, Utils.AsWrittenMultipleIsTypeError | Utils.GetPostgresContainer |

## Left out

- The worker loop (src/worker.py) is left out. It only takes ids off the queue and logs them, so nothing it does can be stated. Dequeueing is therefore not modelled. The queue is a sequence that producers append to. Its FIFO order is `Api.SubmitAllQueue`. Note that src/main.py:21 calls `worker_loop(docker=docker)`, while src/worker.py:9 declares it without parameters.
- Configuration loading (src/settings.py) is left out because it has no logic.
- The HTTP layer is left out: the application lifespan, route decorators, request validation, the `/health` handler and `uvicorn.run`. So is the HTTP status that a KeyError from `get_task` turns into.
- The Docker daemon is left out, including the container list call with its name filter and client setup and shutdown. The list call's answer is the input of `Utils.GetPostgresContainer`.
- Asynchronous blocking and cooperative scheduling on the queue are left out. Each handler runs as one atomic step.
- Logging is left out.
- Task execution is left out: status transitions, timestamp stamping, the install/start/stop flows and container health classification. No source file in this model contains them. `DateTime` values are only stored.
- The task classes `InstallPostgresTask`, `StartPostgresTask` and `StopPostgresTask` are not part of this model, and neither is the `task_queue` module that defines `tasks` and `queue`.
  - The task id and creation time these classes generate are parameters of the handlers.
  - The builders in `Api` set the status to new and the type to `CreateDb`, the only tag `TaskType` has.
  - The install task's data is the request body. Start and stop tasks carry a payload constructor that records which class built them, since their own data and type tags are not visible.
- The install request body's class `InstallPostgresInputTaskData` (src/main.py:10, 48) is not part of this model. Its body is modelled as `CreateDbInput`, which holds the requested version, like `CreateDBInputTaskData` at src/models.py:7-8.
- The `task_queue` module is not part of this model, so the initial contents of `tasks` and `queue` are not visible. `Api.EMPTY`, `Api.EmptyConsistent` and `Api.TaskRegistry.constructor` assume that both start empty.
- The abstract exception base class and Python's exception machinery are left out. The two errors are constructors of one immutable datatype, and raising one is a `Failure` result.
- Errors.MultipleMessageListsIds: requires that no id contains a comma, because the split cannot recover ids that contain the separator. Docker container ids are hexadecimal.
- Utils.MultipleFoundMessage: requires comma-free ids, for the same reason.
- Api.SubmitAllFresh: assumes the submitted ids are distinct and unregistered. Id generation happens in the task classes, which are not part of this model.
- Api.SubmitAllFreshCount: assumes distinct, unregistered ids, for the same reason.
