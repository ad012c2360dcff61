/**
 * The producer side of the task engine (src/main.py): the shared task
 * registry, the FIFO dispatch queue of task ids, the three submit handlers
 * and the two read handlers.
 *
 * The registry is a Python dict: assignment to an existing key replaces its
 * value and keeps the key's original position; iteration follows first
 * insertion. `order` records that position explicitly.
 */
module Api {
  import opened Wrappers
  import opened Models

  /**
   * The data of a registered task. It records which handler built the task:
   * the install request's body, or the mark of a start or a stop request.
   */
  datatype Payload = InstallBody(body: CreateDbInput) | StartRequest | StopRequest

  /** The result of a finished task. */
  datatype Output = CreatedDb(output: CreateDbOutput) | NoOutput

  /** The registry holds tasks of every kind. */
  type AnyTask = Task<Payload, Output>

  // ----- Task builders -----
  // The id and the creation time come from the task classes' defaults, which
  // are supplied by the caller here.

  /** A fresh install task: new, untouched, carrying the request body. */
  function InstallPostgresTask(id: string, createdAt: DateTime, body: CreateDbInput): (t: AnyTask)
    ensures t.id == id && t.status == New && t.createdAt == createdAt
    ensures t.data.InstallBody? && t.data.body == body
    ensures t.result.None? && t.error.None? && t.startedAt.None? && t.finishedAt.None?
  {
    NewTask(id, CreateDb, New, InstallBody(body), createdAt)
  }

  /** A fresh start task: new, untouched, marked as a start request. */
  function StartPostgresTask(id: string, createdAt: DateTime): (t: AnyTask)
    ensures t.id == id && t.status == New && t.createdAt == createdAt
    ensures t.data.StartRequest?
    ensures t.result.None? && t.error.None? && t.startedAt.None? && t.finishedAt.None?
  {
    NewTask(id, CreateDb, New, StartRequest, createdAt)
  }

  /** A fresh stop task: new, untouched, marked as a stop request. */
  function StopPostgresTask(id: string, createdAt: DateTime): (t: AnyTask)
    ensures t.id == id && t.status == New && t.createdAt == createdAt
    ensures t.data.StopRequest?
    ensures t.result.None? && t.error.None? && t.startedAt.None? && t.finishedAt.None?
  {
    NewTask(id, CreateDb, New, StopRequest, createdAt)
  }

  /** The three handlers build tasks that can be told apart, whatever the ids, times and body. */
  lemma BuildersDistinct(id1: string, c1: DateTime, body: CreateDbInput, id2: string, c2: DateTime)
    ensures InstallPostgresTask(id1, c1, body) != StartPostgresTask(id2, c2)
    ensures InstallPostgresTask(id1, c1, body) != StopPostgresTask(id2, c2)
    ensures StartPostgresTask(id1, c1) != StopPostgresTask(id2, c2)
  {
  }

  // ----- The shared state as a value -----

  /** The registry with its key order, and the dispatch queue. */
  datatype State = State(tasks: map<string, AnyTask>, order: seq<string>, queue: seq<string>)

  const EMPTY: State := State(map[], [], [])

  predicate NoDuplicates(s: seq<string>) {
    forall i, j :: 0 <= i < j < |s| ==> s[i] != s[j]
  }

  /**
   * The registry invariant: `order` lists each key once, and every queued id
   * is a key (the insert precedes the enqueue, and nothing deletes).
   */
  ghost predicate Consistent(s: State) {
    && NoDuplicates(s.order)
    && (forall k :: k in s.order <==> k in s.tasks)
    && (forall q :: q in s.queue ==> q in s.tasks)
  }

  /** What one submit handler does: `tasks[task.id] = task`, then `queue.put(task.id)`. */
  function AfterSubmit(s: State, t: AnyTask): (r: State)
    ensures r.tasks.Keys == s.tasks.Keys + {t.id} && r.tasks[t.id] == t
    ensures |r.queue| == |s.queue| + 1 && r.queue[..|s.queue|] == s.queue && r.queue[|s.queue|] == t.id
    ensures |r.order| == |s.order| + (if t.id in s.tasks then 0 else 1) && r.order[..|s.order|] == s.order
  {
    State(s.tasks[t.id := t],
          if t.id in s.tasks then s.order else s.order + [t.id],
          s.queue + [t.id])
  }

  /** The tasks of `keys`, in the order of `keys`. */
  function Values(tasks: map<string, AnyTask>, keys: seq<string>): (r: seq<AnyTask>)
    requires forall k :: k in keys ==> k in tasks
    ensures |r| == |keys|
  {
    if keys == [] then [] else [tasks[keys[0]]] + Values(tasks, keys[1..])
  }

  lemma {:induction false} ValuesAt(tasks: map<string, AnyTask>, keys: seq<string>, i: nat)
    requires forall k :: k in keys ==> k in tasks
    requires i < |keys|
    ensures Values(tasks, keys)[i] == tasks[keys[i]]
  {
    if i > 0 {
      ValuesAt(tasks, keys[1..], i - 1);
    }
  }

  /** `list(tasks.values())`. */
  function Listing(s: State): (r: seq<AnyTask>)
    requires Consistent(s)
    ensures |r| == |s.order|
  {
    Values(s.tasks, s.order)
  }

  /** Position `i` of the listing holds the task of the `i`-th key inserted. */
  lemma ListingAt(s: State)
    requires Consistent(s)
    ensures forall i :: 0 <= i < |s.order| ==> Listing(s)[i] == s.tasks[s.order[i]]
  {
    forall i | 0 <= i < |s.order| ensures Listing(s)[i] == s.tasks[s.order[i]] {
      ValuesAt(s.tasks, s.order, i);
    }
  }

  /** The failure of `tasks[task_id]` for a missing key. */
  datatype LookupError = KeyError(key: string)

  /** `tasks[task_id]`. */
  function Lookup(s: State, id: string): (r: Result<AnyTask, LookupError>)
    ensures r.Success? <==> id in s.tasks
    ensures r.Success? ==> r.value == s.tasks[id]
    ensures r.Failure? ==> r.error == KeyError(id)
  {
    if id in s.tasks then Success(s.tasks[id]) else Failure(KeyError(id))
  }

  // ----- Properties of one submit -----

  lemma EmptyConsistent()
    ensures Consistent(EMPTY) && Listing(EMPTY) == []
  {
  }

  /** A submit keeps the invariant. */
  lemma SubmitKeepsConsistent(s: State, t: AnyTask)
    requires Consistent(s)
    ensures Consistent(AfterSubmit(s, t))
  {
  }

  /**
   * A submit maps the id to the task, appends exactly that id to the queue
   * behind the earlier ones, and leaves every other key as it was.
   */
  lemma SubmitEffect(s: State, t: AnyTask)
    ensures var r := AfterSubmit(s, t);
      && t.id in r.tasks && r.tasks[t.id] == t
      && r.queue == s.queue + [t.id]
      && r.tasks.Keys == s.tasks.Keys + {t.id}
      && (forall k :: k in s.tasks && k != t.id ==> r.tasks[k] == s.tasks[k])
      && Lookup(r, t.id) == Success(t)
  {
  }

  /** Every registered task is listed exactly once, one entry per key. */
  lemma {:induction false} ListingComplete(s: State)
    requires Consistent(s)
    ensures |Listing(s)| == |s.tasks|
    ensures forall k :: k in s.tasks ==> exists i :: 0 <= i < |s.order| && s.order[i] == k && Listing(s)[i] == s.tasks[k]
  {
    DistinctCount(s.order);
    ListingAt(s);
    assert (set k | k in s.order) == s.tasks.Keys;
    forall k | k in s.tasks
      ensures exists i :: 0 <= i < |s.order| && s.order[i] == k && Listing(s)[i] == s.tasks[k]
    {
      var i :| 0 <= i < |s.order| && s.order[i] == k;
      assert Listing(s)[i] == s.tasks[k];
    }
  }

  /** A sequence without duplicates has as many elements as its set. */
  lemma {:induction false} DistinctCount(xs: seq<string>)
    requires NoDuplicates(xs)
    ensures |set x | x in xs| == |xs|
  {
    if xs != [] {
      var tail := xs[1..];
      assert NoDuplicates(tail) by {
        forall i, j | 0 <= i < j < |tail| ensures tail[i] != tail[j] {
          assert tail[i] == xs[i + 1] && tail[j] == xs[j + 1];
        }
      }
      DistinctCount(tail);
      assert xs[0] !in tail by {
        forall j | 0 <= j < |tail| ensures tail[j] != xs[0] { assert tail[j] == xs[j + 1]; }
      }
      assert (set x | x in xs) == {xs[0]} + (set x | x in tail) by {
        forall x ensures x in xs <==> x == xs[0] || x in tail {
          if x in xs && x != xs[0] {
            var i :| 0 <= i < |xs| && xs[i] == x;
            assert tail[i - 1] == x;
          }
        }
      }
    }
  }

  /** A task with a fresh id is listed last, after all earlier tasks. */
  lemma SubmitFreshListsLast(s: State, t: AnyTask)
    requires Consistent(s) && t.id !in s.tasks
    ensures Consistent(AfterSubmit(s, t))
    ensures Listing(AfterSubmit(s, t)) == Listing(s) + [t]
  {
    var r := AfterSubmit(s, t);
    SubmitKeepsConsistent(s, t);
    ListingAt(s);
    ListingAt(r);
    assert r.order == s.order + [t.id];
    var listed, expected := Listing(r), Listing(s) + [t];
    forall i | 0 <= i < |listed| ensures listed[i] == expected[i] {
      if i < |s.order| {
        assert s.order[i] in s.tasks;
        assert r.order[i] == s.order[i] != t.id;
      }
    }
    assert listed == expected;
  }

  /** A task with an id already present replaces the old task in its old position. */
  lemma SubmitExistingReplacesInPlace(s: State, t: AnyTask)
    requires Consistent(s) && t.id in s.tasks
    ensures Consistent(AfterSubmit(s, t))
    ensures |Listing(AfterSubmit(s, t))| == |Listing(s)|
    ensures forall i :: 0 <= i < |s.order| ==>
      Listing(AfterSubmit(s, t))[i] == if s.order[i] == t.id then t else Listing(s)[i]
  {
    SubmitKeepsConsistent(s, t);
    ListingAt(s);
    ListingAt(AfterSubmit(s, t));
  }

  // ----- Properties of a run of submits -----

  /** Submitting `ts` one after the other. */
  function SubmitAll(s: State, ts: seq<AnyTask>): State
    decreases |ts|
  {
    if ts == [] then s else SubmitAll(AfterSubmit(s, ts[0]), ts[1..])
  }

  /** The queue receives the ids in submission order, behind what was already queued. */
  lemma {:induction false} SubmitAllQueue(s: State, ts: seq<AnyTask>)
    ensures |SubmitAll(s, ts).queue| == |s.queue| + |ts|
    ensures SubmitAll(s, ts).queue[..|s.queue|] == s.queue
    ensures forall i :: 0 <= i < |ts| ==> SubmitAll(s, ts).queue[|s.queue| + i] == ts[i].id
    decreases |ts|
  {
    if ts != [] {
      var s1, rest := AfterSubmit(s, ts[0]), ts[1..];
      SubmitAllQueue(s1, rest);
      var q := SubmitAll(s1, rest).queue;
      assert SubmitAll(s, ts).queue == q;
      var n := |s.queue|;
      assert s1.queue == s.queue + [ts[0].id];
      assert q[..n] == s.queue by {
        assert q[..n] == q[..n + 1][..n];
      }
      forall i | 0 <= i < |ts| ensures q[n + i] == ts[i].id {
        if i == 0 {
          assert q[n] == q[..n + 1][n] == s1.queue[n];
        } else {
          assert q[(n + 1) + (i - 1)] == rest[i - 1].id;
          assert rest[i - 1] == ts[i];
        }
      }
    }
  }

  /** No two of `ts` share an id. */
  predicate DistinctIds(ts: seq<AnyTask>) {
    forall i, j :: 0 <= i < j < |ts| ==> ts[i].id != ts[j].id
  }

  /** After the first of `ts` is submitted, the rest still have distinct fresh ids. */
  lemma FreshRest(s: State, ts: seq<AnyTask>)
    requires ts != []
    requires DistinctIds(ts)
    requires forall i :: 0 <= i < |ts| ==> ts[i].id !in s.tasks
    ensures DistinctIds(ts[1..])
    ensures forall i :: 0 <= i < |ts| - 1 ==> ts[1..][i].id !in AfterSubmit(s, ts[0]).tasks
  {
    var rest := ts[1..];
    forall i, j | 0 <= i < j < |rest| ensures rest[i].id != rest[j].id {
      assert rest[i] == ts[i + 1] && rest[j] == ts[j + 1];
    }
    forall i | 0 <= i < |rest| ensures rest[i].id !in AfterSubmit(s, ts[0]).tasks {
      assert rest[i] == ts[i + 1];
    }
  }

  /** Submits with distinct fresh ids keep the invariant. */
  lemma {:induction false} SubmitAllFreshConsistent(s: State, ts: seq<AnyTask>)
    requires Consistent(s)
    requires DistinctIds(ts)
    requires forall i :: 0 <= i < |ts| ==> ts[i].id !in s.tasks
    ensures Consistent(SubmitAll(s, ts))
    decreases |ts|
  {
    if ts != [] {
      SubmitKeepsConsistent(s, ts[0]);
      FreshRest(s, ts);
      SubmitAllFreshConsistent(AfterSubmit(s, ts[0]), ts[1..]);
    }
  }

  lemma AppendFirstRest<T>(a: seq<T>, b: seq<T>)
    requires b != []
    ensures a + [b[0]] + b[1..] == a + b
  {
  }

  /** N submits with distinct fresh ids add N listed tasks, in submission order. */
  lemma {:induction false} SubmitAllFresh(s: State, ts: seq<AnyTask>)
    requires Consistent(s)
    requires DistinctIds(ts)
    requires forall i :: 0 <= i < |ts| ==> ts[i].id !in s.tasks
    ensures Consistent(SubmitAll(s, ts))
    ensures Listing(SubmitAll(s, ts)) == Listing(s) + ts
    decreases |ts|
  {
    SubmitAllFreshConsistent(s, ts);
    if ts != [] {
      var s1, rest := AfterSubmit(s, ts[0]), ts[1..];
      var r := SubmitAll(s1, rest);
      assert SubmitAll(s, ts) == r;
      SubmitFreshListsLast(s, ts[0]);
      FreshRest(s, ts);
      SubmitAllFresh(s1, rest);
      AppendFirstRest(Listing(s), ts);
    }
  }

  /** N submits with distinct fresh ids make N more registered tasks. */
  lemma SubmitAllFreshCount(s: State, ts: seq<AnyTask>)
    requires Consistent(s)
    requires DistinctIds(ts)
    requires forall i :: 0 <= i < |ts| ==> ts[i].id !in s.tasks
    ensures |SubmitAll(s, ts).tasks| == |s.tasks| + |ts|
  {
    SubmitAllFresh(s, ts);
    ListingComplete(s);
    ListingComplete(SubmitAll(s, ts));
  }

  // ----- The shared objects -----

  /** The module-level `tasks` dict and `queue`, updated in place by the handlers. */
  class TaskRegistry {
    var tasks: map<string, AnyTask>
    var order: seq<string>
    var queue: seq<string>

    function Snapshot(): State
      reads this
    {
      State(tasks, order, queue)
    }

    ghost predicate Valid()
      reads this
    {
      Consistent(Snapshot())
    }

    constructor ()
      ensures Valid() && Snapshot() == EMPTY
    {
      tasks, order, queue := map[], [], [];
    }

    /** `tasks[task.id] = task`. */
    method Put(task: AnyTask)
      requires Valid()
      modifies this
      ensures Valid()
      ensures tasks == old(tasks)[task.id := task]
      ensures order == if task.id in old(tasks) then old(order) else old(order) + [task.id]
      ensures queue == old(queue)
    {
      if task.id !in tasks {
        order := order + [task.id];
      }
      tasks := tasks[task.id := task];
    }

    /** Registers the task, queues its id and returns it. */
    method Submit(task: AnyTask) returns (taskId: string)
      requires Valid()
      modifies this
      ensures Valid()
      ensures Snapshot() == AfterSubmit(old(Snapshot()), task)
      ensures taskId == task.id && taskId in tasks && tasks[taskId] == task
      ensures queue == old(queue) + [taskId]
      ensures forall k :: k in old(tasks) && k != taskId ==> k in tasks && tasks[k] == old(tasks)[k]
    {
      Put(task);
      queue := queue + [task.id];
      taskId := task.id;
    }

    /** POST /install-postgres: the task's data is the request body, unchanged. */
    method InstallPostgres(id: string, createdAt: DateTime, body: CreateDbInput) returns (taskId: string)
      requires Valid()
      modifies this
      ensures Valid()
      ensures Snapshot() == AfterSubmit(old(Snapshot()), InstallPostgresTask(id, createdAt, body))
      ensures taskId == id && tasks[id].data == InstallBody(body) && tasks[id].status == New
      ensures queue == old(queue) + [id]
    {
      var task := InstallPostgresTask(id, createdAt, body);
      taskId := Submit(task);
    }

    /** POST /start-postgres. */
    method StartPostgres(id: string, createdAt: DateTime) returns (taskId: string)
      requires Valid()
      modifies this
      ensures Valid()
      ensures Snapshot() == AfterSubmit(old(Snapshot()), StartPostgresTask(id, createdAt))
      ensures taskId == id && tasks[id].data == StartRequest && tasks[id].status == New
      ensures queue == old(queue) + [id]
    {
      var task := StartPostgresTask(id, createdAt);
      taskId := Submit(task);
    }

    /** POST /stop-postgres. */
    method StopPostgres(id: string, createdAt: DateTime) returns (taskId: string)
      requires Valid()
      modifies this
      ensures Valid()
      ensures Snapshot() == AfterSubmit(old(Snapshot()), StopPostgresTask(id, createdAt))
      ensures taskId == id && tasks[id].data == StopRequest && tasks[id].status == New
      ensures queue == old(queue) + [id]
    {
      var task := StopPostgresTask(id, createdAt);
      taskId := Submit(task);
    }

    /** GET /tasks: every registered task once, in insertion order. */
    function ListTasks(): (r: seq<AnyTask>)
      requires Valid()
      reads this
      ensures |r| == |tasks| == |order|
      ensures forall i :: 0 <= i < |r| ==> r[i] == tasks[order[i]]
      ensures forall k :: k in tasks ==> tasks[k] in r
    {
      ListingAt(Snapshot());
      ListingComplete(Snapshot());
      Listing(Snapshot())
    }

    /** GET /tasks/{task_id}: the stored task, or a KeyError for an unknown id. */
    function GetTask(taskId: string): (r: Result<AnyTask, LookupError>)
      reads this
      ensures r.Success? <==> taskId in tasks
      ensures r.Success? ==> r.value == tasks[taskId]
      ensures r.Failure? ==> r.error == KeyError(taskId)
    {
      Lookup(Snapshot(), taskId)
    }
  }
}
