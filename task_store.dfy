/**
 * The in-memory task registry of tasks/task_store.py: a dict from task id to the task's record.
 * The lock only serialises the methods, so each is one atomic step here; ids and clock readings
 * are passed in.
 */
module Tasks {
  import opened Wrappers
  import opened Json

  /** A task record: `id`, `name`, `status`, `created`, the `log` list, and `result`/`updated` once set. */
  datatype Task = Task(id: string, name: string, status: string, created: int, log: seq<string>,
                       result: Option<Value>, updated: Option<int>)

  /** The record `create` inserts. */
  function NewTask(id: string, name: string, now: int): (t: Task)
    ensures t.id == id && t.name == name && t.status == "pending" && t.log == []
    ensures t.result.None? && t.updated.None?
  {
    Task(id, name, "pending", now, [], None, None)
  }

  /**
   * `update(task_id, status, log, result)` on the dict of tasks: an unknown id is ignored;
   * otherwise only that task changes, its status is set, a non-empty `log` is appended, a result
   * other than None is stored, and the update time is set.
   */
  function UpdateIn(tasks: map<string, Task>, id: string, status: string, log: string, result: Value, now: int)
    : (r: map<string, Task>)
    ensures id !in tasks ==> r == tasks
    ensures r.Keys == tasks.Keys
    ensures forall o :: o in tasks && o != id ==> r[o] == tasks[o]
    ensures id in tasks ==>
      var t, u := tasks[id], r[id];
      u.id == t.id && u.name == t.name && u.created == t.created
      && u.status == status
      && u.log == (if log != "" then t.log + [log] else t.log)
      && u.result == (if result != Null then Some(result) else t.result)
      && u.updated == Some(now)
  {
    if id !in tasks then tasks
    else
      var t := tasks[id];
      tasks[id := t.(status := status,
                     log := if log != "" then t.log + [log] else t.log,
                     result := if result != Null then Some(result) else t.result,
                     updated := Some(now))]
  }

  /** The log lines of several updates of one task, in order, skipping the empty ones. */
  function Appended(logs: seq<string>): (r: seq<string>)
    ensures forall l :: l in r ==> l in logs && l != ""
  {
    if logs == [] then [] else Appended(logs[..|logs| - 1]) + if logs[|logs| - 1] != "" then [logs[|logs| - 1]] else []
  }

  /** Updates with the given log texts, one after the other, all with one status, result and clock. */
  function UpdateAll(tasks: map<string, Task>, id: string, status: string, logs: seq<string>, now: int)
    : map<string, Task>
  {
    if logs == [] then tasks
    else UpdateIn(UpdateAll(tasks, id, status, logs[..|logs| - 1], now), id, status, logs[|logs| - 1], Null, now)
  }

  /** The task's log only grows: successive updates append their non-empty texts in call order. */
  lemma {:induction false} LogAccumulates(tasks: map<string, Task>, id: string, status: string, logs: seq<string>, now: int)
    requires id in tasks
    ensures id in UpdateAll(tasks, id, status, logs, now)
    ensures UpdateAll(tasks, id, status, logs, now)[id].log == tasks[id].log + Appended(logs)
    ensures UpdateAll(tasks, id, status, logs, now)[id].result == tasks[id].result
    decreases |logs|
  {
    if logs != [] {
      var init := logs[..|logs| - 1];
      LogAccumulates(tasks, id, status, init, now);
      assert tasks[id].log + Appended(init) + (if logs[|logs| - 1] != "" then [logs[|logs| - 1]] else [])
          == tasks[id].log + Appended(logs);
    }
  }

  class TaskStore {
    var tasks: map<string, Task>

    constructor ()
      ensures tasks == map[]
    {
      tasks := map[];
    }

    /** `create(name)`: a pending task with an empty log is stored under the returned id. */
    method Create(name: string, freshId: string, now: int) returns (id: string)
      modifies this
      ensures id == freshId
      ensures tasks == old(tasks)[id := NewTask(id, name, now)]
    {
      id := freshId;
      tasks := tasks[id := NewTask(id, name, now)];
    }

    /** `update(task_id, status, log, result)`; None for `log` and `result` is "" and `Null`. */
    method Update(id: string, status: string, log: string, result: Value, now: int)
      modifies this
      ensures tasks == UpdateIn(old(tasks), id, status, log, result, now)
    {
      if id !in tasks {
        return;
      }
      var t := tasks[id];
      t := t.(status := status);
      if log != "" {
        t := t.(log := t.log + [log]);
      }
      if result != Null {
        t := t.(result := Some(result));
      }
      t := t.(updated := Some(now));
      tasks := tasks[id := t];
    }

    /** `get(task_id)`: the task, or None for an unknown id. */
    function GetTask(id: string): (r: Option<Task>)
      reads this
      ensures r.None? <==> id !in tasks
      ensures r.Some? ==> r.value == tasks[id]
    {
      if id in tasks then Some(tasks[id]) else None
    }

    /**
     * `list()`: `dict(self._tasks)`, a shallow copy whose entries are the live task dicts, as
     * `get` returns them. Tasks are values here, so a caller's change to a returned task reaching
     * the store is not modelled.
     */
    function List(): (r: map<string, Task>)
      reads this
      ensures r.Keys == tasks.Keys && forall id :: id in r ==> r[id] == tasks[id]
    {
      tasks
    }
  }
}
