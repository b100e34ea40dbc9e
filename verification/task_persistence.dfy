/** Persistence of voice-clone tasks: a JSON file holding a versioned list
    of tasks, and a directory per task. The file and the set of task
    directories are the state of a `TaskStore`; disk write failures are
    not modelled. */
module TaskPersistence {
  import opened Wrappers

  datatype CloneTaskStatus = Pending | Processing | Completed | Failed | Cancelled

  datatype CloneTask = CloneTask(
    id: string,
    name: string,
    status: CloneTaskStatus,
    progress: real,
    createdAt: string,
    audioPath: Option<string>,
    referenceText: Option<string>,
    startedAt: Option<string>,
    completedAt: Option<string>,
    message: Option<string>)

  /** What reading the tasks file yields. */
  datatype TasksFile = Missing | Unreadable | Stored(version: string, tasks: seq<CloneTask>)

  const ConfigVersion: string := "1.0"

  /** The configuration a fresh install starts from. */
  function DefaultConfig(): (f: TasksFile)
    ensures f.Stored? && f.version == ConfigVersion && f.tasks == []
  {
    Stored(ConfigVersion, [])
  }

  /** The tasks a load returns; a missing or unreadable file yields the
      tasks of the default configuration, that is none. */
  function Loaded(file: TasksFile): seq<CloneTask> {
    if file.Stored? then file.tasks else DefaultConfig().tasks
  }

  predicate HasTask(ts: seq<CloneTask>, id: string) {
    exists k :: 0 <= k < |ts| && ts[k].id == id
  }

  /** Position of the first task with identifier `id`. */
  function FirstIndex(ts: seq<CloneTask>, id: string): (r: Option<nat>)
    ensures r.None? <==> !HasTask(ts, id)
    ensures r.Some? ==> (r.value < |ts| && ts[r.value].id == id
                         && forall k :: 0 <= k < r.value ==> ts[k].id != id)
  {
    if ts == [] then None
    else if ts[0].id == id then Some(0)
    else match FirstIndex(ts[1..], id)
      case None => None
      case Some(i) => Some(i + 1)
  }

  /** `get_task`: the first task with the identifier. */
  function GetTask(file: TasksFile, id: string): (r: Option<CloneTask>)
    ensures r.None? <==> !HasTask(Loaded(file), id)
    ensures r.Some? ==> r.value.id == id && r.value in Loaded(file)
  {
    match FirstIndex(Loaded(file), id)
    case None => None
    case Some(i) => Some(Loaded(file)[i])
  }

  /** `retain(|t| t.id != id)`: the other tasks in their order. */
  function Without(ts: seq<CloneTask>, id: string): (r: seq<CloneTask>)
    ensures |r| <= |ts|
  {
    if ts == [] then []
    else if ts[0].id == id then Without(ts[1..], id)
    else [ts[0]] + Without(ts[1..], id)
  }

  /** The tasks kept are exactly those with another identifier. */
  lemma {:induction false} WithoutMembers(ts: seq<CloneTask>, id: string)
    ensures forall t :: t in Without(ts, id) <==> t in ts && t.id != id
    ensures !HasTask(Without(ts, id), id)
  {
    if ts != [] {
      WithoutMembers(ts[1..], id);
      assert forall t :: t in ts <==> t == ts[0] || t in ts[1..];
    }
  }

  /** Deleting one identifier leaves the first match of every other
      identifier where it was found. */
  lemma {:induction false} WithoutKeepsOthers(ts: seq<CloneTask>, id: string, other: string)
    requires other != id
    ensures FirstIndex(Without(ts, id), other).Some? == FirstIndex(ts, other).Some?
    ensures FirstIndex(ts, other).Some? ==>
      Without(ts, id)[FirstIndex(Without(ts, id), other).value] == ts[FirstIndex(ts, other).value]
  {
    if ts != [] {
      WithoutKeepsOthers(ts[1..], id, other);
    }
  }

  class TaskStore {
    var file: TasksFile
    var taskDirs: set<string>

    constructor(file: TasksFile, taskDirs: set<string>)
      ensures this.file == file && this.taskDirs == taskDirs
    {
      this.file := file;
      this.taskDirs := taskDirs;
    }

    /** `add_task`: appends without looking for a duplicate identifier. */
    method Add(task: CloneTask) returns (r: Result<(), string>)
      modifies this
      ensures r == Ok(()) && file == Stored(ConfigVersion, Loaded(old(file)) + [task])
      ensures taskDirs == old(taskDirs)
    {
      var tasks := Loaded(file);
      tasks := tasks + [task];
      file := Stored(ConfigVersion, tasks);
      r := Ok(());
    }

    /** `update_task`: replaces the first task with the same identifier;
        an unknown identifier is an error and nothing is written. */
    method Update(task: CloneTask) returns (r: Result<(), string>)
      modifies this
      ensures FirstIndex(Loaded(old(file)), task.id).None? ==>
        r == Err("Task not found: " + task.id) && file == old(file)
      ensures FirstIndex(Loaded(old(file)), task.id).Some? ==>
        r == Ok(()) && file == Stored(ConfigVersion, Loaded(old(file))[FirstIndex(Loaded(old(file)), task.id).value := task])
      ensures taskDirs == old(taskDirs)
    {
      var tasks := Loaded(file);
      var i := 0;
      while i < |tasks|
        invariant 0 <= i <= |tasks|
        invariant forall k :: 0 <= k < i ==> tasks[k].id != task.id
      {
        if tasks[i].id == task.id {
          assert FirstIndex(tasks, task.id) == Some(i) by {
            var f := FirstIndex(tasks, task.id);
            assert f.Some? && !(f.value < i) && !(f.value > i);
          }
          file := Stored(ConfigVersion, tasks[i := task]);
          return Ok(());
        }
        i := i + 1;
      }
      r := Err("Task not found: " + task.id);
    }

    /** `delete_task`: removes every task with the identifier, saves, then
        removes its directory; nothing matching is not an error.
        `removeError` is the file system's refusal to delete an existing
        task directory, if any: the list is already saved, the directory
        stays and the error is returned. */
    method Delete(id: string, removeError: Option<string>) returns (r: Result<(), string>)
      modifies this
      ensures file == Stored(ConfigVersion, Without(Loaded(old(file)), id))
      ensures id in old(taskDirs) && removeError.Some? ==>
        r == Err("Failed to delete task directory: " + removeError.value) && taskDirs == old(taskDirs)
      ensures id !in old(taskDirs) || removeError.None? ==>
        r == Ok(()) && taskDirs == old(taskDirs) - {id}
    {
      var tasks := Loaded(file);
      var kept: seq<CloneTask> := [];
      var i := 0;
      while i < |tasks|
        invariant 0 <= i <= |tasks|
        invariant kept == Without(tasks[..i], id)
        invariant file == old(file) && taskDirs == old(taskDirs)
      {
        WithoutSnoc(tasks, i, id);
        if tasks[i].id != id {
          kept := kept + [tasks[i]];
        }
        i := i + 1;
      }
      assert tasks[..i] == tasks;
      file := Stored(ConfigVersion, kept);
      if id in taskDirs {
        if removeError.Some? {
          return Err("Failed to delete task directory: " + removeError.value);
        }
        taskDirs := taskDirs - {id};
      }
      r := Ok(());
    }
  }

  lemma {:induction false} WithoutAppend(a: seq<CloneTask>, b: seq<CloneTask>, id: string)
    ensures Without(a + b, id) == Without(a, id) + Without(b, id)
  {
    if a != [] {
      assert (a + b)[1..] == a[1..] + b;
      WithoutAppend(a[1..], b, id);
    } else {
      assert a + b == b;
    }
  }

  lemma WithoutSnoc(ts: seq<CloneTask>, i: nat, id: string)
    requires i < |ts|
    ensures Without(ts[..i + 1], id) == Without(ts[..i], id) + (if ts[i].id != id then [ts[i]] else [])
  {
    assert ts[..i + 1] == ts[..i] + [ts[i]];
    WithoutAppend(ts[..i], [ts[i]], id);
  }

  /** After adding a task, looking its identifier up finds it, unless an
      earlier task already had that identifier: then the earlier one
      still answers and the new one is shadowed. */
  lemma GetAfterAdd(file: TasksFile, task: CloneTask)
    ensures var after := Stored(ConfigVersion, Loaded(file) + [task]);
      GetTask(after, task.id) == (if HasTask(Loaded(file), task.id) then GetTask(file, task.id) else Some(task))
  {
    var ts := Loaded(file);
    assert (ts + [task])[|ts|].id == task.id;
    var j := FirstIndex(ts + [task], task.id).value;
    if HasTask(ts, task.id) {
      var i := FirstIndex(ts, task.id).value;
      assert (ts + [task])[i].id == task.id;
      assert !(j < i) && !(i < j);
    } else {
      assert j == |ts|;
    }
  }

  /** After an update that found its task, the lookup returns the new task. */
  lemma GetAfterUpdate(file: TasksFile, task: CloneTask)
    requires FirstIndex(Loaded(file), task.id).Some?
    ensures var i := FirstIndex(Loaded(file), task.id).value;
      GetTask(Stored(ConfigVersion, Loaded(file)[i := task]), task.id) == Some(task)
  {
    var ts := Loaded(file);
    var i := FirstIndex(ts, task.id).value;
    var us := ts[i := task];
    assert us[i].id == task.id;
    var j := FirstIndex(us, task.id).value;
    assert !(j < i) && !(i < j);
  }

  /** After a delete the identifier is gone and every other lookup is
      answered as before. */
  lemma GetAfterDelete(file: TasksFile, id: string, other: string)
    ensures GetTask(Stored(ConfigVersion, Without(Loaded(file), id)), id) == None
    ensures other != id ==>
      GetTask(Stored(ConfigVersion, Without(Loaded(file), id)), other) == GetTask(file, other)
  {
    WithoutMembers(Loaded(file), id);
    if other != id {
      WithoutKeepsOthers(Loaded(file), id, other);
    }
  }
}
