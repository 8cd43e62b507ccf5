/** `crud/crud_ops.rs` (both drafts): the CRUD operations that `impl_crud_ops!` generates
    for a model. Only `Task` has real behaviour: `create` builds a task with a fresh
    buffer and keeps it in the in-memory task table, `read` looks it up there. Every
    other operation, and every other model, is a stub. */
module CrudOps {
  import opened Common

  /** Where a model is kept. */
  datatype AllocType = InMemory | Database

  /** The `CrudOperations` flags a `Task` carries. */
  datatype CrudOperations = CrudOperations(
    create: bool, read: bool, update: bool, delete: bool, list: bool, search: bool, revoke: bool)

  /** A `Task`. The fields that only exist under the `automation`, `desktop` and
      `embedded` features are always present here, and `None` when unused. */
  datatype Task = Task(
    id: nat,
    description: string,
    schedule: Option<string>,
    completed: Option<bool>,
    deviceId: Option<nat>,
    store: AllocType,
    memory: Buffer,
    ops: CrudOperations)

  /** The models the macro is applied to: a task, or any other model (only its id
      matters to the stubs). */
  datatype Item = TaskItem(task: Task) | OtherItem(id: nat)

  /** Which branch of the macro's dispatch a model takes. */
  datatype ModelKind = TaskModel | OtherModel

  function KindOf(item: Item): (k: ModelKind)
    ensures k == TaskModel <==> item.TaskItem?
  {
    if item.TaskItem? then TaskModel else OtherModel
  }

  /** `Task::new`: the given fields, kept in memory, with create, read, update, delete and
      list enabled and search and revoke disabled. */
  function NewTask(id: nat, description: string, schedule: Option<string>, completed: Option<bool>,
                   deviceId: Option<nat>, memory: Buffer): (t: Task)
    ensures t.store == InMemory
    ensures t.id == id && t.description == description && t.memory == memory
    ensures t.schedule == schedule && t.completed == completed && t.deviceId == deviceId
    ensures t.ops.create && t.ops.read && t.ops.update && t.ops.delete && t.ops.list
    ensures !t.ops.search && !t.ops.revoke
  {
    Task(id, description, schedule, completed, deviceId, InMemory, memory,
         CrudOperations(true, true, true, true, true, false, false))
  }

  /** The number of bytes `create` allocates: 1024 times the memory scale. */
  function AllocationSize(memoryScale: u8): nat {
    1024 * memoryScale as nat
  }

  /** The task `create` builds from the task it is given: the same data, a fresh zeroed
      buffer of `AllocationSize(memoryScale)` bytes, and the flags of `Task::new`. */
  function Created(item: Task, memoryScale: u8): (t: Task)
    ensures t.id == item.id && t.description == item.description
    ensures t.schedule == item.schedule && t.completed == item.completed && t.deviceId == item.deviceId
    ensures t.store == InMemory
    ensures |t.memory| == 1024 * memoryScale as nat
    ensures forall i :: 0 <= i < |t.memory| ==> t.memory[i] == 0
  {
    NewTask(item.id, item.description, item.schedule, item.completed, item.deviceId,
            Zeros(AllocationSize(memoryScale)))
  }

  /** The message of a failed task lookup. */
  function TaskNotFound(id: nat): string {
    "Task con ID " + NatToString(id) + " non trovato"
  }

  /** The message every `read` of a model other than `Task` fails with. */
  function ItemNotFound(id: nat): string {
    "Elemento con ID " + NatToString(id) + " non trovato"
  }

  /** What `read(id)` returns for a model of kind `kind` when the task table is `tasks`. */
  function Lookup(tasks: map<nat, Task>, kind: ModelKind, id: nat): (r: Result<Item, string>)
    ensures r.Ok? <==> kind == TaskModel && id in tasks
    ensures r.Ok? ==> r.value == TaskItem(tasks[id])
    ensures r.Err? && kind == TaskModel ==> r.error == TaskNotFound(id)
    ensures r.Err? && kind == OtherModel ==> r.error == ItemNotFound(id)
  {
    match kind
    case TaskModel =>
      if id in tasks then Ok(TaskItem(tasks[id])) else Err(TaskNotFound(id))
    case OtherModel =>
      Err(ItemNotFound(id))
  }

  /** The in-memory task table `TASKS_IN_MEMORY`. */
  class TaskStore {
    var tasks: map<nat, Task>

    constructor ()
      ensures tasks == map[]
    {
      tasks := map[];
    }

    /** The `match task.store` of `create`: an in-memory task replaces any earlier entry
        under its id; a database task leaves the table as it is. */
    method Persist(task: Task)
      modifies this
      ensures task.store == InMemory ==> tasks == old(tasks)[task.id := task]
      ensures task.store == Database ==> tasks == old(tasks)
    {
      match task.store
      case InMemory =>
        tasks := tasks[task.id := task];
      case Database =>
    }

    /** `create(item, memory_scale)`. A task is rebuilt by `Task::new` around a fresh buffer,
        stored under its id and returned; any other model is returned unchanged and not
        stored. */
    method Create(item: Item, memoryScale: u8) returns (r: Result<Item, string>)
      modifies this
      ensures item.TaskItem? ==>
        r == Ok(TaskItem(Created(item.task, memoryScale)))
        && tasks == old(tasks)[item.task.id := Created(item.task, memoryScale)]
      ensures item.OtherItem? ==> r == Ok(item) && tasks == old(tasks)
    {
      match KindOf(item)
      case TaskModel =>
        var size := AllocationSize(memoryScale);
        var taskMemory := Zeros(size);
        var t := item.task;
        var task := NewTask(t.id, t.description, t.schedule, t.completed, t.deviceId, taskMemory);
        Persist(task);
        return Ok(TaskItem(task));
      case OtherModel =>
        return Ok(item);
    }

    /** `read(id)` for a model of kind `kind`. */
    method Read(kind: ModelKind, id: nat) returns (r: Result<Item, string>)
      ensures r == Lookup(tasks, kind, id)
    {
      match kind
      case TaskModel =>
        if id in tasks {
          return Ok(TaskItem(tasks[id]));
        } else {
          return Err(TaskNotFound(id));
        }
      case OtherModel =>
        return Err(ItemNotFound(id));
    }
  }

  /** A read after a create returns the created task, and no other id's read changes. */
  lemma ReadAfterCreate(tasks: map<nat, Task>, t: Task, id: nat, kind: ModelKind)
    ensures Lookup(tasks[t.id := t], TaskModel, t.id) == Ok(TaskItem(t))
    ensures id != t.id ==> Lookup(tasks[t.id := t], kind, id) == Lookup(tasks, kind, id)
    ensures Lookup(tasks[t.id := t], OtherModel, id) == Err(ItemNotFound(id))
  {
  }

  /** Creating a task and reading its id back yields the created task. */
  method CreateThenRead(store: TaskStore, task: Task, memoryScale: u8) returns (created: Result<Item, string>, read: Result<Item, string>)
    modifies store
    ensures created.Ok? && created.value == TaskItem(Created(task, memoryScale))
    ensures read == created
  {
    created := store.Create(TaskItem(task), memoryScale);
    read := store.Read(TaskModel, task.id);
  }

  /** `update(item)`: the item is handed back unchanged. */
  function Update(item: Item): (r: Result<Item, string>)
    ensures r.Ok? && r.value == item
  {
    Ok(item)
  }

  /** `delete(id)`: succeeds and removes nothing. */
  function Delete(id: nat): (r: Result<(), string>)
    ensures r.Ok?
  {
    Ok(())
  }

  /** `list()`: no items. */
  function List(): (r: seq<Item>)
    ensures |r| == 0
  {
    []
  }

  /** `search(query)`: no items, whatever the query. */
  function Search(query: string): (r: seq<Item>)
    ensures |r| == 0
  {
    []
  }

  /** `revoke(id)`: succeeds and revokes nothing. */
  function Revoke(id: nat): (r: Result<(), string>)
    ensures r.Ok?
  {
    Ok(())
  }

  /** The operations `Task` gets in each draft: SolidArx-Framework's macro generates all
      seven; ArxFramework's generates five, and its `impl_search_and_revoke!` is not applied
      to `Task`. */
  datatype Draft = SolidArxDraft | ArxDraft

  datatype Operation = CreateOp | ReadOp | UpdateOp | DeleteOp | ListOp | SearchOp | RevokeOp

  function TaskOperations(draft: Draft): (ops: set<Operation>)
    ensures {CreateOp, ReadOp, UpdateOp, DeleteOp, ListOp} <= ops
    ensures SearchOp in ops <==> draft == SolidArxDraft
    ensures RevokeOp in ops <==> draft == SolidArxDraft
  {
    var crud := {CreateOp, ReadOp, UpdateOp, DeleteOp, ListOp};
    match draft
    case SolidArxDraft => crud + {SearchOp, RevokeOp}
    case ArxDraft => crud
  }

  /** The macro of both drafts dispatches on `std::any::type_name`, comparing it with
      this literal. */
  const TaskTypeLiteral: string := "modules::default::task_model::Task"

  /** The dispatch as written: the Task branch is taken only for that exact type name. */
  function DispatchAsWritten(typeName: string): (k: ModelKind)
    ensures k == TaskModel <==> typeName == TaskTypeLiteral
  {
    if typeName == TaskTypeLiteral then TaskModel else OtherModel
  }

  /** The name `type_name` gives the `Task` the macro is applied to, declared in
      `crud::models::default::task::model` of the crate `crate`. */
  function TaskTypeName(crate: string): string {
    crate + "::crud::models::default::task::model::Task"
  }

  /** That name never equals the literal: it is longer, whatever the crate is called. So
      the dispatch as written sends a `Task` down the other-model branch. */
  lemma TaskPathNeverMatches(crate: string)
    ensures DispatchAsWritten(TaskTypeName(crate)) == OtherModel
  {
    assert |TaskTypeLiteral| == 34;
    assert |TaskTypeName(crate)| == |crate| + 42;
  }

  /** Consequence of the dispatch as written: `read` of any task id fails with the
      other-model message, even right after that task's `create`. */
  lemma TaskNeverReadAsWritten(tasks: map<nat, Task>, crate: string, id: nat)
    ensures Lookup(tasks, DispatchAsWritten(TaskTypeName(crate)), id) == Err(ItemNotFound(id))
  {
    TaskPathNeverMatches(crate);
  }
}
