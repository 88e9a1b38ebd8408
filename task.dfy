/** The `Task` record of tomominer/parallel/task.py.

    A task is pickled whenever it crosses a process boundary (runner to
    server, server to worker, worker back to server), so every holder works
    on its own copy; inside the server a task object sits either in the
    tracking map or in one done queue, never both.  The record is therefore
    a value, and `fail`/`succ`, which overwrite two fields of the object,
    return the overwritten copy.  The only stateful part of construction is
    minting the identifier, which `IdSource` models in place of `uuid4`. */
module Tasks {
  import opened Py

  /** Task and project identifiers (uuid4 strings in the source). */
  type Uuid = nat

  /** The constructor's keyword arguments after `proj_id` and `method`. */
  datatype Options = Options(
    allowResubmit: bool,
    maxTries: int,
    maxTime: Value,
    burst: int,
    args: seq<Value>,
    kwargs: map<string, Value>)

  /** Keyword defaults of `Task.__init__`. */
  const Defaults := Options(true, 3, VInt(3600), 0, [], map[])

  datatype Task = Task(
    taskId: Uuid,
    projId: Uuid,
    methodName: string,
    args: seq<Value>,
    kwargs: map<string, Value>,
    allowResubmit: bool,
    maxTries: int,
    maxTime: Value,
    burst: int,
    tries: int,
    error: bool,
    result: Value)
  {
    /** `fail(msg)`: marks the task failed with `msg` as its result. */
    function Fail(msg: string): (t: Task)
      ensures t.error && t.result == VStr(msg)
      ensures t.(error := error, result := result) == this
    {
      this.(error := true, result := VStr(msg))
    }

    /** `succ(res)`: marks the task successful with `res` as its result. */
    function Succ(res: Value): (t: Task)
      ensures !t.error && t.result == res
      ensures t.(error := error, result := result) == this
    {
      this.(error := false, result := res)
    }
  }

  /** `isinstance(max_time, int) and max_time >= 0`; Python's `bool` is a
      subclass of `int`, so `True` and `False` pass as 1 and 0, while a
      `long` above `sys.maxint` is not an `int` and fails. */
  predicate ValidMaxTime(v: Value)
  {
    (v.VInt? && 0 <= v.i <= MaxInt) || v.VBool?
  }

  /** The number of seconds a valid `max_time` stands for. */
  function Seconds(v: Value): (n: nat)
    requires ValidMaxTime(v)
    ensures v.VInt? ==> n == v.i
    ensures v == VBool(true) ==> n == 1
    ensures v == VBool(false) ==> n == 0
  {
    if v.VBool? then (if v.b then 1 else 0) else v.i
  }

  /** The source of fresh identifiers: every call to `Mint` returns an
      identifier never returned before. */
  class IdSource {
    var next: nat
    ghost var issued: set<Uuid>

    ghost predicate Valid()
      reads this
    {
      forall i :: i in issued ==> i < next
    }

    constructor ()
      ensures Valid() && issued == {}
    {
      next := 0;
      issued := {};
    }

    method Mint() returns (id: Uuid)
      requires Valid()
      modifies this
      ensures Valid()
      ensures id !in old(issued)
      ensures issued == old(issued) + {id}
    {
      id := next;
      next := next + 1;
      issued := issued + {id};
    }
  }

  /** `Task(proj_id, method, ...)`: raises unless `max_time` is a
      non-negative int (not a `long`), before any identifier is minted; otherwise a task
      with a fresh id, the arguments stored unchanged, no tries, no error and
      no result. */
  method NewTask(ids: IdSource, projId: Uuid, methodName: string, opts: Options) returns (r: Result<Task>)
    requires ids.Valid()
    modifies ids
    ensures ids.Valid()
    ensures r.Err? <==> !ValidMaxTime(opts.maxTime)
    ensures r.Err? ==> ids.issued == old(ids.issued)
    ensures r.Ok? ==> r.value.taskId !in old(ids.issued)
    ensures r.Ok? ==> ids.issued == old(ids.issued) + {r.value.taskId}
    ensures r.Ok? ==> r.value == Task(r.value.taskId, projId, methodName, opts.args, opts.kwargs,
                                     opts.allowResubmit, opts.maxTries, opts.maxTime, opts.burst,
                                     0, false, VNone)
  {
    if !ValidMaxTime(opts.maxTime) {
      return Err("Max time must be a positive integer");
    }
    var id := ids.Mint();
    r := Ok(Task(id, projId, methodName, opts.args, opts.kwargs,
                 opts.allowResubmit, opts.maxTries, opts.maxTime, opts.burst,
                 0, false, VNone));
  }

  /** A failure followed by a success leaves exactly the success visible:
      the two setters overwrite the same two fields and nothing else. */
  lemma SuccAfterFail(t: Task, msg: string, res: Value)
    ensures t.Fail(msg).Succ(res) == t.Succ(res)
    ensures t.Fail(msg).taskId == t.taskId && t.Fail(msg).tries == t.tries
  {
  }
}
