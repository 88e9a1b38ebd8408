/** The worker of tomominer/parallel/queue_worker.py.  The child process
    that runs a task is not modelled: what the worker observes of it on
    each 10-second poll of the result queue (a delivered value, a delivered
    exception, or nothing together with whether the child is alive, what
    the server's `get_state` answered and how many seconds have elapsed) is
    an input.  The registered instance is an `Obj` tree. */
module QueueWorker {
  import opened Py
  import opened Tasks
  import QueueSpec
  import QueueServer

  // ----- name resolution -----

  /** Walks `path` one attribute at a time from `inst`; `None` as soon as a
      segment is missing. */
  function Resolve(inst: Obj, path: seq<string>): Option<Obj>
    decreases |path|
  {
    if path == [] then Some(inst)
    else if path[0] !in inst.attrs then None
    else Resolve(inst.attrs[path[0]], path[1..])
  }

  /** Resolving a dotted path is resolving its first part and then the rest
      from where the first part led. */
  lemma {:induction false} ResolveConcat(inst: Obj, a: seq<string>, b: seq<string>)
    ensures Resolve(inst, a + b) == (if Resolve(inst, a).Some? then Resolve(Resolve(inst, a).value, b) else None)
    decreases |a|
  {
    if a != [] {
      assert (a + b)[0] == a[0] && (a + b)[1..] == a[1..] + b;
      if a[0] in inst.attrs {
        ResolveConcat(inst.attrs[a[0]], a[1..], b);
      }
    } else {
      assert a + b == b;
    }
  }

  /** A name without dots is a single attribute lookup. */
  lemma {:induction false} ResolvePlainName(inst: Obj, name: string)
    requires '.' !in name
    ensures Resolve(inst, Split(name, '.')) == (if name in inst.attrs then Some(inst.attrs[name]) else None)
  {
    SplitWithoutSeparator(name, '.');
    assert [name][1..] == [];
  }

  lemma {:induction false} SplitWithoutSeparator(s: string, sep: char)
    requires sep !in s
    ensures Split(s, sep) == [s]
    decreases |s|
  {
    if s != [] {
      assert sep !in s[1..] by {
        forall k | 0 <= k < |s[1..]| ensures s[1..][k] != sep { assert s[1..][k] == s[k + 1]; }
      }
      SplitWithoutSeparator(s[1..], sep);
      assert [s[0]] + s[1..] == s;
    }
  }

  // ----- waiting for the child -----

  /** What a child process may put on the result queue. */
  datatype Delivery = Returned(v: Value) | Threw(msg: string)

  /** One `Q.get(timeout=10)`: either something was delivered, or the
      queue stayed empty and the worker looked at the child, asked the
      server and read the clock. */
  datatype Poll = Delivered(d: Delivery) | Empty(alive: bool, tracked: bool, elapsed: int)

  const Crashed := "Worker process crashed"
  const Untracked := "Killing task because server no longer tracking."
  const Underscore := "method starts with underscore"
  const NotFound := "method not found"
  const NotCallable := "method not callable"

  function MaxTimeText(v: Value): string
    requires ValidMaxTime(v)
  {
    if v.VBool? then (if v.b then "True" else "False") else IntToString(v.i)
  }

  /** The message of a task killed for running longer than `max_time`. */
  function KillMessage(maxTime: Value, elapsed: int): string
    requires ValidMaxTime(maxTime)
  {
    "Killing task for exceeding max_time: " + MaxTimeText(maxTime) + " (used: " + IntToString(elapsed) + ")"
  }

  /** How one poll ends the wait, if it does: a delivered exception fails
      the task with its text, a delivered value becomes the result; on an
      empty poll a dead child, an untracked task and an exceeded `max_time`
      are checked in that order. */
  function Decide(t: Task, p: Poll): Option<Task>
    requires ValidMaxTime(t.maxTime)
  {
    match p
    case Delivered(Threw(msg)) => Some(t.Fail(msg))
    case Delivered(Returned(v)) => Some(t.(result := v))
    case Empty(alive, tracked, elapsed) =>
      if !alive then Some(t.Fail(Crashed))
      else if !tracked then Some(t.Fail(Untracked))
      else if elapsed > Seconds(t.maxTime) then Some(t.Fail(KillMessage(t.maxTime, elapsed)))
      else None
  }

  /** The wait loop over a run of polls: the first poll that decides ends
      it; `None` when the child is still being waited for after them all. */
  function WaitOutcome(t: Task, polls: seq<Poll>): Option<Task>
    requires ValidMaxTime(t.maxTime)
    decreases |polls|
  {
    if polls == [] then None
    else if Decide(t, polls[0]).Some? then Decide(t, polls[0])
    else WaitOutcome(t, polls[1..])
  }

  /** The wait keeps going exactly while every poll finds the queue empty
      and the child alive, tracked and within `max_time`; otherwise it ends
      as the first such poll says. */
  lemma {:induction false} WaitFirstDecisive(t: Task, polls: seq<Poll>)
    requires ValidMaxTime(t.maxTime)
    ensures WaitOutcome(t, polls).None? <==>
      forall k :: 0 <= k < |polls| ==>
        polls[k].Empty? && polls[k].alive && polls[k].tracked && polls[k].elapsed <= Seconds(t.maxTime)
    ensures forall k ::
              (0 <= k < |polls| && Decide(t, polls[k]).Some? &&
               forall j :: 0 <= j < k ==> Decide(t, polls[j]).None?) ==>
              WaitOutcome(t, polls) == Decide(t, polls[k])
    decreases |polls|
  {
    if polls != [] {
      WaitFirstDecisive(t, polls[1..]);
      forall k | 0 <= k < |polls| && Decide(t, polls[k]).Some? &&
                 (forall j :: 0 <= j < k ==> Decide(t, polls[j]).None?)
        ensures WaitOutcome(t, polls) == Decide(t, polls[k])
      {
        if k > 0 {
          assert Decide(t, polls[0]).None?;
          assert polls[1..][k - 1] == polls[k];
          forall j | 0 <= j < k - 1 ensures Decide(t, polls[1..][j]).None? {
            assert polls[1..][j] == polls[j + 1];
          }
        }
      }
      if WaitOutcome(t, polls).None? {
        forall k | 0 <= k < |polls|
          ensures polls[k].Empty? && polls[k].alive && polls[k].tracked && polls[k].elapsed <= Seconds(t.maxTime)
        {
          if k > 0 {
            assert polls[1..][k - 1] == polls[k];
          }
        }
      }
    }
  }

  /** An ended wait changes the task in its error flag and result only; a
      delivered value leaves the error flag as it was, every other ending
      sets it; a dead child is a crash whatever else holds; a live child is
      killed exactly when the server no longer tracks the task or
      `max_time` is exceeded, lost tracking taking precedence. */
  lemma DecideEffect(t: Task, p: Poll)
    requires ValidMaxTime(t.maxTime)
    ensures Decide(t, p).Some? ==> Decide(t, p).value.(error := t.error, result := t.result) == t
    ensures p.Delivered? && p.d.Returned? ==> Decide(t, p) == Some(t.(result := p.d.v)) && Decide(t, p).value.error == t.error
    ensures !(p.Delivered? && p.d.Returned?) && Decide(t, p).Some? ==> Decide(t, p).value.error
    ensures p.Empty? && !p.alive ==> Decide(t, p) == Some(t.Fail(Crashed))
    ensures p.Empty? && p.alive ==> (Decide(t, p).Some? <==> !p.tracked || p.elapsed > Seconds(t.maxTime))
    ensures p.Empty? && p.alive && !p.tracked ==> Decide(t, p) == Some(t.Fail(Untracked))
  {
  }

  /** The wait loop. */
  method Wait(t: Task, polls: seq<Poll>) returns (r: Option<Task>)
    requires ValidMaxTime(t.maxTime)
    ensures r == WaitOutcome(t, polls)
  {
    var i := 0;
    while i < |polls|
      invariant 0 <= i <= |polls|
      invariant WaitOutcome(t, polls) == WaitOutcome(t, polls[i..])
    {
      assert polls[i..][0] == polls[i] && polls[i..][1..] == polls[i + 1..];
      match polls[i]
      case Delivered(Threw(msg)) =>
        return Some(t.Fail(msg));
      case Delivered(Returned(v)) =>
        return Some(t.(result := v));
      case Empty(alive, tracked, elapsed) =>
        if !alive {
          return Some(t.Fail(Crashed));
        }
        if !tracked {
          return Some(t.Fail(Untracked));
        }
        if elapsed > Seconds(t.maxTime) {
          return Some(t.Fail(KillMessage(t.maxTime, elapsed)));
        }
      i := i + 1;
    }
    return None;
  }

  // ----- _dispatch -----

  /** `_dispatch` as written: a name starting with '_' marks the task
      failed, but resolution and the run go ahead; a missing segment or a
      non-callable target fails the task without running anything;
      otherwise the wait decides. */
  function DispatchOutcome(instance: Obj, t: Task, polls: seq<Poll>): (r: Option<Task>)
    requires ValidMaxTime(t.maxTime)
    ensures Resolve(instance, Split(t.methodName, '.')).None? ==> r == Some(t.Fail(NotFound))
    ensures Resolve(instance, Split(t.methodName, '.')).Some? && !Resolve(instance, Split(t.methodName, '.')).value.isCallable
            ==> r == Some(t.Fail(NotCallable))
    ensures r.Some? ==> r.value.(error := t.error, result := t.result) == t
  {
    var marked := if StartsWithChar(t.methodName, '_') then t.Fail(Underscore) else t;
    var target := Resolve(instance, Split(t.methodName, '.'));
    if target.None? then Some(marked.Fail(NotFound))
    else if !target.value.isCallable then Some(marked.Fail(NotCallable))
    else
      var r := WaitOutcome(marked, polls);
      WaitPreservesIdentity(marked, polls);
      r
  }

  lemma {:induction false} WaitPreservesIdentity(t: Task, polls: seq<Poll>)
    requires ValidMaxTime(t.maxTime)
    ensures WaitOutcome(t, polls).Some? ==> WaitOutcome(t, polls).value.(error := t.error, result := t.result) == t
    decreases |polls|
  {
    if polls != [] {
      DecideEffect(t, polls[0]);
      WaitPreservesIdentity(t, polls[1..]);
    }
  }

  /** `_dispatch`. */
  method Dispatch(instance: Obj, t: Task, polls: seq<Poll>) returns (r: Option<Task>)
    requires ValidMaxTime(t.maxTime)
    ensures r == DispatchOutcome(instance, t, polls)
  {
    var task := t;
    if StartsWithChar(task.methodName, '_') {
      task := task.Fail(Underscore);
    }
    var target := Resolve(instance, Split(task.methodName, '.'));
    if target.None? {
      return Some(task.Fail(NotFound));
    }
    if !target.value.isCallable {
      return Some(task.Fail(NotCallable));
    }
    r := Wait(task, polls);
  }

  /** As written, a method whose name starts with '_' is still run when the
      instance has it: its return value is reported as the result, with the
      error flag left set. */
  lemma UnderscoreMethodRuns(t: Task, v: Value)
    requires t.methodName == "_x" && ValidMaxTime(t.maxTime)
    ensures var instance := Obj(map["_x" := Obj(map[], true)], true);
      DispatchOutcome(instance, t, [Delivered(Returned(v))]) == Some(t.(error := true, result := v))
  {
    SplitWithoutSeparator("_x", '.');
    var instance := Obj(map["_x" := Obj(map[], true)], true);
    assert Resolve(instance, ["_x"]) == Some(Obj(map[], true)) by {
      assert ["_x"][1..] == [];
    }
  }

  /** `_dispatch` as evidently intended: a name starting with '_' fails the
      task and returns before anything is looked up or run. */
  function DispatchIntended(instance: Obj, t: Task, polls: seq<Poll>): Option<Task>
    requires ValidMaxTime(t.maxTime)
  {
    if StartsWithChar(t.methodName, '_') then Some(t.Fail(Underscore))
    else DispatchOutcome(instance, t, polls)
  }

  /** Under the intended rule no '_' method is ever run, and its task is
      reported failed with the underscore message whatever the instance
      holds; other names are dispatched as before. */
  lemma DispatchIntendedRejectsPrivate(instance: Obj, t: Task, polls: seq<Poll>)
    requires ValidMaxTime(t.maxTime)
    ensures StartsWithChar(t.methodName, '_') ==>
      DispatchIntended(instance, t, polls) == Some(t.Fail(Underscore)) &&
      DispatchIntended(instance, t, polls).value.error
    ensures !StartsWithChar(t.methodName, '_') ==>
      DispatchIntended(instance, t, polls) == DispatchOutcome(instance, t, polls)
  {
  }

  // ----- run -----

  /** What one iteration of `run` did. */
  datatype Step =
    | Idle                      // `get_task` found nothing and keeps blocking
    | Slept(seconds: int)       // `get_task` answered with a delay
    | Running                   // the child is still being waited for
    | Reported(task: Task)      // the finished task was sent back

  class Worker {
    const server: QueueServer.Server
    const instance: Obj

    constructor (server: QueueServer.Server, instance: Obj)
      ensures this.server == server && this.instance == instance
    {
      this.server := server;
      this.instance := instance;
    }

    /** One iteration of `run`: ask for a task at `now`; a delay is slept
        for at most 30 seconds; a task is dispatched with the child's polls
        and its id, error flag and result are reported through `put_result`
        at `later`. */
    method RunStep(now: int, polls: seq<Poll>, later: int) returns (step: Step)
      requires server.Valid()
      modifies server
      ensures server.Valid()
      ensures var (s1, reply) := QueueSpec.GetTask(old(server.Abstract()), now);
        match reply
        case Blocked => step == Idle && server.Abstract() == s1
        case Retry(d) => step == Slept(if d < 30 then d else 30) && server.Abstract() == s1
        case Dispatched(t) =>
          ValidMaxTime(t.maxTime) &&
          var r := DispatchOutcome(instance, t, polls);
          (if r.None? then step == Running && server.Abstract() == s1
           else (step == Reported(r.value) &&
                 server.Abstract() == QueueSpec.PutResult(s1, r.value.taskId, r.value.error, r.value.result, later)))
    {
      ghost var s0 := server.Abstract();
      var reply := server.GetTask(now);
      QueueSpec.GetTaskInv(s0, now);
      match reply
      case Blocked =>
        return Idle;
      case Retry(d) =>
        return Slept(if d < 30 then d else 30);
      case Dispatched(t) =>
        QueueSpec.GetTaskDispatched(s0, now);
        var r := Dispatch(instance, t, polls);
        if r.None? {
          return Running;
        }
        server.PutResult(r.value.taskId, r.value.error, r.value.result, later);
        return Reported(r.value);
    }
  }

  /** On the whole-second clock of this model a worker never sleeps less
      than two seconds nor more than thirty. */
  lemma SleepBounds(s: QueueSpec.State, now: int)
    requires QueueSpec.Inv(s)
    ensures QueueSpec.GetTask(s, now).1.Retry? ==>
      var d := QueueSpec.GetTask(s, now).1.delay;
      2 <= (if d < 30 then d else 30) <= 30
  {
    if QueueSpec.GetTask(s, now).1.Retry? {
      QueueSpec.GetTaskRetry(s, now);
    }
  }
}
