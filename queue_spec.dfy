/** The scheduling state machine of tomominer/parallel/queue_server.py, as
    pure transitions over the server's four structures.

    Every public `QueueServer` operation, and one pass of the
    `max_time_monitor` sweep, runs under the server's single lock, so each is
    one atomic transition here.  The two priority queues are ordered
    sequences of `(time, task_id)` entries: `Queue.PriorityQueue` compares
    Python tuples, so equal times are ordered by id.  Time is an integer
    argument `now`. */
module QueueSpec {
  import opened Py
  import opened Tasks

  /** A `(time, task_id)` tuple in `todo_queue` or `max_time_queue`. */
  datatype Entry = Entry(time: int, id: Uuid)

  /** Python's tuple order on entries: by time, then by id. */
  predicate Le(a: Entry, b: Entry)
  {
    a.time < b.time || (a.time == b.time && a.id <= b.id)
  }

  predicate Sorted(q: seq<Entry>)
  {
    forall i, j :: 0 <= i < j < |q| ==> Le(q[i], q[j])
  }

  /** `PriorityQueue.put`: the queue gains exactly `e` and stays ordered, so
      `get` (taking the head) always yields a least entry. */
  function Push(q: seq<Entry>, e: Entry): (r: seq<Entry>)
    ensures multiset(r) == multiset(q) + multiset{e}
    ensures Sorted(q) ==> Sorted(r)
  {
    if q == [] || Le(e, q[0]) then
      PushFront(q, e);
      [e] + q
    else
      var r' := Push(q[1..], e);
      PushBehind(q, e, r');
      [q[0]] + r'
  }

  /** An entry no later than the head goes in front. */
  lemma PushFront(q: seq<Entry>, e: Entry)
    requires q == [] || Le(e, q[0])
    ensures Sorted(q) ==> Sorted([e] + q)
  {
  }

  /** An entry later than the head goes behind it, into the rest. */
  lemma PushBehind(q: seq<Entry>, e: Entry, r': seq<Entry>)
    requires q != [] && !Le(e, q[0])
    requires multiset(r') == multiset(q[1..]) + multiset{e}
    requires Sorted(q[1..]) ==> Sorted(r')
    ensures multiset([q[0]] + r') == multiset(q) + multiset{e}
    ensures Sorted(q) ==> Sorted([q[0]] + r')
  {
    assert q == [q[0]] + q[1..];
    if Sorted(q) {
      forall k | 0 <= k < |r'|
        ensures Le(q[0], r'[k])
      {
        assert r'[k] in multiset(r');
        if r'[k] != e {
          assert r'[k] in multiset(q[1..]);
          var j :| 0 <= j < |q[1..]| && q[1..][j] == r'[k];
          assert q[1 + j] == r'[k];
        }
      }
      assert Sorted(q[1..]);
    }
  }

  /** The head of an ordered queue is a least entry. */
  lemma HeadIsLeast(q: seq<Entry>, e: Entry)
    requires Sorted(q) && q != [] && e in q
    ensures Le(q[0], e)
  {
    var j :| 0 <= j < |q| && q[j] == e;
    if j > 0 {
      assert Le(q[0], q[j]);
    }
  }

  /** Popping the head and putting it straight back restores an ordered queue. */
  lemma PushHeadBack(q: seq<Entry>)
    requires Sorted(q) && q != []
    ensures Push(q[1..], q[0]) == q
  {
    if |q| > 1 {
      assert Le(q[0], q[1]);
    }
  }

  /** The server state: `todo_queue`, `tasks` (queued or out at a worker),
      `max_time_queue` (tasks on their last permitted run) and `done_queues`
      (one FIFO queue per live project). */
  datatype State = State(
    todo: seq<Entry>,
    tasks: map<Uuid, Task>,
    maxTimeQueue: seq<Entry>,
    done: map<Uuid, seq<Task>>)

  /** `QueueServer.__init__`: everything empty. */
  const Initial := State([], map[], [], map[])

  /** What every transition preserves: both queues are ordered, each
      tracked task is filed under its own id and passed the `max_time`
      check, and each done queue holds only its own project's tasks. */
  ghost predicate Inv(s: State)
  {
    && Sorted(s.todo)
    && Sorted(s.maxTimeQueue)
    && (forall id :: id in s.tasks ==> s.tasks[id].taskId == id && ValidMaxTime(s.tasks[id].maxTime))
    && (forall p :: p in s.done ==> forall k :: 0 <= k < |s.done[p]| ==> s.done[p][k].projId == p)
  }

  lemma InitialInv()
    ensures Inv(Initial)
  {
  }

  /** An entry refers to work still wanted: its task is tracked and the
      task's project has not been deleted. */
  predicate Live(s: State, id: Uuid)
  {
    id in s.tasks && s.tasks[id].projId in s.done
  }

  // ----- projects -----

  /** `new_project`: installs a fresh empty done queue (replacing any queue
      the project already had). */
  function NewProject(s: State, p: Uuid): State
  {
    s.(done := s.done[p := []])
  }

  /** `del_project`: drops the project's done queue; true when it existed. */
  function DelProject(s: State, p: Uuid): (State, bool)
  {
    if p in s.done then (s.(done := s.done - {p}), true) else (s, false)
  }

  // ----- submission -----

  const MaxTimeError := "All tasks must have a valid (integer > 0) max_time"

  /** Tracks `t` and queues it as ready at `now`. */
  function Admit(s: State, t: Task, now: int): State
  {
    s.(tasks := s.tasks[t.taskId := t], todo := Push(s.todo, Entry(now, t.taskId)))
  }

  /** `put_task`: raises for an invalid `max_time`, otherwise admits the task. */
  function PutTask(s: State, t: Task, now: int): (State, Outcome)
  {
    if !ValidMaxTime(t.maxTime) then (s, Raised(MaxTimeError)) else (Admit(s, t, now), Completed)
  }

  /** `put_tasks`: checks and admits the tasks one by one; a rejected task
      raises and leaves the tasks before it admitted. */
  function PutTasks(s: State, ts: seq<Task>, now: int): (State, Outcome)
    decreases |ts|
  {
    if ts == [] then (s, Completed)
    else
      var (s1, o) := PutTask(s, ts[0], now);
      if o.Raised? then (s1, o) else PutTasks(s1, ts[1..], now)
  }

  /** `cancel_task`: forgets the task (its queue entries become stale); true
      when it was tracked. */
  function CancelTask(s: State, id: Uuid): (State, bool)
  {
    if id in s.tasks then (s.(tasks := s.tasks - {id}), true) else (s, false)
  }

  /** `get_state`: the project is live and the task is tracked. */
  function GetState(s: State, p: Uuid, id: Uuid): bool
  {
    p in s.done && id in s.tasks
  }

  // ----- dispatch -----

  /** What `get_task` hands back: a task, a delay before the next queued
      task becomes ready, or nothing (the call keeps blocking on an empty
      queue). */
  datatype Reply = Blocked | Retry(delay: int) | Dispatched(task: Task)

  /** Sends task `id` out: a further try is queued at `now + max_time` while
      tries remain, otherwise a deadline is queued on `max_time_queue`; the
      try counter goes up by one. */
  function Dispatch(s: State, id: Uuid, now: int): State
    requires id in s.tasks && ValidMaxTime(s.tasks[id].maxTime)
  {
    var t := s.tasks[id];
    var e := Entry(now + Seconds(t.maxTime), id);
    if t.tries < t.maxTries then s.(todo := Push(s.todo, e), tasks := s.tasks[id := t.(tries := t.tries + 1)])
    else s.(maxTimeQueue := Push(s.maxTimeQueue, e), tasks := s.tasks[id := t.(tries := t.tries + 1)])
  }

  /** `get_task`: pops entries in order, dropping those that are not live;
      the first live one is put back with the remaining delay when it is not
      ready yet, and dispatched otherwise. */
  function GetTask(s: State, now: int): (State, Reply)
    requires Inv(s)
    decreases |s.todo|
  {
    if s.todo == [] then (s, Blocked)
    else
      var e := s.todo[0];
      var popped := s.(todo := s.todo[1..]);
      if !Live(s, e.id) then GetTask(popped, now)
      else if now < e.time then (popped.(todo := Push(popped.todo, e)), Retry(e.time - now + 1))
      else
        var s' := Dispatch(popped, e.id, now);
        (s', Dispatched(s'.tasks[e.id]))
  }

  /** One turn of `get_task`'s loop: the head entry is popped and decides,
      unless it is stale. */
  lemma GetTaskStep(s: State, now: int)
    requires Inv(s) && s.todo != []
    ensures var e := s.todo[0];
      var popped := s.(todo := s.todo[1..]);
      && Inv(popped)
      && GetTask(s, now) == (
           if !Live(popped, e.id) then GetTask(popped, now)
           else if now < e.time then (popped.(todo := Push(popped.todo, e)), Retry(e.time - now + 1))
           else (Dispatch(popped, e.id, now), Dispatched(Dispatch(popped, e.id, now).tasks[e.id])))
  {
    assert Sorted(s.todo[1..]);
  }

  /** The position of the first live entry of `q` (or `|q|`). */
  function FirstLive(s: State, q: seq<Entry>): (k: nat)
    ensures k <= |q|
    ensures forall j :: 0 <= j < k ==> !Live(s, q[j].id)
    ensures k < |q| ==> Live(s, q[k].id)
  {
    if q == [] then 0 else if Live(s, q[0].id) then 0 else 1 + FirstLive(s, q[1..])
  }

  /** `get_task` in closed form: the stale prefix of the queue is discarded,
      and the first live entry decides between waiting and dispatching. */
  lemma {:induction false} GetTaskClosedForm(s: State, now: int)
    requires Inv(s)
    ensures var k := FirstLive(s, s.todo);
            var (s', r) := GetTask(s, now);
            if k == |s.todo| then s' == s.(todo := []) && r == Blocked
            else if now < s.todo[k].time then
              s' == s.(todo := s.todo[k..]) && r == Retry(s.todo[k].time - now + 1)
            else
              s' == Dispatch(s.(todo := s.todo[k + 1..]), s.todo[k].id, now) &&
              r == Dispatched(s'.tasks[s.todo[k].id])
    decreases |s.todo|
  {
    if s.todo != [] {
      var e := s.todo[0];
      var popped := s.(todo := s.todo[1..]);
      assert Inv(popped);
      if !Live(s, e.id) {
        GetTaskClosedForm(popped, now);
        assert FirstLive(s, s.todo) == 1 + FirstLive(popped, popped.todo);
        assert forall j :: 0 <= j <= |popped.todo| ==> popped.todo[j..] == s.todo[j + 1..];
      } else if now < e.time {
        PushHeadBack(s.todo);
      }
    }
  }

  /** A task that is not ready yet is not sent: the reply is a delay of
      more than one second and only stale entries leave the queue. */
  lemma GetTaskRetry(s: State, now: int)
    requires Inv(s)
    requires GetTask(s, now).1.Retry?
    ensures GetTask(s, now).1.delay > 1
    ensures var s' := GetTask(s, now).0;
            s'.tasks == s.tasks && s'.maxTimeQueue == s.maxTimeQueue && s'.done == s.done &&
            s'.todo == s.todo[FirstLive(s, s.todo)..]
  {
    GetTaskClosedForm(s, now);
  }

  /** A sent task is the first live entry of the queue and is ready; the
      stale entries before it and the entry itself leave the queue, the
      task is dispatched from what remains, and the task sent is the
      tracked one with one more try. */
  lemma GetTaskDispatched(s: State, now: int)
    requires Inv(s)
    requires GetTask(s, now).1.Dispatched?
    ensures var k := FirstLive(s, s.todo);
            && k < |s.todo| && s.todo[k].time <= now && Live(s, s.todo[k].id)
            && var id := s.todo[k].id;
               && GetTask(s, now).0 == Dispatch(s.(todo := s.todo[k + 1..]), id, now)
               && GetTask(s, now).1.task == s.tasks[id].(tries := s.tasks[id].tries + 1)
               && GetTask(s, now).1.task.taskId == id
  {
    GetTaskClosedForm(s, now);
  }

  /** What dispatching does to each part of the state: the task stays
      tracked with one more try; its next try is queued at
      `now + max_time` while tries remain, and its deadline is queued on
      the max-time queue otherwise. */
  lemma DispatchEffect(p: State, id: Uuid, now: int)
    requires id in p.tasks && ValidMaxTime(p.tasks[id].maxTime)
    ensures var t := p.tasks[id];
      var d := Dispatch(p, id, now);
      var e := Entry(now + Seconds(t.maxTime), id);
      && d.tasks == p.tasks[id := t.(tries := t.tries + 1)] && d.done == p.done
      && (if t.tries < t.maxTries then
            multiset(d.todo) == multiset(p.todo) + multiset{e} && d.maxTimeQueue == p.maxTimeQueue
          else
            d.todo == p.todo && multiset(d.maxTimeQueue) == multiset(p.maxTimeQueue) + multiset{e})
  {
    if p.tasks[id].tries < p.tasks[id].maxTries {
      DispatchToTodo(p, id, now);
    } else {
      DispatchToMaxTime(p, id, now);
    }
  }

  /** With no live entry the call finds nothing to send and the queue ends up empty. */
  lemma GetTaskBlocked(s: State, now: int)
    requires Inv(s)
    requires GetTask(s, now).1.Blocked?
    ensures forall j :: 0 <= j < |s.todo| ==> !Live(s, s.todo[j].id)
    ensures GetTask(s, now).0 == s.(todo := [])
  {
    GetTaskClosedForm(s, now);
  }

  // ----- results -----

  /** `put_result`: ignored for an unknown task or a deleted project; an
      error with tries left re-queues the task at `now`; otherwise the task
      records the outcome, joins its project's done queue and is forgotten. */
  function PutResult(s: State, id: Uuid, error: bool, result: Value, now: int): State
  {
    if !Live(s, id) then s
    else
      var t := s.tasks[id];
      if error && t.tries < t.maxTries then s.(todo := Push(s.todo, Entry(now, id)))
      else
        s.(done := s.done[t.projId := s.done[t.projId] + [t.(error := error, result := result)]],
           tasks := s.tasks - {id})
  }

  /** `get_results`: drains the project's done queue; nothing for an
      unknown project. */
  function GetResults(s: State, p: Uuid): (State, seq<Task>)
  {
    if p !in s.done then (s, []) else (s.(done := s.done[p := []]), s.done[p])
  }

  // ----- the max_time monitor -----

  const TimeoutMessage := "Task exceeded max_time"

  /** One sweep of `max_time_monitor.run`: pops deadlines in order; the first
      one still in the future is put back and ends the sweep; a passed
      deadline fails its task into the done queue unless the task or its
      project is gone, in which case the entry is just dropped. */
  function Sweep(s: State, now: int): State
    decreases |s.maxTimeQueue|
  {
    if s.maxTimeQueue == [] then s
    else
      var e := s.maxTimeQueue[0];
      var popped := s.(maxTimeQueue := s.maxTimeQueue[1..]);
      if now < e.time then popped.(maxTimeQueue := Push(popped.maxTimeQueue, e))
      else if !Live(s, e.id) then Sweep(popped, now)
      else
        var t := s.tasks[e.id];
        Sweep(popped.(done := s.done[t.projId := s.done[t.projId] + [t.Fail(TimeoutMessage)]],
                      tasks := s.tasks - {e.id}), now)
  }

  // ----- invariance -----

  /** The new queues and task map that `Dispatch` is made of, and the
      invariant it keeps. */
  lemma DispatchParts(s: State, id: Uuid, now: int, todo': seq<Entry>, maxTimeQueue': seq<Entry>)
    requires Inv(s) && id in s.tasks
    requires var t := s.tasks[id];
      var e := Entry(now + Seconds(t.maxTime), id);
      if t.tries < t.maxTries then todo' == Push(s.todo, e) && maxTimeQueue' == s.maxTimeQueue
      else todo' == s.todo && maxTimeQueue' == Push(s.maxTimeQueue, e)
    ensures var t := s.tasks[id];
      var s' := State(todo', s.tasks[id := t.(tries := t.tries + 1)], maxTimeQueue', s.done);
      s' == Dispatch(s, id, now) && Inv(s')
  {
    var t := s.tasks[id];
    if t.tries < t.maxTries {
      DispatchToTodo(s, id, now);
    } else {
      DispatchToMaxTime(s, id, now);
    }
    DispatchInv(s, id, now);
  }

  /** With tries left, dispatching queues the deadline on `todo`. */
  lemma DispatchToTodo(s: State, id: Uuid, now: int)
    requires id in s.tasks && ValidMaxTime(s.tasks[id].maxTime) && s.tasks[id].tries < s.tasks[id].maxTries
    ensures var t := s.tasks[id];
      Dispatch(s, id, now) == State(Push(s.todo, Entry(now + Seconds(t.maxTime), id)),
        s.tasks[id := t.(tries := t.tries + 1)], s.maxTimeQueue, s.done)
  {
  }

  /** On its last try, dispatching queues the deadline on `max_time_queue`. */
  lemma DispatchToMaxTime(s: State, id: Uuid, now: int)
    requires id in s.tasks && ValidMaxTime(s.tasks[id].maxTime) && s.tasks[id].tries >= s.tasks[id].maxTries
    ensures var t := s.tasks[id];
      Dispatch(s, id, now) == State(s.todo, s.tasks[id := t.(tries := t.tries + 1)],
        Push(s.maxTimeQueue, Entry(now + Seconds(t.maxTime), id)), s.done)
  {
  }

  /** One turn of `put_tasks`' loop. */
  lemma PutTasksStep(s: State, ts: seq<Task>, now: int)
    requires ts != []
    ensures PutTasks(s, ts, now) ==
      if !ValidMaxTime(ts[0].maxTime) then (s, Raised(MaxTimeError)) else PutTasks(Admit(s, ts[0], now), ts[1..], now)
  {
  }

  lemma AdmitInv(s: State, t: Task, now: int)
    requires Inv(s) && ValidMaxTime(t.maxTime)
    ensures Inv(Admit(s, t, now))
  {
    PutTasksInv(s, [t], now);
  }

  lemma {:induction false} PutTasksInv(s: State, ts: seq<Task>, now: int)
    requires Inv(s)
    ensures Inv(PutTasks(s, ts, now).0)
    decreases |ts|
  {
    if ts != [] && ValidMaxTime(ts[0].maxTime) {
      PutTasksInv(Admit(s, ts[0], now), ts[1..], now);
    }
  }

  lemma DispatchInv(s: State, id: Uuid, now: int)
    requires Inv(s) && id in s.tasks
    ensures Inv(Dispatch(s, id, now))
  {
  }

  lemma {:induction false} GetTaskInv(s: State, now: int)
    requires Inv(s)
    ensures Inv(GetTask(s, now).0)
    decreases |s.todo|
  {
    if s.todo != [] {
      var popped := s.(todo := s.todo[1..]);
      assert Inv(popped);
      if !Live(s, s.todo[0].id) {
        GetTaskInv(popped, now);
      } else if s.todo[0].time <= now {
        DispatchInv(popped, s.todo[0].id, now);
      }
    }
  }

  lemma PutResultInv(s: State, id: Uuid, error: bool, result: Value, now: int)
    requires Inv(s)
    ensures Inv(PutResult(s, id, error, result, now))
  {
  }

  lemma {:induction false} SweepInv(s: State, now: int)
    requires Inv(s)
    ensures Inv(Sweep(s, now))
    decreases |s.maxTimeQueue|
  {
    if s.maxTimeQueue != [] {
      var e := s.maxTimeQueue[0];
      var popped := s.(maxTimeQueue := s.maxTimeQueue[1..]);
      assert Inv(popped);
      if e.time <= now {
        if !Live(s, e.id) {
          SweepInv(popped, now);
        } else {
          var t := s.tasks[e.id];
          var next := popped.(done := s.done[t.projId := s.done[t.projId] + [t.Fail(TimeoutMessage)]],
                              tasks := s.tasks - {e.id});
          assert Inv(next);
          SweepInv(next, now);
        }
      }
    }
  }

  // ----- properties of the transitions -----

  /** `put_tasks` stops at the first task with an invalid `max_time`: the
      call raises and the state is what admitting the tasks before it
      produced. */
  lemma {:induction false} PutTasksStopsAtInvalid(s: State, ts: seq<Task>, now: int, k: nat)
    requires k < |ts| && !ValidMaxTime(ts[k].maxTime)
    requires forall j :: 0 <= j < k ==> ValidMaxTime(ts[j].maxTime)
    ensures PutTasks(s, ts, now) == (PutTasks(s, ts[..k], now).0, Raised(MaxTimeError))
    decreases k
  {
    if k > 0 {
      PutTasksStopsAtInvalid(Admit(s, ts[0], now), ts[1..], now, k - 1);
      assert ts[1..][..k - 1] == ts[..k][1..];
    }
  }

  /** The entries `put_tasks` queues: one ready entry per task. */
  function ReadyEntries(ts: seq<Task>, now: int): (es: seq<Entry>)
    ensures |es| == |ts|
    ensures forall j :: 0 <= j < |ts| ==> es[j] == Entry(now, ts[j].taskId)
  {
    if ts == [] then [] else [Entry(now, ts[0].taskId)] + ReadyEntries(ts[1..], now)
  }

  /** The ids of a list of tasks. */
  function Ids(ts: seq<Task>): set<Uuid>
  {
    set j | 0 <= j < |ts| :: ts[j].taskId
  }

  /** No task after position `j` carries the id of `ts[j]`. */
  predicate LastWithId(ts: seq<Task>, j: int)
    requires 0 <= j < |ts|
  {
    forall j' :: j < j' < |ts| ==> ts[j'].taskId != ts[j].taskId
  }

  /** The ids of a non-empty list: the first one and those of the rest. */
  lemma IdsCons(ts: seq<Task>)
    requires ts != []
    ensures Ids(ts) == {ts[0].taskId} + Ids(ts[1..])
  {
    forall id | id in Ids(ts) ensures id in {ts[0].taskId} + Ids(ts[1..]) {
      var j :| 0 <= j < |ts| && ts[j].taskId == id;
      if j > 0 {
        assert ts[1..][j - 1] == ts[j];
      }
    }
    forall id | id in Ids(ts[1..]) ensures id in Ids(ts) {
      var j :| 0 <= j < |ts[1..]| && ts[1..][j].taskId == id;
      assert ts[j + 1] == ts[1..][j];
    }
  }

  /** When every task is valid, `put_tasks` completes and queues exactly
      one ready entry per task; the tracked ids become the old ones plus
      the new ones, each new id holds the last task submitted under it, and
      every other tracked task is unchanged. */
  lemma {:induction false} PutTasksAllValid(s: State, ts: seq<Task>, now: int)
    requires forall j :: 0 <= j < |ts| ==> ValidMaxTime(ts[j].maxTime)
    ensures var (s', o) := PutTasks(s, ts, now);
            && o == Completed
            && s'.tasks.Keys == s.tasks.Keys + Ids(ts)
            && (forall j :: 0 <= j < |ts| && LastWithId(ts, j) ==> s'.tasks[ts[j].taskId] == ts[j])
            && (forall id :: id in s.tasks && id !in Ids(ts) ==> s'.tasks[id] == s.tasks[id])
            && multiset(s'.todo) == multiset(s.todo) + multiset(ReadyEntries(ts, now))
            && s'.done == s.done && s'.maxTimeQueue == s.maxTimeQueue
  {
    PutTasksQueues(s, ts, now);
    PutTasksTracks(s, ts, now);
  }

  /** The queue part of `PutTasksAllValid`. */
  lemma {:induction false} PutTasksQueues(s: State, ts: seq<Task>, now: int)
    requires forall j :: 0 <= j < |ts| ==> ValidMaxTime(ts[j].maxTime)
    ensures var (s', o) := PutTasks(s, ts, now);
            && o == Completed
            && multiset(s'.todo) == multiset(s.todo) + multiset(ReadyEntries(ts, now))
            && s'.done == s.done && s'.maxTimeQueue == s.maxTimeQueue
    decreases |ts|
  {
    if ts != [] {
      PutTasksQueues(Admit(s, ts[0], now), ts[1..], now);
      assert ReadyEntries(ts, now) == [Entry(now, ts[0].taskId)] + ReadyEntries(ts[1..], now);
    }
  }

  /** The task-map part of `PutTasksAllValid`. */
  lemma {:induction false} PutTasksTracks(s: State, ts: seq<Task>, now: int)
    requires forall j :: 0 <= j < |ts| ==> ValidMaxTime(ts[j].maxTime)
    ensures var s' := PutTasks(s, ts, now).0;
            && s'.tasks.Keys == s.tasks.Keys + Ids(ts)
            && (forall j :: 0 <= j < |ts| && LastWithId(ts, j) ==> s'.tasks[ts[j].taskId] == ts[j])
            && (forall id :: id in s.tasks && id !in Ids(ts) ==> s'.tasks[id] == s.tasks[id])
    decreases |ts|
  {
    if ts != [] {
      var s1 := Admit(s, ts[0], now);
      PutTasksTracks(s1, ts[1..], now);
      assert PutTasks(s, ts, now) == PutTasks(s1, ts[1..], now);
      IdsCons(ts);
      PutTasksLastWins(s1.tasks, PutTasks(s, ts, now).0.tasks, ts);
    }
  }

  /** The induction step of `PutTasksAllValid` for the tracked tasks: a
      task last under its id in the whole list is either the first task,
      with its id absent from the rest, or last under its id in the rest. */
  lemma PutTasksLastWins(m1: map<Uuid, Task>, m': map<Uuid, Task>, ts: seq<Task>)
    requires ts != [] && ts[0].taskId in m1 && m1[ts[0].taskId] == ts[0]
    requires m'.Keys == m1.Keys + Ids(ts[1..])
    requires forall j :: 0 <= j < |ts| - 1 && LastWithId(ts[1..], j) ==> m'[ts[1..][j].taskId] == ts[1..][j]
    requires forall id :: id in m1 && id !in Ids(ts[1..]) ==> m'[id] == m1[id]
    ensures forall j :: 0 <= j < |ts| && LastWithId(ts, j) ==> ts[j].taskId in m' && m'[ts[j].taskId] == ts[j]
  {
    forall j | 0 <= j < |ts| && LastWithId(ts, j) ensures ts[j].taskId in m' && m'[ts[j].taskId] == ts[j] {
      if j > 0 {
        assert ts[1..][j - 1] == ts[j];
        assert LastWithId(ts[1..], j - 1) by {
          forall j' | j - 1 < j' < |ts[1..]| ensures ts[1..][j'].taskId != ts[1..][j - 1].taskId {
            assert ts[1..][j'] == ts[j' + 1];
          }
        }
      } else {
        assert ts[0].taskId !in Ids(ts[1..]) by {
          forall j' | 0 <= j' < |ts[1..]| ensures ts[1..][j'].taskId != ts[0].taskId {
            assert ts[1..][j'] == ts[j' + 1];
          }
        }
      }
    }
  }

  /** Admitting more tasks never untracks one. */
  lemma {:induction false} PutTasksKeepsTracked(s: State, ts: seq<Task>, now: int, id: Uuid)
    requires id in s.tasks
    ensures id in PutTasks(s, ts, now).0.tasks
    decreases |ts|
  {
    if ts != [] && ValidMaxTime(ts[0].maxTime) {
      PutTasksKeepsTracked(Admit(s, ts[0], now), ts[1..], now, id);
    }
  }

  /** `get_state` holds exactly when a dispatch of the task would not be
      skipped as stale. */
  lemma GetStateIsLiveness(s: State, id: Uuid)
    requires Inv(s) && id in s.tasks
    ensures GetState(s, s.tasks[id].projId, id) <==> Live(s, id)
  {
  }

  /** After `cancel_task` the task's entries are stale and results for it are ignored. */
  lemma CancelMakesStale(s: State, id: Uuid, error: bool, result: Value, now: int)
    ensures var s' := CancelTask(s, id).0;
            !Live(s', id) && PutResult(s', id, error, result, now) == s'
    ensures CancelTask(s, id).1 <==> id in s.tasks
  {
  }

  /** A result that completes a task (success, or an error with no tries
      left) files a copy carrying the reported outcome at the end of the
      task's own project queue and untracks it; any later report for the
      same id changes nothing. */
  lemma PutResultCompletes(s: State, id: Uuid, error: bool, result: Value, now: int,
                           error2: bool, result2: Value, now2: int)
    requires Live(s, id)
    requires !error || s.tasks[id].tries >= s.tasks[id].maxTries
    ensures var s' := PutResult(s, id, error, result, now);
            var t := s.tasks[id];
            && id !in s'.tasks
            && s'.done[t.projId] == s.done[t.projId] + [t.(error := error, result := result)]
            && (forall p :: p in s.done && p != t.projId ==> p in s'.done && s'.done[p] == s.done[p])
            && s'.todo == s.todo && s'.maxTimeQueue == s.maxTimeQueue
            && PutResult(s', id, error2, result2, now2) == s'
  {
  }

  /** An error with tries left only queues an immediate retry. */
  lemma PutResultRetries(s: State, id: Uuid, result: Value, now: int)
    requires Inv(s) && Live(s, id) && s.tasks[id].tries < s.tasks[id].maxTries
    ensures var s' := PutResult(s, id, true, result, now);
            && s'.tasks == s.tasks && s'.done == s.done && s'.maxTimeQueue == s.maxTimeQueue
            && multiset(s'.todo) == multiset(s.todo) + multiset{Entry(now, id)}
            && Sorted(s'.todo)
  {
  }

  /** Results for an unknown task or a deleted project change nothing. */
  lemma PutResultIgnored(s: State, id: Uuid, error: bool, result: Value, now: int)
    requires !Live(s, id)
    ensures PutResult(s, id, error, result, now) == s
  {
  }

  /** `get_results` returns the project's completed tasks in completion
      order, all of them its own, and leaves its queue empty, so an
      immediate second call returns nothing. */
  lemma GetResultsDrains(s: State, p: Uuid)
    requires Inv(s)
    ensures var (s', rs) := GetResults(s, p);
            && (p in s.done ==> rs == s.done[p] && s'.done == s.done[p := []])
            && (p !in s.done ==> rs == [] && s' == s)
            && (forall k :: 0 <= k < |rs| ==> rs[k].projId == p)
            && GetResults(s', p).1 == []
            && s'.tasks == s.tasks && s'.todo == s.todo
  {
  }

  /** `del_project` reports whether the project existed; afterwards its
      results are unavailable and reports for its tasks change nothing. */
  lemma DelProjectEffect(s: State, p: Uuid, id: Uuid, error: bool, result: Value, now: int)
    requires id in s.tasks && s.tasks[id].projId == p
    ensures var (s', existed) := DelProject(s, p);
            && (existed <==> p in s.done)
            && p !in s'.done
            && GetResults(s', p) == (s', [])
            && PutResult(s', id, error, result, now) == s'
            && !GetState(s', p, id)
  {
  }

  /** A new project starts with an empty done queue. */
  lemma NewProjectEmpty(s: State, p: Uuid)
    requires Inv(s)
    ensures Inv(NewProject(s, p))
    ensures GetResults(NewProject(s, p), p).1 == []
    ensures DelProject(NewProject(s, p), p).1
  {
  }

  /** The number of leading entries of `q` whose deadline has passed. */
  function DueCount(q: seq<Entry>, now: int): (k: nat)
    ensures k <= |q|
    ensures forall j :: 0 <= j < k ==> q[j].time <= now
    ensures k < |q| ==> now < q[k].time
  {
    if q == [] || now < q[0].time then 0 else 1 + DueCount(q[1..], now)
  }

  /** The sweep consumes exactly the passed deadlines at the head of the
      queue and keeps the rest; in an ordered queue no passed deadline is
      left behind. */
  lemma {:induction false} SweepQueue(s: State, now: int)
    requires Sorted(s.maxTimeQueue)
    ensures Sweep(s, now).maxTimeQueue == s.maxTimeQueue[DueCount(s.maxTimeQueue, now)..]
    ensures forall j :: 0 <= j < |Sweep(s, now).maxTimeQueue| ==> now < Sweep(s, now).maxTimeQueue[j].time
    decreases |s.maxTimeQueue|
  {
    var q := s.maxTimeQueue;
    if q != [] {
      var popped := s.(maxTimeQueue := q[1..]);
      if now < q[0].time {
        PushHeadBack(q);
        forall j | 0 <= j < |q| ensures now < q[j].time {
          if j > 0 { assert Le(q[0], q[j]); }
        }
      } else {
        var t := if Live(s, q[0].id) then s.tasks[q[0].id] else Task(0, 0, "", [], map[], false, 0, VNone, 0, 0, false, VNone);
        var next := if !Live(s, q[0].id) then popped
                    else popped.(done := s.done[t.projId := s.done[t.projId] + [t.Fail(TimeoutMessage)]],
                                 tasks := s.tasks - {q[0].id});
        assert Sweep(s, now) == Sweep(next, now);
        SweepQueue(next, now);
        assert q[1..][DueCount(q[1..], now)..] == q[DueCount(q, now)..];
      }
    }
  }

  /** The sweep only ever adds timed-out copies of tracked tasks to the end
      of existing done queues and untracks those tasks; it never touches
      the ready queue, and a task it keeps tracking is unchanged. */
  lemma {:induction false} SweepEffect(s: State, now: int)
    ensures var s' := Sweep(s, now);
            && s'.todo == s.todo
            && s'.done.Keys == s.done.Keys
            && (forall p :: p in s.done ==> s.done[p] <= s'.done[p])
            && (forall p :: p in s.done ==> forall k :: |s.done[p]| <= k < |s'.done[p]| ==>
                  s'.done[p][k].error && s'.done[p][k].result == VStr(TimeoutMessage))
            && (forall id :: id in s'.tasks ==> id in s.tasks && s'.tasks[id] == s.tasks[id])
    decreases |s.maxTimeQueue|
  {
    var q := s.maxTimeQueue;
    if q != [] && q[0].time <= now {
      var popped := s.(maxTimeQueue := q[1..]);
      if !Live(s, q[0].id) {
        SweepEffect(popped, now);
      } else {
        var t := s.tasks[q[0].id];
        var next := popped.(done := s.done[t.projId := s.done[t.projId] + [t.Fail(TimeoutMessage)]],
                            tasks := s.tasks - {q[0].id});
        SweepEffect(next, now);
        var s' := Sweep(s, now);
        assert s' == Sweep(next, now);
        forall p | p in s.done ensures s.done[p] <= s'.done[p] {
          assert s.done[p] <= next.done[p];
        }
        forall p | p in s.done
          ensures forall k :: |s.done[p]| <= k < |s'.done[p]| ==>
                    s'.done[p][k].error && s'.done[p][k].result == VStr(TimeoutMessage)
        {
          forall k | |s.done[p]| <= k < |s'.done[p]|
            ensures s'.done[p][k].error && s'.done[p][k].result == VStr(TimeoutMessage)
          {
            if k >= |next.done[p]| {
            } else {
              assert p == t.projId;
              assert s'.done[p][k] == next.done[p][k];
            }
          }
        }
      }
    }
  }

  /** The copies the sweep files for project `p` while it walks the passed
      deadlines `due`, in queue order: an entry fails its task when the task
      is live and no earlier entry (`seen`) named the same task, since that
      earlier entry already failed and untracked it. */
  function TimedOut(s: State, due: seq<Entry>, p: Uuid, seen: set<Uuid>): seq<Task>
    decreases |due|
  {
    if due == [] then []
    else
      var id := due[0].id;
      (if Live(s, id) && id !in seen && s.tasks[id].projId == p then [s.tasks[id].Fail(TimeoutMessage)] else [])
        + TimedOut(s, due[1..], p, seen + {id})
  }

  /** The live tasks named by the entries of `due`. */
  function LiveIds(s: State, due: seq<Entry>): set<Uuid>
  {
    set j | 0 <= j < |due| && Live(s, due[j].id) :: due[j].id
  }

  /** `t` is `s` with task `x` no longer live and every other task as it was. */
  ghost predicate LiveExcept(s: State, t: State, x: Uuid)
  {
    && (forall y :: Live(t, y) <==> Live(s, y) && y != x)
    && (forall y :: Live(t, y) ==> t.tasks[y] == s.tasks[y])
  }

  lemma {:induction false} TimedOutShift(s: State, t: State, due: seq<Entry>, p: Uuid, seen: set<Uuid>, x: Uuid)
    requires LiveExcept(s, t, x)
    ensures TimedOut(t, due, p, seen) == TimedOut(s, due, p, seen + {x})
    decreases |due|
  {
    if due != [] {
      var id := due[0].id;
      TimedOutShift(s, t, due[1..], p, seen + {id}, x);
      assert seen + {id} + {x} == seen + {x} + {id};
    }
  }

  lemma LiveIdsShift(s: State, t: State, due: seq<Entry>, x: Uuid)
    requires LiveExcept(s, t, x)
    ensures LiveIds(t, due) == LiveIds(s, due) - {x}
  {
  }

  lemma LiveIdsCons(s: State, due: seq<Entry>)
    requires due != []
    ensures LiveIds(s, due) == (if Live(s, due[0].id) then {due[0].id} else {}) + LiveIds(s, due[1..])
  {
    forall id | id in LiveIds(s, due[1..]) ensures id in LiveIds(s, due) {
      var j :| 0 <= j < |due[1..]| && Live(s, due[1..][j].id) && due[1..][j].id == id;
      assert due[j + 1] == due[1..][j];
    }
    forall id | id in LiveIds(s, due) && id != due[0].id ensures id in LiveIds(s, due[1..]) {
      var j :| 0 <= j < |due| && Live(s, due[j].id) && due[j].id == id;
      assert due[1..][j - 1] == due[j];
    }
  }

  /** The closed form of the sweep carried across one popped deadline:
      `next` is the state after handling `due[0]`, and `s'` is in closed
      form with respect to `next` and the deadlines behind it. */
  lemma SweepClosedFormStep(s: State, next: State, s': State, due: seq<Entry>)
    requires due != []
    requires var x := due[0].id;
      && LiveExcept(s, next, x)
      && next.tasks == (if Live(s, x) then s.tasks - {x} else s.tasks)
      && next.done.Keys == s.done.Keys
      && forall p :: p in s.done ==>
           next.done[p] == s.done[p] + (if Live(s, x) && s.tasks[x].projId == p then [s.tasks[x].Fail(TimeoutMessage)] else [])
    requires s'.tasks == next.tasks - LiveIds(next, due[1..]) && s'.done.Keys == next.done.Keys
    requires forall p :: p in next.done ==> s'.done[p] == next.done[p] + TimedOut(next, due[1..], p, {})
    ensures s'.tasks == s.tasks - LiveIds(s, due) && s'.done.Keys == s.done.Keys
    ensures forall p :: p in s.done ==> s'.done[p] == s.done[p] + TimedOut(s, due, p, {})
  {
    SweepStepTasks(s, next, s'.tasks, due);
    forall p | p in s.done ensures s'.done[p] == s.done[p] + TimedOut(s, due, p, {}) {
      SweepStepDone(s, next, due, p, s'.done[p]);
    }
  }

  lemma SweepStepTasks(s: State, next: State, tasks': map<Uuid, Task>, due: seq<Entry>)
    requires due != []
    requires LiveExcept(s, next, due[0].id)
    requires next.tasks == (if Live(s, due[0].id) then s.tasks - {due[0].id} else s.tasks)
    requires tasks' == next.tasks - LiveIds(next, due[1..])
    ensures tasks' == s.tasks - LiveIds(s, due)
  {
    LiveIdsCons(s, due);
    LiveIdsShift(s, next, due[1..], due[0].id);
  }

  lemma SweepStepDone(s: State, next: State, due: seq<Entry>, p: Uuid, done': seq<Task>)
    requires due != [] && p in s.done && p in next.done
    requires LiveExcept(s, next, due[0].id)
    requires next.done[p] == s.done[p] +
      (if Live(s, due[0].id) && s.tasks[due[0].id].projId == p then [s.tasks[due[0].id].Fail(TimeoutMessage)] else [])
    requires done' == next.done[p] + TimedOut(next, due[1..], p, {})
    ensures done' == s.done[p] + TimedOut(s, due, p, {})
  {
    var head := if Live(s, due[0].id) && s.tasks[due[0].id].projId == p then [s.tasks[due[0].id].Fail(TimeoutMessage)] else [];
    var tail := TimedOut(next, due[1..], p, {});
    TimedOutHead(s, next, due, p);
    ConcatAssoc(s.done[p], head, tail, next.done[p], TimedOut(s, due, p, {}), done');
  }

  /** The first deadline's contribution, then the rest seen from `next`. */
  lemma TimedOutHead(s: State, next: State, due: seq<Entry>, p: Uuid)
    requires due != []
    requires LiveExcept(s, next, due[0].id)
    ensures TimedOut(s, due, p, {}) ==
      (if Live(s, due[0].id) && s.tasks[due[0].id].projId == p then [s.tasks[due[0].id].Fail(TimeoutMessage)] else [])
        + TimedOut(next, due[1..], p, {})
  {
    TimedOutShift(s, next, due[1..], p, {}, due[0].id);
    assert {} + {due[0].id} == {due[0].id};
  }

  /** The state after the sweep handles the first deadline of the queue
      once that deadline has passed. */
  function FailHead(s: State): State
    requires s.maxTimeQueue != []
  {
    var x := s.maxTimeQueue[0].id;
    var popped := s.(maxTimeQueue := s.maxTimeQueue[1..]);
    if !Live(s, x) then popped
    else popped.(done := s.done[s.tasks[x].projId := s.done[s.tasks[x].projId] + [s.tasks[x].Fail(TimeoutMessage)]],
                 tasks := s.tasks - {x})
  }

  /** A passed first deadline: the sweep goes on from `FailHead(s)`, over
      one passed deadline fewer. */
  lemma SweepHead(s: State, now: int)
    requires s.maxTimeQueue != [] && s.maxTimeQueue[0].time <= now
    ensures var q := s.maxTimeQueue;
            var k := DueCount(q, now);
            && Sweep(s, now) == Sweep(FailHead(s), now)
            && DueCount(FailHead(s).maxTimeQueue, now) == k - 1
            && q[..k] != [] && q[..k][0] == q[0]
            && q[..k][1..] == FailHead(s).maxTimeQueue[..k - 1]
  {
    var q := s.maxTimeQueue;
    var k := DueCount(q, now);
    assert FailHead(s).maxTimeQueue == q[1..];
    assert q[..k][1..] == q[1..][..k - 1];
  }

  /** What handling the first deadline does to the tasks and done queues. */
  lemma FailHeadEffect(s: State)
    requires s.maxTimeQueue != []
    ensures var x := s.maxTimeQueue[0].id;
            var next := FailHead(s);
            && LiveExcept(s, next, x)
            && next.tasks == (if Live(s, x) then s.tasks - {x} else s.tasks)
            && next.done.Keys == s.done.Keys
            && forall p :: p in s.done ==>
                 next.done[p] == s.done[p] + (if Live(s, x) && s.tasks[x].projId == p then [s.tasks[x].Fail(TimeoutMessage)] else [])
  {
  }

  /** What one sweep does, in closed form over the passed deadlines at the
      head of the max-time queue: every live task they name is untracked,
      and each project's done queue gains, in queue order, a copy of each
      of its own such tasks failed with "Task exceeded max_time"; entries
      whose task or project is gone are simply dropped. */
  lemma {:induction false} SweepFailsDue(s: State, now: int)
    ensures var due := s.maxTimeQueue[..DueCount(s.maxTimeQueue, now)];
            var s' := Sweep(s, now);
            && s'.tasks == s.tasks - LiveIds(s, due)
            && s'.done.Keys == s.done.Keys
            && forall p :: p in s.done ==> s'.done[p] == s.done[p] + TimedOut(s, due, p, {})
    decreases |s.maxTimeQueue|
  {
    var q := s.maxTimeQueue;
    if q != [] && q[0].time <= now {
      var k := DueCount(q, now);
      var next := FailHead(s);
      SweepHead(s, now);
      FailHeadEffect(s);
      SweepFailsDue(next, now);
      SweepClosedFormStep(s, next, Sweep(next, now), q[..k]);
    }
  }
}
