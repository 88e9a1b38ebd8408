/** The `QueueServer` object of tomominer/parallel/queue_server.py: its four
    structures are fields that each operation updates in place, popping and
    re-inserting queue entries the way the source does.  Every method is
    proved to perform exactly the transition that `QueueSpec` defines, so
    the properties proved there hold of these methods. */
module QueueServer {
  import opened Py
  import opened Tasks
  import QueueSpec

  class Server {
    var todo: seq<QueueSpec.Entry>
    var tasks: map<Uuid, Task>
    var maxTimeQueue: seq<QueueSpec.Entry>
    var doneQueues: map<Uuid, seq<Task>>

    function Abstract(): QueueSpec.State
      reads this
    {
      QueueSpec.State(todo, tasks, maxTimeQueue, doneQueues)
    }

    ghost predicate Valid()
      reads this
    {
      QueueSpec.Inv(Abstract())
    }

    constructor ()
      ensures Valid() && Abstract() == QueueSpec.Initial
    {
      todo := [];
      tasks := map[];
      maxTimeQueue := [];
      doneQueues := map[];
    }

    method NewProject(p: Uuid)
      requires Valid()
      modifies this
      ensures Valid() && Abstract() == QueueSpec.NewProject(old(Abstract()), p)
    {
      doneQueues := doneQueues[p := []];
    }

    method DelProject(p: Uuid) returns (existed: bool)
      requires Valid()
      modifies this
      ensures Valid() && (Abstract(), existed) == QueueSpec.DelProject(old(Abstract()), p)
    {
      if p in doneQueues {
        doneQueues := doneQueues - {p};
        return true;
      }
      return false;
    }

    method PutTasks(ts: seq<Task>, now: int) returns (o: Outcome)
      requires Valid()
      modifies this
      ensures Valid() && (Abstract(), o) == QueueSpec.PutTasks(old(Abstract()), ts, now)
    {
      var i := 0;
      while i < |ts|
        invariant 0 <= i <= |ts|
        invariant Valid()
        invariant QueueSpec.PutTasks(old(Abstract()), ts, now) == QueueSpec.PutTasks(Abstract(), ts[i..], now)
      {
        assert ts[i..][0] == ts[i] && ts[i..][1..] == ts[i + 1..];
        ghost var s := Abstract();
        QueueSpec.PutTasksStep(s, ts[i..], now);
        var t := ts[i];
        if !ValidMaxTime(t.maxTime) {
          return Raised(QueueSpec.MaxTimeError);
        }
        QueueSpec.AdmitInv(s, t, now);
        tasks := tasks[t.taskId := t];
        todo := QueueSpec.Push(todo, QueueSpec.Entry(now, t.taskId));
        assert Abstract() == QueueSpec.Admit(s, t, now);
        i := i + 1;
      }
      return Completed;
    }

    method PutTask(t: Task, now: int) returns (o: Outcome)
      requires Valid()
      modifies this
      ensures Valid() && (Abstract(), o) == QueueSpec.PutTask(old(Abstract()), t, now)
    {
      if !ValidMaxTime(t.maxTime) {
        return Raised(QueueSpec.MaxTimeError);
      }
      tasks := tasks[t.taskId := t];
      todo := QueueSpec.Push(todo, QueueSpec.Entry(now, t.taskId));
      return Completed;
    }

    method CancelTask(id: Uuid) returns (known: bool)
      requires Valid()
      modifies this
      ensures Valid() && (Abstract(), known) == QueueSpec.CancelTask(old(Abstract()), id)
    {
      if id in tasks {
        tasks := tasks - {id};
        return true;
      }
      return false;
    }

    /** `get_state`: true exactly when the project is live and the task tracked. */
    method GetState(p: Uuid, id: Uuid) returns (tracked: bool)
      ensures tracked <==> p in doneQueues && id in tasks
    {
      if p !in doneQueues {
        return false;
      }
      return id in tasks;
    }

    /** The dispatch half of `get_task`: the task's next deadline goes on
        the todo queue while it has tries left and on the max-time queue
        for its last run, and its try count goes up. */
    method Dispatch(id: Uuid, now: int)
      requires Valid() && id in tasks
      modifies this
      ensures Valid() && Abstract() == QueueSpec.Dispatch(old(Abstract()), id, now)
    {
      ghost var s := Abstract();
      var t := tasks[id];
      var deadline := QueueSpec.Entry(now + Seconds(t.maxTime), id);
      var todo', maxTimeQueue' := todo, maxTimeQueue;
      if t.tries < t.maxTries {
        todo' := QueueSpec.Push(todo, deadline);
      } else {
        maxTimeQueue' := QueueSpec.Push(maxTimeQueue, deadline);
      }
      QueueSpec.DispatchParts(s, id, now, todo', maxTimeQueue');
      todo, maxTimeQueue, tasks := todo', maxTimeQueue', tasks[id := t.(tries := t.tries + 1)];
    }

    method GetTask(now: int) returns (r: QueueSpec.Reply)
      requires Valid()
      modifies this
      ensures Valid() && (Abstract(), r) == QueueSpec.GetTask(old(Abstract()), now)
    {
      while todo != []
        invariant Valid()
        invariant QueueSpec.GetTask(old(Abstract()), now) == QueueSpec.GetTask(Abstract(), now)
        decreases |todo|
      {
        QueueSpec.GetTaskStep(Abstract(), now);
        var e := todo[0];
        todo := todo[1..];
        if e.id !in tasks {
          continue;
        }
        var t := tasks[e.id];
        if t.projId !in doneQueues {
          continue;
        }
        if now < e.time {
          todo := QueueSpec.Push(todo, e);
          return QueueSpec.Retry(e.time - now + 1);
        }
        Dispatch(e.id, now);
        return QueueSpec.Dispatched(tasks[e.id]);
      }
      return QueueSpec.Blocked;
    }

    method PutResult(id: Uuid, error: bool, result: Value, now: int)
      requires Valid()
      modifies this
      ensures Valid() && Abstract() == QueueSpec.PutResult(old(Abstract()), id, error, result, now)
    {
      if id !in tasks {
        return;
      }
      var t := tasks[id];
      if t.projId !in doneQueues {
        return;
      }
      if error {
        if t.tries < t.maxTries {
          todo := QueueSpec.Push(todo, QueueSpec.Entry(now, id));
          return;
        }
        t := t.(error := true, result := result);
        doneQueues := doneQueues[t.projId := doneQueues[t.projId] + [t]];
        tasks := tasks - {id};
      } else {
        t := t.(error := false, result := result);
        doneQueues := doneQueues[t.projId := doneQueues[t.projId] + [t]];
        tasks := tasks - {id};
      }
    }

    method GetResults(p: Uuid) returns (results: seq<Task>)
      requires Valid()
      modifies this
      ensures Valid() && (Abstract(), results) == QueueSpec.GetResults(old(Abstract()), p)
    {
      if p !in doneQueues {
        return [];
      }
      results := [];
      while doneQueues[p] != []
        invariant p in doneQueues && Valid()
        invariant results + doneQueues[p] == old(doneQueues[p])
        invariant doneQueues == old(doneQueues)[p := doneQueues[p]]
        invariant todo == old(todo) && tasks == old(tasks) && maxTimeQueue == old(maxTimeQueue)
        decreases |doneQueues[p]|
      {
        results := results + [doneQueues[p][0]];
        doneQueues := doneQueues[p := doneQueues[p][1..]];
      }
      assert results + [] == results;
    }

    /** One pass of `max_time_monitor.run` under the server lock. */
    method SweepMaxTime(now: int)
      requires Valid()
      modifies this
      ensures Valid() && Abstract() == QueueSpec.Sweep(old(Abstract()), now)
    {
      while maxTimeQueue != []
        invariant Valid()
        invariant QueueSpec.Sweep(old(Abstract()), now) == QueueSpec.Sweep(Abstract(), now)
        decreases |maxTimeQueue|
      {
        var e := maxTimeQueue[0];
        maxTimeQueue := maxTimeQueue[1..];
        if now < e.time {
          maxTimeQueue := QueueSpec.Push(maxTimeQueue, e);
          return;
        }
        if e.id !in tasks {
          continue;
        }
        var t := tasks[e.id];
        if t.projId !in doneQueues {
          continue;
        }
        doneQueues := doneQueues[t.projId := doneQueues[t.projId] + [t.Fail(QueueSpec.TimeoutMessage)]];
        tasks := tasks - {e.id};
      }
    }
  }
}
