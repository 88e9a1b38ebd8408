/** The client side of tomominer/parallel/runner.py.  A `Runner` owns one
    project on the queue server for its lifetime; `BatchRun` is the state of
    a `run_batch` generator (the retry-budget map and the tasks by id) and
    `SingleRun` the state of a `run_single` call.  The RPC client is the
    shared `QueueServer.Server` object itself: each remote call is one call
    of the corresponding method.  The polling loops are modelled one
    iteration per `Poll` call, so workers may act between two polls. */
module Runner {
  import opened Py
  import opened Tasks
  import QueueSpec
  import QueueServer

  /** The ids of a list of tasks. */
  function IdSet(ts: seq<Task>): set<Uuid>
  {
    if ts == [] then {} else IdSet(ts[..|ts| - 1]) + {ts[|ts| - 1].taskId}
  }

  /** The ids of the failed tasks of a list, in order. */
  function ErrorIds(ts: seq<Task>): seq<Uuid>
  {
    if ts == [] then [] else (if ts[0].error then [ts[0].taskId] else []) + ErrorIds(ts[1..])
  }

  /** No two tasks of the list share an id. */
  predicate DistinctIds(ts: seq<Task>)
  {
    forall i, j :: 0 <= i < j < |ts| ==> ts[i].taskId != ts[j].taskId
  }

  class Runner {
    const server: QueueServer.Server
    const projId: Uuid

    /** `Runner(host, port)`: mints a project id and opens the project. */
    constructor (server: QueueServer.Server, ids: IdSource)
      requires server.Valid() && ids.Valid()
      modifies server, ids
      ensures this.server == server && server.Valid() && ids.Valid()
      ensures projId !in old(ids.issued) && ids.issued == old(ids.issued) + {projId}
      ensures server.Abstract() == QueueSpec.NewProject(old(server.Abstract()), projId)
    {
      var p := ids.Mint();
      this.server := server;
      this.projId := p;
      new;
      server.NewProject(p);
    }

    /** `make_task`: a new task bound to this runner's project. */
    method MakeTask(ids: IdSource, methodName: string, opts: Options) returns (r: Result<Task>)
      requires ids.Valid()
      modifies ids
      ensures ids.Valid()
      ensures r.Err? <==> !ValidMaxTime(opts.maxTime)
      ensures r.Ok? ==> r.value == Task(r.value.taskId, projId, methodName, opts.args, opts.kwargs,
                                       opts.allowResubmit, opts.maxTries, opts.maxTime, opts.burst,
                                       0, false, VNone)
      ensures r.Ok? ==> r.value.taskId !in old(ids.issued) && ids.issued == old(ids.issued) + {r.value.taskId}
      ensures r.Err? ==> ids.issued == old(ids.issued)
    {
      r := NewTask(ids, projId, methodName, opts);
    }

    /** `__del__`: deletes the project, and with it its done queue. */
    method Close() returns (existed: bool)
      requires server.Valid()
      modifies server
      ensures server.Valid()
      ensures (server.Abstract(), existed) == QueueSpec.DelProject(old(server.Abstract()), projId)
    {
      existed := server.DelProject(projId);
    }
  }

  // ----- run_batch -----

  /** The effect of one pass of `run_batch` over a list of results: the
      budget map afterwards, the results yielded, the ids resubmitted (in
      order) and whether the generator raised. */
  datatype Round = Round(budget: map<Uuid, int>, yielded: seq<Task>, resubmitted: seq<Uuid>, raised: bool)

  /** One pass over `results` as written: unknown ids are skipped; an error
      decrements the budget and raises when it reaches zero, otherwise
      resubmits; every known result, errored or not, is then removed from
      the map and yielded. */
  function Process(budget: map<Uuid, int>, results: seq<Task>): Round
    decreases |results|
  {
    if results == [] then Round(budget, [], [], false)
    else
      var res := results[0];
      var id := res.taskId;
      if id !in budget then Process(budget, results[1..])
      else if res.error && budget[id] - 1 <= 0 then Round(budget[id := budget[id] - 1], [], [], true)
      else
        var rest := Process(budget - {id}, results[1..]);
        Round(rest.budget, [res] + rest.yielded,
              (if res.error then [id] else []) + rest.resubmitted, rest.raised)
  }

  /** Each pass yields only ids that were awaited, each at most once, and
      removes exactly those from the map; every other entry keeps its budget
      unchanged; the ids resubmitted are exactly those of the errored
      results yielded, in the same order. */
  lemma ProcessYieldsOnce(budget: map<Uuid, int>, results: seq<Task>)
    ensures forall k :: 0 <= k < |Process(budget, results).yielded| ==>
              Process(budget, results).yielded[k] in results &&
              Process(budget, results).yielded[k].taskId in budget &&
              Process(budget, results).yielded[k].taskId !in Process(budget, results).budget
    ensures DistinctIds(Process(budget, results).yielded)
    ensures Process(budget, results).budget.Keys <= budget.Keys
    ensures !Process(budget, results).raised ==>
              forall id :: id in budget && (forall k :: 0 <= k < |Process(budget, results).yielded| ==> Process(budget, results).yielded[k].taskId != id) ==>
                id in Process(budget, results).budget && Process(budget, results).budget[id] == budget[id]
    ensures Process(budget, results).resubmitted == ErrorIds(Process(budget, results).yielded)
  {
    ProcessYieldsAwaited(budget, results);
    ProcessKeepsOthers(budget, results);
    ProcessResubmitsErrors(budget, results);
  }

  /** What a pass yields was awaited, is yielded once and is no longer
      awaited afterwards. */
  lemma {:induction false} ProcessYieldsAwaited(budget: map<Uuid, int>, results: seq<Task>)
    ensures forall k :: 0 <= k < |Process(budget, results).yielded| ==>
              Process(budget, results).yielded[k] in results &&
              Process(budget, results).yielded[k].taskId in budget &&
              Process(budget, results).yielded[k].taskId !in Process(budget, results).budget
    ensures DistinctIds(Process(budget, results).yielded)
    ensures Process(budget, results).budget.Keys <= budget.Keys
    decreases |results|
  {
    if results != [] {
      var res := results[0];
      var id := res.taskId;
      if id !in budget {
        ProcessYieldsAwaited(budget, results[1..]);
      } else if !(res.error && budget[id] - 1 <= 0) {
        ProcessYieldsAwaited(budget - {id}, results[1..]);
        var rest := Process(budget - {id}, results[1..]);
        var r := Process(budget, results);
        assert r.yielded == [res] + rest.yielded && r.budget == rest.budget;
        forall k | 0 <= k < |r.yielded|
          ensures r.yielded[k] in results && r.yielded[k].taskId in budget && r.yielded[k].taskId !in r.budget
        {
          if k > 0 {
            assert r.yielded[k] == rest.yielded[k - 1] && rest.yielded[k - 1] in results[1..];
          }
        }
        forall i, j | 0 <= i < j < |r.yielded|
          ensures r.yielded[i].taskId != r.yielded[j].taskId
        {
          assert r.yielded[j] == rest.yielded[j - 1];
          if i > 0 {
            assert r.yielded[i] == rest.yielded[i - 1];
          }
        }
      }
    }
  }

  /** A pass that does not raise leaves every awaited id it did not yield
      with its budget untouched. */
  lemma {:induction false} ProcessKeepsOthers(budget: map<Uuid, int>, results: seq<Task>)
    ensures !Process(budget, results).raised ==>
              forall id :: id in budget && (forall k :: 0 <= k < |Process(budget, results).yielded| ==> Process(budget, results).yielded[k].taskId != id) ==>
                id in Process(budget, results).budget && Process(budget, results).budget[id] == budget[id]
    decreases |results|
  {
    if results != [] {
      var res := results[0];
      var id := res.taskId;
      if id !in budget {
        ProcessKeepsOthers(budget, results[1..]);
      } else if !(res.error && budget[id] - 1 <= 0) {
        ProcessKeepsOthers(budget - {id}, results[1..]);
        var rest := Process(budget - {id}, results[1..]);
        var r := Process(budget, results);
        assert r.yielded == [res] + rest.yielded;
        if !r.raised {
          forall id2 | id2 in budget && (forall k :: 0 <= k < |r.yielded| ==> r.yielded[k].taskId != id2)
            ensures id2 in r.budget && r.budget[id2] == budget[id2]
          {
            assert r.yielded[0].taskId == id;
            forall k | 0 <= k < |rest.yielded|
              ensures rest.yielded[k].taskId != id2
            {
              assert r.yielded[k + 1] == rest.yielded[k];
            }
          }
        }
      }
    }
  }

  /** The ids a pass resubmits are those of the errored results it
      yields, in order. */
  lemma {:induction false} ProcessResubmitsErrors(budget: map<Uuid, int>, results: seq<Task>)
    ensures Process(budget, results).resubmitted == ErrorIds(Process(budget, results).yielded)
    decreases |results|
  {
    if results != [] {
      var res := results[0];
      var id := res.taskId;
      if id !in budget {
        ProcessResubmitsErrors(budget, results[1..]);
      } else if res.error && budget[id] - 1 <= 0 {
        assert Process(budget, results).resubmitted == [];
      } else {
        ProcessResubmitsErrors(budget - {id}, results[1..]);
        var rest := Process(budget - {id}, results[1..]);
        assert ([res] + rest.yielded)[1..] == rest.yielded;
      }
    }
  }

  /** As written, a retry never counts: an errored result with budget to
      spare is yielded to the caller in the same pass that resubmits it, its
      id leaves the map, and the resubmitted run's result is then skipped
      as unknown. */
  lemma ProcessYieldsResubmittedError(t: Task)
    requires t.error
    ensures var r := Process(map[t.taskId := 2], [t, t.(error := false)]);
      && r.yielded == [t] && r.resubmitted == [t.taskId] && !r.raised && r.budget == map[]
  {
    var b := map[t.taskId := 2];
    var u := t.(error := false);
    assert b - {t.taskId} == map[];
    assert [t, u][1..] == [u] && [u][1..] == [];
    assert Process(map[], [u]) == Round(map[], [], [], false);
  }

  /** The pass `run_batch` evidently intends: an error with budget to spare
      is resubmitted and stays awaited with one try fewer; only successes
      are yielded. */
  function ProcessIntended(budget: map<Uuid, int>, results: seq<Task>): Round
    decreases |results|
  {
    if results == [] then Round(budget, [], [], false)
    else
      var res := results[0];
      var id := res.taskId;
      if id !in budget then ProcessIntended(budget, results[1..])
      else if res.error then
        if budget[id] - 1 <= 0 then Round(budget[id := budget[id] - 1], [], [], true)
        else
          var rest := ProcessIntended(budget[id := budget[id] - 1], results[1..]);
          Round(rest.budget, rest.yielded, [id] + rest.resubmitted, rest.raised)
      else
        var rest := ProcessIntended(budget - {id}, results[1..]);
        Round(rest.budget, [res] + rest.yielded, rest.resubmitted, rest.raised)
  }

  /** Under the intended pass only successful results are yielded, each
      awaited id at most once; a resubmitted id stays awaited until its
      success arrives; and budgets only go down. */
  lemma {:induction false} ProcessIntendedYieldsSuccesses(budget: map<Uuid, int>, results: seq<Task>)
    ensures forall k :: 0 <= k < |ProcessIntended(budget, results).yielded| ==>
              !ProcessIntended(budget, results).yielded[k].error &&
              ProcessIntended(budget, results).yielded[k] in results &&
              ProcessIntended(budget, results).yielded[k].taskId in budget &&
              ProcessIntended(budget, results).yielded[k].taskId !in ProcessIntended(budget, results).budget
    ensures DistinctIds(ProcessIntended(budget, results).yielded)
    ensures forall id :: id in ProcessIntended(budget, results).budget ==>
              id in budget && ProcessIntended(budget, results).budget[id] <= budget[id]
    ensures forall k :: 0 <= k < |ProcessIntended(budget, results).resubmitted| ==>
              ProcessIntended(budget, results).resubmitted[k] in budget
    decreases |results|
  {
    if results != [] {
      var res := results[0];
      var id := res.taskId;
      if id !in budget {
        ProcessIntendedYieldsSuccesses(budget, results[1..]);
      } else if res.error {
        if budget[id] - 1 > 0 {
          ProcessIntendedYieldsSuccesses(budget[id := budget[id] - 1], results[1..]);
        }
      } else {
        ProcessIntendedYieldsSuccesses(budget - {id}, results[1..]);
        var rest := ProcessIntended(budget - {id}, results[1..]);
        var r := ProcessIntended(budget, results);
        assert r.yielded == [res] + rest.yielded && r.budget == rest.budget;
        forall k | 0 <= k < |r.yielded|
          ensures !r.yielded[k].error && r.yielded[k] in results && r.yielded[k].taskId in budget && r.yielded[k].taskId !in r.budget
        {
          if k > 0 {
            assert r.yielded[k] == rest.yielded[k - 1] && rest.yielded[k - 1] in results[1..];
          }
        }
        forall i, j | 0 <= i < j < |r.yielded|
          ensures r.yielded[i].taskId != r.yielded[j].taskId
        {
          assert r.yielded[j] == rest.yielded[j - 1];
          if i > 0 {
            assert r.yielded[i] == rest.yielded[i - 1];
          }
        }
      }
    }
  }

  /** The tasks `run_batch` submits: each with `max_time` overwritten by the
      generator's own argument. */
  function WithMaxTime(ts: seq<Task>, maxTime: Value): (us: seq<Task>)
    ensures |us| == |ts|
    ensures forall k :: 0 <= k < |ts| ==> us[k] == ts[k].(maxTime := maxTime)
  {
    if ts == [] then [] else [ts[0].(maxTime := maxTime)] + WithMaxTime(ts[1..], maxTime)
  }

  /** The loop at the head of `run_batch`: `task_dict` maps each task's id
      to the task with the generator's `max_time`, `state` maps it to
      `max_retry`. */
  method InitTables(ts: seq<Task>, maxTime: Value, maxRetry: int)
    returns (dict: map<Uuid, Task>, state: map<Uuid, int>)
    ensures dict.Keys == state.Keys == IdSet(ts)
    ensures forall id :: id in state ==> state[id] == maxRetry
    ensures forall id :: id in dict ==> dict[id].taskId == id && dict[id].maxTime == maxTime
  {
    dict := map[];
    state := map[];
    var i := 0;
    while i < |ts|
      invariant 0 <= i <= |ts|
      invariant dict.Keys == state.Keys
      invariant state.Keys == IdSet(ts[..i])
      invariant forall id :: id in state ==> state[id] == maxRetry
      invariant forall id :: id in dict ==> dict[id].taskId == id && dict[id].maxTime == maxTime
    {
      var t := ts[i].(maxTime := maxTime);
      dict := dict[t.taskId := t];
      state := state[t.taskId := maxRetry];
      assert ts[..i + 1][..i] == ts[..i];
      i := i + 1;
    }
    assert ts[..|ts|] == ts;
  }

  /** The effect on the server of resubmitting `ids` in order, one
      `put_task` each. */
  function Resubmit(s: QueueSpec.State, dict: map<Uuid, Task>, ids: seq<Uuid>, now: int): QueueSpec.State
    requires forall k :: 0 <= k < |ids| ==> ids[k] in dict
    decreases |ids|
  {
    if ids == [] then s
    else QueueSpec.PutTask(Resubmit(s, dict, ids[..|ids| - 1], now), dict[ids[|ids| - 1]], now).0
  }

  /** Resubmitting one more task puts it after the ones before it. */
  lemma ResubmitSnoc(s: QueueSpec.State, dict: map<Uuid, Task>, ids: seq<Uuid>, id: Uuid, now: int)
    requires (forall k :: 0 <= k < |ids| ==> ids[k] in dict) && id in dict
    ensures forall k :: 0 <= k < |ids + [id]| ==> (ids + [id])[k] in dict
    ensures Resubmit(s, dict, ids + [id], now) == QueueSpec.PutTask(Resubmit(s, dict, ids, now), dict[id], now).0
  {
    assert (ids + [id])[..|ids|] == ids;
  }

  class BatchRun {
    const server: QueueServer.Server
    const projId: Uuid
    const submitted: seq<Task>
    var taskDict: map<Uuid, Task>
    var budget: map<Uuid, int>
    var output: seq<Task>
    var raised: bool

    /** Everything awaited has a task to resubmit whose `max_time` the
        server accepted, and the results yielded so far have distinct ids
        none of which is still awaited. */
    ghost predicate Valid()
      reads this, server
    {
      && server.Valid()
      && budget.Keys <= taskDict.Keys
      && (forall id :: id in taskDict ==> taskDict[id].taskId == id)
      && (!raised ==> forall id :: id in taskDict ==> ValidMaxTime(taskDict[id].maxTime))
      && (forall k :: 0 <= k < |output| ==> output[k].taskId !in budget)
      && DistinctIds(output)
    }

    /** The part of `run_batch` before its loop: every task gets the
        generator's `max_time` and a budget of `max_retry`, then the whole
        list goes out in one `put_tasks` call. */
    constructor (runner: Runner, ts: seq<Task>, maxTime: Value, maxRetry: int, now: int)
      requires runner.server.Valid()
      modifies runner.server
      ensures server == runner.server && projId == runner.projId && Valid()
      ensures submitted == WithMaxTime(ts, maxTime) && output == []
      ensures budget.Keys == IdSet(ts)
      ensures forall id :: id in budget ==> budget[id] == maxRetry && taskDict[id].maxTime == maxTime
      ensures (server.Abstract(), if raised then QueueSpec.PutTasks(old(runner.server.Abstract()), submitted, now).1 else Completed)
           == QueueSpec.PutTasks(old(runner.server.Abstract()), submitted, now)
    {
      server := runner.server;
      projId := runner.projId;
      var us := WithMaxTime(ts, maxTime);
      submitted := us;
      var dict, state := InitTables(ts, maxTime, maxRetry);
      taskDict := dict;
      budget := state;
      output := [];
      new;
      var o := server.PutTasks(us, now);
      raised := o.Raised?;
      if !raised {
        QueueSpec.PutTasksAllValid(old(runner.server.Abstract()), us, now);
      }
    }

    /** One iteration of the `while len(state)` loop: drain this project's
        done queue, then run the pass over the results. */
    method Poll(now: int) returns (out: seq<Task>)
      requires Valid() && !raised && budget != map[]
      modifies this, server
      ensures Valid() && taskDict == old(taskDict)
      ensures var (s1, results) := QueueSpec.GetResults(old(server.Abstract()), projId);
        var r := Process(old(budget), results);
        && (forall k :: 0 <= k < |r.resubmitted| ==> r.resubmitted[k] in taskDict)
        && budget == r.budget && out == r.yielded && raised == r.raised
        && output == old(output) + out
        && server.Abstract() == Resubmit(s1, taskDict, r.resubmitted, now)
    {
      var results := server.GetResults(projId);
      ProcessYieldsOnce(budget, results);
      out := Pass(results, now);
      output := output + out;
      DistinctConcat(old(output), out);
    }

    /** The `for res in results` loop of one iteration, resubmitting in
        order. */
    method Pass(results: seq<Task>, now: int) returns (out: seq<Task>)
      requires server.Valid() && budget.Keys <= taskDict.Keys
      modifies this`budget, this`raised, server
      ensures server.Valid()
      ensures var r := Process(old(budget), results);
        && (forall k :: 0 <= k < |r.resubmitted| ==> r.resubmitted[k] in taskDict)
        && budget == r.budget && out == r.yielded && raised == r.raised
        && server.Abstract() == Resubmit(old(server.Abstract()), taskDict, r.resubmitted, now)
    {
      ghost var s1 := server.Abstract();
      ghost var total := Process(budget, results);
      ghost var resub: seq<Uuid> := [];
      var b := budget;
      var dict := taskDict;
      var exhausted := false;
      out := [];
      var i := 0;
      while i < |results|
        invariant 0 <= i <= |results| && server.Valid()
        invariant b.Keys <= dict.Keys
        invariant forall k :: 0 <= k < |resub| ==> resub[k] in dict
        invariant server.Abstract() == Resubmit(s1, dict, resub, now)
        invariant total == Prefixed(out, resub, Process(b, results[i..]))
        modifies server
        decreases |results| - i
      {
        var res := results[i];
        var id := res.taskId;
        ProcessUnfold(b, results, i);
        if id !in b {
          i := i + 1;
          continue;
        }
        ghost var rest := Process(b - {id}, results[i + 1..]);
        ghost var ids: seq<Uuid> := if res.error then [id] else [];
        PrefixedStep(out, resub, res, ids, rest);
        if res.error {
          if b[id] - 1 > 0 {
            ResubmitSnoc(s1, dict, resub, id, now);
            var _ := server.PutTask(dict[id], now);
            resub := resub + [id];
          } else {
            assert resub + [] == resub && out + [] == out;
            b, exhausted := b[id := b[id] - 1], true;
            break;
          }
        }
        b := b - {id};
        out := out + [res];
        i := i + 1;
      }
      if !exhausted {
        assert results[i..] == [];
        assert resub + [] == resub && out + [] == out;
      }
      assert total == Round(b, out, resub, exhausted);
      budget, raised := b, exhausted;
      assert total == Process(old(budget), results) && dict == taskDict && total.resubmitted == resub;
      assert forall k :: 0 <= k < |total.resubmitted| ==> total.resubmitted[k] in taskDict;
      assert server.Abstract() == Resubmit(s1, taskDict, total.resubmitted, now);
    }
  }

  /** A pass's outcome with `out` already yielded and `resub` already
      resubmitted in front of it. */
  function Prefixed(out: seq<Task>, resub: seq<Uuid>, r: Round): Round
  {
    Round(r.budget, out + r.yielded, resub + r.resubmitted, r.raised)
  }

  /** Moving one yielded result, and the resubmission it causes, from the
      rest of a pass into the prefix. */
  lemma PrefixedStep(out: seq<Task>, resub: seq<Uuid>, res: Task, ids: seq<Uuid>, rest: Round)
    ensures Prefixed(out, resub, Round(rest.budget, [res] + rest.yielded, ids + rest.resubmitted, rest.raised))
         == Prefixed(out + [res], resub + ids, rest)
  {
    assert out + ([res] + rest.yielded) == (out + [res]) + rest.yielded;
    assert resub + (ids + rest.resubmitted) == (resub + ids) + rest.resubmitted;
  }

  /** The pass over `results[i:]` unfolded at its first result. */
  lemma ProcessUnfold(budget: map<Uuid, int>, results: seq<Task>, i: nat)
    requires i < |results|
    ensures var res := results[i];
      var id := res.taskId;
      var rest := Process(budget - {id}, results[i + 1..]);
      && (id !in budget ==> Process(budget, results[i..]) == Process(budget, results[i + 1..]))
      && (id in budget && res.error && budget[id] - 1 <= 0 ==>
            Process(budget, results[i..]) == Round(budget[id := budget[id] - 1], [], [], true))
      && (id in budget && !(res.error && budget[id] - 1 <= 0) ==>
            Process(budget, results[i..]) == Round(rest.budget, [res] + rest.yielded,
              (if res.error then [id] else []) + rest.resubmitted, rest.raised))
  {
    assert results[i..][0] == results[i] && results[i..][1..] == results[i + 1..];
  }

  lemma DistinctConcat(a: seq<Task>, b: seq<Task>)
    requires DistinctIds(a) && DistinctIds(b)
    requires forall i, j :: 0 <= i < |a| && 0 <= j < |b| ==> a[i].taskId != b[j].taskId
    ensures DistinctIds(a + b)
  {
    var ab := a + b;
    forall i, j | 0 <= i < j < |ab|
      ensures ab[i].taskId != ab[j].taskId
    {
      if j >= |a| && i < |a| {
        assert ab[j] == b[j - |a|];
      }
    }
  }

  // ----- run_single -----

  /** Where a `run_single` call stands. */
  datatype SingleStatus = Polling | Returned(res: Task) | Failed(msg: string)

  /** The exception the error branch raises: it reads `res.error_msg`,
      which `Task` does not have. */
  const MissingErrorMsg := "'Task' object has no attribute 'error_msg'"

  const NeverReached := "run_single: should never reach this point"

  /** A result that ends the call: this task's, and either a success or
      an error once the tries are used up. */
  predicate Decisive(res: Task, id: Uuid, tries: int, maxRetry: int)
  {
    res.taskId == id && (!res.error || tries >= maxRetry)
  }

  /** One scan of a results list as written: results for other ids are
      skipped, an error with tries to spare is skipped too, the first
      success is returned and an error on the last try raises. */
  function Scan(results: seq<Task>, id: Uuid, tries: int, maxRetry: int): SingleStatus
    decreases |results|
  {
    if results == [] then Polling
    else
      var res := results[0];
      if res.taskId != id then Scan(results[1..], id, tries, maxRetry)
      else if res.error then
        if tries >= maxRetry then Failed(MissingErrorMsg) else Scan(results[1..], id, tries, maxRetry)
      else Returned(res)
  }

  /** The scan decides exactly on the first decisive result, and keeps
      polling exactly when there is none. */
  lemma {:induction false} ScanFirstDecisive(results: seq<Task>, id: Uuid, tries: int, maxRetry: int)
    ensures Scan(results, id, tries, maxRetry) == Polling <==>
            forall k :: 0 <= k < |results| ==> !Decisive(results[k], id, tries, maxRetry)
    ensures forall k ::
              (0 <= k < |results| && Decisive(results[k], id, tries, maxRetry) &&
               forall j :: 0 <= j < k ==> !Decisive(results[j], id, tries, maxRetry)) ==>
              Scan(results, id, tries, maxRetry) ==
                (if results[k].error then Failed(MissingErrorMsg) else Returned(results[k]))
    decreases |results|
  {
    if results != [] {
      ScanFirstDecisive(results[1..], id, tries, maxRetry);
      forall k | 0 <= k < |results| && Decisive(results[k], id, tries, maxRetry) &&
                 (forall j :: 0 <= j < k ==> !Decisive(results[j], id, tries, maxRetry))
        ensures Scan(results, id, tries, maxRetry) ==
                (if results[k].error then Failed(MissingErrorMsg) else Returned(results[k]))
      {
        if k > 0 {
          assert !Decisive(results[0], id, tries, maxRetry);
          assert results[1..][k - 1] == results[k];
          forall j | 0 <= j < k - 1
            ensures !Decisive(results[1..][j], id, tries, maxRetry)
          {
            assert results[1..][j] == results[j + 1];
          }
        }
      }
      if Scan(results, id, tries, maxRetry) == Polling {
        forall k | 0 <= k < |results|
          ensures !Decisive(results[k], id, tries, maxRetry)
        {
          if k > 0 {
            assert results[1..][k - 1] == results[k];
          }
        }
      }
    }
  }

  /** As written, with `max_retry` of 3 or more an error result is neither
      returned, raised nor resubmitted: the scan keeps polling, although the
      server has already filed the task's final result. */
  lemma ScanSwallowsError(t: Task, maxRetry: int)
    requires t.error && maxRetry >= 3
    ensures Scan([t], t.taskId, 2, maxRetry) == Polling
  {
    assert [t][1..] == [];
  }

  /** The decision `run_single` evidently intends for one result list:
      besides returning and raising, an error with tries to spare asks for
      the task to be submitted again. */
  datatype SingleDecision = KeepPolling | Return(res: Task) | Raise | SubmitAgain

  function ScanIntended(results: seq<Task>, id: Uuid, tries: int, maxRetry: int): SingleDecision
    decreases |results|
  {
    if results == [] then KeepPolling
    else
      var res := results[0];
      if res.taskId != id then ScanIntended(results[1..], id, tries, maxRetry)
      else if res.error then (if tries >= maxRetry then Raise else SubmitAgain)
      else Return(res)
  }

  /** Under the intended scan no result of the awaited task is ignored:
      the scan keeps polling only when no result carries the task's id. */
  lemma {:induction false} ScanIntendedNoSwallow(results: seq<Task>, id: Uuid, tries: int, maxRetry: int)
    ensures ScanIntended(results, id, tries, maxRetry) == KeepPolling <==>
            forall k :: 0 <= k < |results| ==> results[k].taskId != id
    ensures ScanIntended(results, id, tries, maxRetry) == SubmitAgain ==> tries < maxRetry
    decreases |results|
  {
    if results != [] {
      ScanIntendedNoSwallow(results[1..], id, tries, maxRetry);
      if results[0].taskId != id {
        forall k | 0 <= k < |results| && k > 0
          ensures results[k] == results[1..][k - 1]
        {
        }
      }
    }
  }

  class SingleRun {
    const server: QueueServer.Server
    const projId: Uuid
    const task: Task
    const maxRetry: int
    var tries: int
    var status: SingleStatus

    /** The entry into `run_single`'s outer loop: with `max_retry` of at
        least 1 the task is submitted once and `tries` becomes 2; otherwise
        the call raises without submitting. */
    constructor (runner: Runner, task: Task, maxRetry: int, now: int)
      requires runner.server.Valid()
      modifies runner.server
      ensures server == runner.server && projId == runner.projId && server.Valid()
      ensures this.task == task && this.maxRetry == maxRetry
      ensures maxRetry < 1 ==> status == Failed(NeverReached) && server.Abstract() == old(runner.server.Abstract())
      ensures maxRetry >= 1 ==>
        (var (s1, o) := QueueSpec.PutTask(old(runner.server.Abstract()), task, now);
         tries == 2 && server.Abstract() == s1 && status == (if o.Raised? then Failed(o.error) else Polling))
    {
      server := runner.server;
      projId := runner.projId;
      this.task := task;
      this.maxRetry := maxRetry;
      tries := 1;
      status := Polling;
      new;
      if tries <= maxRetry {
        tries := tries + 1;
        var o := server.PutTask(task, now);
        if o.Raised? {
          status := Failed(o.error);
        }
      } else {
        status := Failed(NeverReached);
      }
    }

    /** One iteration of the inner `while True`: drain the project's done
        queue and scan it.  The task is never submitted again. */
    method Poll()
      requires server.Valid() && status == Polling
      modifies this, server
      ensures server.Valid() && tries == old(tries)
      ensures var (s1, results) := QueueSpec.GetResults(old(server.Abstract()), projId);
        server.Abstract() == s1 && status == Scan(results, task.taskId, tries, maxRetry)
    {
      var results := server.GetResults(projId);
      var i := 0;
      while i < |results|
        invariant 0 <= i <= |results| && status == Polling
        invariant Scan(results, task.taskId, tries, maxRetry) == Scan(results[i..], task.taskId, tries, maxRetry)
      {
        var res := results[i];
        assert results[i..][0] == res && results[i..][1..] == results[i + 1..];
        if res.taskId != task.taskId {
          i := i + 1;
          continue;
        }
        if res.error {
          if tries >= maxRetry {
            status := Failed(MissingErrorMsg);
            return;
          }
        } else {
          status := Returned(res);
          return;
        }
        i := i + 1;
      }
    }
  }
}
