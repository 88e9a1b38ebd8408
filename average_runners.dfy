/** `volume_average` of tomominer/average/runners.py: a map/reduce over the
    queue.  The data is cut into chunks, one map task per chunk; the map
    results, in the order `run_batch` yields them, go to a single reduce
    task run with `run_single`.

    As in the align runners, `run_batch` is modelled by what it guarantees
    (each task yielded once, in the order `schedule` gives), and `work`
    stands for the worker: the value a method computes from its
    arguments. */
module AverageRunners {
  import opened Py
  import opened Tasks
  import opened Batches
  import QueueServer
  import Runner
  import AlignRunners

  /** The worker: the result of running a method on arguments. */
  type Work = (string, seq<Value>) -> Value

  function MapFn(useFft: bool): string
  {
    if useFft then "average.vol_avg_fft_map" else "average.vol_avg_map"
  }

  function ReduceFn(useFft: bool): string
  {
    if useFft then "average.vol_avg_fft_reduce" else "average.vol_avg_reduce"
  }

  /** `max(N / 256, 50)`: at least 50 volumes per chunk. */
  function AverageChunkSize(n: nat): (cs: nat)
    ensures cs >= 50 && cs >= n / 256
    ensures n >= 50 * 256 ==> cs == n / 256
  {
    if n / 256 >= 50 then n / 256 else 50
  }

  /** `max((chunk_size / 100 + 1) * 120, 600)`: two minutes for every
      started hundred volumes, and never under ten minutes. */
  function AverageMaxTime(cs: nat): (t: nat)
    ensures t >= 600 && t >= (cs / 100 + 1) * 120 && t % 120 == 0
  {
    if (cs / 100 + 1) * 120 >= 600 then (cs / 100 + 1) * 120 else 600
  }

  /** However large the data, the chunk size keeps the map phase to at
      most 262 tasks: 256 from the `N / 256` rule, plus what the rounding
      down of that quotient spills over. */
  lemma {:induction false} AverageTaskCount(data: seq<Value>)
    ensures |Chunks(data, AverageChunkSize(|data|))| <= 262
  {
    var n := |data|;
    var cs := AverageChunkSize(n);
    var k := |Chunks(data, cs)|;
    ChunksCount(data, cs);
    ChunkSizeBound(n);
    if k > 0 {
      ChunkCountBound(k, cs, n);
    }
  }

  /** The rounding down in `N / 256` loses less than one chunk size's
      worth of 256 volumes. */
  lemma ChunkSizeBound(n: nat)
    ensures n < 256 * (AverageChunkSize(n) + 1)
  {
    assert n == 256 * (n / 256) + n % 256;
  }

  lemma ChunkCountBound(k: int, cs: int, n: int)
    requires cs >= 50 && n < 256 * (cs + 1) && (k - 1) * cs < n
    ensures k <= 262
  {
    if k > 262 {
      MulMono(k - 1, 262, cs);
    }
  }

  /** For any list Python can hold (at most `sys.maxsize` items) the
      computed limit is an `int`, so `make_task` accepts it. */
  lemma AverageMaxTimeFits(n: nat)
    requires n <= MaxInt
    ensures AverageMaxTime(AverageChunkSize(n)) <= MaxInt
  {
    var cs := AverageChunkSize(n);
    assert cs <= n / 256 + 50;
    assert cs / 100 <= cs;
    MulMono(cs + 1, cs / 100 + 1, 120);
    assert (cs + 1) * 120 == cs * 120 + 120;
  }

  lemma MulMono(a: int, b: int, c: int)
    requires a >= b && c >= 0
    ensures a * c >= b * c
  {
    assert a * c == b * c + (a - b) * c;
  }

  /** The arguments of a map task: `(data[i:i+chunk_size], vol_shape, pass_dir)`. */
  function MapArgs(chunk: seq<Value>, volShape: Value, passDir: string): seq<Value>
  {
    [VList(chunk), volShape, VStr(passDir)]
  }

  /** The arguments of the reduce task: `(data, vol_shape, N, pass_dir)`. */
  function ReduceArgs(mapped: seq<Value>, volShape: Value, n: nat, passDir: string): seq<Value>
  {
    [VList(mapped), volShape, VInt(n), VStr(passDir)]
  }

  /** A map task as `make_task` builds it. */
  function MapTask(id: Uuid, projId: Uuid, mapFn: string, chunk: seq<Value>, volShape: Value, passDir: string, maxTime: nat): Task
  {
    Task(id, projId, mapFn, MapArgs(chunk, volShape, passDir), map[], true, 3, VInt(maxTime), 0, 0, false, VNone)
  }

  /** `runner.make_task(map_fn, args=(chunk, vol_shape, pass_dir), max_time=max_time)`. */
  method MakeMapTask(runner: Runner.Runner, ids: IdSource, mapFn: string, chunk: seq<Value>, volShape: Value,
                     passDir: string, maxTime: nat)
    returns (t: Task)
    requires ids.Valid() && maxTime <= MaxInt
    modifies ids
    ensures ids.Valid()
    ensures t == MapTask(t.taskId, runner.projId, mapFn, chunk, volShape, passDir, maxTime)
  {
    var r := runner.MakeTask(ids, mapFn, Defaults.(args := MapArgs(chunk, volShape, passDir), maxTime := VInt(maxTime)));
    t := r.value;
  }

  /** The submission loop: one map task per chunk, in chunk order, each
      with the computed `max_time`. */
  method SubmitMaps(runner: Runner.Runner, ids: IdSource, data: seq<Value>, volShape: Value, passDir: string,
                    mapFn: string, cs: nat, maxTime: nat)
    returns (tasks: seq<Task>)
    requires ids.Valid() && cs > 0 && maxTime <= MaxInt
    modifies ids
    ensures ids.Valid()
    ensures |tasks| == |Chunks(data, cs)|
    ensures forall c :: 0 <= c < |tasks| ==>
      tasks[c] == MapTask(tasks[c].taskId, runner.projId, mapFn, Chunks(data, cs)[c], volShape, passDir, maxTime)
  {
    var n := |data|;
    tasks := [];
    ghost var done: seq<seq<Value>> := [];
    var i := 0;
    ChunkStart(data, cs);
    while i < n
      invariant ids.Valid()
      invariant |tasks| == |done|
      invariant ChunkedUpTo(data, cs, done, i)
      invariant forall c :: 0 <= c < |tasks| ==>
        tasks[c] == MapTask(tasks[c].taskId, runner.projId, mapFn, done[c], volShape, passDir, maxTime)
      decreases n - i
    {
      var chunk := data[i..Min(i + cs, n)];
      var t := MakeMapTask(runner, ids, mapFn, chunk, volShape, passDir, maxTime);
      ChunkAdvance(data, cs, done, i);
      tasks := tasks + [t];
      done := done + [chunk];
      i := i + cs;
    }
  }

  /** The `max_time` that `run_batch` stamps on every task it submits: its
      own default, since `volume_average` does not pass one. */
  const RunBatchMaxTime: nat := 3600

  /** The map tasks as `run_batch` submits them, as written. */
  function SubmittedMaps(tasks: seq<Task>): seq<Task>
  {
    Runner.WithMaxTime(tasks, VInt(RunBatchMaxTime))
  }

  /** The map tasks as `run_batch(tasks, max_time=max_time)` would submit
      them: the limit computed for the chunk size. */
  function SubmittedMapsIntended(tasks: seq<Task>, maxTime: nat): seq<Task>
  {
    Runner.WithMaxTime(tasks, VInt(maxTime))
  }

  /** As written, the computed limit never reaches the server: for a
      million and a quarter volumes the chunks hold 5000 each and are given
      6120 seconds, but every task is submitted with 3600. */
  lemma MapMaxTimeOverwritten(tasks: seq<Task>)
    requires |tasks| > 0
    requires forall c :: 0 <= c < |tasks| ==> tasks[c].maxTime == VInt(AverageMaxTime(AverageChunkSize(1280000)))
    ensures AverageChunkSize(1280000) == 5000 && AverageMaxTime(5000) == 6120
    ensures forall c :: 0 <= c < |tasks| ==> SubmittedMaps(tasks)[c].maxTime == VInt(3600)
    ensures SubmittedMaps(tasks) != tasks
  {
    assert SubmittedMaps(tasks)[0].maxTime != tasks[0].maxTime;
  }

  /** Passing the computed limit on leaves the made tasks untouched, so
      each map task runs under the limit its chunk size called for. */
  lemma {:induction false} MapMaxTimeKept(tasks: seq<Task>, maxTime: nat)
    requires forall c :: 0 <= c < |tasks| ==> tasks[c].maxTime == VInt(maxTime)
    ensures SubmittedMapsIntended(tasks, maxTime) == tasks
  {
    var us := SubmittedMapsIntended(tasks, maxTime);
    assert forall c :: 0 <= c < |tasks| ==> us[c] == tasks[c];
  }

  /** The collection loop: the result of each submitted task, in the
      order `run_batch` yields them. */
  method CollectMaps(submitted: seq<Task>, order: seq<nat>, work: Work) returns (results: seq<Value>)
    requires IsPermutation(order, |submitted|)
    ensures |results| == |order|
    ensures forall k :: 0 <= k < |order| ==>
      results[k] == work(submitted[order[k]].methodName, submitted[order[k]].args)
  {
    results := [];
    for k := 0 to |order|
      invariant |results| == k
      invariant forall k' :: 0 <= k' < k ==>
        results[k'] == work(submitted[order[k']].methodName, submitted[order[k']].args)
    {
      var res := submitted[order[k]];
      results := results + [work(res.methodName, res.args)];
    }
  }

  /** `volume_average` as written.  The map results reach the reduce task
      in the order the map tasks finish (`perm`), together with the total
      number of volumes rather than the number of chunks; the map tasks
      are submitted with `run_batch`'s default `max_time`.  A Python list
      holds at most `sys.maxsize` items. */
  method VolumeAverage(server: QueueServer.Server, ids: IdSource, data: seq<Value>, volShape: Value, passDir: string,
                       useFft: bool, schedule: AlignRunners.Schedule, work: Work)
    returns (result: Value, ghost mapped: seq<Value>, ghost perm: seq<nat>, ghost submitted: seq<Task>)
    requires server.Valid() && ids.Valid() && AlignRunners.ValidSchedule(schedule)
    requires |data| <= MaxInt
    modifies server, ids
    ensures server.Valid() && ids.Valid()
    ensures var chunks := Chunks(data, AverageChunkSize(|data|));
      && IsPermutation(perm, |chunks|) && |mapped| == |chunks| && |submitted| == |chunks|
      && (forall k :: 0 <= k < |chunks| ==> mapped[k] == work(MapFn(useFft), MapArgs(chunks[perm[k]], volShape, passDir)))
      && (forall c :: 0 <= c < |chunks| ==>
            submitted[c].methodName == MapFn(useFft) && submitted[c].args == MapArgs(chunks[c], volShape, passDir) &&
            submitted[c].maxTime == VInt(RunBatchMaxTime))
    ensures result == work(ReduceFn(useFft), ReduceArgs(mapped, volShape, |data|, passDir))
  {
    var runner := new Runner.Runner(server, ids);
    var mapFn, reduceFn;
    if useFft {
      mapFn, reduceFn := "average.vol_avg_fft_map", "average.vol_avg_fft_reduce";
    } else {
      mapFn, reduceFn := "average.vol_avg_map", "average.vol_avg_reduce";
    }
    var n := |data|;
    var chunkSize: nat;
    if n < 1000 {
      chunkSize := 50;
    } else {
      chunkSize := 100;
    }
    chunkSize := AverageChunkSize(n);
    var maxTime := AverageMaxTime(chunkSize);
    AverageMaxTimeFits(n);
    var tasks := SubmitMaps(runner, ids, data, volShape, passDir, mapFn, chunkSize, maxTime);
    var stamped := SubmittedMaps(tasks);
    var order := schedule(|tasks|);
    var results := CollectMaps(stamped, order, work);
    var r := runner.MakeTask(ids, reduceFn, Defaults.(args := ReduceArgs(results, volShape, n, passDir)));
    result := work(r.value.methodName, r.value.args);
    mapped, perm, submitted := results, order, stamped;
  }
}
