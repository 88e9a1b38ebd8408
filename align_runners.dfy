/** The client-side drivers of tomominer/align/runners.py.  Each one opens
    a `Runner`, submits one task per unit of work, remembers which position
    each task id stands for, and files the results under those positions as
    `run_batch` yields them.

    `run_batch` is modelled by what it guarantees to these callers: every
    submitted task is yielded exactly once, in an order chosen by the
    workers (`Schedule`), and its result is what the worker function
    computes from the task's arguments (`answer`).  The retry machinery
    behind that guarantee is `Runner.BatchRun`. */
module AlignRunners {
  import opened Py
  import opened Tasks
  import opened Batches
  import QueueServer
  import Runner
  import AlignWorker

  /** A `(volume, mask)` pair, named by the keys the volumes load from. */
  type VolMask = (string, string)

  /** The order `run_batch` yields a batch of `n` tasks in, for every `n`. */
  type Schedule = nat -> seq<nat>

  ghost predicate ValidSchedule(schedule: Schedule)
  {
    forall n: nat :: IsPermutation(schedule(n), n)
  }

  /** A `(volume, mask)` tuple as a task argument. */
  function Pack(d: VolMask): Value
  {
    VList([VStr(d.0), VStr(d.1)])
  }

  /** The arguments of an `align.align` task. */
  function PairArgs(d1: VolMask, d2: VolMask, L: int): seq<Value>
  {
    [VStr(d1.0), VStr(d1.1), VStr(d2.0), VStr(d2.1), VInt(L)]
  }

  /** The arguments of an `align.batch_align` task. */
  function BatchArgs(target: VolMask, chunk: seq<VolMask>, L: int): seq<Value>
  {
    [VStr(target.0), VStr(target.1), VList(MapSeq(chunk, Pack)), VInt(L)]
  }

  /** The arguments of an `align.align_to_templates` task. */
  function TemplateArgs(d: VolMask, templates: Value, L: int): seq<Value>
  {
    [VStr(d.0), VStr(d.1), templates, VInt(L)]
  }

  // ----- the task list and the id tracker -----

  /** Every task's id maps to the position it was submitted for. */
  ghost predicate Tracked<P>(tasks: seq<Task>, pos: seq<P>, tracker: map<Uuid, P>)
  {
    && |pos| == |tasks|
    && forall t :: 0 <= t < |tasks| ==> tasks[t].taskId in tracker && tracker[tasks[t].taskId] == pos[t]
  }

  /** Every task's id has been minted. */
  ghost predicate Issued(tasks: seq<Task>, issued: set<Uuid>)
  {
    forall t :: 0 <= t < |tasks| ==> tasks[t].taskId in issued
  }

  /** `t = runner.make_task(methodName, ...)`, `tasks.append(t)` and
      `tracker[t.task_id] = p`: the new task goes last and its fresh id
      maps to `p` without disturbing the ids already tracked. */
  method AddTask<P>(runner: Runner.Runner, ids: IdSource, methodName: string, opts: Options,
                    tasks: seq<Task>, tracker: map<Uuid, P>, ghost pos: seq<P>, p: P)
    returns (tasks': seq<Task>, tracker': map<Uuid, P>)
    requires ids.Valid() && ValidMaxTime(opts.maxTime)
    requires Tracked(tasks, pos, tracker) && Issued(tasks, ids.issued)
    modifies ids
    ensures ids.Valid() && old(ids.issued) <= ids.issued
    ensures Tracked(tasks', pos + [p], tracker') && Issued(tasks', ids.issued)
    ensures |tasks'| == |tasks| + 1 && tasks'[..|tasks|] == tasks
    ensures forall t :: 0 <= t < |tasks| ==> tasks'[t] == tasks[t]
    ensures tasks'[|tasks|] == Task(tasks'[|tasks|].taskId, runner.projId, methodName, opts.args, opts.kwargs,
                                    opts.allowResubmit, opts.maxTries, opts.maxTime, opts.burst,
                                    0, false, VNone)
  {
    var r := runner.MakeTask(ids, methodName, opts);
    var t := r.value;
    tasks' := tasks + [t];
    tracker' := tracker[t.taskId := p];
    assert tasks'[..|tasks|] == tasks;
  }

  // ----- all_vs_all_alignment -----

  ghost predicate Covered(pos: seq<(nat, nat)>, a: nat, b: nat)
  {
    (a, b) in pos
  }

  /** No position is submitted twice. */
  ghost predicate Distinct<T>(s: seq<T>)
  {
    forall t, u :: 0 <= t < u < |s| ==> s[t] != s[u]
  }

  /** Every position so far comes before `(i, j)` in loop order. */
  ghost predicate AllBefore(pos: seq<(nat, nat)>, i: nat, j: nat)
  {
    forall t :: 0 <= t < |pos| ==> pos[t].0 < i || (pos[t].0 == i && pos[t].1 < j)
  }

  /** A sequence without repeats has as many elements as its set. */
  lemma {:induction false} DistinctSetSize<T>(s: seq<T>)
    requires Distinct(s)
    ensures |(set x | x in s)| == |s|
  {
    if s != [] {
      var rest := s[1..];
      assert Distinct(rest) by {
        forall t, u | 0 <= t < u < |rest|
          ensures rest[t] != rest[u]
        {
          assert rest[t] == s[t + 1] && rest[u] == s[u + 1];
        }
      }
      DistinctSetSize(rest);
      assert (set x | x in s) == (set x | x in rest) + {s[0]};
      assert s[0] !in (set x | x in rest);
    }
  }

  /** Appending a position after all earlier ones keeps them distinct. */
  lemma AppendAfter(pos: seq<(nat, nat)>, i: nat, j: nat)
    requires Distinct(pos) && AllBefore(pos, i, j)
    ensures Distinct(pos + [(i, j)]) && AllBefore(pos + [(i, j)], i, j + 1)
  {
  }

  /** The inner submission loop of `all_vs_all_alignment`: one
      `align.align` task for `data1[i]` and each volume of `data2`, in
      order, after the rows already submitted. */
  method SubmitRow(runner: Runner.Runner, ids: IdSource, data1: seq<VolMask>, data2: seq<VolMask>, L: int, i: nat,
                   tasks0: seq<Task>, tracker0: map<Uuid, (nat, nat)>, ghost pos0: seq<(nat, nat)>)
    returns (tasks: seq<Task>, tracker: map<Uuid, (nat, nat)>, ghost pos: seq<(nat, nat)>)
    requires ids.Valid() && i < |data1|
    requires Tracked(tasks0, pos0, tracker0) && Issued(tasks0, ids.issued)
    requires forall t :: 0 <= t < |tasks0| ==>
      pos0[t].0 < |data1| && pos0[t].1 < |data2| && tasks0[t].methodName == "align.align" &&
      tasks0[t].args == PairArgs(data1[pos0[t].0], data2[pos0[t].1], L)
    requires Distinct(pos0) && AllBefore(pos0, i, 0)
    modifies ids
    ensures ids.Valid()
    ensures Tracked(tasks, pos, tracker) && Issued(tasks, ids.issued)
    ensures forall t :: 0 <= t < |tasks| ==>
      pos[t].0 < |data1| && pos[t].1 < |data2| && tasks[t].methodName == "align.align" &&
      tasks[t].args == PairArgs(data1[pos[t].0], data2[pos[t].1], L)
    ensures forall a: nat, b: nat :: Covered(pos0, a, b) ==> Covered(pos, a, b)
    ensures forall b: nat :: b < |data2| ==> Covered(pos, i, b)
    ensures Distinct(pos) && AllBefore(pos, i + 1, 0) && |tasks| == |tasks0| + |data2|
  {
    tasks, tracker, pos := tasks0, tracker0, pos0;
    for j := 0 to |data2|
      invariant ids.Valid()
      invariant Tracked(tasks, pos, tracker) && Issued(tasks, ids.issued)
      invariant forall t :: 0 <= t < |tasks| ==>
        pos[t].0 < |data1| && pos[t].1 < |data2| && tasks[t].methodName == "align.align" &&
        tasks[t].args == PairArgs(data1[pos[t].0], data2[pos[t].1], L)
      invariant forall a: nat, b: nat :: Covered(pos0, a, b) ==> Covered(pos, a, b)
      invariant forall b: nat :: b < j ==> Covered(pos, i, b)
      invariant Distinct(pos) && AllBefore(pos, i, j) && |tasks| == |tasks0| + j
    {
      var opts := Defaults.(args := PairArgs(data1[i], data2[j], L));
      ghost var oldPos := pos;
      tasks, tracker := AddTask(runner, ids, "align.align", opts, tasks, tracker, pos, (i, j));
      AppendAfter(pos, i, j);
      pos := pos + [(i, j)];
      assert forall a: nat, b: nat :: Covered(oldPos, a, b) ==> Covered(pos, a, b);
      assert Covered(pos, i, j);
    }
    assert forall t :: 0 <= t < |pos| ==> pos[t].0 < i + 1;
  }

  /** The submission loops of `all_vs_all_alignment`: one `align.align` task
      per pair, first index from `data1`, second from `data2`. */
  method SubmitAllVsAll(runner: Runner.Runner, ids: IdSource, data1: seq<VolMask>, data2: seq<VolMask>, L: int)
    returns (tasks: seq<Task>, tracker: map<Uuid, (nat, nat)>, ghost pos: seq<(nat, nat)>)
    requires ids.Valid()
    modifies ids
    ensures ids.Valid()
    ensures Tracked(tasks, pos, tracker)
    ensures forall t :: 0 <= t < |tasks| ==>
      pos[t].0 < |data1| && pos[t].1 < |data2| && tasks[t].methodName == "align.align" &&
      tasks[t].args == PairArgs(data1[pos[t].0], data2[pos[t].1], L)
    ensures forall a: nat, b: nat :: a < |data1| && b < |data2| ==> Covered(pos, a, b)
    ensures Distinct(pos) && |tasks| == |data1| * |data2|
  {
    tasks, tracker, pos := [], map[], [];
    for i := 0 to |data1|
      invariant ids.Valid()
      invariant Tracked(tasks, pos, tracker) && Issued(tasks, ids.issued)
      invariant forall t :: 0 <= t < |tasks| ==>
        pos[t].0 < |data1| && pos[t].1 < |data2| && tasks[t].methodName == "align.align" &&
        tasks[t].args == PairArgs(data1[pos[t].0], data2[pos[t].1], L)
      invariant forall a: nat, b: nat :: a < i && b < |data2| ==> Covered(pos, a, b)
      invariant Distinct(pos) && AllBefore(pos, i, 0) && |tasks| == i * |data2|
    {
      tasks, tracker, pos := SubmitRow(runner, ids, data1, data2, L, i, tasks, tracker, pos);
      assert (i + 1) * |data2| == i * |data2| + |data2|;
    }
  }

  /** Every cell of the result grid is empty or holds the answer for its pair. */
  ghost predicate GridSound<R>(results: seq<seq<Option<R>>>, data1: seq<VolMask>, data2: seq<VolMask>, L: int,
                               answer: seq<Value> -> R)
  {
    && |results| == |data1|
    && (forall a :: 0 <= a < |data1| ==> |results[a]| == |data2|)
    && forall a, b :: 0 <= a < |data1| && 0 <= b < |data2| ==>
         results[a][b] == None || results[a][b] == Some(answer(PairArgs(data1[a], data2[b], L)))
  }

  ghost predicate Filled<R>(results: seq<seq<Option<R>>>, p: (nat, nat))
  {
    p.0 < |results| && p.1 < |results[p.0]| && results[p.0][p.1].Some?
  }

  /** The collection loop of `all_vs_all_alignment`: each yielded result is
      filed under the pair its id was tracked to. */
  method CollectAllVsAll<R>(tasks: seq<Task>, tracker: map<Uuid, (nat, nat)>, ghost pos: seq<(nat, nat)>,
                            data1: seq<VolMask>, data2: seq<VolMask>, L: int,
                            order: seq<nat>, answer: seq<Value> -> R)
    returns (results: seq<seq<Option<R>>>)
    requires Tracked(tasks, pos, tracker) && IsPermutation(order, |tasks|)
    requires forall t :: 0 <= t < |tasks| ==>
      pos[t].0 < |data1| && pos[t].1 < |data2| && tasks[t].args == PairArgs(data1[pos[t].0], data2[pos[t].1], L)
    ensures GridSound(results, data1, data2, L, answer)
    ensures forall t :: 0 <= t < |tasks| ==> Filled(results, pos[t])
  {
    results := seq(|data1|, _ => seq(|data2|, _ => None));
    for k := 0 to |order|
      invariant GridSound(results, data1, data2, L, answer)
      invariant forall k' :: 0 <= k' < k ==> Filled(results, pos[order[k']])
    {
      var res := tasks[order[k]];
      var (i, j) := tracker[res.taskId];
      results := results[i := results[i][j := Some(answer(res.args))]];
    }
    forall t | 0 <= t < |tasks|
      ensures Filled(results, pos[t])
    {
      assert t in order;
      var k' :| 0 <= k' < |order| && order[k'] == t;
    }
  }

  /** `all_vs_all_alignment`: cell `[i][j]` holds the alignment of
      `data2[j]` to `data1[i]`, whatever order the results come back in. */
  method AllVsAll<R>(server: QueueServer.Server, ids: IdSource, data1: seq<VolMask>, data2: seq<VolMask>, L: int,
                     schedule: Schedule, answer: seq<Value> -> R)
    returns (results: seq<seq<Option<R>>>)
    requires server.Valid() && ids.Valid() && ValidSchedule(schedule)
    modifies server, ids
    ensures server.Valid() && ids.Valid()
    ensures |results| == |data1| && forall i :: 0 <= i < |data1| ==> |results[i]| == |data2|
    ensures forall i, j :: 0 <= i < |data1| && 0 <= j < |data2| ==>
      results[i][j] == Some(answer(PairArgs(data1[i], data2[j], L)))
  {
    var runner := new Runner.Runner(server, ids);
    var tasks, tracker, pos := SubmitAllVsAll(runner, ids, data1, data2, L);
    results := CollectAllVsAll(tasks, tracker, pos, data1, data2, L, schedule(|tasks|), answer);
    forall i, j | 0 <= i < |data1| && 0 <= j < |data2|
      ensures results[i][j] == Some(answer(PairArgs(data1[i], data2[j], L)))
    {
      assert Covered(pos, i, j);
      var t :| 0 <= t < |pos| && pos[t] == (i, j);
      assert Filled(results, pos[t]);
    }
  }

  // ----- one_vs_all_alignment -----

  /** `max(5, N / 1000)`: never below five. */
  function OneVsAllChunkSize(n: nat): (cs: nat)
    ensures cs >= 5 && cs >= n / 1000
  {
    if n / 1000 >= 5 then n / 1000 else 5
  }

  /** The results `one_vs_all_alignment` returns: each chunk's answer, in
      chunk order, concatenated. */
  function OneVsAllResult<R>(target: VolMask, data: seq<VolMask>, L: int, answer: seq<Value> -> seq<R>): seq<R>
  {
    var chunks := Chunks(data, OneVsAllChunkSize(|data|));
    Flatten(seq(|chunks|, c requires 0 <= c < |chunks| => answer(BatchArgs(target, chunks[c], L))))
  }

  /** When the worker answers a chunk element by element, as `batch_align`
      does, the flattened result is the per-element answer for each volume
      of `data` in its own order: chunking neither loses, repeats nor
      reorders anything. */
  lemma OneVsAllPerElement<R>(target: VolMask, data: seq<VolMask>, L: int, answer: seq<Value> -> seq<R>, f: VolMask -> R)
    requires forall chunk :: answer(BatchArgs(target, chunk, L)) == MapSeq(chunk, f)
    ensures OneVsAllResult(target, data, L, answer) == MapSeq(data, f)
  {
    var cs := OneVsAllChunkSize(|data|);
    var chunks := Chunks(data, cs);
    var answers := seq(|chunks|, c requires 0 <= c < |chunks| => answer(BatchArgs(target, chunks[c], L)));
    assert answers == MapChunks(chunks, f);
    FlattenMapChunks(data, cs, f);
  }

  /** `range(n)`: chunk `c` is tracked under its own number `c`. */
  function Iota(n: nat): (r: seq<nat>)
    ensures |r| == n && forall c :: 0 <= c < n ==> r[c] == c
  {
    if n == 0 then [] else Iota(n - 1) + [n - 1]
  }

  /** The submission loop of `one_vs_all_alignment`: one `align.batch_align`
      task with burst 1 per chunk, tracked by chunk number. */
  method SubmitOneVsAll(runner: Runner.Runner, ids: IdSource, target: VolMask, data: seq<VolMask>, L: int)
    returns (tasks: seq<Task>, tracker: map<Uuid, nat>)
    requires ids.Valid()
    modifies ids
    ensures ids.Valid()
    ensures |tasks| == |Chunks(data, OneVsAllChunkSize(|data|))|
    ensures Tracked(tasks, Iota(|tasks|), tracker)
    ensures forall c :: 0 <= c < |tasks| ==>
      tasks[c].methodName == "align.batch_align" && tasks[c].burst == 1 &&
      tasks[c].args == BatchArgs(target, Chunks(data, OneVsAllChunkSize(|data|))[c], L)
  {
    var n := |data|;
    var cs := OneVsAllChunkSize(n);
    tasks, tracker := [], map[];
    ghost var pos: seq<nat> := [];
    ghost var done: seq<seq<VolMask>> := [];
    var i := 0;
    var idx := 0;
    ChunkStart(data, cs);
    while i < n
      invariant ids.Valid()
      invariant idx == |tasks| == |done| && pos == Iota(idx)
      invariant ChunkedUpTo(data, cs, done, i)
      invariant Tracked(tasks, pos, tracker) && Issued(tasks, ids.issued)
      invariant forall c :: 0 <= c < |tasks| ==>
        tasks[c].methodName == "align.batch_align" && tasks[c].burst == 1 &&
        tasks[c].args == BatchArgs(target, done[c], L)
      decreases n - i
    {
      var chunk := data[i..Min(i + cs, |data|)];
      var opts := Defaults.(args := BatchArgs(target, chunk, L), burst := 1);
      tasks, tracker := AddTask(runner, ids, "align.batch_align", opts, tasks, tracker, pos, idx);
      ChunkAdvance(data, cs, done, i);
      done := done + [chunk];
      pos := pos + [idx];
      idx := idx + 1;
      i := i + cs;
    }
  }

  /** The collection loop of `one_vs_all_alignment`: each yielded result
      lands in its chunk's slot, and the slots are concatenated. */
  method CollectOneVsAll<R>(tasks: seq<Task>, tracker: map<Uuid, nat>, order: seq<nat>, answer: seq<Value> -> seq<R>)
    returns (results: seq<R>)
    requires Tracked(tasks, Iota(|tasks|), tracker) && IsPermutation(order, |tasks|)
    ensures results == Flatten(seq(|tasks|, c requires 0 <= c < |tasks| => answer(tasks[c].args)))
  {
    var slots: seq<Option<seq<R>>> := seq(|tasks|, _ => None);
    for k := 0 to |order|
      invariant |slots| == |tasks|
      invariant forall c :: 0 <= c < |tasks| ==> slots[c] == None || slots[c] == Some(answer(tasks[c].args))
      invariant forall k' :: 0 <= k' < k ==> slots[order[k']].Some?
    {
      var res := tasks[order[k]];
      slots := slots[tracker[res.taskId] := Some(answer(res.args))];
    }
    forall c | 0 <= c < |tasks|
      ensures slots[c] == Some(answer(tasks[c].args))
    {
      assert c in order;
      var k' :| 0 <= k' < |order| && order[k'] == c;
    }
    results := Flatten(seq(|slots|, c requires 0 <= c < |slots| => slots[c].value));
    assert seq(|slots|, c requires 0 <= c < |slots| => slots[c].value)
        == seq(|tasks|, c requires 0 <= c < |tasks| => answer(tasks[c].args));
  }

  /** `one_vs_all_alignment`: the chunks' answers concatenated in chunk
      order, whatever order the chunks finish in. */
  method OneVsAll<R>(server: QueueServer.Server, ids: IdSource, target: VolMask, data: seq<VolMask>, L: int,
                     schedule: Schedule, answer: seq<Value> -> seq<R>)
    returns (results: seq<R>)
    requires server.Valid() && ids.Valid() && ValidSchedule(schedule)
    modifies server, ids
    ensures server.Valid() && ids.Valid()
    ensures results == OneVsAllResult(target, data, L, answer)
  {
    var runner := new Runner.Runner(server, ids);
    var tasks, tracker := SubmitOneVsAll(runner, ids, target, data, L);
    results := CollectOneVsAll(tasks, tracker, schedule(|tasks|), answer);
    var chunks := Chunks(data, OneVsAllChunkSize(|data|));
    assert seq(|tasks|, c requires 0 <= c < |tasks| => answer(tasks[c].args))
        == seq(|chunks|, c requires 0 <= c < |chunks| => answer(BatchArgs(target, chunks[c], L)));
  }

  // ----- pairwise_alignment -----

  /** Python's `<` on byte strings: lexicographic, a proper prefix first. */
  predicate StrLess(a: string, b: string)
  {
    if a == [] then b != []
    else if b == [] then false
    else a[0] < b[0] || (a[0] == b[0] && StrLess(a[1..], b[1..]))
  }

  /** Python's `<=` on `(volume, mask)` tuples. */
  predicate PairLe(x: VolMask, y: VolMask)
  {
    StrLess(x.0, y.0) || (x.0 == y.0 && (StrLess(x.1, y.1) || x.1 == y.1))
  }

  /** String order is a strict total order: exactly one of `a < b`,
      `a == b`, `b < a`. */
  lemma {:induction false} StrLessTrichotomy(a: string, b: string)
    ensures StrLess(a, b) || a == b || StrLess(b, a)
    ensures !(StrLess(a, b) && StrLess(b, a))
    ensures !StrLess(a, a)
  {
    if a != [] && b != [] {
      StrLessTrichotomy(a[1..], b[1..]);
      if a[0] == b[0] && a[1..] == b[1..] {
        assert a == [a[0]] + a[1..] && b == [b[0]] + b[1..];
      }
    }
    if a != [] {
      StrLessTrichotomy(a[1..], a[1..]);
    }
  }

  /** Tuple `<=` is total and antisymmetric, so for two distinct entries
      exactly one orientation gets a task. */
  lemma PairLeTotal(x: VolMask, y: VolMask)
    ensures PairLe(x, y) || PairLe(y, x)
    ensures PairLe(x, y) && PairLe(y, x) ==> x == y
    ensures PairLe(x, x)
  {
    StrLessTrichotomy(x.0, y.0);
    StrLessTrichotomy(x.1, y.1);
  }

  /** The pairs `pairwise_alignment` submits a task for: `d2 <= d1` skips. */
  predicate Before(x: VolMask, y: VolMask)
  {
    !PairLe(y, x)
  }

  /** `-loc`: the elementwise negation of a numpy vector. */
  function Neg(v: seq<real>): (w: seq<real>)
    ensures |w| == |v| && forall k :: 0 <= k < |v| ==> w[k] == -v[k]
  {
    seq(|v|, k requires 0 <= k < |v| => -v[k])
  }

  lemma NegNeg(v: seq<real>)
    ensures Neg(Neg(v)) == v
  {
  }

  type Transform = Option<(seq<real>, seq<real>)>

  /** The entry of `corr` for `(i, j)` once every result is in: the score of
      whichever orientation was submitted, 1 on the diagonal and 0 between
      two equal entries. */
  function PairCorr(data: seq<VolMask>, L: int, answer: seq<Value> -> AlignWorker.Alignment, i: nat, j: nat): real
    requires i < |data| && j < |data|
  {
    if Before(data[i], data[j]) then answer(PairArgs(data[i], data[j], L)).score
    else if Before(data[j], data[i]) then answer(PairArgs(data[j], data[i], L)).score
    else if i == j then 1.0 else 0.0
  }

  /** The entry of `transform` for `(i, j)`: `(loc, ang)` of the submitted
      orientation, negated when it was submitted the other way round. */
  function PairTransform(data: seq<VolMask>, L: int, answer: seq<Value> -> AlignWorker.Alignment, i: nat, j: nat): Transform
    requires i < |data| && j < |data|
  {
    if Before(data[i], data[j]) then
      var a := answer(PairArgs(data[i], data[j], L));
      Some((a.loc, a.ang))
    else if Before(data[j], data[i]) then
      var a := answer(PairArgs(data[j], data[i], L));
      Some((Neg(a.loc), Neg(a.ang)))
    else None
  }

  /** The score matrix is symmetric with a unit diagonal, a transform is
      present exactly between two different entries, and the transform
      one way is the negation of the transform the other way. */
  lemma PairwiseShape(data: seq<VolMask>, L: int, answer: seq<Value> -> AlignWorker.Alignment, i: nat, j: nat)
    requires i < |data| && j < |data|
    ensures PairCorr(data, L, answer, i, j) == PairCorr(data, L, answer, j, i)
    ensures PairCorr(data, L, answer, i, i) == 1.0
    ensures PairTransform(data, L, answer, i, j).Some? <==> data[i] != data[j]
    ensures PairTransform(data, L, answer, i, j).Some? ==>
      PairTransform(data, L, answer, j, i) ==
        Some((Neg(PairTransform(data, L, answer, i, j).value.0), Neg(PairTransform(data, L, answer, i, j).value.1)))
  {
    PairLeTotal(data[i], data[j]);
    PairLeTotal(data[i], data[i]);
    if Before(data[j], data[i]) {
      var a := answer(PairArgs(data[j], data[i], L));
      NegNeg(a.loc);
      NegNeg(a.ang);
    }
  }

  /** The inner submission loop of `pairwise_alignment`: one `align.align`
      task for `data[i]` and each later entry of `data` it comes strictly
      before, in order, after the rows already submitted. */
  method SubmitPairRow(runner: Runner.Runner, ids: IdSource, data: seq<VolMask>, L: int, i: nat,
                       tasks0: seq<Task>, posMap0: map<Uuid, (nat, nat)>, ghost pos0: seq<(nat, nat)>)
    returns (tasks: seq<Task>, posMap: map<Uuid, (nat, nat)>, ghost pos: seq<(nat, nat)>)
    requires ids.Valid() && i < |data|
    requires Tracked(tasks0, pos0, posMap0) && Issued(tasks0, ids.issued)
    requires forall t :: 0 <= t < |tasks0| ==>
      pos0[t].0 < |data| && pos0[t].1 < |data| && Before(data[pos0[t].0], data[pos0[t].1]) &&
      tasks0[t].methodName == "align.align" && tasks0[t].args == PairArgs(data[pos0[t].0], data[pos0[t].1], L)
    requires Distinct(pos0) && AllBefore(pos0, i, 0)
    modifies ids
    ensures ids.Valid()
    ensures Tracked(tasks, pos, posMap) && Issued(tasks, ids.issued)
    ensures forall t :: 0 <= t < |tasks| ==>
      pos[t].0 < |data| && pos[t].1 < |data| && Before(data[pos[t].0], data[pos[t].1]) &&
      tasks[t].methodName == "align.align" && tasks[t].args == PairArgs(data[pos[t].0], data[pos[t].1], L)
    ensures forall a: nat, b: nat :: Covered(pos0, a, b) ==> Covered(pos, a, b)
    ensures forall b: nat :: b < |data| && Before(data[i], data[b]) ==> Covered(pos, i, b)
    ensures Distinct(pos) && AllBefore(pos, i + 1, 0)
  {
    tasks, posMap, pos := tasks0, posMap0, pos0;
    for j := 0 to |data|
      invariant ids.Valid()
      invariant Tracked(tasks, pos, posMap) && Issued(tasks, ids.issued)
      invariant forall t :: 0 <= t < |tasks| ==>
        pos[t].0 < |data| && pos[t].1 < |data| && Before(data[pos[t].0], data[pos[t].1]) &&
        tasks[t].methodName == "align.align" && tasks[t].args == PairArgs(data[pos[t].0], data[pos[t].1], L)
      invariant forall a: nat, b: nat :: Covered(pos0, a, b) ==> Covered(pos, a, b)
      invariant forall b: nat :: b < j && Before(data[i], data[b]) ==> Covered(pos, i, b)
      invariant Distinct(pos) && AllBefore(pos, i, j)
    {
      if PairLe(data[j], data[i]) {
        continue;
      }
      var opts := Defaults.(args := PairArgs(data[i], data[j], L));
      ghost var oldPos := pos;
      tasks, posMap := AddTask(runner, ids, "align.align", opts, tasks, posMap, pos, (i, j));
      AppendAfter(pos, i, j);
      pos := pos + [(i, j)];
      assert forall a: nat, b: nat :: Covered(oldPos, a, b) ==> Covered(pos, a, b);
      assert Covered(pos, i, j);
    }
    assert forall t :: 0 <= t < |pos| ==> pos[t].0 < i + 1;
  }

  /** The submission loops of `pairwise_alignment`: one `align.align` task
      per ordered pair of positions whose entries are strictly increasing. */
  method SubmitPairwise(runner: Runner.Runner, ids: IdSource, data: seq<VolMask>, L: int)
    returns (tasks: seq<Task>, posMap: map<Uuid, (nat, nat)>, ghost pos: seq<(nat, nat)>)
    requires ids.Valid()
    modifies ids
    ensures ids.Valid()
    ensures Tracked(tasks, pos, posMap)
    ensures forall t :: 0 <= t < |tasks| ==>
      pos[t].0 < |data| && pos[t].1 < |data| && Before(data[pos[t].0], data[pos[t].1]) &&
      tasks[t].methodName == "align.align" && tasks[t].args == PairArgs(data[pos[t].0], data[pos[t].1], L)
    ensures forall a: nat, b: nat :: a < |data| && b < |data| && Before(data[a], data[b]) ==> Covered(pos, a, b)
    ensures Distinct(pos) && (set p | p in pos) == PairSet(data) && |tasks| == |PairSet(data)|
  {
    tasks, posMap, pos := [], map[], [];
    for i := 0 to |data|
      invariant ids.Valid()
      invariant Tracked(tasks, pos, posMap) && Issued(tasks, ids.issued)
      invariant forall t :: 0 <= t < |tasks| ==>
        pos[t].0 < |data| && pos[t].1 < |data| && Before(data[pos[t].0], data[pos[t].1]) &&
        tasks[t].methodName == "align.align" && tasks[t].args == PairArgs(data[pos[t].0], data[pos[t].1], L)
      invariant forall a: nat, b: nat :: a < i && b < |data| && Before(data[a], data[b]) ==> Covered(pos, a, b)
      invariant Distinct(pos) && AllBefore(pos, i, 0)
    {
      tasks, posMap, pos := SubmitPairRow(runner, ids, data, L, i, tasks, posMap, pos);
    }
    PairSetOfPositions(data, pos);
    DistinctSetSize(pos);
  }

  /** The ordered pairs of positions `pairwise_alignment` aligns. */
  ghost function PairSet(data: seq<VolMask>): set<(nat, nat)>
  {
    set a: nat, b: nat | a < |data| && b < |data| && Before(data[a], data[b]) :: (a, b)
  }

  lemma PairSetOfPositions(data: seq<VolMask>, pos: seq<(nat, nat)>)
    requires forall t :: 0 <= t < |pos| ==> pos[t].0 < |data| && pos[t].1 < |data| && Before(data[pos[t].0], data[pos[t].1])
    requires forall a: nat, b: nat :: a < |data| && b < |data| && Before(data[a], data[b]) ==> Covered(pos, a, b)
    ensures (set p | p in pos) == PairSet(data)
  {
    forall p | p in pos
      ensures p in PairSet(data)
    {
      var t :| 0 <= t < |pos| && pos[t] == p;
    }
    forall p | p in PairSet(data)
      ensures p in pos
    {
      assert Covered(pos, p.0, p.1);
    }
  }

  /** An `n × n` grid. */
  ghost predicate Square<T>(m: seq<seq<T>>, n: nat)
  {
    |m| == n && forall a :: 0 <= a < n ==> |m[a]| == n
  }

  /** A cell has been written once either orientation of its pair was
      collected; until then it holds `np.eye` and `None`. */
  ghost predicate PairCells(corr: seq<seq<real>>, transform: seq<seq<Transform>>, done: set<(nat, nat)>,
                            data: seq<VolMask>, L: int, answer: seq<Value> -> AlignWorker.Alignment)
  {
    && Square(corr, |data|) && Square(transform, |data|)
    && forall a, b :: 0 <= a < |data| && 0 <= b < |data| ==>
         if (a, b) in done || (b, a) in done then
           corr[a][b] == PairCorr(data, L, answer, a, b) && transform[a][b] == PairTransform(data, L, answer, a, b)
         else
           corr[a][b] == (if a == b then 1.0 else 0.0) && transform[a][b] == None
  }

  /** `np.eye(n)` and an `n` by `n` grid of `None`: no pair filed yet. */
  method InitCells(data: seq<VolMask>, L: int, answer: seq<Value> -> AlignWorker.Alignment)
    returns (corr: seq<seq<real>>, transform: seq<seq<Transform>>)
    ensures PairCells(corr, transform, {}, data, L, answer)
  {
    var n := |data|;
    corr := seq(n, a => seq(n, b => if a == b then 1.0 else 0.0));
    transform := seq(n, _ => seq(n, _ => None));
  }

  /** `m[i][j] = x` on a list of lists. */
  function SetCell<T>(m: seq<seq<T>>, i: nat, j: nat, x: T): seq<seq<T>>
    requires i < |m| && j < |m[i]|
  {
    m[i := m[i][j := x]]
  }

  /** Filing the result of the task for `(i, j)` writes both orientations
      of the pair and leaves every other cell alone. */
  lemma PairCellsStep(corr: seq<seq<real>>, transform: seq<seq<Transform>>, done: set<(nat, nat)>,
                      data: seq<VolMask>, L: int, answer: seq<Value> -> AlignWorker.Alignment, i: nat, j: nat)
    requires PairCells(corr, transform, done, data, L, answer)
    requires i < |data| && j < |data| && Before(data[i], data[j])
    ensures var a := answer(PairArgs(data[i], data[j], L));
      PairCells(SetCell(SetCell(corr, i, j, a.score), j, i, a.score),
                SetCell(SetCell(transform, i, j, Some((a.loc, a.ang))), j, i, Some((Neg(a.loc), Neg(a.ang)))),
                done + {(i, j)}, data, L, answer)
  {
    PairLeTotal(data[i], data[j]);
    PairLeTotal(data[i], data[i]);
  }

  /** The pairs whose results the first `k` collected tasks filed. */
  ghost function Filed(pos: seq<(nat, nat)>, order: seq<nat>, k: nat): set<(nat, nat)>
    requires k <= |order| && forall k' :: 0 <= k' < |order| ==> order[k'] < |pos|
  {
    if k == 0 then {} else Filed(pos, order, k - 1) + {pos[order[k - 1]]}
  }

  /** Collecting one more task files its pair. */
  lemma FiledStep(pos: seq<(nat, nat)>, order: seq<nat>, k: nat)
    requires k < |order| && forall k' :: 0 <= k' < |order| ==> order[k'] < |pos|
    ensures Filed(pos, order, k + 1) == Filed(pos, order, k) + {pos[order[k]]}
  {
  }

  /** Every pair filed by the first `k` collected tasks is in `Filed`. */
  lemma {:induction false} FiledPrefix(pos: seq<(nat, nat)>, order: seq<nat>, k: nat)
    requires k <= |order| && forall k' :: 0 <= k' < |order| ==> order[k'] < |pos|
    ensures forall k' :: 0 <= k' < k ==> pos[order[k']] in Filed(pos, order, k)
  {
    if k > 0 {
      FiledPrefix(pos, order, k - 1);
    }
  }

  /** Once every task of a permutation is collected, every position is filed. */
  lemma FiledCovers(pos: seq<(nat, nat)>, order: seq<nat>)
    requires IsPermutation(order, |pos|)
    ensures forall t :: 0 <= t < |pos| ==> pos[t] in Filed(pos, order, |order|)
  {
    FiledPrefix(pos, order, |order|);
    forall t | 0 <= t < |pos|
      ensures pos[t] in Filed(pos, order, |order|)
    {
      assert t in order;
      var k' :| 0 <= k' < |order| && order[k'] == t;
    }
  }

  /** `corr_matrix[i][j] = corr_matrix[j][i] = score` and the transform
      of `(i, j)` with its inverse at `(j, i)`. */
  method FilePair(corr: seq<seq<real>>, transform: seq<seq<Transform>>, ghost done: set<(nat, nat)>,
                  data: seq<VolMask>, L: int, answer: seq<Value> -> AlignWorker.Alignment, i: nat, j: nat,
                  a: AlignWorker.Alignment)
    returns (corr': seq<seq<real>>, transform': seq<seq<Transform>>)
    requires PairCells(corr, transform, done, data, L, answer)
    requires i < |data| && j < |data| && Before(data[i], data[j]) && a == answer(PairArgs(data[i], data[j], L))
    ensures PairCells(corr', transform', done + {(i, j)}, data, L, answer)
  {
    PairCellsStep(corr, transform, done, data, L, answer, i, j);
    transform' := SetCell(SetCell(transform, i, j, Some((a.loc, a.ang))), j, i, Some((Neg(a.loc), Neg(a.ang))));
    corr' := SetCell(SetCell(corr, i, j, a.score), j, i, a.score);
  }

  /** The collection loop of `pairwise_alignment`: each result fills its
      cell and the mirrored one. */
  method CollectPairwise(tasks: seq<Task>, posMap: map<Uuid, (nat, nat)>, ghost pos: seq<(nat, nat)>,
                         data: seq<VolMask>, L: int, order: seq<nat>, answer: seq<Value> -> AlignWorker.Alignment)
    returns (corr: seq<seq<real>>, transform: seq<seq<Transform>>, ghost done: set<(nat, nat)>)
    requires Tracked(tasks, pos, posMap) && IsPermutation(order, |tasks|)
    requires forall t :: 0 <= t < |tasks| ==>
      pos[t].0 < |data| && pos[t].1 < |data| && Before(data[pos[t].0], data[pos[t].1]) &&
      tasks[t].args == PairArgs(data[pos[t].0], data[pos[t].1], L)
    ensures PairCells(corr, transform, done, data, L, answer)
    ensures forall t :: 0 <= t < |tasks| ==> pos[t] in done
  {
    corr, transform := InitCells(data, L, answer);
    for k := 0 to |order|
      invariant PairCells(corr, transform, Filed(pos, order, k), data, L, answer)
    {
      var res := tasks[order[k]];
      var (i, j) := posMap[res.taskId];
      assert (i, j) == pos[order[k]] && res.args == PairArgs(data[i], data[j], L);
      corr, transform := FilePair(corr, transform, Filed(pos, order, k), data, L, answer, i, j, answer(res.args));
      FiledStep(pos, order, k);
    }
    done := Filed(pos, order, |order|);
    FiledCovers(pos, order);
  }

  /** `pairwise_alignment`: every entry of the score and transform matrices
      is the one its pair determines, whatever order the results come back
      in. */
  method Pairwise(server: QueueServer.Server, ids: IdSource, data: seq<VolMask>, L: int,
                  schedule: Schedule, answer: seq<Value> -> AlignWorker.Alignment)
    returns (corr: seq<seq<real>>, transform: seq<seq<Transform>>)
    requires server.Valid() && ids.Valid() && ValidSchedule(schedule)
    modifies server, ids
    ensures server.Valid() && ids.Valid()
    ensures |corr| == |data| && |transform| == |data|
    ensures forall i :: 0 <= i < |data| ==> |corr[i]| == |data| && |transform[i]| == |data|
    ensures forall i, j :: 0 <= i < |data| && 0 <= j < |data| ==>
      corr[i][j] == PairCorr(data, L, answer, i, j) && transform[i][j] == PairTransform(data, L, answer, i, j)
  {
    var runner := new Runner.Runner(server, ids);
    var tasks, posMap, pos := SubmitPairwise(runner, ids, data, L);
    ghost var done;
    corr, transform, done := CollectPairwise(tasks, posMap, pos, data, L, schedule(|tasks|), answer);
    forall i, j | 0 <= i < |data| && 0 <= j < |data|
      ensures corr[i][j] == PairCorr(data, L, answer, i, j) && transform[i][j] == PairTransform(data, L, answer, i, j)
    {
      PairLeTotal(data[i], data[j]);
      PairLeTotal(data[i], data[i]);
      if Before(data[i], data[j]) {
        assert Covered(pos, i, j);
        var t :| 0 <= t < |pos| && pos[t] == (i, j);
      } else if Before(data[j], data[i]) {
        assert Covered(pos, j, i);
        var t :| 0 <= t < |pos| && pos[t] == (j, i);
      }
    }
  }

  // ----- align_vols_to_templates -----

  /** What `align_vols_to_templates` reports for one volume: the task's
      arguments and the worker's result for them. */
  function TemplateEntry<R>(d: VolMask, templates: Value, L: int, answer: seq<Value> -> R): (seq<Value>, R)
  {
    (TemplateArgs(d, templates, L), answer(TemplateArgs(d, templates, L)))
  }

  /** The submission loop of `align_vols_to_templates`: one
      `align.align_to_templates` task per volume, in order. */
  method SubmitToTemplates(runner: Runner.Runner, ids: IdSource, data: seq<VolMask>, templates: Value, L: int)
    returns (tasks: seq<Task>)
    requires ids.Valid()
    modifies ids
    ensures ids.Valid() && |tasks| == |data|
    ensures forall t :: 0 <= t < |data| ==>
      tasks[t].methodName == "align.align_to_templates" && tasks[t].args == TemplateArgs(data[t], templates, L)
  {
    tasks := [];
    for d := 0 to |data|
      invariant ids.Valid() && |tasks| == d
      invariant forall t :: 0 <= t < d ==>
        tasks[t].methodName == "align.align_to_templates" && tasks[t].args == TemplateArgs(data[t], templates, L)
    {
      var r := runner.MakeTask(ids, "align.align_to_templates", Defaults.(args := TemplateArgs(data[d], templates, L)));
      tasks := tasks + [r.value];
    }
  }

  /** `align_vols_to_templates`: the `(args, result)` pairs come back in
      the order the tasks finish, so the list holds each volume's entry
      exactly once, permuted by `perm`. */
  method AlignVolsToTemplates<R>(server: QueueServer.Server, ids: IdSource, data: seq<VolMask>, templates: Value, L: int,
                                 schedule: Schedule, answer: seq<Value> -> R)
    returns (results: seq<(seq<Value>, R)>, ghost perm: seq<nat>)
    requires server.Valid() && ids.Valid() && ValidSchedule(schedule)
    modifies server, ids
    ensures server.Valid() && ids.Valid()
    ensures IsPermutation(perm, |data|) && |results| == |data|
    ensures forall k :: 0 <= k < |data| ==> results[k] == TemplateEntry(data[perm[k]], templates, L, answer)
  {
    var runner := new Runner.Runner(server, ids);
    var tasks := SubmitToTemplates(runner, ids, data, templates, L);
    var order := schedule(|tasks|);
    results := [];
    for k := 0 to |order|
      invariant |results| == k
      invariant forall k' :: 0 <= k' < k ==> results[k'] == TemplateEntry(data[order[k']], templates, L, answer)
    {
      var res := tasks[order[k]];
      results := results + [(res.args, answer(res.args))];
    }
    perm := order;
  }
}
