/** The selection logic of tomominer/align/worker_funcs.py around the
    native search.  Volumes and masks are named by the keys `get_mrc`
    loads them from; `combined_search` is an oracle that returns its ranked
    candidate alignments or raises. */
module AlignWorker {
  import opened Py

  /** `(score, loc, ang)`: the transform that aligns the second volume to
      the first, and how well it does. */
  datatype Alignment = Alignment(score: real, loc: seq<real>, ang: seq<real>)

  /** The arguments of `combined_search(v1, m1, v2, m2, L)`. */
  datatype SearchArgs = SearchArgs(v1: string, m1: string, v2: string, m2: string, L: int)

  type Search = SearchArgs -> Result<seq<Alignment>>

  /** The very poor match returned when the search finds nothing. */
  const Poor := Alignment(0.0, [0.0, 0.0, 0.0], [0.0, 0.0, 0.0])

  /** `align(v1, m1, v2, m2, L)`: the best candidate, or the poor match when
      the search raises or comes back empty. */
  function Align(search: Search, v1: string, m1: string, v2: string, m2: string, L: int): Alignment
  {
    var res := search(SearchArgs(v1, m1, v2, m2, L));
    if res.Ok? && |res.value| > 0 then res.value[0] else Poor
  }

  /** Once the four volumes are loaded, a failing search does not make
      `align` raise: it yields a candidate of the search exactly when the
      search produced one, and the poor match, which scores 0, otherwise. */
  lemma AlignFallback(search: Search, v1: string, m1: string, v2: string, m2: string, L: int)
    ensures var res := search(SearchArgs(v1, m1, v2, m2, L));
      (res.Ok? && |res.value| > 0 ==> Align(search, v1, m1, v2, m2, L) in res.value)
    ensures var res := search(SearchArgs(v1, m1, v2, m2, L));
      (res.Err? || res.value == [] ==> Align(search, v1, m1, v2, m2, L).score == 0.0)
  {
  }

  /** `batch_align`: one alignment of the reference pair against each
      (volume, mask) pair, in order, with `align`'s fallback inlined. */
  method BatchAlign(search: Search, v1: string, m1: string, pairs: seq<(string, string)>, L: int)
    returns (results: seq<Alignment>)
    ensures |results| == |pairs|
    ensures forall k :: 0 <= k < |pairs| ==> results[k] == Align(search, v1, m1, pairs[k].0, pairs[k].1, L)
  {
    results := [];
    for i := 0 to |pairs|
      invariant |results| == i
      invariant forall k :: 0 <= k < i ==> results[k] == Align(search, v1, m1, pairs[k].0, pairs[k].1, L)
    {
      var (v2, m2) := pairs[i];
      var res := search(SearchArgs(v1, m1, v2, m2, L));
      if res.Err? {
        res := Ok([]);
      }
      if |res.value| > 0 {
        results := results + [res.value[0]];
      } else {
        results := results + [Poor];
      }
    }
  }

  /** The alignment of a subtomogram against template `k`: the template is
      the reference, so it goes first. */
  function AgainstTemplate(search: Search, v1: string, m1: string, templates: seq<(string, (string, string))>, L: int, k: nat): Alignment
    requires k < |templates|
  {
    Align(search, templates[k].1.0, templates[k].1.1, v1, m1, L)
  }

  /** `align_to_templates` over the dictionary's entries in iteration order:
      no template when none scores above 0; otherwise the first template
      whose score is maximal, with its alignment. */
  method AlignToTemplates(search: Search, v1: string, m1: string, templates: seq<(string, (string, string))>, L: int)
    returns (bestTemplate: Option<string>, bestMatch: Option<Alignment>)
    ensures bestTemplate.None? <==> forall k :: 0 <= k < |templates| ==> AgainstTemplate(search, v1, m1, templates, L, k).score <= 0.0
    ensures bestTemplate.None? ==> bestMatch.None?
    ensures bestTemplate.Some? ==>
      exists k :: 0 <= k < |templates| && bestTemplate == Some(templates[k].0) &&
        bestMatch == Some(AgainstTemplate(search, v1, m1, templates, L, k)) &&
        (forall j :: 0 <= j < |templates| ==>
          AgainstTemplate(search, v1, m1, templates, L, j).score <= AgainstTemplate(search, v1, m1, templates, L, k).score) &&
        (forall j :: 0 <= j < k ==>
          AgainstTemplate(search, v1, m1, templates, L, j).score < AgainstTemplate(search, v1, m1, templates, L, k).score)
  {
    var bestScore: real := 0.0;
    bestTemplate := None;
    bestMatch := None;
    ghost var bestIndex: nat := 0;
    for i := 0 to |templates|
      invariant bestTemplate.None? ==> bestMatch.None? && bestScore == 0.0
      invariant bestTemplate.None? <==> forall k :: 0 <= k < i ==> AgainstTemplate(search, v1, m1, templates, L, k).score <= 0.0
      invariant bestTemplate.Some? ==>
        && bestIndex < i && bestTemplate == Some(templates[bestIndex].0)
        && bestMatch == Some(AgainstTemplate(search, v1, m1, templates, L, bestIndex))
        && bestScore == AgainstTemplate(search, v1, m1, templates, L, bestIndex).score
        && bestScore > 0.0
      invariant forall j :: 0 <= j < i ==> AgainstTemplate(search, v1, m1, templates, L, j).score <= bestScore
      invariant bestTemplate.Some? ==>
        forall j :: 0 <= j < bestIndex ==> AgainstTemplate(search, v1, m1, templates, L, j).score < bestScore
    {
      var (tkey, (v2, m2)) := templates[i];
      var res := Align(search, v2, m2, v1, m1, L);
      assert res == AgainstTemplate(search, v1, m1, templates, L, i);
      if res.score > bestScore {
        bestScore := res.score;
        bestTemplate := Some(tkey);
        bestMatch := Some(res);
        bestIndex := i;
      }
    }
  }
}
