/**
 * `XRayRun`: a pipeline execution being recorded step by step.  Adding a
 * step whose serialized outputs are too large first replaces those outputs
 * by a structural summary, in which every top-level list longer than
 * `SAMPLE_SIZE` becomes a random sample of `SAMPLE_SIZE` of its elements and
 * a sibling `<key>_total_count` entry records its original length.
 */
module SdkRun {
  import opened Wrappers
  import opened Json
  import opened SdkStep

  /** Characters of serialized outputs above which a step is summarized. */
  const MAX_OUTPUT_SIZE: nat := 20000
  /** Number of elements kept from a long list. */
  const SAMPLE_SIZE: nat := 100

  /** `len(json.dumps(outputs, default=str))`, the serialized size of a step's outputs. */
  type Size = Dict -> nat

  const COUNT_SUFFIX: string := "_total_count"

  /** `isinstance(value, list) and len(value) > SAMPLE_SIZE`. */
  predicate IsLongList(v: Value) {
    v.Arr? && |v.items| > SAMPLE_SIZE
  }

  /** `f"{key}_total_count"`. */
  function CountKey(k: string): string {
    k + COUNT_SUFFIX
  }

  /** `positions` are `SAMPLE_SIZE` distinct positions of a list of length `n`: one outcome of `random.sample`. */
  predicate IsSample(positions: seq<nat>, n: nat) {
    && |positions| == SAMPLE_SIZE
    && (forall j :: 0 <= j < |positions| ==> positions[j] < n)
    && (forall j, l :: 0 <= j < l < |positions| ==> positions[j] != positions[l])
  }

  /** The elements of `items` at `positions`, in the order of `positions`. */
  function Pick(items: seq<Value>, positions: seq<nat>): (r: seq<Value>)
    requires forall j :: 0 <= j < |positions| ==> positions[j] < |items|
    ensures |r| == |positions|
    ensures forall j :: 0 <= j < |r| ==> r[j] == items[positions[j]]
  {
    seq(|positions|, j requires 0 <= j < |positions| => items[positions[j]])
  }

  /** One sample per entry of `data`; only the samples of long lists matter. */
  predicate ValidPicks(data: Dict, picks: seq<seq<nat>>) {
    && |picks| == |data|
    && forall j :: 0 <= j < |data| && IsLongList(data[j].1) ==> IsSample(picks[j], |data[j].1.items|)
  }

  /** One iteration of the loop of `_summarize`, on entry `(key, value)` with `sample` as the random choice. */
  function SummarizeEntry(acc: Dict, key: string, value: Value, sample: seq<nat>): (r: Dict)
    requires IsLongList(value) ==> IsSample(sample, |value.items|)
    ensures !IsLongList(value) ==> Get(r, key) == Some(value)
    ensures IsLongList(value) ==>
      && Get(r, key) == Some(Arr(Pick(value.items, sample)))
      && Get(r, CountKey(key)) == Some(Int(|value.items|))
    ensures forall k :: k != key && (IsLongList(value) ==> k != CountKey(key)) ==> Get(r, k) == Get(acc, k)
    ensures DistinctKeys(acc) ==> DistinctKeys(r)
  {
    CountKeyNotKey(key);
    if IsLongList(value) then
      SetKey(SetKey(acc, key, Arr(Pick(value.items, sample))), CountKey(key), Int(|value.items|))
    else
      SetKey(acc, key, value)
  }

  /** The keys `_summarize` adds: `<key>_total_count` for every long list. */
  function CountKeys(data: Dict): set<string> {
    set j | 0 <= j < |data| && IsLongList(data[j].1) :: CountKey(data[j].0)
  }

  /**
   * `_summarize(data)` when `picks[j]` is the sample drawn for entry `j`: the
   * entries are visited in order and assigned into a fresh dictionary.
   */
  function SummarizeWith(data: Dict, picks: seq<seq<nat>>): (r: Dict)
    requires ValidPicks(data, picks)
    ensures DistinctKeys(r)
    decreases |data|
  {
    if |data| == 0 then
      []
    else
      var n := |data| - 1;
      SummarizeEntry(SummarizeWith(data[..n], picks[..n]), data[n].0, data[n].1, picks[n])
  }

  /**
   * The summary is a dictionary (its keys are distinct) whose keys are those
   * of `data` and one `<key>_total_count` per long list: no key is dropped.
   */
  lemma {:induction false} SummaryKeys(data: Dict, picks: seq<seq<nat>>)
    requires ValidPicks(data, picks)
    ensures DistinctKeys(SummarizeWith(data, picks))
    ensures Keys(SummarizeWith(data, picks)) == Keys(data) + CountKeys(data)
    decreases |data|
  {
    if |data| > 0 {
      var n := |data| - 1;
      FrontHypotheses(data, picks);
      SummaryKeys(data[..n], picks[..n]);
      KeysSnoc(data);
      CountKeysSnoc(data);
    }
  }

  lemma KeysSnoc(d: Dict)
    requires |d| > 0
    ensures Keys(d) == Keys(d[..|d| - 1]) + {d[|d| - 1].0}
  {
    var n := |d| - 1;
    forall x | x in Keys(d) ensures x in Keys(d[..n]) || x == d[n].0 {
      var j :| 0 <= j < |d| && d[j].0 == x;
      if j < n { assert d[..n][j].0 == x; }
    }
    forall x | x in Keys(d[..n]) ensures x in Keys(d) {
      var j :| 0 <= j < n && d[..n][j].0 == x;
      assert d[j].0 == x;
    }
  }

  lemma CountKeysSnoc(d: Dict)
    requires |d| > 0
    ensures CountKeys(d) == CountKeys(d[..|d| - 1]) + (if IsLongList(d[|d| - 1].1) then {CountKey(d[|d| - 1].0)} else {})
  {
    var n := |d| - 1;
    forall x | x in CountKeys(d) ensures x in CountKeys(d[..n]) || (IsLongList(d[n].1) && x == CountKey(d[n].0)) {
      var j :| 0 <= j < |d| && IsLongList(d[j].1) && CountKey(d[j].0) == x;
      if j < n { assert d[..n][j] == d[j]; }
    }
    forall x | x in CountKeys(d[..n]) ensures x in CountKeys(d) {
      var j :| 0 <= j < n && IsLongList(d[..n][j].1) && CountKey(d[..n][j].0) == x;
      assert d[..n][j] == d[j];
    }
  }

  /** No `<key>_total_count` of a long list is already a key of `data`. */
  predicate NoCountCollision(data: Dict) {
    forall j, l :: 0 <= j < |data| && 0 <= l < |data| && IsLongList(data[j].1) ==> data[l].0 != CountKey(data[j].0)
  }

  lemma CountKeyInjective(a: string, b: string)
    requires CountKey(a) == CountKey(b)
    ensures a == b
  {
    assert a == CountKey(a)[..|a|];
    assert b == CountKey(b)[..|b|];
  }

  lemma CountKeyNotKey(k: string)
    ensures CountKey(k) != k
  {
    assert |CountKey(k)| == |k| + |COUNT_SUFFIX|;
  }

  /** Dropping the last entry keeps the samples valid, the keys distinct and no count key colliding. */
  lemma FrontHypotheses(data: Dict, picks: seq<seq<nat>>)
    requires |data| > 0 && ValidPicks(data, picks)
    ensures var n := |data| - 1;
      && ValidPicks(data[..n], picks[..n])
      && (DistinctKeys(data) ==> DistinctKeys(data[..n]))
      && (NoCountCollision(data) ==> NoCountCollision(data[..n]))
  {
    var n := |data| - 1;
    assert forall j :: 0 <= j < n ==> data[..n][j] == data[j] && picks[..n][j] == picks[j];
  }

  /**
   * What `_summarize` makes of entry `i` of `data`: a value that is not a
   * long list is copied unchanged; a long list becomes the sampled elements
   * and `<key>_total_count` holds its length.  This needs the keys to be
   * distinct, as in every Python dict, and no count key to collide.
   */
  lemma {:induction false} SummarizeEntryKept(data: Dict, picks: seq<seq<nat>>, i: nat)
    requires ValidPicks(data, picks) && DistinctKeys(data) && NoCountCollision(data)
    requires i < |data|
    ensures var r := SummarizeWith(data, picks);
      var (k, v) := data[i];
      && (!IsLongList(v) ==> Get(r, k) == Some(v))
      && (IsLongList(v) ==>
            && Get(r, k) == Some(Arr(Pick(v.items, picks[i])))
            && Get(r, CountKey(k)) == Some(Int(|v.items|)))
    decreases |data|
  {
    var n := |data| - 1;
    var (k, v) := data[i];
    var front := SummarizeWith(data[..n], picks[..n]);
    var (k', v') := data[n];
    assert SummarizeWith(data, picks) == SummarizeEntry(front, k', v', picks[n]);
    if i == n {
      CountKeyNotKey(k);
    } else {
      FrontHypotheses(data, picks);
      assert data[..n][i] == data[i] && picks[..n][i] == picks[i];
      SummarizeEntryKept(data[..n], picks[..n], i);
      assert k' != k;
      if IsLongList(v') {
        assert CountKey(k') != k;
        if IsLongList(v) {
          if CountKey(k') == CountKey(k) { CountKeyInjective(k', k); }
        }
      }
    }
  }

  /** Summarizing one entry more is one more iteration of the loop. */
  lemma SummarizeSnoc(data: Dict, picks: seq<seq<nat>>, i: nat, sample: seq<nat>)
    requires i < |data| && ValidPicks(data[..i], picks)
    requires IsLongList(data[i].1) ==> IsSample(sample, |data[i].1.items|)
    ensures ValidPicks(data[..i + 1], picks + [sample])
    ensures SummarizeWith(data[..i + 1], picks + [sample])
         == SummarizeEntry(SummarizeWith(data[..i], picks), data[i].0, data[i].1, sample)
  {
    assert data[..i + 1][..i] == data[..i];
    assert (picks + [sample])[..i] == picks;
  }

  lemma NotAKey(d: Dict, k: string)
    requires forall j :: 0 <= j < |d| ==> d[j].0 != k
    ensures k !in Keys(d)
  {
  }

  lemma FrontAndLast<T>(s: seq<T>)
    requires |s| > 0
    ensures s[..|s| - 1] + [s[|s| - 1]] == s
  {
  }

  /** When no top-level value is a long list, `_summarize` returns a copy of `data`. */
  lemma {:induction false} SummarizeWithoutLongLists(data: Dict, picks: seq<seq<nat>>)
    requires ValidPicks(data, picks) && DistinctKeys(data)
    requires forall j :: 0 <= j < |data| ==> !IsLongList(data[j].1)
    ensures SummarizeWith(data, picks) == data
    decreases |data|
  {
    if |data| > 0 {
      var n := |data| - 1;
      var front := data[..n];
      var last := data[n];
      FrontHypotheses(data, picks);
      assert forall j :: 0 <= j < n ==> front[j] == data[j];
      SummarizeWithoutLongLists(front, picks[..n]);
      NotAKey(front, last.0);
      LastEntryAppended(data, picks);
    }
  }

  lemma LastEntryAppended(data: Dict, picks: seq<seq<nat>>)
    requires |data| > 0 && ValidPicks(data, picks)
    requires SummarizeWith(data[..|data| - 1], picks[..|data| - 1]) == data[..|data| - 1]
    requires !IsLongList(data[|data| - 1].1) && data[|data| - 1].0 !in Keys(data[..|data| - 1])
    ensures SummarizeWith(data, picks) == data
  {
    var n := |data| - 1;
    var last := data[n];
    assert (last.0, last.1) == last;
    FrontAndLast(data);
  }

  /** `items` with the element at position `p` removed. */
  function Without(items: seq<Value>, p: nat): seq<Value>
    requires p < |items|
  {
    items[..p] + items[p + 1..]
  }

  /** Positions of `items` renumbered after the element at `p` is removed. */
  function Shift(positions: seq<nat>, p: nat): (r: seq<nat>)
    ensures |r| == |positions|
  {
    seq(|positions|, j requires 0 <= j < |positions| => if positions[j] > p then positions[j] - 1 else positions[j])
  }

  /**
   * The elements picked at distinct positions form a sub-multiset of the
   * list: the sample is a permutation of some of the original elements.
   */
  lemma {:induction false} PickSubMultiset(items: seq<Value>, positions: seq<nat>)
    requires forall j :: 0 <= j < |positions| ==> positions[j] < |items|
    requires forall j, l :: 0 <= j < l < |positions| ==> positions[j] != positions[l]
    ensures multiset(Pick(items, positions)) <= multiset(items)
    decreases |positions|
  {
    if |positions| > 0 {
      var m := |positions| - 1;
      var p := positions[m];
      var front := positions[..m];
      var rest := Without(items, p);
      var shifted := Shift(front, p);
      forall j | 0 <= j < m ensures shifted[j] < |rest| && rest[shifted[j]] == items[front[j]] {
        assert front[j] == positions[j] != p;
      }
      forall j, l | 0 <= j < l < m ensures shifted[j] != shifted[l] {
        assert front[j] == positions[j] && front[l] == positions[l];
      }
      PickSubMultiset(rest, shifted);
      assert Pick(rest, shifted) == Pick(items, front);
      assert Pick(items, positions) == Pick(items, front) + [items[p]];
      assert items == items[..p] + [items[p]] + items[p + 1..];
      assert multiset(items) == multiset(rest) + multiset{items[p]};
    }
  }

  /**
   * Each long list is replaced by exactly `SAMPLE_SIZE` of its elements, taken
   * from distinct positions, so the sample is a sub-multiset of the list.
   */
  lemma LongListSampled(data: Dict, picks: seq<seq<nat>>, i: nat)
    requires ValidPicks(data, picks) && DistinctKeys(data) && NoCountCollision(data)
    requires i < |data| && IsLongList(data[i].1)
    ensures var r := SummarizeWith(data, picks);
      && Get(r, data[i].0).Some? && Get(r, data[i].0).value.Arr?
      && |Get(r, data[i].0).value.items| == SAMPLE_SIZE
      && multiset(Get(r, data[i].0).value.items) <= multiset(data[i].1.items)
  {
    SummarizeEntryKept(data, picks, i);
    PickSubMultiset(data[i].1.items, picks[i]);
  }

  /**
   * The count of a long list can be lost: when `data` already has the key
   * `<key>_total_count` after a long list under `key`, the later assignment
   * of that entry overwrites the count.
   */
  lemma CountOverwritten()
    ensures var long := Arr(seq(SAMPLE_SIZE + 1, _ => Null));
      var data := [("a", long), ("a_total_count", Str("x"))];
      var picks := [seq(SAMPLE_SIZE, j => j), []];
      && ValidPicks(data, picks) && DistinctKeys(data)
      && Get(SummarizeWith(data, picks), CountKey("a")) == Some(Str("x"))
  {
    var long := Arr(seq(SAMPLE_SIZE + 1, _ => Null));
    var data := [("a", long), ("a_total_count", Str("x"))];
    var picks := [seq(SAMPLE_SIZE, j => j), []];
    assert CountKey("a") == "a_total_count";
    assert data[..1] == [("a", long)] && picks[..1] == [picks[0]];
    assert [("a", long)][..0] == [];
  }

  /**
   * The other way round, the count overwrites: when `<key>_total_count` comes
   * before a long list under `key`, that entry's own value is lost.
   */
  lemma CountOverwritesEntry()
    ensures var long := Arr(seq(SAMPLE_SIZE + 1, _ => Null));
      var data := [("a_total_count", Str("x")), ("a", long)];
      var picks := [[], seq(SAMPLE_SIZE, j => j)];
      && ValidPicks(data, picks) && DistinctKeys(data)
      && Get(SummarizeWith(data, picks), CountKey("a")) == Some(Int(SAMPLE_SIZE + 1))
  {
    var long := Arr(seq(SAMPLE_SIZE + 1, _ => Null));
    var data := [("a_total_count", Str("x")), ("a", long)];
    var picks := [[], seq(SAMPLE_SIZE, j => j)];
    assert IsSample(picks[1], SAMPLE_SIZE + 1);
    assert CountKey("a") == "a_total_count";
    assert data[..1] == [data[0]] && picks[..1] == [picks[0]];
    assert [data[0]][..0] == [];
  }

  /** Likewise when the entry under `<key>_total_count` is itself a long list: its sample is lost. */
  lemma CountOverwritesSample()
    ensures var long := Arr(seq(SAMPLE_SIZE + 1, _ => Null));
      var data := [("b_total_count", long), ("b", long)];
      var picks := [seq(SAMPLE_SIZE, j => j), seq(SAMPLE_SIZE, j => j)];
      && ValidPicks(data, picks) && DistinctKeys(data)
      && Get(SummarizeWith(data, picks), CountKey("b")) == Some(Int(SAMPLE_SIZE + 1))
  {
    var long := Arr(seq(SAMPLE_SIZE + 1, _ => Null));
    var data := [("b_total_count", long), ("b", long)];
    var picks := [seq(SAMPLE_SIZE, j => j), seq(SAMPLE_SIZE, j => j)];
    assert IsSample(picks[0], SAMPLE_SIZE + 1);
    assert CountKey("b") == "b_total_count";
    assert data[..1] == [data[0]] && picks[..1] == [picks[0]];
    assert [data[0]][..0] == [];
  }

  /** `random.sample(range(n), SAMPLE_SIZE)`: any choice of `SAMPLE_SIZE` distinct positions. */
  method RandomSample(n: nat) returns (positions: seq<nat>)
    requires n >= SAMPLE_SIZE
    ensures IsSample(positions, n)
  {
    assert IsSample(seq(SAMPLE_SIZE, j => j), n);
    positions :| IsSample(positions, n);
  }

  class XRayRun {
    var pipelineName: string
    var metadata: Dict
    var steps: seq<XRayStep>

    /** A fresh run: no steps, and `metadata or {}`. */
    constructor (pipelineName: string, metadata: Option<Dict>)
      ensures this.pipelineName == pipelineName
      ensures this.metadata == metadata.GetOr([])
      ensures steps == []
    {
      this.pipelineName := pipelineName;
      this.metadata := match metadata case Some(m) => m case None => [];
      steps := [];
    }

    /**
     * `_summarize`: one pass over the top-level entries, sampling every long
     * list; `picks` records the positions `random.sample` chose.
     */
    method Summarize(data: Dict) returns (summarized: Dict, ghost picks: seq<seq<nat>>)
      ensures ValidPicks(data, picks)
      ensures summarized == SummarizeWith(data, picks)
      ensures DistinctKeys(summarized) && Keys(summarized) == Keys(data) + CountKeys(data)
    {
      summarized := [];
      picks := [];
      var i := 0;
      while i < |data|
        invariant 0 <= i <= |data|
        invariant ValidPicks(data[..i], picks)
        invariant summarized == SummarizeWith(data[..i], picks)
      {
        var (key, value) := data[i];
        var sample: seq<nat> := [];
        if IsLongList(value) {
          sample := RandomSample(|value.items|);
          summarized := SetKey(summarized, key, Arr(Pick(value.items, sample)));
          summarized := SetKey(summarized, CountKey(key), Int(|value.items|));
        } else {
          summarized := SetKey(summarized, key, value);
        }
        SummarizeSnoc(data, picks, i, sample);
        picks := picks + [sample];
        i := i + 1;
      }
      assert data[..i] == data;
      SummaryKeys(data, picks);
    }

    /**
     * `add_step`: the step is appended last, its outputs replaced by their
     * summary when they serialize to more than `MAX_OUTPUT_SIZE` characters.
     */
    method AddStep(step: XRayStep, size: Size) returns (ghost picks: seq<seq<nat>>)
      modifies this`steps
      ensures |steps| == |old(steps)| + 1 && steps[..|old(steps)|] == old(steps)
      ensures var added := steps[|steps| - 1];
        && added.name == step.name && added.order == step.order && added.inputs == step.inputs
        && (size(step.outputs) <= MAX_OUTPUT_SIZE ==> added == step)
        && (size(step.outputs) > MAX_OUTPUT_SIZE ==>
              ValidPicks(step.outputs, picks) && added.outputs == SummarizeWith(step.outputs, picks))
    {
      var added := step;
      picks := [];
      if size(step.outputs) > MAX_OUTPUT_SIZE {
        var summarized;
        summarized, picks := Summarize(step.outputs);
        added := step.(outputs := summarized);
      }
      steps := steps + [added];
    }

    /** `to_dict()`: the name, the metadata and every step's `to_dict()`, in insertion order. */
    function ToDict(): (d: Dict)
      reads this
      ensures DistinctKeys(d)
      ensures Get(d, "pipeline_name") == Some(Str(pipelineName))
      ensures Get(d, "metadata") == Some(Obj(metadata))
      ensures Get(d, "steps").Some? && Get(d, "steps").value.Arr?
      ensures var items := Get(d, "steps").value.items;
        && |items| == |steps|
        && forall j :: 0 <= j < |steps| ==> items[j].Obj? && SdkStep.FromDict(items[j].fields) == Some(steps[j])
    {
      var items := StepDicts(steps);
      var d := [("pipeline_name", Str(pipelineName)), ("metadata", Obj(metadata)), ("steps", Arr(items))];
      GetThrough(d, 1, "metadata");
      GetThrough(d, 2, "steps");
      d
    }
  }

  /** `[step.to_dict() for step in steps]`. */
  function StepDicts(steps: seq<XRayStep>): (items: seq<Value>)
    ensures |items| == |steps|
    ensures forall j :: 0 <= j < |steps| ==> items[j].Obj? && SdkStep.FromDict(items[j].fields) == Some(steps[j])
  {
    forall j | 0 <= j < |steps| ensures SdkStep.FromDict(SdkStep.ToDict(steps[j])) == Some(steps[j]) {
      ToDictRoundTrip(steps[j]);
    }
    seq(|steps|, j requires 0 <= j < |steps| => Obj(SdkStep.ToDict(steps[j])))
  }
}
