/**
 * The JSON-compatible Python values that flow through the tracer: the
 * payloads of steps, the verdicts decoded from the reasoning service and the
 * reports the analyzer returns.  A Python `dict` is an insertion-ordered list
 * of entries; `d[k] = v` replaces the entry of `k` in place or appends one.
 */
module Json {
  import opened Wrappers

  datatype Value =
    | Null
    | Bool(b: bool)
    | Int(i: int)
    | Float(r: real)
    | Str(s: string)
    | Arr(items: seq<Value>)
    | Obj(fields: Dict)

  type Dict = seq<(string, Value)>

  /** The values Python treats as false. */
  const FALSY: set<Value> := {Null, Bool(false), Int(0), Float(0.0), Str(""), Arr([]), Obj([])}

  /** Python truthiness: a value is true exactly when it is none of the falsy values. */
  predicate Truthy(v: Value): (t: bool)
    ensures t <==> v !in FALSY
  {
    match v
    case Null => false
    case Bool(b) => b
    case Int(i) => i != 0
    case Float(r) => r != 0.0
    case Str(s) => |s| > 0
    case Arr(a) => |a| > 0
    case Obj(f) => |f| > 0
  }

  /** Truthiness of `d.get(k)`: a missing key reads as None. */
  predicate TruthyOpt(o: Option<Value>) {
    o.Some? && Truthy(o.value)
  }

  function Keys(d: Dict): set<string> {
    set i | 0 <= i < |d| :: d[i].0
  }

  /** Every Python dict has distinct keys. */
  predicate DistinctKeys(d: Dict) {
    forall i, j :: 0 <= i < j < |d| ==> d[i].0 != d[j].0
  }

  lemma KeysCons(d: Dict)
    requires |d| > 0
    ensures Keys(d) == {d[0].0} + Keys(d[1..])
  {
    forall x | x in Keys(d) ensures x == d[0].0 || x in Keys(d[1..]) {
      var i :| 0 <= i < |d| && d[i].0 == x;
      if i > 0 { assert d[1..][i - 1].0 == x; }
    }
  }

  lemma DistinctCons(d: Dict)
    requires |d| > 0 && DistinctKeys(d)
    ensures DistinctKeys(d[1..]) && d[0].0 !in Keys(d[1..])
  {
    forall a, b | 0 <= a < b < |d[1..]| ensures d[1..][a].0 != d[1..][b].0 {
      assert d[a + 1].0 != d[b + 1].0;
    }
  }

  /** `d.get(k)`, with None for a missing key. */
  function Get(d: Dict, k: string): Option<Value> {
    if |d| == 0 then None
    else if d[0].0 == k then Some(d[0].1)
    else Get(d[1..], k)
  }

  /** `d.get(k)` finds a value exactly when `k` is one of the keys of `d`. */
  lemma {:induction false} GetFindsKeys(d: Dict, k: string)
    ensures Get(d, k).Some? <==> k in Keys(d)
  {
    if |d| > 0 {
      KeysCons(d);
      GetFindsKeys(d[1..], k);
    }
  }

  /** `d.get(k, default)`. */
  function GetOr(d: Dict, k: string, default: Value): Value {
    Get(d, k).GetOr(default)
  }

  /** Looking a key up skips every leading entry with another key. */
  lemma {:induction false} GetThrough(d: Dict, n: nat, k: string)
    requires n <= |d|
    requires forall i :: 0 <= i < n ==> d[i].0 != k
    ensures Get(d, k) == Get(d[n..], k)
  {
    if n > 0 {
      assert d[1..][n - 1..] == d[n..];
      GetThrough(d[1..], n - 1, k);
    }
  }

  /** In a dict with distinct keys, looking up the key of entry `i` finds that entry's value. */
  lemma {:induction false} GetEntry(d: Dict, i: nat)
    requires DistinctKeys(d) && i < |d|
    ensures Get(d, d[i].0) == Some(d[i].1)
  {
    if i > 0 {
      assert d[0].0 != d[i].0;
      DistinctCons(d);
      GetEntry(d[1..], i - 1);
    }
  }

  /**
   * `d[k] = v`: the entry of `k` is replaced where it stands, or a new entry
   * is appended at the end; no other key changes.
   */
  function SetKey(d: Dict, k: string, v: Value): (r: Dict)
    ensures Keys(r) == Keys(d) + {k}
    ensures Get(r, k) == Some(v)
    ensures forall k' :: k' != k ==> Get(r, k') == Get(d, k')
    ensures DistinctKeys(d) ==> DistinctKeys(r)
    ensures k !in Keys(d) ==> r == d + [(k, v)]
  {
    if |d| == 0 then
      assert Keys([(k, v)]) == {k} by { assert [(k, v)][0].0 == k; }
      [(k, v)]
    else if d[0].0 == k then
      var r := [(k, v)] + d[1..];
      KeysCons(d);
      KeysCons(r);
      assert r[1..] == d[1..];
      r
    else
      var rest := SetKey(d[1..], k, v);
      var r := [d[0]] + rest;
      assert r[1..] == rest;
      KeysCons(d);
      KeysCons(r);
      SetKeyDistinct(d, k, v, rest, r);
      r
  }

  lemma SetKeyDistinct(d: Dict, k: string, v: Value, rest: Dict, r: Dict)
    requires |d| > 0 && d[0].0 != k
    requires Keys(rest) == Keys(d[1..]) + {k}
    requires DistinctKeys(d[1..]) ==> DistinctKeys(rest)
    requires r == [d[0]] + rest
    ensures DistinctKeys(d) ==> DistinctKeys(r)
  {
    if DistinctKeys(d) {
      DistinctCons(d);
      forall a, b | 0 <= a < b < |r| ensures r[a].0 != r[b].0 {
        if a == 0 { assert r[b] == rest[b - 1]; assert r[b].0 in Keys(rest); }
        else { assert r[a] == rest[a - 1] && r[b] == rest[b - 1]; }
      }
    }
  }
}
