/**
 * `_combine_window_results`: reduces the verdicts of the windows scanned so
 * far to one report, either the first fault found or an all-clear listing
 * every step as "ok".
 */
module Combiner {
  import opened Wrappers
  import opened Json
  import opened Trace

  const SLIDING_WINDOW: string := "sliding_window"
  const ALL_CLEAR: string := "All step transitions appear correct"
  const TRANSITION_VERIFIED: string := "Transition verified"

  /** Window `i` is the first of `results` to report a fault. */
  predicate FirstFaultAt(results: seq<Dict>, i: int) {
    && 0 <= i < |results|
    && IsFault(results[i])
    && forall j :: 0 <= j < i ==> !IsFault(results[j])
  }

  /** No verdict in `results` names a faulty step. */
  predicate NoFault(results: seq<Dict>) {
    forall j :: 0 <= j < |results| ==> !IsFault(results[j])
  }

  /** The scan `for result in window_results: if result.get('faulty_step'): ...`, from position `from` on. */
  function FindFault(results: seq<Dict>, from: nat): (r: Option<nat>)
    requires from <= |results|
    ensures r.Some? ==> from <= r.value < |results| && IsFault(results[r.value])
    ensures r.Some? ==> forall j :: from <= j < r.value ==> !IsFault(results[j])
    ensures r.None? ==> NoFault(results[from..])
    decreases |results| - from
  {
    if from == |results| then None
    else if IsFault(results[from]) then Some(from)
    else FindFault(results, from + 1)
  }

  /** `s.get('step_name')`. */
  function StepNameValue(s: StepRecord): Value {
    match s.stepName
    case Some(n) => Str(n)
    case None => Null
  }

  /** The all-clear entry `{"step": ..., "status": "ok", "note": "Transition verified"}` of one step. */
  function StepStatus(s: StepRecord): (e: Value)
    ensures e.Obj?
    ensures Get(e.fields, "step") == Some(StepNameValue(s))
    ensures Get(e.fields, "status") == Some(Str("ok"))
    ensures Get(e.fields, "note") == Some(Str(TRANSITION_VERIFIED))
  {
    var f := [("step", StepNameValue(s)), ("status", Str("ok")), ("note", Str(TRANSITION_VERIFIED))];
    GetThrough(f, 1, "status");
    GetThrough(f, 2, "note");
    Obj(f)
  }

  /** The report for a fault found by `verdict` after `windows` windows. */
  function FaultReport(verdict: Dict, windows: nat): (r: Dict)
    requires IsFault(verdict)
    ensures IsFault(r)
    ensures Get(r, "faulty_step") == Get(verdict, "faulty_step")
    ensures Get(r, "faulty_step_order") == Some(GetOr(verdict, "faulty_step_order", Null))
    ensures Get(r, "reason") == Some(GetOr(verdict, "reason", Str("")))
    ensures Get(r, "suggestion") == Some(GetOr(verdict, "suggestion", Str("")))
    ensures Get(r, "analysis_method") == Some(Str(SLIDING_WINDOW))
    ensures Get(r, "windows_analyzed") == Some(Int(windows))
    ensures Get(r, "all_steps_analysis") == None
  {
    var r := [ ("faulty_step", Get(verdict, "faulty_step").value),
               ("faulty_step_order", GetOr(verdict, "faulty_step_order", Null)),
               ("reason", GetOr(verdict, "reason", Str(""))),
               ("suggestion", GetOr(verdict, "suggestion", Str(""))),
               ("analysis_method", Str(SLIDING_WINDOW)),
               ("windows_analyzed", Int(windows)) ];
    GetThrough(r, 1, "faulty_step_order");
    GetThrough(r, 2, "reason");
    GetThrough(r, 3, "suggestion");
    GetThrough(r, 4, "analysis_method");
    GetThrough(r, 5, "windows_analyzed");
    GetThrough(r, 6, "all_steps_analysis");
    r
  }

  /** The all-clear report after `windows` windows over the sorted steps `allSteps`. */
  function CleanReport(windows: nat, allSteps: seq<StepRecord>): (r: Dict)
    ensures !IsFault(r)
    ensures Get(r, "faulty_step") == Some(Null) && Get(r, "faulty_step_order") == Some(Null)
    ensures Get(r, "reason") == Some(Str(ALL_CLEAR))
    ensures Get(r, "suggestion") == Some(Null)
    ensures Get(r, "analysis_method") == Some(Str(SLIDING_WINDOW))
    ensures Get(r, "windows_analyzed") == Some(Int(windows))
    ensures Get(r, "all_steps_analysis").Some? && Get(r, "all_steps_analysis").value.Arr?
    ensures var entries := Get(r, "all_steps_analysis").value.items;
      && |entries| == |allSteps|
      && forall j :: 0 <= j < |allSteps| ==> entries[j] == StepStatus(allSteps[j])
  {
    var entries := seq(|allSteps|, j requires 0 <= j < |allSteps| => StepStatus(allSteps[j]));
    var r := [ ("faulty_step", Null),
               ("faulty_step_order", Null),
               ("reason", Str(ALL_CLEAR)),
               ("suggestion", Null),
               ("analysis_method", Str(SLIDING_WINDOW)),
               ("windows_analyzed", Int(windows)),
               ("all_steps_analysis", Arr(entries)) ];
    GetThrough(r, 1, "faulty_step_order");
    GetThrough(r, 2, "reason");
    GetThrough(r, 3, "suggestion");
    GetThrough(r, 4, "analysis_method");
    GetThrough(r, 5, "windows_analyzed");
    GetThrough(r, 6, "all_steps_analysis");
    r
  }

  /**
   * `_combine_window_results`: the first verdict that reports a fault
   * decides the report; with no fault the report is the all-clear one.
   * Either way it names the method and counts every window in `results`.
   */
  function Combine(results: seq<Dict>, allSteps: seq<StepRecord>): (r: Dict)
    ensures Get(r, "analysis_method") == Some(Str(SLIDING_WINDOW))
    ensures Get(r, "windows_analyzed") == Some(Int(|results|))
    ensures IsFault(r) <==> !NoFault(results)
    ensures forall i :: FirstFaultAt(results, i) ==>
      && Get(r, "faulty_step") == Get(results[i], "faulty_step")
      && Get(r, "faulty_step_order") == Some(GetOr(results[i], "faulty_step_order", Null))
      && Get(r, "reason") == Some(GetOr(results[i], "reason", Str("")))
      && Get(r, "suggestion") == Some(GetOr(results[i], "suggestion", Str("")))
      && Get(r, "all_steps_analysis") == None
    ensures NoFault(results) ==> r == CleanReport(|results|, allSteps)
  {
    match FindFault(results, 0)
    case Some(i) =>
      assert FirstFaultAt(results, i);
      FirstFaultUnique(results, i);
      FaultReport(results[i], |results|)
    case None => CleanReport(|results|, allSteps)
  }

  lemma FirstFaultUnique(results: seq<Dict>, i: int)
    requires FirstFaultAt(results, i)
    ensures forall j :: FirstFaultAt(results, j) ==> j == i
  {
  }
}
