/**
 * The trace as the analyzer receives it: the run dictionary with its
 * `pipeline_name`, `metadata` and `steps`, each step a dictionary with
 * `step_name`, `step_order`, `inputs` and `outputs`.  `None` stands for a
 * missing key, which the analyzer reads through `dict.get` defaults.
 */
module Trace {
  import opened Wrappers
  import opened Json
  import StableSort

  datatype StepRecord = StepRecord(
    stepName: Option<string>,
    stepOrder: Option<int>,
    inputs: Option<Value>,
    outputs: Option<Value>)

  datatype RunData = RunData(
    pipelineName: Option<string>,
    metadata: Option<Value>,
    steps: Option<seq<StepRecord>>)

  /**
   * A verdict reports a fault when `verdict.get('faulty_step')` is truthy;
   * a missing key, None, "" and the other falsy values report none.
   */
  predicate IsFault(verdict: Dict): (f: bool)
    ensures f <==> Get(verdict, "faulty_step").Some? && Get(verdict, "faulty_step").value !in FALSY
  {
    TruthyOpt(Get(verdict, "faulty_step"))
  }

  /** `run_data.get('steps', [])`. */
  function StepsOf(run: RunData): seq<StepRecord> {
    run.steps.GetOr([])
  }

  /** The sort key `s.get('step_order', 0)`. */
  function OrderKey(s: StepRecord): int {
    s.stepOrder.GetOr(0)
  }

  /** `sorted(steps, key=lambda s: s.get('step_order', 0))`. */
  function SortedSteps(steps: seq<StepRecord>): (r: seq<StepRecord>)
    ensures StableSort.SortedBy(r, OrderKey) && multiset(r) == multiset(steps)
  {
    StableSort.SortByIsSorted(steps, OrderKey);
    StableSort.SortBy(steps, OrderKey)
  }

  /**
   * The sorted steps are ordered by `step_order` (0 when missing), are a
   * permutation of the input, and keep the input order among steps with the
   * same order.
   */
  lemma SortedStepsSpec(steps: seq<StepRecord>)
    ensures StableSort.SortedBy(SortedSteps(steps), OrderKey)
    ensures multiset(SortedSteps(steps)) == multiset(steps)
    ensures forall k :: StableSort.WithKey(SortedSteps(steps), OrderKey, k) == StableSort.WithKey(steps, OrderKey, k)
  {
    StableSort.SortByIsSorted(steps, OrderKey);
    forall k ensures StableSort.WithKey(SortedSteps(steps), OrderKey, k) == StableSort.WithKey(steps, OrderKey, k) {
      StableSort.SortByIsStable(steps, OrderKey, k);
    }
  }
}
