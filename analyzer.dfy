/**
 * `XRayAnalyzer.analyze_run`: sorts a trace's steps by their order, then
 * either asks the reasoning service once about all of them (two steps or
 * fewer) or slides a window of two adjacent steps along the trace, asking
 * once per window and stopping at the first window whose verdict names a
 * faulty step.  The service is the parameter `oracle`; `json.loads` is the
 * parameter `decode`.
 */
module Analyzer {
  import opened Wrappers
  import opened Json
  import opened Trace
  import opened Prompts
  import opened ResponseParser
  import opened Combiner

  const WINDOW_SIZE: nat := 2
  const NO_STEPS: string := "No steps to analyze"
  const ANALYSIS_FAILED: string := "Analysis failed"

  /** Which fixed system prompt accompanies a request. */
  datatype Instructions = WindowInstructions | FullInstructions

  /** One call to the reasoning service: system prompt and user prompt. */
  datatype Request = Request(instructions: Instructions, prompt: seq<Line>)

  /** The reasoning service: the reply text, or the message of the exception it raised. */
  type Oracle = Request -> Result<string, string>

  /** `{"error": "No steps to analyze"}`. */
  function NoStepsReport(): (r: Dict)
    ensures Get(r, "error") == Some(Str(NO_STEPS)) && !IsFault(r)
  {
    var r := [("error", Str(NO_STEPS))];
    GetThrough(r, 1, "faulty_step");
    r
  }

  /** The verdict of a window whose service call raised: `{"error": msg, "faulty_step": None}`. */
  function WindowErrorVerdict(msg: string): (v: Dict)
    ensures Get(v, "error") == Some(Str(msg))
    ensures Get(v, "faulty_step") == Some(Null) && !IsFault(v)
  {
    var v := [("error", Str(msg)), ("faulty_step", Null)];
    GetThrough(v, 1, "faulty_step");
    v
  }

  /** The result of a direct analysis whose service call raised. */
  function FailedAnalysisVerdict(msg: string): (v: Dict)
    ensures Get(v, "error") == Some(Str(msg))
    ensures Get(v, "faulty_step") == Some(Null) && !IsFault(v)
    ensures Get(v, "reason") == Some(Str(ANALYSIS_FAILED))
    ensures Get(v, "analysis_method") == None && Get(v, "windows_analyzed") == None
  {
    var v := [("error", Str(msg)), ("faulty_step", Null), ("reason", Str(ANALYSIS_FAILED))];
    GetThrough(v, 1, "faulty_step");
    GetThrough(v, 2, "reason");
    GetThrough(v, 3, "analysis_method");
    GetThrough(v, 3, "windows_analyzed");
    v
  }

  /** The request `_analyze_window` sends for the steps of one window. */
  function WindowRequest(window: seq<StepRecord>, windowIndex: nat, run: RunData): Request
    requires |window| > 0
  {
    Request(WindowInstructions, WindowPrompt(window, windowIndex, run))
  }

  /** `_analyze_window`: the parsed reply, or an error verdict when the call raises. */
  function WindowVerdict(window: seq<StepRecord>, windowIndex: nat, run: RunData, oracle: Oracle, decode: Decoder): (v: Dict)
    requires |window| > 0
    ensures oracle(WindowRequest(window, windowIndex, run)).Failure? ==>
      && Get(v, "error") == Some(Str(oracle(WindowRequest(window, windowIndex, run)).error))
      && !IsFault(v)
  {
    match oracle(WindowRequest(window, windowIndex, run))
    case Success(text) => Parsed(text, decode)
    case Failure(e) => WindowErrorVerdict(e)
  }

  /** `_analyze_steps`: one request about all steps; a raised call gives the failed-analysis verdict. */
  function DirectVerdict(steps: seq<StepRecord>, run: RunData, oracle: Oracle, decode: Decoder): (v: Dict)
    ensures oracle(Request(FullInstructions, AnalysisPrompt(steps, run))).Failure? ==>
      && Get(v, "error") == Some(Str(oracle(Request(FullInstructions, AnalysisPrompt(steps, run))).error))
      && Get(v, "reason") == Some(Str(ANALYSIS_FAILED))
      && !IsFault(v) && Get(v, "windows_analyzed") == None
  {
    match oracle(Request(FullInstructions, AnalysisPrompt(steps, run)))
    case Success(text) => Parsed(text, decode)
    case Failure(e) => FailedAnalysisVerdict(e)
  }

  /**
   * The verdict on window `i`, which holds exactly the sorted steps `i` and
   * `i + 1`; there is no window past the last step, and `{}` stands in for it.
   */
  function VerdictAt(sorted: seq<StepRecord>, i: nat, run: RunData, oracle: Oracle, decode: Decoder): Dict {
    if i + 1 < |sorted| then WindowVerdict([sorted[i], sorted[i + 1]], i, run, oracle, decode) else []
  }

  /** The request sent for window `i`; an empty prompt stands in past the last step. */
  function RequestAt(sorted: seq<StepRecord>, i: nat, run: RunData): Request {
    if i + 1 < |sorted| then WindowRequest([sorted[i], sorted[i + 1]], i, run) else Request(WindowInstructions, [])
  }

  /** `[f(0), ..., f(n - 1)]`, built by appending in index order. */
  function Tabulate<T>(f: nat -> T, n: nat): (r: seq<T>)
    ensures |r| == n
  {
    if n == 0 then [] else Tabulate(f, n - 1) + [f(n - 1)]
  }

  lemma {:induction false} TabulateAt<T>(f: nat -> T, n: nat, k: nat)
    requires k < n
    ensures Tabulate(f, n)[k] == f(k)
  {
    if k < n - 1 {
      TabulateAt(f, n - 1, k);
    }
  }

  /** Window `i` of the sorted steps to its verdict. */
  function VerdictOf(sorted: seq<StepRecord>, run: RunData, oracle: Oracle, decode: Decoder): nat -> Dict {
    (i: nat) => VerdictAt(sorted, i, run, oracle, decode)
  }

  /** Window `i` of the sorted steps to the request sent for it. */
  function RequestOf(sorted: seq<StepRecord>, run: RunData): nat -> Request {
    (i: nat) => RequestAt(sorted, i, run)
  }

  /** The verdicts of all `n - 1` windows of the sorted steps, window `i` at position `i`. */
  function WindowVerdicts(sorted: seq<StepRecord>, run: RunData, oracle: Oracle, decode: Decoder): (vs: seq<Dict>)
    requires |sorted| > 0
    ensures |vs| == |sorted| - 1
  {
    Tabulate(VerdictOf(sorted, run, oracle, decode), |sorted| - 1)
  }

  /** The requests for the first `n` windows, in the order they are sent. */
  function WindowRequests(sorted: seq<StepRecord>, n: nat, run: RunData): (rs: seq<Request>)
    requires n < |sorted|
    ensures |rs| == n
  {
    Tabulate(RequestOf(sorted, run), n)
  }

  /** Entry `i` of the window verdicts is the verdict on sorted steps `i` and `i + 1`. */
  lemma WindowVerdictAt(sorted: seq<StepRecord>, i: nat, run: RunData, oracle: Oracle, decode: Decoder)
    requires i + 1 < |sorted|
    ensures WindowVerdicts(sorted, run, oracle, decode)[i] == WindowVerdict([sorted[i], sorted[i + 1]], i, run, oracle, decode)
  {
    TabulateAt(VerdictOf(sorted, run, oracle, decode), |sorted| - 1, i);
  }

  /** Request `k` carries the window prompt for sorted steps `k` and `k + 1`. */
  lemma WindowRequestAt(sorted: seq<StepRecord>, n: nat, k: nat, run: RunData)
    requires k < n < |sorted|
    ensures WindowRequests(sorted, n, run)[k] == Request(WindowInstructions, WindowPrompt([sorted[k], sorted[k + 1]], k, run))
  {
    TabulateAt(RequestOf(sorted, run), n, k);
  }

  /**
   * The verdicts the sliding scan collects from the window verdicts `vs`:
   * a prefix of `vs` in which no verdict but the last reports a fault, cut
   * short only right after a fault.
   */
  function ScanVerdicts(vs: seq<Dict>): (rs: seq<Dict>)
    ensures |rs| <= |vs| && rs == vs[..|rs|]
    ensures forall k :: 0 <= k < |rs| - 1 ==> !IsFault(rs[k])
    ensures |rs| < |vs| ==> |rs| > 0 && IsFault(rs[|rs| - 1])
  {
    if |vs| == 0 then []
    else if IsFault(vs[0]) then [vs[0]]
    else
      var rest := ScanVerdicts(vs[1..]);
      var rs := [vs[0]] + rest;
      assert forall k :: 1 <= k < |rs| ==> rs[k] == rest[k - 1];
      rs
  }

  /** The scan ends right after the first faulty window `f`, or covers every window when none is faulty. */
  lemma ScanStopsAtFirstFault(vs: seq<Dict>)
    ensures forall f :: FirstFaultAt(vs, f) ==> |ScanVerdicts(vs)| == f + 1 && FirstFaultAt(ScanVerdicts(vs), f)
    ensures NoFault(vs) ==> ScanVerdicts(vs) == vs
  {
  }

  lemma NoFaultAppend(rs: seq<Dict>, v: Dict)
    ensures NoFault(rs + [v]) <==> NoFault(rs) && !IsFault(v)
  {
    assert forall k :: 0 <= k < |rs| ==> (rs + [v])[k] == rs[k];
    assert (rs + [v])[|rs|] == v;
  }

  lemma AppendNext<T>(f: nat -> T, i: nat, prev: seq<T>, x: T)
    requires prev == Tabulate(f, i) && x == f(i)
    ensures prev + [x] == Tabulate(f, i + 1)
  {
  }

  lemma TakeNext<T>(s: seq<T>, i: nat, prev: seq<T>, x: T)
    requires i < |s| && prev == s[..i] && x == s[i]
    ensures prev + [x] == s[..i + 1]
  {
  }

  /** When verdict `i` is the first faulty one, the scan ends with it. */
  lemma ScanEndsAt(vs: seq<Dict>, i: nat, w: seq<Dict>)
    requires i < |vs| && w == vs[..i + 1]
    requires NoFault(w[..i]) && IsFault(w[i])
    ensures w == ScanVerdicts(vs)
  {
    assert FirstFaultAt(vs, i) by {
      forall k | 0 <= k < i ensures !IsFault(vs[k]) {
        assert vs[k] == w[..i][k];
      }
    }
    ScanStopsAtFirstFault(vs);
  }

  /** Window `i` is `sorted[i:i + 2]`. */
  lemma WindowIsPair(sorted: seq<StepRecord>, i: nat, window: seq<StepRecord>)
    requires i + 1 < |sorted| && window == sorted[i..i + WINDOW_SIZE]
    ensures window == [sorted[i], sorted[i + 1]]
  {
  }

  /**
   * One turn of the sliding-window loop: the verdict and request of window
   * `i` extend the verdicts and requests of the windows before it, and a
   * faulty verdict completes the scan.
   */
  lemma WindowStep(sorted: seq<StepRecord>, i: nat, window: seq<StepRecord>, result: Dict, request: Request,
                   prev: seq<Dict>, prevCalls: seq<Request>, run: RunData, oracle: Oracle, decode: Decoder)
    requires i + 1 < |sorted| && window == sorted[i..i + WINDOW_SIZE]
    requires result == WindowVerdict(window, i, run, oracle, decode) && request == WindowRequest(window, i, run)
    requires prev == WindowVerdicts(sorted, run, oracle, decode)[..i]
    requires prevCalls == WindowRequests(sorted, i, run)
    requires NoFault(prev)
    ensures prev + [result] == WindowVerdicts(sorted, run, oracle, decode)[..i + 1]
    ensures prevCalls + [request] == WindowRequests(sorted, i + 1, run)
    ensures !IsFault(result) ==> NoFault(prev + [result])
    ensures IsFault(result) ==> prev + [result] == ScanVerdicts(WindowVerdicts(sorted, run, oracle, decode))
  {
    var vs := WindowVerdicts(sorted, run, oracle, decode);
    WindowIsPair(sorted, i, window);
    WindowVerdictAt(sorted, i, run, oracle, decode);
    TakeNext(vs, i, prev, result);
    AppendNext(RequestOf(sorted, run), i, prevCalls, request);
    NoFaultAppend(prev, result);
    if IsFault(result) {
      var w := prev + [result];
      assert w[..i] == prev;
      ScanEndsAt(vs, i, w);
    }
  }

  /** What `analyze_run` returns for `run`. */
  function Diagnosis(run: RunData, oracle: Oracle, decode: Decoder): Dict {
    var steps := StepsOf(run);
    if |steps| == 0 then NoStepsReport()
    else
      var sorted := SortedSteps(steps);
      if |sorted| <= WINDOW_SIZE then DirectVerdict(sorted, run, oracle, decode)
      else Combine(ScanVerdicts(WindowVerdicts(sorted, run, oracle, decode)), sorted)
  }

  /** An empty or missing step list is rejected with the "No steps to analyze" error. */
  lemma EmptyTraceRejected(run: RunData, oracle: Oracle, decode: Decoder)
    requires |StepsOf(run)| == 0
    ensures Get(Diagnosis(run, oracle, decode), "error") == Some(Str(NO_STEPS))
    ensures !IsFault(Diagnosis(run, oracle, decode))
  {
  }

  /**
   * With one or two steps, the result is the single direct verdict on all
   * sorted steps: the parsed reply, or the failed-analysis verdict, which
   * carries neither `analysis_method` nor `windows_analyzed`.
   */
  lemma SmallTraceAnalyzedDirectly(run: RunData, oracle: Oracle, decode: Decoder)
    requires 0 < |StepsOf(run)| <= WINDOW_SIZE
    ensures var sorted := SortedSteps(StepsOf(run));
      var reply := oracle(Request(FullInstructions, AnalysisPrompt(sorted, run)));
      && (reply.Success? ==> Diagnosis(run, oracle, decode) == Parsed(reply.value, decode))
      && (reply.Failure? ==>
            && Get(Diagnosis(run, oracle, decode), "error") == Some(Str(reply.error))
            && Get(Diagnosis(run, oracle, decode), "reason") == Some(Str(ANALYSIS_FAILED))
            && !IsFault(Diagnosis(run, oracle, decode))
            && Get(Diagnosis(run, oracle, decode), "windows_analyzed") == None)
  {
  }

  /** On one or two steps, the report is the direct verdict on all sorted steps. */
  lemma ShortTraceDiagnosis(run: RunData, oracle: Oracle, decode: Decoder)
    requires 0 < |StepsOf(run)| <= WINDOW_SIZE
    ensures Diagnosis(run, oracle, decode) == DirectVerdict(SortedSteps(StepsOf(run)), run, oracle, decode)
  {
  }

  /** On more than two steps, the report combines the verdicts of the scanned windows. */
  lemma LongTraceDiagnosis(run: RunData, oracle: Oracle, decode: Decoder)
    requires |StepsOf(run)| > WINDOW_SIZE
    ensures Diagnosis(run, oracle, decode)
         == Combine(ScanVerdicts(WindowVerdicts(SortedSteps(StepsOf(run)), run, oracle, decode)), SortedSteps(StepsOf(run)))
  {
  }

  /**
   * First-fault short circuit: on more than two steps, when window `f` is the
   * first faulty window, the report copies that window's faulty step, order,
   * reason and suggestion and counts `f + 1` windows.
   */
  lemma FirstFaultReported(run: RunData, oracle: Oracle, decode: Decoder, f: nat)
    requires |StepsOf(run)| > WINDOW_SIZE
    requires FirstFaultAt(WindowVerdicts(SortedSteps(StepsOf(run)), run, oracle, decode), f)
    ensures var v := WindowVerdicts(SortedSteps(StepsOf(run)), run, oracle, decode)[f];
      var r := Diagnosis(run, oracle, decode);
      && IsFault(r)
      && Get(r, "faulty_step") == Get(v, "faulty_step")
      && Get(r, "faulty_step_order") == Some(GetOr(v, "faulty_step_order", Null))
      && Get(r, "reason") == Some(GetOr(v, "reason", Str("")))
      && Get(r, "suggestion") == Some(GetOr(v, "suggestion", Str("")))
      && Get(r, "analysis_method") == Some(Str(SLIDING_WINDOW))
      && Get(r, "windows_analyzed") == Some(Int(f + 1))
  {
    var vs := WindowVerdicts(SortedSteps(StepsOf(run)), run, oracle, decode);
    LongTraceDiagnosis(run, oracle, decode);
    ScanStopsAtFirstFault(vs);
    var results := ScanVerdicts(vs);
    assert FirstFaultAt(results, f) && results[f] == vs[f] && |results| == f + 1;
  }

  /**
   * No-fault case: on more than two steps with no faulty window, the report
   * has no faulty step, counts all `n - 1` windows and lists every sorted
   * step, in order, as "ok".
   */
  lemma CleanTraceReported(run: RunData, oracle: Oracle, decode: Decoder)
    requires |StepsOf(run)| > WINDOW_SIZE
    requires NoFault(WindowVerdicts(SortedSteps(StepsOf(run)), run, oracle, decode))
    ensures var r := Diagnosis(run, oracle, decode);
      && r == CleanReport(|StepsOf(run)| - 1, SortedSteps(StepsOf(run)))
      && Get(r, "faulty_step") == Some(Null)
      && Get(r, "reason") == Some(Str(ALL_CLEAR))
      && Get(r, "windows_analyzed") == Some(Int(|StepsOf(run)| - 1))
  {
    LongTraceDiagnosis(run, oracle, decode);
    ScanStopsAtFirstFault(WindowVerdicts(SortedSteps(StepsOf(run)), run, oracle, decode));
  }

  /** `_analyze_window`: builds the window prompt, calls the service once, parses or records the error. */
  method AnalyzeWindow(windowSteps: seq<StepRecord>, windowIndex: nat, run: RunData, oracle: Oracle, decode: Decoder)
    returns (verdict: Dict, ghost request: Request)
    requires |windowSteps| > 0
    ensures request == WindowRequest(windowSteps, windowIndex, run)
    ensures verdict == WindowVerdict(windowSteps, windowIndex, run, oracle, decode)
  {
    var prompt := BuildWindowPrompt(windowSteps, windowIndex, run);
    request := Request(WindowInstructions, prompt);
    var reply := oracle(Request(WindowInstructions, prompt));
    match reply {
      case Success(text) => verdict := ParseAnalysisResponse(text, decode);
      case Failure(e) => verdict := WindowErrorVerdict(e);
    }
  }

  /** `_analyze_steps`: builds the full prompt, calls the service once, parses or records the error. */
  method AnalyzeSteps(steps: seq<StepRecord>, run: RunData, oracle: Oracle, decode: Decoder)
    returns (verdict: Dict, ghost request: Request)
    ensures request == Request(FullInstructions, AnalysisPrompt(steps, run))
    ensures verdict == DirectVerdict(steps, run, oracle, decode)
  {
    var prompt := BuildAnalysisPrompt(steps, run);
    request := Request(FullInstructions, prompt);
    var reply := oracle(Request(FullInstructions, prompt));
    match reply {
      case Success(text) => verdict := ParseAnalysisResponse(text, decode);
      case Failure(e) => verdict := FailedAnalysisVerdict(e);
    }
  }

  /**
   * The sliding-window loop of `analyze_run`: window `i` holds sorted steps
   * `i` and `i + 1`; the loop appends each window's verdict and stops after
   * the first one that names a faulty step.
   */
  method SlideWindows(sorted: seq<StepRecord>, run: RunData, oracle: Oracle, decode: Decoder)
    returns (windowResults: seq<Dict>, ghost calls: seq<Request>)
    requires |sorted| > WINDOW_SIZE
    ensures windowResults == ScanVerdicts(WindowVerdicts(sorted, run, oracle, decode))
    ensures calls == WindowRequests(sorted, |windowResults|, run)
  {
    windowResults := [];
    calls := [];
    for i := 0 to |sorted| - 1
      invariant windowResults == WindowVerdicts(sorted, run, oracle, decode)[..i]
      invariant calls == WindowRequests(sorted, i, run)
      invariant NoFault(windowResults)
    {
      var window := sorted[i..i + WINDOW_SIZE];
      var result;
      ghost var request;
      result, request := AnalyzeWindow(window, i, run, oracle, decode);
      WindowStep(sorted, i, window, result, request, windowResults, calls, run, oracle, decode);
      windowResults := windowResults + [result];
      calls := calls + [request];
      if IsFault(result) {
        return;
      }
    }
    assert windowResults == WindowVerdicts(sorted, run, oracle, decode);
    ScanStopsAtFirstFault(windowResults);
  }

  /**
   * `analyze_run`.  `calls` records the service requests in the order they
   * are made: none for an empty trace, one about all sorted steps for a
   * trace of one or two steps, and otherwise one per scanned window, window
   * `k` holding sorted steps `k` and `k + 1`, at most `n - 1` of them.
   */
  method AnalyzeRun(run: RunData, oracle: Oracle, decode: Decoder) returns (report: Dict, ghost calls: seq<Request>)
    ensures report == Diagnosis(run, oracle, decode)
    ensures |StepsOf(run)| == 0 ==> calls == []
    ensures 0 < |StepsOf(run)| <= WINDOW_SIZE ==>
      calls == [Request(FullInstructions, AnalysisPrompt(SortedSteps(StepsOf(run)), run))]
    ensures |StepsOf(run)| > WINDOW_SIZE ==>
      calls == WindowRequests(SortedSteps(StepsOf(run)),
                              |ScanVerdicts(WindowVerdicts(SortedSteps(StepsOf(run)), run, oracle, decode))|, run)
  {
    var steps := run.steps.GetOr([]);
    if |steps| == 0 {
      report := NoStepsReport();
      calls := [];
      return;
    }
    var sorted := SortedSteps(steps);
    if |sorted| <= WINDOW_SIZE {
      ghost var request;
      report, request := AnalyzeSteps(sorted, run, oracle, decode);
      calls := [request];
      ShortTraceDiagnosis(run, oracle, decode);
      return;
    }
    var windowResults;
    windowResults, calls := SlideWindows(sorted, run, oracle, decode);
    LongTraceDiagnosis(run, oracle, decode);
    report := Combine(windowResults, sorted);
  }
}
