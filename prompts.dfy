/**
 * The user prompts sent to the reasoning service.  The source assembles a
 * list of text lines and joins them with newlines; here a prompt is the list
 * of lines, each line the data it shows.  Rendering a line to text (the
 * f-strings and `json.dumps` of inputs, outputs and metadata) is not modelled.
 */
module Prompts {
  import opened Wrappers
  import opened Json
  import opened Trace

  datatype Line =
    | PipelineHeading(pipelineName: string)                                // ## Pipeline: <name>
    | WindowHeading(number: int, firstOrder: Option<int>, lastOrder: Option<int>)  // ## Window <n>: Steps <a> -> <b>
    | MetadataLine(metadata: Value)                                        // ## Metadata: <json>
    | StepsExecutedHeading                                                 // ## Steps Executed:
    | StepHeading(order: Option<int>, stepName: string)                    // ### Step <order or ?>: <name>
    | InputsLine(inputs: Value)                                            // **Inputs:** <json>
    | OutputsLine(outputs: Value)                                          // **Outputs:** <json>
    | Blank
    | Rule                                                                 // ---
    | TransitionQuestion                                                   // the closing question of a window prompt
    | FirstFaultQuestion                                                   // the closing question of a full prompt

  /** `run_data.get('pipeline_name', 'unknown')`. */
  function PipelineName(run: RunData): string {
    run.pipelineName.GetOr("unknown")
  }

  /** The four lines one step contributes to either prompt. */
  function StepBlock(s: StepRecord): seq<Line> {
    [ StepHeading(s.stepOrder, s.stepName.GetOr("unknown")),
      InputsLine(s.inputs.GetOr(Obj([]))),
      OutputsLine(s.outputs.GetOr(Obj([]))),
      Blank ]
  }

  /** The step blocks of `steps`, appended in order. */
  function StepLines(steps: seq<StepRecord>): (r: seq<Line>)
    ensures |r| == 4 * |steps|
  {
    if |steps| == 0 then []
    else StepLines(steps[..|steps| - 1]) + StepBlock(steps[|steps| - 1])
  }

  function WindowHeader(window: seq<StepRecord>, windowIndex: int, run: RunData): seq<Line>
    requires |window| > 0
  {
    [ PipelineHeading(PipelineName(run)),
      WindowHeading(windowIndex + 1, window[0].stepOrder, window[|window| - 1].stepOrder),
      Blank ]
  }

  /** The prompt `_build_window_prompt` produces. */
  function WindowPrompt(window: seq<StepRecord>, windowIndex: int, run: RunData): seq<Line>
    requires |window| > 0
  {
    WindowHeader(window, windowIndex, run) + StepLines(window) + [TransitionQuestion]
  }

  function AnalysisHeader(run: RunData): seq<Line> {
    [ PipelineHeading(PipelineName(run)),
      MetadataLine(run.metadata.GetOr(Obj([]))),
      Blank,
      StepsExecutedHeading,
      Blank ]
  }

  /** The prompt `_build_analysis_prompt` produces. */
  function AnalysisPrompt(steps: seq<StepRecord>, run: RunData): seq<Line> {
    AnalysisHeader(run) + StepLines(steps) + [Rule, FirstFaultQuestion]
  }

  /** Lines `4j .. 4j+4` of the step section describe step `j`, for every step. */
  lemma {:induction false} StepLinesAt(steps: seq<StepRecord>, j: nat)
    requires j < |steps|
    ensures StepLines(steps)[4 * j .. 4 * j + 4] == StepBlock(steps[j])
  {
    var n := |steps| - 1;
    var init := steps[..n];
    assert StepLines(steps) == StepLines(init) + StepBlock(steps[n]);
    if j < n {
      StepLinesAt(init, j);
      assert StepLines(steps)[4 * j .. 4 * j + 4] == StepLines(init)[4 * j .. 4 * j + 4];
    } else {
      assert StepLines(steps)[4 * j .. 4 * j + 4] == StepBlock(steps[n]);
    }
  }

  /**
   * A window prompt over k steps has 3 + 4k + 1 lines: the pipeline and
   * window headings with the window's 1-based number and the orders of its
   * first and last step, a blank line, four lines per step in order, and
   * the closing question.
   */
  lemma WindowPromptShape(window: seq<StepRecord>, windowIndex: int, run: RunData)
    requires |window| > 0
    ensures var p := WindowPrompt(window, windowIndex, run);
      && |p| == 3 + 4 * |window| + 1
      && p[0] == PipelineHeading(PipelineName(run))
      && p[1] == WindowHeading(windowIndex + 1, window[0].stepOrder, window[|window| - 1].stepOrder)
      && p[2] == Blank
      && (forall j :: 0 <= j < |window| ==> p[3 + 4 * j .. 3 + 4 * j + 4] == StepBlock(window[j]))
      && p[|p| - 1] == TransitionQuestion
  {
    var p := WindowPrompt(window, windowIndex, run);
    forall j | 0 <= j < |window| ensures p[3 + 4 * j .. 3 + 4 * j + 4] == StepBlock(window[j]) {
      StepLinesAt(window, j);
      assert p[3 + 4 * j .. 3 + 4 * j + 4] == StepLines(window)[4 * j .. 4 * j + 4];
    }
  }

  /**
   * A full-analysis prompt over k steps has 5 + 4k + 2 lines: pipeline
   * heading, metadata, the steps heading between blank lines, four lines per
   * step in order, the rule and the closing question.
   */
  lemma AnalysisPromptShape(steps: seq<StepRecord>, run: RunData)
    ensures var p := AnalysisPrompt(steps, run);
      && |p| == 5 + 4 * |steps| + 2
      && p[..5] == AnalysisHeader(run)
      && (forall j :: 0 <= j < |steps| ==> p[5 + 4 * j .. 5 + 4 * j + 4] == StepBlock(steps[j]))
      && p[|p| - 2..] == [Rule, FirstFaultQuestion]
  {
    var p := AnalysisPrompt(steps, run);
    forall j | 0 <= j < |steps| ensures p[5 + 4 * j .. 5 + 4 * j + 4] == StepBlock(steps[j]) {
      StepLinesAt(steps, j);
      assert p[5 + 4 * j .. 5 + 4 * j + 4] == StepLines(steps)[4 * j .. 4 * j + 4];
    }
  }

  /** `_build_window_prompt`: the header lines, one block per step, the question. */
  method BuildWindowPrompt(steps: seq<StepRecord>, windowIndex: int, run: RunData) returns (parts: seq<Line>)
    requires |steps| > 0
    ensures parts == WindowPrompt(steps, windowIndex, run)
  {
    parts := [ PipelineHeading(PipelineName(run)),
               WindowHeading(windowIndex + 1, steps[0].stepOrder, steps[|steps| - 1].stepOrder),
               Blank ];
    for i := 0 to |steps|
      invariant parts == WindowHeader(steps, windowIndex, run) + StepLines(steps[..i])
    {
      var step := steps[i];
      parts := parts + [StepHeading(step.stepOrder, step.stepName.GetOr("unknown"))];
      parts := parts + [InputsLine(step.inputs.GetOr(Obj([])))];
      parts := parts + [OutputsLine(step.outputs.GetOr(Obj([])))];
      parts := parts + [Blank];
      assert steps[..i + 1][..i] == steps[..i];
    }
    assert steps[..|steps|] == steps;
    parts := parts + [TransitionQuestion];
  }

  /** `_build_analysis_prompt`: the header lines, one block per step, the closing lines. */
  method BuildAnalysisPrompt(steps: seq<StepRecord>, run: RunData) returns (parts: seq<Line>)
    ensures parts == AnalysisPrompt(steps, run)
  {
    parts := [ PipelineHeading(PipelineName(run)),
               MetadataLine(run.metadata.GetOr(Obj([]))),
               Blank,
               StepsExecutedHeading,
               Blank ];
    for i := 0 to |steps|
      invariant parts == AnalysisHeader(run) + StepLines(steps[..i])
    {
      var step := steps[i];
      parts := parts + [StepHeading(step.stepOrder, step.stepName.GetOr("unknown"))];
      parts := parts + [InputsLine(step.inputs.GetOr(Obj([])))];
      parts := parts + [OutputsLine(step.outputs.GetOr(Obj([])))];
      parts := parts + [Blank];
      assert steps[..i + 1][..i] == steps[..i];
    }
    assert steps[..|steps|] == steps;
    parts := parts + [Rule];
    parts := parts + [FirstFaultQuestion];
  }
}
