# X-Ray pipeline tracer: analyzer and run recorder

This project models the two pieces of the X-Ray pipeline tracer that hold
real logic, and proves properties of them.

**The SDK's run recorder (`XRayRun`).** A client records a pipeline
execution step by step. When a step's serialized outputs are larger than
20000 characters, they are first replaced by a structural summary. In that
summary:
- every top-level list longer than 100 elements becomes a random sample of
  100 of its elements;
- a sibling `<key>_total_count` entry holds the list's original length.

**The server's sliding-window analyzer (`XRayAnalyzer.analyze_run`).** It
diagnoses a recorded run in these stages:
- It rejects a run without steps.
- It sorts the steps by `step_order`, treating a missing order as 0.
- A run of one or two steps goes to the reasoning service in a single request.
- A longer run is scanned in windows of two consecutive steps, one request
  per window. The scan stops after the first window whose verdict names a
  faulty step.
- The window verdicts are combined into one report. The report is either
  that first fault or an all-clear report that lists every step as "ok".
- Replies from the service are parsed after stripping whitespace and
  Markdown code fences. A reply that is not valid JSON becomes a fallback
  verdict that keeps the raw text.

Modules:

- `Json`: Python values and insertion-ordered dicts. `Get` models
  `dict.get` and `SetKey` models `d[k] = v`.
- `PyStr`: `str.strip`, `startswith` and `endswith`.
- `StableSort`: a stable insertion sort that models `sorted(..., key=...)`.
- `Trace`: the run and step dictionaries the analyzer receives, and the
  sorted step order.
- `Prompts`: the user prompts, as sequences of lines.
- `ResponseParser`: how a reply from the service is parsed.
- `Combiner`: combining the window verdicts into one report.
- `Analyzer`: the whole analysis.
  - `AnalyzeRun`, `SlideWindows`, `AnalyzeWindow` and `AnalyzeSteps` are
    methods that do what the source does step by step.
  - `Diagnosis` and `ScanVerdicts` are the functions they are proved against.
- `SdkStep`: the step record.
- `SdkRun`: the `XRayRun` class and the summary it applies.

Calls the model cannot see are parameters:
- **The reasoning service** is `Oracle`, a function from a request to the
  reply text or the message of the exception it raised. The request is the
  kind of system prompt plus the prompt lines.
- **`json.loads`** is a `Decoder`: the decoded dictionary, or None on a
  decode error.
- **The length of `json.dumps(step.outputs)`** is a `Size` passed to `AddStep`.
- **`random.sample`** is the method `RandomSample`. It may return any 100
  distinct positions. The positions actually chosen are reported as a
  ghost result.

## Model

| member | source | states |
|---|---|---|
| Analyzer.AnalyzeRun | xray_api/agents/analyzer.py:34-71 | The report is `Diagnosis`. The requests sent are: none for a run without steps; one full-analysis request on all sorted steps for one or two steps; otherwise one window request per scanned window, in window order. |
| Analyzer.SlideWindows | xray_api/agents/analyzer.py:59-69 | The loop's verdicts are the window verdicts cut after the first fault. The requests are those for windows 0, 1, … in order, one per collected verdict. |
| Analyzer.AnalyzeWindow | xray_api/agents/analyzer.py:73-92 | One window request with the window prompt. The verdict is the parsed reply, or `{error, faulty_step: None}` when the call raises. |
| Analyzer.AnalyzeSteps | xray_api/agents/analyzer.py:94-113 | One full-analysis request with the analysis prompt. The verdict is the parsed reply, or `{error, faulty_step: None, reason: "Analysis failed"}` when the call raises. |
| Analyzer.NoStepsReport | xray_api/agents/analyzer.py:50 | The report is `{"error": "No steps to analyze"}` and names no faulty step. |
| Analyzer.WindowVerdict | xray_api/agents/analyzer.py:73-92 | When the service call raises, the window's verdict carries the error message and names no faulty step. |
| Analyzer.DirectVerdict | xray_api/agents/analyzer.py:94-113 | When the service call raises, the direct verdict carries the error and reason "Analysis failed", names no faulty step and has no `windows_analyzed`. |
| Analyzer.WindowErrorVerdict | xray_api/agents/analyzer.py:91-92 | A failed window call yields the error message and a None `faulty_step`, which is not a fault. |
| Analyzer.FailedAnalysisVerdict | xray_api/agents/analyzer.py:112-113 | A failed direct call yields the error, a None `faulty_step` and reason "Analysis failed". It has no `analysis_method` and no `windows_analyzed`. |
| Analyzer.EmptyTraceRejected | xray_api/agents/analyzer.py:48-50 | An empty or missing step list gives the "No steps to analyze" error. |
| Analyzer.SmallTraceAnalyzedDirectly | xray_api/agents/analyzer.py:55-57 | With one or two steps, the result is the parsed reply to the single request about all sorted steps. A failed call gives the error verdict without `windows_analyzed`. |
| Analyzer.FirstFaultReported | xray_api/agents/analyzer.py:59-71 | With more than two steps and window `f` the first faulty one, the report copies that window's `faulty_step`, `faulty_step_order`, `reason` and `suggestion`. It reports "sliding_window" and counts `f + 1` windows. |
| Analyzer.CleanTraceReported | xray_api/agents/analyzer.py:59-71 | With more than two steps and no faulty window, the report is the all-clear report over the sorted steps. It counts all `n - 1` windows. |
| Analyzer.WindowVerdictAt | xray_api/agents/analyzer.py:61-63 | Verdict `i` is the verdict on exactly `[sorted[i], sorted[i+1]]`, with window index `i`. |
| Analyzer.WindowRequestAt | xray_api/agents/analyzer.py:61-63 | Request `k` carries the window prompt for sorted steps `k` and `k + 1`, numbered `k`. |
| Analyzer.WindowIsPair | xray_api/agents/analyzer.py:62 | The slice `sorted_steps[i:i+2]` is exactly the two steps `i` and `i + 1`. |
| Analyzer.WindowStep | xray_api/agents/analyzer.py:61-68 | One turn of the loop: the verdict and request of window `i` extend those of the windows before it. A non-faulty verdict keeps the scan fault-free, and a faulty one completes the scan. |
| Analyzer.ScanVerdicts | xray_api/agents/analyzer.py:60-68 | The collected verdicts are a prefix of the window verdicts. None but the last is a fault, and the scan stops early only right after a fault. |
| Analyzer.ScanStopsAtFirstFault | xray_api/agents/analyzer.py:66-68 | When window `f` is the first fault, exactly `f + 1` verdicts are collected. With no fault, every window is collected. |
| Combiner.Combine | xray_api/agents/analyzer.py:197-223 | The report always names "sliding_window" and counts all given verdicts. It is a fault iff some verdict is one. The first faulty verdict's fields are copied, with no step list. With no fault, it is the all-clear report. |
| Combiner.FindFault | xray_api/agents/analyzer.py:200-201 | The scan finds the first verdict with a truthy `faulty_step` at or after `from`, or reports that there is none. |
| Combiner.FaultReport | xray_api/agents/analyzer.py:202-209 | Copies `faulty_step`, then `faulty_step_order` (default None), `reason` and `suggestion` (default ""). It adds "sliding_window" and the window count, and has no `all_steps_analysis`. |
| Combiner.CleanReport | xray_api/agents/analyzer.py:212-223 | `faulty_step`, `faulty_step_order` and `suggestion` are None and the reason is the all-clear text. It has the window count, and one entry per step, in order. |
| Combiner.StepStatus | xray_api/agents/analyzer.py:220 | The entry holds the step's `step_name`, status "ok" and note "Transition verified". |
| Combiner.FirstFaultUnique | xray_api/agents/analyzer.py:200-201 | The first faulty verdict is unique, so the copied one is well defined. |
| ResponseParser.ParseAnalysisResponse | xray_api/agents/analyzer.py:225-244 | The verdict is the decoded cleaned text, or the fallback verdict when it does not decode. |
| ResponseParser.Parsed | xray_api/agents/analyzer.py:225-244 | When the cleaned reply does not decode, the verdict names no faulty step and keeps the whole reply as `raw_response`. |
| ResponseParser.DropFences | xray_api/agents/analyzer.py:229-234 | Drops a leading ```` ```json ````, then a leading ```` ``` ````, then a trailing ```` ``` ````, in that order. |
| ResponseParser.Unfenced | xray_api/agents/analyzer.py:228-236 | The text handed to `json.loads` has no whitespace at either end. |
| ResponseParser.FallbackVerdict | xray_api/agents/analyzer.py:238-244 | No fault. `faulty_step` and `faulty_step_order` are None, `reason` and `raw_response` are the unstripped reply, and the suggestion is the fixed text. |
| ResponseParser.UndecodableReplyKept | xray_api/agents/analyzer.py:237-244 | Parsing never fails. An undecodable reply keeps the whole original text as reason and raw response. |
| ResponseParser.JsonFenceRemoved | xray_api/agents/analyzer.py:228-236 | A reply wrapped in a ```` ```json ```` fence, with any whitespace around it, is decoded from the fence's body, stripped. |
| ResponseParser.PlainFenceRemoved | xray_api/agents/analyzer.py:228-236 | The same holds for a plain ```` ``` ```` fence whose body starts with neither a backtick nor `j`. |
| ResponseParser.UnfencedPlainText | xray_api/agents/analyzer.py:228-236 | A reply that neither begins nor ends with a backtick once stripped is decoded from the stripped text unchanged. |
| PyStr.StripPadded | xray_api/agents/analyzer.py:228 | `strip()` removes exactly the surrounding whitespace: padding a trimmed text with whitespace and stripping gives back that text. |
| PyStr.StripIdempotent | xray_api/agents/analyzer.py:236 | Stripping twice is stripping once. |
| Prompts.BuildWindowPrompt | xray_api/agents/analyzer.py:155-172 | The lines the loop appends are the window prompt. |
| Prompts.BuildAnalysisPrompt | xray_api/agents/analyzer.py:174-195 | The lines the loop appends are the full-analysis prompt. |
| Prompts.WindowPromptShape | xray_api/agents/analyzer.py:159-171 | A k-step window prompt has 3 + 4k + 1 lines: the pipeline heading, the window heading (1-based number, first and last order), a blank line, four lines per step in order, and the question. |
| Prompts.AnalysisPromptShape | xray_api/agents/analyzer.py:179-194 | A k-step full prompt has 5 + 4k + 2 lines: the five header lines, four lines per step in order, the rule and the question. |
| Prompts.StepLinesAt | xray_api/agents/analyzer.py:165-169 | Lines `4j .. 4j+4` of the step section are the heading, inputs, outputs and blank line of step `j`. |
| Trace.SortedSteps | xray_api/agents/analyzer.py:53 | The sorted steps are in ascending `step_order` (0 when missing) and are a permutation of the steps. |
| Trace.IsFault | xray_api/agents/analyzer.py:67 | A verdict reports a fault exactly when it has a `faulty_step` entry whose value is not falsy. |
| Json.Truthy | xray_api/agents/analyzer.py:201 | A value is true exactly when it is none of None, False, 0, 0.0, "", [] and {}. |
| Trace.SortedStepsSpec | xray_api/agents/analyzer.py:53 | The sorted steps are in ascending `step_order` (0 when missing) and are a permutation of the input. Steps with equal order keep their input order. |
| StableSort.SortBy | xray_api/agents/analyzer.py:53 | Sorting keeps the multiset of steps and the length. |
| StableSort.SortByIsSorted | xray_api/agents/analyzer.py:53 | The result is in ascending key order. |
| StableSort.SortByIsStable | xray_api/agents/analyzer.py:53 | For each key, the elements with that key keep their relative order. |
| Json.SetKey | xray_sdk/run.py:61-64 | `d[k] = v` maps `k` to `v` and changes no other key. A new key is appended at the end, and the keys stay distinct. |
| Json.GetFindsKeys | xray_api/agents/analyzer.py:67 | `d.get(k)` finds a value exactly when `k` is a key of `d`. |
| SdkStep.ToDictRoundTrip | xray_sdk/step.py:25-27 | `asdict` loses nothing: the name, order, inputs and outputs can all be read back. |
| SdkStep.ToDict | xray_sdk/step.py:25-27 | `asdict` produces four entries with distinct keys. |
| SdkRun.XRayRun.constructor | xray_sdk/run.py:21-31 | A fresh run has the given name, no steps, and metadata `{}` when none is given. |
| SdkRun.XRayRun.AddStep | xray_sdk/run.py:33-45 | Steps grow by exactly one and earlier steps are unchanged. The new step keeps name, order and inputs. Its outputs are unchanged when they serialize to at most 20000 characters; otherwise they are summarized once. |
| SdkRun.XRayRun.Summarize | xray_sdk/run.py:47-65 | The loop's result is the summary `SummarizeWith` of the data under the samples drawn, and those samples are valid. Whatever the samples, the result is a dict with the keys of the data plus one `<key>_total_count` per long list. |
| SdkRun.XRayRun.ToDict | xray_sdk/run.py:67-73 | Holds the name and metadata. Its `steps` list has one entry per step, in insertion order, each reading back as that step. |
| SdkRun.StepDicts | xray_sdk/run.py:72 | One step dictionary per step, in order, each reading back as its step. |
| SdkRun.RandomSample | xray_sdk/run.py:61 | The chosen positions are 100 distinct positions of the list. |
| SdkRun.SummaryKeys | xray_sdk/run.py:57-65 | The summary is a dict whose keys are those of the data plus one `<key>_total_count` per long list. No key is dropped. |
| SdkRun.SummarizeEntryKept | xray_sdk/run.py:58-64 | A value that is not a list of more than 100 elements is copied unchanged, nested lists included. A long list becomes its sample and `<key>_total_count` holds its length. |
| SdkRun.LongListSampled | xray_sdk/run.py:59-61 | A long list is replaced by exactly 100 elements that form a sub-multiset of the original. |
| SdkRun.PickSubMultiset | xray_sdk/run.py:61 | `Pick`, the elements at the positions `random.sample` chose, is a sub-multiset of the list when the positions are distinct. |
| SdkRun.SummarizeWithoutLongLists | xray_sdk/run.py:57-65 | With no long list, the summary equals the data. |
| SdkRun.CountOverwritten | xray_sdk/run.py:62-64 | If the data already has the key `<key>_total_count` after a long list under `key`, the later assignment overwrites the count. |
| SdkRun.CountOverwritesEntry | xray_sdk/run.py:58-64 | If `<key>_total_count` holds a plain value and comes before a long list under `key`, the count overwrites that value. |
| SdkRun.CountOverwritesSample | xray_sdk/run.py:58-64 | If `<key>_total_count` holds a long list and comes before a long list under `key`, the count overwrites that list's sample. |
| SdkRun.SummarizeEntry | xray_sdk/run.py:58-64 | One loop turn: a value that is not a long list is stored under its key; a long list stores its sample under the key and its length under `<key>_total_count`. No other key changes, and the keys stay distinct. |
| SdkRun.SummarizeWith | xray_sdk/run.py:57-65 | The summary built entry by entry is a dict: its keys are distinct. |
| SdkRun.SummarizeSnoc | xray_sdk/run.py:58-64 | Summarizing one more entry is one more loop iteration. |

## Left out

- The OpenAI-compatible client, the API key and the environment lookup (xray_api/agents/analyzer.py:20-32). `chat.completions.create` with its model, temperature and token settings (lines 78-88) is also left out: it is a network call, and the `Oracle` parameter stands for it.
- The system prompt texts (xray_api/agents/analyzer.py:115-153) are fixed strings. A request only says which of the two it carries.
- Rendering prompt lines to text is not modelled: the f-strings, `json.dumps` of inputs, outputs and metadata, and `"\n".join`. A prompt is its sequence of lines.
- `json.loads` and `json.dumps` are library calls and become the `Decoder` and `Size` parameters. A decoded reply is always a dictionary here. In the source, a reply that decodes to a list, a number or a string behaves differently on the two paths, and neither is modelled:
  - on the direct path, `_analyze_steps` returns that value as the report (xray_api/agents/analyzer.py:57, 110);
  - on the window path, `result.get` at xray_api/agents/analyzer.py:67 raises AttributeError, which nothing in `analyze_run` catches.
- A reply whose content is None is covered, not left out. `response_text.strip()` then raises AttributeError (xray_api/agents/analyzer.py:228). The `except json.JSONDecodeError` at line 237 does not catch it, but the `except Exception` at lines 91 and 112 does, so the caller returns its error verdict. An `Oracle` that returns `Failure` with that message gives the same verdict.
- Floats are `Json.Value.Float` with a real number, and 0.0 is falsy as in Python, so a `faulty_step` of 0.0 is not a fault. NaN and the infinities, which `json.loads` accepts, are not represented: a real number has no such values.
- The random number generator behind `random.sample` is not modelled. Any choice of 100 distinct positions is allowed.
- Non-integer `step_order` values (strings, floats, None) in the sort key are not modelled, because Python would fail or compare them differently. Orders are integers or missing.
- Aliasing of Python objects is not modelled:
  - `add_step` assigns `step.outputs` on the caller's step object;
  - the constructor stores the caller's metadata dict itself;
  - `to_dict` returns the live metadata.
  Here steps and dicts are values.
- The loop of `analyze_run` is the method `Analyzer.SlideWindows`, called from `AnalyzeRun`. `_parse_analysis_response` likewise calls `ResponseParser.DropFences` for the three fence checks.
- Analyzer.VerdictAt and Analyzer.RequestAt return `{}` and an empty request for a window index past the last window. No window with such an index is ever visited.
- `__repr__` of both classes is only formatting.
- xray_sdk/client.py, the Flask routes, the ORM models and the example scripts are not part of this model. They are HTTP, database and file plumbing.
- SdkRun.SummarizeEntryKept and SdkRun.LongListSampled assume that no count key collides with a key of the data. Without that hypothesis the data's value, a sample or the count can be lost:
  - when `<key>_total_count` comes after the long list under `key`, its value overwrites the count (`SdkRun.CountOverwritten`);
  - when it comes before, the count overwrites its value, and if that value is itself a long list, its sample (`SdkRun.CountOverwritesEntry`, `SdkRun.CountOverwritesSample`).
- The summarizer's output is not bounded in size. It runs once and does not measure again, so the result can still exceed 20000 characters. With `Size` abstract, no bound is stated.
- `_summarize` samples each long top-level list once, at random, and copies every other value as it is. It does not sample head and tail, truncate strings, measure again or recurse into nested values, and the model promises none of that. Its docstring (xray_sdk/run.py:49) and comment (line 60) speak of 30 items, but `SAMPLE_SIZE` is 100 (line 19) and the code samples 100. The model follows the code.
