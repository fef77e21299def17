/**
 * `_parse_analysis_response`: turns the reasoning service's text into a
 * verdict dictionary.  Surrounding whitespace and Markdown code fences are
 * removed and the rest is decoded as JSON; text that does not decode yields
 * a fallback verdict that keeps the original text, so parsing never fails.
 */
module ResponseParser {
  import opened Wrappers
  import opened Json
  import opened PyStr
  import opened Trace

  /** `json.loads` on the cleaned text, returning the decoded dictionary or None on a decode error. */
  type Decoder = string -> Option<Dict>

  const FALLBACK_SUGGESTION: string := "Unable to parse structured response"

  const JSON_FENCE: string := "```json"
  const FENCE: string := "```"

  /** `if text.startswith("```json"): text = text[7:]` */
  function DropJsonFence(t: string): string {
    if StartsWith(t, JSON_FENCE) then t[7..] else t
  }

  /** `if text.startswith("```"): text = text[3:]` */
  function DropOpeningFence(t: string): string {
    if StartsWith(t, FENCE) then t[3..] else t
  }

  /** `if text.endswith("```"): text = text[:-3]` */
  function DropClosingFence(t: string): string {
    if EndsWith(t, FENCE) then t[..|t| - 3] else t
  }

  /** The text handed to `json.loads` after whitespace and fences are removed. */
  function Unfenced(responseText: string): (t: string)
    ensures Trimmed(t)
  {
    Strip(DropClosingFence(DropOpeningFence(DropJsonFence(Strip(responseText)))))
  }

  /** The verdict returned when the cleaned text is not valid JSON. */
  function FallbackVerdict(responseText: string): (v: Dict)
    ensures !IsFault(v)
    ensures Get(v, "faulty_step") == Some(Null) && Get(v, "faulty_step_order") == Some(Null)
    ensures Get(v, "reason") == Some(Str(responseText))
    ensures Get(v, "raw_response") == Some(Str(responseText))
    ensures Get(v, "suggestion") == Some(Str(FALLBACK_SUGGESTION))
  {
    var v := [ ("faulty_step", Null),
               ("faulty_step_order", Null),
               ("reason", Str(responseText)),
               ("suggestion", Str(FALLBACK_SUGGESTION)),
               ("raw_response", Str(responseText)) ];
    var v1 := v[1..];
    var v2 := v1[1..];
    var v3 := v2[1..];
    var v4 := v3[1..];
    assert v1[0].0 == "faulty_step_order" && v2[0].0 == "reason" && v3[0].0 == "suggestion" && v4[0].0 == "raw_response";
    assert Get(v4, "raw_response") == Some(Str(responseText));
    assert Get(v2, "reason") == Some(Str(responseText));
    assert Get(v3, "suggestion") == Some(Str(FALLBACK_SUGGESTION));
    assert Get(v3, "raw_response") == Get(v4, "raw_response");
    assert Get(v2, "raw_response") == Get(v3, "raw_response");
    assert Get(v2, "suggestion") == Get(v3, "suggestion");
    assert Get(v1, "raw_response") == Get(v2, "raw_response");
    assert Get(v1, "suggestion") == Get(v2, "suggestion");
    assert Get(v1, "reason") == Get(v2, "reason");
    v
  }

  /** The verdict `_parse_analysis_response` returns for `responseText`. */
  function Parsed(responseText: string, decode: Decoder): (v: Dict)
    ensures decode(Unfenced(responseText)).None? ==>
      !IsFault(v) && Get(v, "raw_response") == Some(Str(responseText))
  {
    match decode(Unfenced(responseText))
    case Some(d) => d
    case None => FallbackVerdict(responseText)
  }

  /**
   * Parsing never fails: a reply that does not decode becomes a verdict
   * naming no faulty step that keeps the whole reply as reason and raw response.
   */
  lemma UndecodableReplyKept(responseText: string, decode: Decoder)
    requires decode(Unfenced(responseText)).None?
    ensures var v := Parsed(responseText, decode);
      && !IsFault(v)
      && Get(v, "reason") == Some(Str(responseText))
      && Get(v, "raw_response") == Some(Str(responseText))
      && Get(v, "suggestion") == Some(Str(FALLBACK_SUGGESTION))
  {
  }

  /** The three fence checks of `_parse_analysis_response`, reassigning `text` one step at a time. */
  method DropFences(stripped: string) returns (text: string)
    ensures text == DropClosingFence(DropOpeningFence(DropJsonFence(stripped)))
  {
    text := stripped;
    if StartsWith(text, JSON_FENCE) {
      text := text[7..];
    }
    if StartsWith(text, FENCE) {
      text := text[3..];
    }
    if EndsWith(text, FENCE) {
      text := text[..|text| - 3];
    }
  }

  /**
   * `_parse_analysis_response`: strip, drop the fences, strip again and
   * decode, falling back on a decode error.
   */
  method ParseAnalysisResponse(responseText: string, decode: Decoder) returns (verdict: Dict)
    ensures verdict == Parsed(responseText, decode)
  {
    var text := Strip(responseText);
    text := DropFences(text);
    var decoded := decode(Strip(text));
    match decoded {
      case Some(d) => verdict := d;
      case None => verdict := FallbackVerdict(responseText);
    }
  }

  /** Whitespace around a reply that begins and ends with a backtick is all `strip()` removes. */
  lemma UnfencedPadded(before: string, m: string, after: string)
    requires AllSpace(before) && AllSpace(after)
    requires |m| > 0 && m[0] == '`' && m[|m| - 1] == '`'
    ensures Unfenced(before + m + after) == Strip(DropClosingFence(DropOpeningFence(DropJsonFence(m))))
  {
    StripPadded(before, m, after);
  }

  lemma JsonFenceBody(body: string)
    requires |body| == 0 || body[0] != '`'
    ensures DropClosingFence(DropOpeningFence(DropJsonFence(JSON_FENCE + body + FENCE))) == body
  {
    var m := JSON_FENCE + body + FENCE;
    assert m[..7] == JSON_FENCE;
    var t1 := body + FENCE;
    assert m[7..] == t1;
    if |body| == 0 {
      assert t1[..3] == FENCE && t1[3..] == [];
    } else {
      assert t1[..3][0] == body[0];
      assert t1[|t1| - 3..] == FENCE;
      assert t1[..|t1| - 3] == body;
    }
  }

  lemma PlainFenceBody(body: string)
    requires |body| == 0 || (body[0] != '`' && body[0] != 'j')
    ensures DropClosingFence(DropOpeningFence(DropJsonFence(FENCE + body + FENCE))) == body
  {
    var m := FENCE + body + FENCE;
    if |m| >= 7 {
      assert m[3] == body[0];
      assert m[..7][3] != JSON_FENCE[3];
    }
    assert DropJsonFence(m) == m;
    assert m[..3] == FENCE;
    var t2 := body + FENCE;
    assert m[3..] == t2;
    assert t2[|t2| - 3..] == FENCE;
    assert t2[..|t2| - 3] == body;
  }

  /**
   * A reply wrapped in a ```json fence, with any whitespace around it, is
   * decoded from the fence's body (stripped).
   */
  lemma JsonFenceRemoved(before: string, body: string, after: string)
    requires AllSpace(before) && AllSpace(after)
    requires |body| == 0 || body[0] != '`'
    ensures Unfenced(before + JSON_FENCE + body + FENCE + after) == Strip(body)
  {
    var m := JSON_FENCE + body + FENCE;
    assert before + JSON_FENCE + body + FENCE + after == before + m + after;
    UnfencedPadded(before, m, after);
    JsonFenceBody(body);
  }

  /**
   * A reply wrapped in a plain ``` fence is decoded from the fence's body,
   * provided the body does not itself begin with a backtick or with "json".
   */
  lemma PlainFenceRemoved(before: string, body: string, after: string)
    requires AllSpace(before) && AllSpace(after)
    requires |body| == 0 || (body[0] != '`' && body[0] != 'j')
    ensures Unfenced(before + FENCE + body + FENCE + after) == Strip(body)
  {
    var m := FENCE + body + FENCE;
    assert before + FENCE + body + FENCE + after == before + m + after;
    UnfencedPadded(before, m, after);
    PlainFenceBody(body);
  }

  lemma UnfencedOfStripped(responseText: string, body: string)
    requires Strip(responseText) == body
    requires DropClosingFence(DropOpeningFence(DropJsonFence(body))) == body
    ensures Unfenced(responseText) == Strip(body)
  {
  }

  lemma NoFenceUnchanged(body: string)
    requires |body| == 0 || (body[0] != '`' && body[|body| - 1] != '`')
    ensures DropClosingFence(DropOpeningFence(DropJsonFence(body))) == body
  {
    NotStartsWith(body, JSON_FENCE);
    NotStartsWith(body, FENCE);
    NotEndsWith(body, FENCE);
  }

  /**
   * A reply whose text, once surrounding whitespace is removed, neither
   * begins nor ends with a backtick is decoded from that text unchanged.
   */
  lemma UnfencedPlainText(before: string, body: string, after: string)
    requires AllSpace(before) && AllSpace(after) && Trimmed(body)
    requires |body| == 0 || (body[0] != '`' && body[|body| - 1] != '`')
    ensures Unfenced(before + body + after) == body
  {
    StripPadded(before, body, after);
    NoFenceUnchanged(body);
    UnfencedOfStripped(before + body + after, body);
    StripTrimmed(body);
  }
}
