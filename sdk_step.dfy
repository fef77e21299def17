/**
 * `XRayStep`: one step of a pipeline execution as the SDK records it, with
 * its identifier, sequence number and the JSON payloads it consumed and
 * produced.
 */
module SdkStep {
  import opened Wrappers
  import opened Json

  datatype XRayStep = XRayStep(name: string, order: int, inputs: Dict, outputs: Dict)

  /** `to_dict()`, that is `dataclasses.asdict`: one entry per field, in declaration order. */
  function ToDict(step: XRayStep): (d: Dict)
    ensures |d| == 4 && DistinctKeys(d)
  {
    [ ("name", Str(step.name)),
      ("order", Int(step.order)),
      ("inputs", Obj(step.inputs)),
      ("outputs", Obj(step.outputs)) ]
  }

  /** Reads a step back from a dictionary with the four fields of `asdict`, or None. */
  function FromDict(d: Dict): Option<XRayStep> {
    match (Get(d, "name"), Get(d, "order"), Get(d, "inputs"), Get(d, "outputs"))
    case (Some(Str(n)), Some(Int(o)), Some(Obj(i)), Some(Obj(out))) => Some(XRayStep(n, o, i, out))
    case _ => None
  }

  /** `to_dict()` loses nothing: every field can be read back from its dictionary. */
  lemma ToDictRoundTrip(step: XRayStep)
    ensures FromDict(ToDict(step)) == Some(step)
  {
    var d := ToDict(step);
    GetThrough(d, 1, "order");
    GetThrough(d, 2, "inputs");
    GetThrough(d, 3, "outputs");
  }
}
