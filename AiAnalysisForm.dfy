// The stand-alone AI analysis form: its payload, the predicate that
// disables its button, its output-size options and what one click sends
// and reports.
module AiAnalysisForm {

  import opened Wrappers
  import opened Json
  import opened Text
  import opened WebhookReply

  datatype Fields = Fields(
    industryName: string,
    duration: string,
    researchInstruction: string,
    outputSize: string)

  const Durations: seq<string> := ["3 months", "6 months", "9 months", "12 months"]

  const OutputSizes: seq<string> := ["5", "10", "15", "20", "25", "30", "35", "40", "45", "50"]

  /** The output-size options are the multiples of five from 5 to 50, in
      increasing order. */
  lemma OutputSizesAreMultiplesOfFive()
    ensures |OutputSizes| == 10
    ensures forall i :: 0 <= i < 10 ==> OutputSizes[i] == NatToString(5 * (i + 1))
  {
    assert NatToString(10) == "10" && NatToString(15) == "15" && NatToString(20) == "20";
    assert NatToString(25) == "25" && NatToString(30) == "30" && NatToString(35) == "35";
    assert NatToString(40) == "40" && NatToString(45) == "45" && NatToString(50) == "50";
  }

  function Members(f: Fields): seq<(string, Json)> {
    [("type", JStr("industry")),
     ("industryName", JStr(f.industryName)),
     ("duration", JStr(f.duration)),
     ("researchInstruction", JStr(f.researchInstruction)),
     ("outputSize", JStr(f.outputSize)),
     ("notes", JStr(""))]
  }

  /** The payload of `handleGenerateAnalysis`: typed as an industry request,
      the four fields copied verbatim and empty notes. */
  function Payload(f: Fields): (p: Json)
    ensures p.JObj? && DistinctNames(p.members)
    ensures Keys(p) == ["type", "industryName", "duration", "researchInstruction", "outputSize", "notes"]
    ensures Get(p, "type") == Some(JStr("industry"))
    ensures Get(p, "industryName") == Some(JStr(f.industryName))
    ensures Get(p, "duration") == Some(JStr(f.duration))
    ensures Get(p, "researchInstruction") == Some(JStr(f.researchInstruction))
    ensures Get(p, "outputSize") == Some(JStr(f.outputSize))
    ensures Get(p, "notes") == Some(JStr(""))
  {
    var ms := Members(f);
    GetDistinct(ms);
    assert ms[1].0 == "industryName" && ms[2].0 == "duration" && ms[3].0 == "researchInstruction";
    assert ms[4].0 == "outputSize" && ms[5].0 == "notes";
    JObj(ms)
  }

  /** The `disabled` expression of the button. */
  predicate Disabled(f: Fields, loading: bool) {
    f.industryName == "" || f.duration == "" || f.researchInstruction == "" || f.outputSize == "" || loading
  }

  const RequiredKeys: seq<string> := ["industryName", "duration", "researchInstruction", "outputSize"]

  /** The button is enabled exactly when nothing is loading and every field
      of the payload except `notes` is truthy. */
  lemma EnabledIffComplete(f: Fields, loading: bool)
    ensures !Disabled(f, loading) <==> !loading && Complete(Payload(f), RequiredKeys)
  {
  }

  /** What one click does: only an enabled button runs the handler, which
      sends the payload and reports the reply text or the error markup. */
  function Click(f: Fields, loading: bool, reply: Reply): (s: Option<Submission>)
    ensures s.Some? <==> !Disabled(f, loading)
    ensures s.Some? ==> s.value.sent == Payload(f)
    ensures s.Some? && reply.Threw? ==> s.value.delivered == ErrorHtml
    ensures s.Some? && reply.ResponseText? ==> s.value.delivered == reply.text
  {
    if Disabled(f, loading) then None else Some(Submission(Payload(f), Delivered(reply)))
  }
}
