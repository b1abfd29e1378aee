// The stand-alone industry analysis form: its payload, the predicate that
// disables its button, and what one click sends and reports.
module IndustryForm {

  import opened Wrappers
  import opened Json
  import opened WebhookReply
  import Page = AnalysisRequestForm

  datatype Fields = Fields(
    selectedIndustry: string,
    customIndustry: string,
    selectedDuration: string,
    researchInstruction: string,
    outputSize: string,
    researchNotes: string)

  const Industries: seq<string> := ["Technology", "Healthcare", "Finance", "Manufacturing", "Retail",
                                    "Education", "Real Estate", "Automotive", "Energy", "Other"]

  const Durations: seq<string> := ["3 months", "6 months", "9 months", "12 months"]

  function Members(f: Fields): seq<(string, Json)> {
    [("type", JStr("industry")),
     ("Industry", JStr(if f.selectedIndustry == "Other" then f.customIndustry else f.selectedIndustry)),
     ("Duration", JStr(f.selectedDuration)),
     ("ResearchInstruction", JStr(f.researchInstruction)),
     ("OutputSize", JStr(f.outputSize)),
     ("Notes", JStr(f.researchNotes))]
  }

  /** The payload of `handleGenerateAnalysis`: an industry request whose
      `Industry` is the custom text exactly when "Other" is chosen. */
  function Payload(f: Fields): (p: Json)
    ensures p.JObj? && DistinctNames(p.members)
    ensures Keys(p) == ["type", "Industry", "Duration", "ResearchInstruction", "OutputSize", "Notes"]
    ensures Get(p, "type") == Some(JStr("industry"))
    ensures f.selectedIndustry == "Other" ==> Get(p, "Industry") == Some(JStr(f.customIndustry))
    ensures f.selectedIndustry != "Other" ==> Get(p, "Industry") == Some(JStr(f.selectedIndustry))
    ensures Get(p, "Notes") == Some(JStr(f.researchNotes))
  {
    var ms := Members(f);
    GetDistinct(ms);
    assert ms[1].0 == "Industry" && ms[5].0 == "Notes";
    JObj(ms)
  }

  /** The `disabled` expression of the button. */
  predicate Disabled(f: Fields, loading: bool) {
    f.selectedIndustry == "" || (f.selectedIndustry == "Other" && f.customIndustry == "")
    || f.selectedDuration == "" || f.researchInstruction == "" || f.outputSize == "" || loading
  }

  const RequiredKeys: seq<string> := ["Industry", "Duration", "ResearchInstruction", "OutputSize"]

  /** The button is enabled exactly when nothing is loading and every field
      of the payload except `Notes` is truthy; in particular the industry
      sent is never empty. */
  lemma EnabledIffComplete(f: Fields, loading: bool)
    ensures !Disabled(f, loading) <==> !loading && Complete(Payload(f), RequiredKeys)
  {
    var p := Payload(f);
    GetDistinct(p.members);
    assert p.members[2].0 == "Duration" && p.members[3].0 == "ResearchInstruction";
    assert p.members[4].0 == "OutputSize";
  }

  /** What one click does: only an enabled button runs the handler, which
      sends the payload and reports the reply text or the error markup. */
  function Click(f: Fields, loading: bool, reply: Reply): (s: Option<Submission>)
    ensures s.Some? <==> !Disabled(f, loading)
    ensures s.Some? ==> s.value.sent == Payload(f)
    ensures s.Some? && reply.Threw? ==> s.value.delivered == ErrorHtml
    ensures s.Some? && reply.ResponseText? ==> s.value.delivered == reply.text
  {
    if Disabled(f, loading) then None else Some(Submission(Payload(f), Delivered(reply)))
  }

  /** The same request on the industry-analysis page. */
  function AsPageFields(f: Fields): Page.Fields {
    Page.InitialFields.(analysisType := Page.IndustryAnalysis,
                        selectedIndustry := f.selectedIndustry,
                        customIndustry := f.customIndustry,
                        selectedDuration := f.selectedDuration,
                        researchInstruction := f.researchInstruction,
                        outputSize := f.outputSize,
                        researchNotes := f.researchNotes)
  }

  /** This form sends the same body as the page's industry analysis, and
      its button is enabled exactly when the page's validation passes. */
  lemma AgreesWithPage(f: Fields)
    ensures Payload(f) == Page.Payload(AsPageFields(f))
    ensures !Disabled(f, false) <==> Page.Validates(AsPageFields(f))
  {
  }
}
