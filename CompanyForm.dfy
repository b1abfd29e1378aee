// The stand-alone company analysis form: its payload, the request body
// that wraps it, the predicate that disables its button and what one click
// sends and reports.
module CompanyForm {

  import opened Wrappers
  import opened Json
  import opened WebhookReply

  datatype Fields = Fields(
    companyName: string,
    researchInstruction: string,
    companyLocation: string,
    roles: string)

  function Members(f: Fields): seq<(string, Json)> {
    [("type", JStr("company")),
     ("companyName", JStr(f.companyName)),
     ("analysisDescription", JStr(f.researchInstruction)),
     ("companyLocation", JStr(f.companyLocation)),
     ("roles", JStr(f.roles)),
     ("notes", JStr(""))]
  }

  /** The payload of `handleGenerateAnalysis`: a company request whose
      `analysisDescription` is the research instruction, with empty notes. */
  function Payload(f: Fields): (p: Json)
    ensures p.JObj? && DistinctNames(p.members)
    ensures Keys(p) == ["type", "companyName", "analysisDescription", "companyLocation", "roles", "notes"]
    ensures Get(p, "type") == Some(JStr("company"))
    ensures Get(p, "companyName") == Some(JStr(f.companyName))
    ensures Get(p, "analysisDescription") == Some(JStr(f.researchInstruction))
    ensures Get(p, "companyLocation") == Some(JStr(f.companyLocation))
    ensures Get(p, "roles") == Some(JStr(f.roles))
    ensures Get(p, "notes") == Some(JStr(""))
  {
    var ms := Members(f);
    GetDistinct(ms);
    assert ms[1].0 == "companyName" && ms[2].0 == "analysisDescription" && ms[3].0 == "companyLocation";
    assert ms[4].0 == "roles" && ms[5].0 == "notes";
    JObj(ms)
  }

  /** The body actually posted: the payload under the single key `body`. */
  function RequestBody(f: Fields): (b: Json)
    ensures Keys(b) == ["body"]
    ensures Get(b, "body") == Some(Payload(f))
    ensures Get(b, "type") == None
  {
    JObj([("body", Payload(f))])
  }

  /** The `disabled` expression of the button. */
  predicate Disabled(f: Fields, loading: bool) {
    f.companyName == "" || f.researchInstruction == "" || f.companyLocation == "" || f.roles == "" || loading
  }

  const RequiredKeys: seq<string> := ["companyName", "analysisDescription", "companyLocation", "roles"]

  /** The button is enabled exactly when nothing is loading and every field
      of the payload except `notes` is truthy. */
  lemma EnabledIffComplete(f: Fields, loading: bool)
    ensures !Disabled(f, loading) <==> !loading && Complete(Payload(f), RequiredKeys)
  {
  }

  /** What one click does: only an enabled button runs the handler, which
      posts the wrapped payload and reports the reply text or the error
      markup. */
  function Click(f: Fields, loading: bool, reply: Reply): (s: Option<Submission>)
    ensures s.Some? <==> !Disabled(f, loading)
    ensures s.Some? ==> Get(s.value.sent, "body") == Some(Payload(f))
    ensures s.Some? && reply.Threw? ==> s.value.delivered == ErrorHtml
    ensures s.Some? && reply.ResponseText? ==> s.value.delivered == reply.text
  {
    if Disabled(f, loading) then None else Some(Submission(RequestBody(f), Delivered(reply)))
  }
}
