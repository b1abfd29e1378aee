// The analysis-request form of the industry-analysis page: the fields it
// holds, the validation `generateAnalysis` runs before it sends anything,
// the payload it sends for each of the three analysis types, the
// predicate that disables its button, the company data it reports after a
// successful request and the initial company data it accepts.
module AnalysisRequestForm {

  import opened Wrappers
  import opened Json
  import opened WebhookReply

  datatype AnalysisType = AiAnalysis | IndustryAnalysis | CompanyAnalysis

  /** The text fields of the form and the selected analysis type. */
  datatype Fields = Fields(
    analysisType: AnalysisType,
    selectedIndustry: string,
    customIndustry: string,
    selectedDuration: string,
    researchNotes: string,
    companyName: string,
    analysisDescription: string,
    companyLocation: string,
    roles: string,
    researchInstruction: string,
    outputSize: string,
    industryName: string,
    aiRoles: string)

  /** The form as it first renders: an AI analysis with output size "10". */
  const InitialFields := Fields(AiAnalysis, "", "", "", "", "", "", "", "", "", "10", "", "")

  const Durations: seq<string> := ["3 Months", "6 Months", "9 Months", "12 Months"]

  /** The industry a request is about: the custom text when "Other" is chosen. */
  function ResolvedIndustry(f: Fields): string {
    if f.selectedIndustry == "Other" then f.customIndustry else f.selectedIndustry
  }

  /** The validation chain at the top of `generateAnalysis`. */
  predicate Validates(f: Fields) {
    match f.analysisType
    case AiAnalysis => f.industryName != "" && f.outputSize != ""
    case IndustryAnalysis =>
      ResolvedIndustry(f) != "" && f.selectedDuration != ""
      && f.researchInstruction != "" && f.outputSize != ""
    case CompanyAnalysis => f.companyName != ""
  }

  /** The `disabled` expression of the generate button. */
  predicate Disabled(f: Fields, generating: bool) {
    generating ||
    match f.analysisType
    case AiAnalysis => f.industryName == "" || f.outputSize == ""
    case IndustryAnalysis =>
      ResolvedIndustry(f) == "" || f.selectedDuration == "" || f.outputSize == ""
    case CompanyAnalysis => f.companyName == ""
  }

  function TypeTag(t: AnalysisType): string {
    match t
    case AiAnalysis => "ai"
    case IndustryAnalysis => "industry"
    case CompanyAnalysis => "company"
  }

  function AiMembers(f: Fields): (ms: seq<(string, Json)>)
    ensures DistinctNames(ms)
  {
    [("type", JStr("ai")),
     ("IndustryName", JStr(f.industryName)),
     ("ResearchInstruction", JStr(f.researchInstruction)),
     ("OutputSize", JStr(f.outputSize)),
     ("Role", JStr(f.aiRoles))]
  }

  function IndustryMembers(f: Fields): (ms: seq<(string, Json)>)
    ensures DistinctNames(ms)
  {
    [("type", JStr("industry")),
     ("Industry", JStr(ResolvedIndustry(f))),
     ("Duration", JStr(f.selectedDuration)),
     ("ResearchInstruction", JStr(f.researchInstruction)),
     ("OutputSize", JStr(f.outputSize)),
     ("Notes", JStr(f.researchNotes))]
  }

  function CompanyMembers(f: Fields): (ms: seq<(string, Json)>)
    ensures DistinctNames(ms)
  {
    [("type", JStr("company")),
     ("companyName", JStr(f.companyName)),
     ("analysisDescription", JStr(f.analysisDescription)),
     ("companyLocation", JStr(f.companyLocation)),
     ("roles", JStr(f.roles)),
     ("Notes", JStr(f.researchNotes))]
  }

  function Members(f: Fields): (ms: seq<(string, Json)>)
    ensures DistinctNames(ms)
  {
    match f.analysisType
    case AiAnalysis => AiMembers(f)
    case IndustryAnalysis => IndustryMembers(f)
    case CompanyAnalysis => CompanyMembers(f)
  }

  /** The request body `generateAnalysis` sends (`aiRoles || ""` and
      `researchNotes || ""` are the strings themselves). Every member is a
      string, the names are distinct and `type` names the analysis. */
  function Payload(f: Fields): (p: Json)
    ensures p.JObj? && DistinctNames(p.members)
    ensures forall i :: 0 <= i < |p.members| ==> p.members[i].1.JStr?
    ensures Get(p, "type") == Some(JStr(TypeTag(f.analysisType)))
  {
    var ms := Members(f);
    GetFound(ms, 0);
    JObj(ms)
  }

  /** The payload fields validation demands to be truthy, per type. */
  function ValidatedKeys(t: AnalysisType): seq<string> {
    match t
    case AiAnalysis => ["IndustryName", "OutputSize"]
    case IndustryAnalysis => ["Industry", "Duration", "ResearchInstruction", "OutputSize"]
    case CompanyAnalysis => ["companyName"]
  }

  /** The payload fields the button demands to be truthy, per type. */
  function ButtonKeys(t: AnalysisType): seq<string> {
    match t
    case AiAnalysis => ["IndustryName", "OutputSize"]
    case IndustryAnalysis => ["Industry", "Duration", "OutputSize"]
    case CompanyAnalysis => ["companyName"]
  }

  /** The member names of the payload for each type, in the order the
      object literal writes them. */
  function PayloadKeys(t: AnalysisType): seq<string> {
    match t
    case AiAnalysis => ["type", "IndustryName", "ResearchInstruction", "OutputSize", "Role"]
    case IndustryAnalysis => ["type", "Industry", "Duration", "ResearchInstruction", "OutputSize", "Notes"]
    case CompanyAnalysis => ["type", "companyName", "analysisDescription", "companyLocation", "roles", "Notes"]
  }

  /** The payload of each type has exactly the members of its literal, in
      order, carrying the resolved industry and the form's fields verbatim. */
  lemma PayloadFields(f: Fields)
    ensures Keys(Payload(f)) == PayloadKeys(f.analysisType)
    ensures f.analysisType == AiAnalysis ==>
      Get(Payload(f), "IndustryName") == Some(JStr(f.industryName))
      && Get(Payload(f), "ResearchInstruction") == Some(JStr(f.researchInstruction))
      && Get(Payload(f), "OutputSize") == Some(JStr(f.outputSize))
      && Get(Payload(f), "Role") == Some(JStr(f.aiRoles))
    ensures f.analysisType == IndustryAnalysis ==>
      Get(Payload(f), "Industry") == Some(JStr(
        if f.selectedIndustry == "Other" then f.customIndustry else f.selectedIndustry))
      && Get(Payload(f), "Duration") == Some(JStr(f.selectedDuration))
      && Get(Payload(f), "ResearchInstruction") == Some(JStr(f.researchInstruction))
      && Get(Payload(f), "OutputSize") == Some(JStr(f.outputSize))
      && Get(Payload(f), "Notes") == Some(JStr(f.researchNotes))
    ensures f.analysisType == CompanyAnalysis ==>
      Get(Payload(f), "companyName") == Some(JStr(f.companyName))
      && Get(Payload(f), "analysisDescription") == Some(JStr(f.analysisDescription))
      && Get(Payload(f), "companyLocation") == Some(JStr(f.companyLocation))
      && Get(Payload(f), "roles") == Some(JStr(f.roles))
      && Get(Payload(f), "Notes") == Some(JStr(f.researchNotes))
      && Get(Payload(f), "OutputSize") == None
  {
    match f.analysisType
    case AiAnalysis => AiPayload(f);
    case IndustryAnalysis => IndustryPayload(f);
    case CompanyAnalysis => CompanyPayload(f);
  }

  lemma AiPayload(f: Fields)
    requires f.analysisType == AiAnalysis
    ensures Keys(Payload(f)) == PayloadKeys(AiAnalysis)
    ensures Get(Payload(f), "IndustryName") == Some(JStr(f.industryName))
    ensures Get(Payload(f), "ResearchInstruction") == Some(JStr(f.researchInstruction))
    ensures Get(Payload(f), "OutputSize") == Some(JStr(f.outputSize))
    ensures Get(Payload(f), "Role") == Some(JStr(f.aiRoles))
  {
    var ms := Payload(f).members;
    assert ms == AiMembers(f);
    GetDistinct(ms);
    assert ms[1].0 == "IndustryName" && ms[2].0 == "ResearchInstruction";
    assert ms[3].0 == "OutputSize" && ms[4].0 == "Role";
  }

  lemma IndustryPayload(f: Fields)
    requires f.analysisType == IndustryAnalysis
    ensures Keys(Payload(f)) == PayloadKeys(IndustryAnalysis)
    ensures Get(Payload(f), "Industry") == Some(JStr(ResolvedIndustry(f)))
    ensures Get(Payload(f), "Duration") == Some(JStr(f.selectedDuration))
    ensures Get(Payload(f), "ResearchInstruction") == Some(JStr(f.researchInstruction))
    ensures Get(Payload(f), "OutputSize") == Some(JStr(f.outputSize))
    ensures Get(Payload(f), "Notes") == Some(JStr(f.researchNotes))
  {
    var ms := Payload(f).members;
    assert ms == IndustryMembers(f);
    GetDistinct(ms);
    assert ms[1].0 == "Industry" && ms[2].0 == "Duration" && ms[3].0 == "ResearchInstruction";
    assert ms[4].0 == "OutputSize" && ms[5].0 == "Notes";
  }

  lemma CompanyPayload(f: Fields)
    requires f.analysisType == CompanyAnalysis
    ensures Keys(Payload(f)) == PayloadKeys(CompanyAnalysis)
    ensures Get(Payload(f), "companyName") == Some(JStr(f.companyName))
    ensures Get(Payload(f), "analysisDescription") == Some(JStr(f.analysisDescription))
    ensures Get(Payload(f), "companyLocation") == Some(JStr(f.companyLocation))
    ensures Get(Payload(f), "roles") == Some(JStr(f.roles))
    ensures Get(Payload(f), "Notes") == Some(JStr(f.researchNotes))
    ensures Get(Payload(f), "OutputSize") == None
  {
    var ms := Payload(f).members;
    assert ms == CompanyMembers(f);
    GetDistinct(ms);
    assert ms[1].0 == "companyName" && ms[2].0 == "analysisDescription";
    assert ms[3].0 == "companyLocation" && ms[4].0 == "roles" && ms[5].0 == "Notes";
    GetMissing(ms, "OutputSize");
  }

  /** Validation passes exactly when every field it checks is truthy in the
      payload that would be sent. */
  lemma ValidatesIffComplete(f: Fields)
    ensures Validates(f) <==> Complete(Payload(f), ValidatedKeys(f.analysisType))
  {
    var p := Payload(f);
    GetDistinct(p.members);
    match f.analysisType
    case AiAnalysis =>
      assert p.members[1].0 == "IndustryName" && p.members[3].0 == "OutputSize";
    case IndustryAnalysis =>
      assert p.members[1].0 == "Industry" && p.members[2].0 == "Duration";
      assert p.members[3].0 == "ResearchInstruction" && p.members[4].0 == "OutputSize";
    case CompanyAnalysis =>
      assert p.members[1].0 == "companyName";
  }

  /** The button is enabled exactly when no request is in flight and every
      field it checks is truthy in the payload that would be sent. */
  lemma EnabledIffComplete(f: Fields, generating: bool)
    ensures !Disabled(f, generating) <==>
      !generating && Complete(Payload(f), ButtonKeys(f.analysisType))
  {
    var p := Payload(f);
    GetDistinct(p.members);
    match f.analysisType
    case AiAnalysis =>
      assert p.members[1].0 == "IndustryName" && p.members[3].0 == "OutputSize";
    case IndustryAnalysis =>
      assert p.members[1].0 == "Industry" && p.members[2].0 == "Duration";
      assert p.members[4].0 == "OutputSize";
    case CompanyAnalysis =>
      assert p.members[1].0 == "companyName";
  }

  /** Whenever validation passes, the button is enabled unless a request is
      in flight. */
  lemma ValidImpliesEnabled(f: Fields)
    requires Validates(f)
    ensures !Disabled(f, false)
  {
  }

  /** For the AI and company analyses the button and validation agree; for
      the industry analysis the button additionally lets an empty research
      instruction through. */
  lemma EnabledVersusValid(f: Fields)
    ensures f.analysisType != IndustryAnalysis ==> (Validates(f) <==> !Disabled(f, false))
    ensures f.analysisType == IndustryAnalysis ==>
      (Validates(f) <==> !Disabled(f, false) && f.researchInstruction != "")
  {
  }

  /** An industry request with everything but the research instruction:
      the button is enabled, but validation rejects it. */
  lemma EnabledButInvalid()
    ensures var f := InitialFields.(analysisType := IndustryAnalysis,
                                    selectedIndustry := "Finance", selectedDuration := "3 Months");
      !Disabled(f, false) && !Validates(f)
  {
  }

  /** The company data reported to the page (`CompanyFormData`). */
  datatype CompanyFormData = CompanyFormData(
    companyName: string,
    analysisDescription: string,
    companyLocation: string,
    roles: string,
    researchNotes: string)

  /** `notifyFormDataChange`: the five company fields, for a company
      analysis only. */
  function NotifyFormData(f: Fields): (d: Option<CompanyFormData>)
    ensures d.Some? <==> f.analysisType == CompanyAnalysis
    ensures d.Some? ==>
      (d.value.companyName == f.companyName
       && d.value.analysisDescription == f.analysisDescription
       && d.value.companyLocation == f.companyLocation
       && d.value.roles == f.roles
       && d.value.researchNotes == f.researchNotes)
  {
    if f.analysisType == CompanyAnalysis then
      Some(CompanyFormData(f.companyName, f.analysisDescription, f.companyLocation,
                           f.roles, f.researchNotes))
    else None
  }

  /** The form with its visibility flag. */
  datatype Form = Form(fields: Fields, showForm: bool)

  /** The initial-data effect: supplied company data fills the five company
      fields, selects the company analysis and shows the form; with no data
      nothing changes. */
  function ApplyInitialData(form: Form, init: Option<CompanyFormData>): (r: Form)
    ensures init.None? ==> r == form
    ensures init.Some? ==> r.showForm && r.fields.analysisType == CompanyAnalysis
    ensures init.Some? ==> NotifyFormData(r.fields) == init
    ensures init.Some? ==> r.fields.(analysisType := form.fields.analysisType,
                                     companyName := form.fields.companyName,
                                     analysisDescription := form.fields.analysisDescription,
                                     companyLocation := form.fields.companyLocation,
                                     roles := form.fields.roles,
                                     researchNotes := form.fields.researchNotes) == form.fields
  {
    match init
    case None => form
    case Some(d) =>
      Form(form.fields.(companyName := d.companyName,
                        analysisDescription := d.analysisDescription,
                        companyLocation := d.companyLocation,
                        roles := d.roles,
                        researchNotes := d.researchNotes,
                        analysisType := CompanyAnalysis), true)
  }

  /** Feeding the data a company request reported back as initial data
      leaves the fields as they were. */
  lemma ReportedDataRoundTrip(form: Form)
    requires form.fields.analysisType == CompanyAnalysis
    ensures ApplyInitialData(form, NotifyFormData(form.fields)).fields == form.fields
  {
  }

  /** The observable effect of one `generateAnalysis` call: the request
      body sent, the data reported through `onCompanyFormDataChange` and
      the result passed to `onAnalysisComplete`. */
  datatype Generation = Generation(
    request: Option<Json>,
    reported: Option<CompanyFormData>,
    result: Option<string>)

  /** `generateAnalysis`: a request only after validation passes; on a
      reply (whatever its HTTP status) the company data and the text are
      reported; on an exception only a toast is shown. */
  function GenerateAnalysis(f: Fields, reply: Reply): (g: Generation)
    ensures g.request.Some? <==> Validates(f)
    ensures g.request.Some? ==> g.request.value == Payload(f)
    ensures g.result.Some? <==> Validates(f) && reply.ResponseText?
    ensures g.result.Some? ==> g.result.value == reply.text
    ensures g.reported.Some? <==> g.result.Some? && f.analysisType == CompanyAnalysis
    ensures g.reported.Some? ==> g.reported == NotifyFormData(f)
  {
    if !Validates(f) then Generation(None, None, None)
    else match reply
      case Threw => Generation(Some(Payload(f)), None, None)
      case ResponseText(text) => Generation(Some(Payload(f)), NotifyFormData(f), Some(text))
  }

  /** A request that fails validation does not depend on the reply: nothing
      is sent and nothing is reported. */
  lemma InvalidSendsNothing(f: Fields, reply: Reply)
    requires !Validates(f)
    ensures GenerateAnalysis(f, reply) == Generation(None, None, None)
  {
  }

  /** The initial form has an industry name missing, so it sends nothing. */
  lemma InitialFormSendsNothing(reply: Reply)
    ensures GenerateAnalysis(InitialFields, reply).request == None
    ensures Disabled(InitialFields, false)
  {
  }

  /** After initial company data with a company name, the request is the
      company payload of that data. */
  lemma InitialDataRequest(form: Form, d: CompanyFormData, reply: Reply)
    requires d.companyName != ""
    ensures var f := ApplyInitialData(form, Some(d)).fields;
      GenerateAnalysis(f, reply).request == Some(Payload(f))
      && Get(Payload(f), "type") == Some(JStr("company"))
      && Get(Payload(f), "companyName") == Some(JStr(d.companyName))
  {
    var f := ApplyInitialData(form, Some(d)).fields;
    PayloadFields(f);
  }
}
