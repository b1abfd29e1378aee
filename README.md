# Sales pipeline pages: a verified model of their data logic

The application is a React front end for a sales-outreach pipeline. Its
pages talk to workflow webhooks and show what comes back. Around the
markup and the requests there is a small amount of sequential data logic.
This project models that logic in Dafny and proves what the pages promise:

- **Email-template review** (`EmailTemplates`). The "get templates"
  webhook returns company rows with up to six template slots. The page
  flattens them into templates. The reviewer edits each template's status
  against the baseline it was loaded with. The changed templates are saved
  in one batch, and the baseline then moves forward. The page state is the
  class `TemplateManager`.
- **Campaign dashboard** (`CampaignMetrics`). Lead rows with six send/open
  slots are counted into:
  - totals;
  - distinct and engaged companies;
  - a per-company table;
  - per-step counters.
- **Leads page** (`Leads`). It covers:
  - the role list of the scrape dialog (toggle, add a custom role, remove);
  - the scrape submission and its validation;
  - normalising the company list;
  - the contact lookup.

  The page state is the class `LeadsPage`.
- **Analysis request forms**. The combined page form is
  `AnalysisRequestForm`; the stand-alone forms are `IndustryForm`,
  `AiAnalysisForm` and `CompanyForm`. The model covers:
  - validation and the button-disabled predicates;
  - the request payloads, with the three-way branch on the analysis type
    and the "Other" → custom-industry resolution;
  - the company-data round trip between the form and its parent.
- **Analysis result view** (`AnalysisResult`). It covers:
  - key/value extraction from table rows;
  - text collection;
  - the record of parsed data;
  - the iframe height rule.

  The view state is the class `AnalysisView`.

Shared modules:

- `Json`: the JSON values the pages send and receive, with JavaScript
  truthiness and `||`.
- `Text`: `trim`, the company-name rule `replace(/^\d+\.\s*/, '').trim()`,
  decimal rendering and `includes`.
- `WebhookReply`: what a form hands to its parent after a request.
- `Wrappers`: `Option`.

The code changes its state step by step in three places:

- the template flattening and grouping loops;
- the dashboard counters;
- the result extraction loops.

These are methods with loops. Each is proved equal to a recursive
specification function, and the properties hold as lemmas about that
function. The pages' state is split the same way:

- the fields a handler replaces are class fields;
- each handler is a method with `modifies this`;
- the pure computations in a handler (`filter`, `map`, object literals) are
  functions.

The code and the design description disagree in the following places. The
model follows the code in each.

- A successful save moves the baseline of *every* template to its current
  status (`EmailTemplates.tsx:225-229`). The design description says only
  the submitted templates move.
- After a 2xx save response the page still calls `response.json()`
  (`EmailTemplates.tsx:221`). A body that is not JSON therefore takes the
  error path and leaves the baseline where it was. The design description
  says such a body is tolerated and counted as a success.
- A status column that is present is copied verbatim, whatever its value
  (`EmailTemplates.tsx:128`). Only an empty or missing one becomes
  "Pending".
- A row with a populated slot whose `Company` is missing or is not a string
  (a number, `null`) makes the whole load throw (`EmailTemplates.tsx:131`). Nothing is shown then, and the old
  list stays.
- The AI form on the combined page sends `type: 'ai'`
  (`IndustryAnalysisForm.tsx:158-164`). The stand-alone AI form sends
  `type: "industry"` with lower-case keys (`AIAnalysisForm.tsx:32-39`). The
  duration labels are "3 Months"… on the combined page and "3 months"… in
  the stand-alone forms.
- Toggling a role twice gives back the original list only when the role was
  absent. When it was present and not last, the role moves to the end
  (`Leads.ToggleTwiceReorders`).

## Model

| member | source | states |
|---|---|---|
| Text.TrimStartRemovesSpace | src/pages/Leads.tsx:207 | `trimStart` drops exactly a prefix of white space and keeps the rest |
| Text.TrimEndRemovesSpace | src/pages/Leads.tsx:207 | `trimEnd` drops exactly a suffix of white space and keeps the rest |
| Text.Trim | src/pages/Leads.tsx:209 | the trimmed text neither starts nor ends with white space and is no longer than the input |
| Text.TrimIgnoresSurroundingSpace | src/pages/Leads.tsx:209 | white space added on either side does not change the trimmed text |
| Text.TrimIdempotent | src/pages/Leads.tsx:209 | trimming twice is trimming once |
| Text.NormalizeCompanyName | src/pages/EmailTemplates.tsx:131 | a normalised company name neither starts nor ends with white space |
| Text.OrdinalPrefixIgnored | src/pages/EmailTemplates.tsx:131 | "3. Acme Corp" and "Acme Corp" normalise to the same name: a leading `digits.` and the white space after it are ignored |
| Text.PlainNameUnchanged | src/pages/Leads.tsx:207 | a trimmed name without an ordinal prefix is kept as it is |
| Text.NatToString | src/pages/EmailTemplates.tsx:300 | the decimal rendering of a number is a non-empty string of digits, one digit long exactly below ten |
| Text.NatToStringInjective | src/pages/EmailTemplates.tsx:130 | different numbers render differently |
| Text.AbsentFirstChar | src/pages/EmailTemplates.tsx:244-248 | `includes` cannot find a text whose first character does not occur |
| Json.Or | src/pages/IndustryAnalysisForm.tsx:163 | `a \|\| b` is truthy iff either is, and is `a` or `b` |
| Json.Keys | src/components/forms/CompanyForm.tsx:23-30 | the member names of an object, one per member, in order |
| Json.GetDistinct | src/components/forms/CompanyForm.tsx:23-30 | in an object with distinct names every member is found by its name |
| WebhookReply.Delivered | src/components/forms/IndustryForm.tsx:51-55 | the parent receives the response text, or the fixed error HTML when the request threw |
| EmailTemplates.ResolveStatus | src/pages/EmailTemplates.tsx:128 | an empty status becomes "Pending"; any other is copied verbatim |
| EmailTemplates.MakeTemplate | src/pages/EmailTemplates.tsx:129-138 | id `row_number-i`, number i, the slot's subject and body, status resolved, baseline equal to status, change request "", not dirty |
| EmailTemplates.ProcessTemplatesData | src/pages/EmailTemplates.tsx:113-141 | the nested loops compute the reference flattening `FlattenSpec` |
| EmailTemplates.PushRowTemplates | src/pages/EmailTemplates.tsx:116-140 | one row's loop appends that row's templates, or fails when reading its company throws |
| EmailTemplates.FlattenStep | src/pages/EmailTemplates.tsx:116 | rows are processed in order: each row's part follows the earlier rows' parts |
| EmailTemplates.FlattenCount | src/pages/EmailTemplates.tsx:127 | exactly one template per populated slot (body and subject both non-empty) |
| EmailTemplates.SlotsUpToCount | src/pages/EmailTemplates.tsx:118-127 | one row yields as many templates as it has populated slots |
| EmailTemplates.SlotsUpToMembers | src/pages/EmailTemplates.tsx:118-138 | a row's templates are exactly those of its populated slots |
| EmailTemplates.FlattenEmits | src/pages/EmailTemplates.tsx:127-138 | every populated slot of every row yields its template |
| EmailTemplates.FlattenOnlyEmits | src/pages/EmailTemplates.tsx:127-138 | every template comes from a populated slot of some row |
| EmailTemplates.FlattenMembers | src/pages/EmailTemplates.tsx:116-141 | both directions: a template is emitted iff it is the template of a populated slot |
| EmailTemplates.FlattenFails | src/pages/EmailTemplates.tsx:131 | flattening throws iff some row has a populated slot and a `Company` value that is missing or not a string |
| EmailTemplates.NonTextCompanyFails | src/pages/EmailTemplates.tsx:131 | a row with a populated slot whose `Company` is a number, `null` or any other non-string value makes the whole load fail |
| EmailTemplates.FlattenNonePropagates | src/pages/EmailTemplates.tsx:116 | once a row throws, no later row can rescue the load |
| EmailTemplates.FlattenAppend | src/pages/EmailTemplates.tsx:116 | flattening two lists of rows is flattening each and concatenating |
| EmailTemplates.FlattenAllClean | src/pages/EmailTemplates.tsx:133-137 | a freshly loaded template is clean, has change request "" and a slot number in 1..6 |
| EmailTemplates.FlattenIdsUnique | src/pages/EmailTemplates.tsx:130 | with distinct row numbers, template ids are unique |
| EmailTemplates.TemplateIdInjective | src/pages/EmailTemplates.tsx:130 | an id `row-i` determines the row and the slot |
| EmailTemplates.SingleRowFlatten | src/pages/EmailTemplates.tsx:116 | a list of one row flattens to that row's part |
| EmailTemplates.GlobexName | src/pages/EmailTemplates.tsx:131 | "2. Globex" normalises to "Globex" |
| EmailTemplates.GlobexScenario | src/pages/EmailTemplates.tsx:113-141 | the Globex row yields one pending "Globex" template numbered 1 with id "2-1"; rejecting it changes exactly it, the save sends one entry with the change request, and then nothing is changed |
| EmailTemplates.GlobexTemplate | src/pages/EmailTemplates.tsx:113-141 | the Globex row alone flattens to exactly one template: id "2-1", company "Globex", number 1, its subject and content, statuses "Pending" and an empty change request |
| EmailTemplates.RejectOnly | src/pages/EmailTemplates.tsx:613-621 | rejecting the one clean template of a list makes it the only changed one and the only entry saved; after the baseline moves nothing is changed |
| EmailTemplates.ApplyEdit | src/pages/EmailTemplates.tsx:613-621 | only the template with the id takes the new status, with the change request kept for "Rejected" and `undefined` otherwise; every baseline and every other template is unchanged |
| EmailTemplates.EditDirtiness | src/pages/EmailTemplates.tsx:318-320 | after an edit the template is dirty iff its new status differs from its baseline, so editing back makes it clean |
| EmailTemplates.EditIdempotent | src/pages/EmailTemplates.tsx:613-621 | applying the same edit twice is applying it once |
| EmailTemplates.Changed | src/pages/EmailTemplates.tsx:181-183 | the changed set holds exactly the dirty templates, and is no longer than the list |
| EmailTemplates.ChangedAppend | src/pages/EmailTemplates.tsx:181-183 | the filter keeps list order: the changed set of a concatenation is the changed set of each part in turn |
| EmailTemplates.ChangedCounts | src/pages/EmailTemplates.tsx:181-183 | each dirty template occurs in the changed set exactly as often as in the list, and no clean one occurs |
| EmailTemplates.ChangedEmpty | src/pages/EmailTemplates.tsx:185 | the changed set is empty iff no template is dirty |
| EmailTemplates.SaveEntry | src/pages/EmailTemplates.tsx:196-202 | one save entry: company, template number, status, change request or "", body, in that order, and no subject |
| EmailTemplates.SavePayload | src/pages/EmailTemplates.tsx:196-202 | one entry per changed template, in list order |
| EmailTemplates.AdvanceBaseline | src/pages/EmailTemplates.tsx:225-229 | every template's baseline becomes its current status; nothing else changes |
| EmailTemplates.SaveLeavesNothingChanged | src/pages/EmailTemplates.tsx:225-229 | after the baseline moves nothing is changed, and statuses and bodies are kept |
| EmailTemplates.SecondSaveIsEmpty | src/pages/EmailTemplates.tsx:181-193 | a second save right after a successful one has nothing to send |
| EmailTemplates.SaveErrorMessage | src/pages/EmailTemplates.tsx:238-254 | something thrown that is not an `Error` is reported as "Failed to save templates" |
| EmailTemplates.HttpErrorMessage | src/pages/EmailTemplates.tsx:217-219 | a non-2xx answer is reported as "HTTP error! status: N" |
| EmailTemplates.TemplateTypeName | src/pages/EmailTemplates.tsx:291-301 | slots 1..6 have six fixed labels; any other number n is "Template n" |
| EmailTemplates.TruncateSubject | src/pages/EmailTemplates.tsx:303-306 | a subject within the limit is unchanged; a longer one is its first max characters and "..." |
| EmailTemplates.TruncateIdempotent | src/pages/EmailTemplates.tsx:303-306 | truncation is bounded by max + 3 characters and truncating twice is truncating once |
| EmailTemplates.OfCompanyMembers | src/pages/EmailTemplates.tsx:309-315 | a company's bucket holds exactly that company's templates |
| EmailTemplates.OfCompanyAppend | src/pages/EmailTemplates.tsx:309-315 | buckets keep list order: the bucket of a concatenation is each part's bucket in turn |
| EmailTemplates.CompanyOrderMembers | src/pages/EmailTemplates.tsx:309-315 | a company has a bucket iff some template belongs to it |
| EmailTemplates.CompanyOrderDistinct | src/pages/EmailTemplates.tsx:309-315 | each company has one bucket |
| EmailTemplates.OfAbsentCompany | src/pages/EmailTemplates.tsx:309-315 | a company with no bucket has no templates |
| EmailTemplates.GroupByCompany | src/pages/EmailTemplates.tsx:309-315 | the `reduce` loop throws iff some company name is inherited from `Object.prototype`; otherwise it builds one bucket per company in first-encounter order, each holding that company's templates |
| EmailTemplates.PushTemplate | src/pages/EmailTemplates.tsx:310-314 | one step of the `reduce`: adding the next template to its company's bucket (creating the bucket on first sight) keeps order and buckets equal to those of the longer prefix |
| EmailTemplates.ConstructorCompanyThrows | src/pages/EmailTemplates.tsx:310-313 | a template whose company is "constructor" makes the grouping throw, though it should yield one bucket holding that template |
| EmailTemplates.TemplateManager.constructor | src/pages/EmailTemplates.tsx:58-70 | the page starts with no rows, no templates and no save status |
| EmailTemplates.TemplateManager.FetchTemplates | src/pages/EmailTemplates.tsx:72-111 | a failed fetch keeps the list; a non-array answer empties it; rows replace it with their flattening unless flattening throws; the loaded list has nothing changed |
| EmailTemplates.TemplateManager.EditTemplate | src/pages/EmailTemplates.tsx:613-622 | the list becomes the edited list; rows and save status are kept |
| EmailTemplates.TemplateManager.SaveAll | src/pages/EmailTemplates.tsx:170-260 | no request and "No templates to save" (an error) for an empty list; no request and "No changes to save" (a success) without changes; otherwise the request is the payload of the changed templates; success moves the baseline and leaves nothing changed; failure changes no template and reports the error message |
| EmailTemplates.SaveTwice | src/pages/EmailTemplates.tsx:170-193 | a successful save of a non-empty changed set followed by a second save: the second sends nothing and reports "No changes to save" |
| CampaignMetrics.CampaignData | src/pages/Home.tsx:70 | an answer that is not an array becomes an empty list of leads |
| CampaignMetrics.ScanSlots | src/pages/Home.tsx:203-222 | the slot loop counts sent and opened slots and finds whether the contact is engaged |
| CampaignMetrics.ComputeMetrics | src/pages/Home.tsx:185-243 | the counting loop computes the reference metrics `MetricsOf` |
| CampaignMetrics.SlotCountsBounded | src/pages/Home.tsx:210-218 | a contact's opened slots are at most its sent slots, which are at most the number of slots |
| CampaignMetrics.EngagedIffOpened | src/pages/Home.tsx:214-222 | a contact is engaged iff some slot was both sent and opened |
| CampaignMetrics.CompaniesBounded | src/pages/Home.tsx:197-227 | engaged companies are among the companies; there are at most as many companies as contacts, and at least one when there is a contact |
| CampaignMetrics.CountsBounded | src/pages/Home.tsx:210-223 | opened ≤ sent ≤ 6 · contacts, and engaged contacts ≤ contacts |
| CampaignMetrics.MetricsBounded | src/pages/Home.tsx:185-243 | opened ≤ sent ≤ 6 · contacts, engaged ≤ contacts, engaged companies ≤ companies ≤ contacts, and at least one company when there are contacts |
| CampaignMetrics.RowOf | src/pages/Home.tsx:253-272 | a company's row carries that company's name |
| CampaignMetrics.CompanyRows | src/pages/Home.tsx:275-278 | one row per company name |
| CampaignMetrics.TabulateLead | src/pages/Home.tsx:248-272 | one step of the `forEach` keeps the table equal to the reference table of the leads seen so far, skipping inherited names |
| CampaignMetrics.CompanyPerformance | src/pages/Home.tsx:246-278 | the loop computes the reference table of the leads whose name is not inherited |
| CampaignMetrics.CompanyNamesDistinct | src/pages/Home.tsx:253-261 | each company has one row |
| CampaignMetrics.CompanyNamesNamed | src/pages/Home.tsx:248-261 | a name has a row iff some lead carries it |
| CampaignMetrics.AbsentNameHasEmptyRow | src/pages/Home.tsx:253-261 | a name no lead carries counts nothing |
| CampaignMetrics.CompanyLeadsSum | src/pages/Home.tsx:248-272 | the leads counts of the reference table sum to the number of named leads |
| CampaignMetrics.SumOverNewName | src/pages/Home.tsx:253-261 | a named lead whose company was not seen before opens a new row that holds exactly that one lead |
| CampaignMetrics.SumOverCountsStep | src/pages/Home.tsx:253-261 | if the rows for some leads count all their named leads, the rows after one more lead count all the named leads again |
| CampaignMetrics.SumOverCounts | src/pages/Home.tsx:248-262 | over any leads, the per-company leads counts add up to the number of leads with a company name |
| CampaignMetrics.RowBounded | src/pages/Home.tsx:262-271 | a row's sent and opened counts are at most its leads count |
| CampaignMetrics.CompanyRowsBounded | src/pages/Home.tsx:246-278 | every row has at least one lead, sent ≤ leads and opened ≤ leads, and no two rows share a name |
| CampaignMetrics.VisibleOfPlain | src/pages/Home.tsx:251-258 | without inherited names no lead is skipped |
| CampaignMetrics.CompanyPerformanceOfPlainNames | src/pages/Home.tsx:246-278 | without inherited names the table is the reference table and its leads sum to the named leads |
| CampaignMetrics.ConstructorNameDropped | src/pages/Home.tsx:251-258 | a lead of company "constructor" is named but gets no row |
| CampaignMetrics.SequenceData | src/pages/Home.tsx:281-306 | six entries, entry j counting the leads whose slot j+1 was sent and whose slot j+1 was opened |
| CampaignMetrics.StepRowStep | src/pages/Home.tsx:296-301 | taking one more lead into account adds one to a step's sent count exactly when that lead's slot was sent, and one to its opened count exactly when it was also opened |
| CampaignMetrics.StepCountsBounded | src/pages/Home.tsx:291-306 | each step counts at most one per lead |
| CampaignMetrics.OpenedWithoutSent | src/pages/Home.tsx:296-301 | a lead opened but not sent counts as opened and not as sent (unlike the totals) |
| Leads.RemoveAll | src/pages/Leads.tsx:83-85 | removing a role removes every occurrence of it and keeps the others |
| Leads.RemoveAllAppend | src/pages/Leads.tsx:84 | removal works element by element over a concatenation |
| Leads.RemoveAllAbsent | src/pages/Leads.tsx:84 | removing an absent role changes nothing |
| Leads.RemoveAllCounts | src/pages/Leads.tsx:84 | removal keeps each other role's number of occurrences and leaves none of the removed one |
| Leads.RemoveAllKeepsDistinct | src/pages/Leads.tsx:84 | removal keeps a list without duplicates free of them |
| Leads.ToggleMembers | src/pages/Leads.tsx:67-71 | after a toggle the role is present iff it was absent; other roles are unaffected |
| Leads.ToggleTwiceAbsent | src/pages/Leads.tsx:67-71 | toggling an absent role twice restores the list |
| Leads.ToggleTwicePresent | src/pages/Leads.tsx:67-71 | toggling a present role twice removes it and appends it once at the end |
| Leads.ToggleTwiceReorders | src/pages/Leads.tsx:67-71 | ["CEO", "CTO"] toggled twice on "CEO" becomes ["CTO", "CEO"] |
| Leads.ToggleKeepsDistinct | src/pages/Leads.tsx:67-71 | toggling keeps a list without duplicates free of them |
| Leads.CompanyNameOf | src/pages/Leads.tsx:207 | a string company name is normalised, and one whose normalised form is empty (such as "  " or "3. ") becomes "N/A"; a result is never empty |
| Leads.CompanyNameCases | src/pages/Leads.tsx:207 | a missing, null or empty name becomes "N/A"; a number, boolean, array or object makes the normalisation throw |
| Leads.WhyOf | src/pages/Leads.tsx:209 | a string is trimmed; a missing or null value becomes "" |
| Leads.NormalizeCompany | src/pages/Leads.tsx:206-210 | a normalised company has a non-empty name and a truthy description |
| Leads.MapAll | src/pages/Leads.tsx:206 | a `map` that does not throw gives one result per item |
| Leads.MapAllPointwise | src/pages/Leads.tsx:206 | the `map` succeeds iff every item does, and then item k maps to result k |
| Leads.NormalizeAll | src/pages/Leads.tsx:206-210 | one company per item |
| Leads.NormalizeAllPointwise | src/pages/Leads.tsx:206-210 | normalisation succeeds iff every item normalises, and then item k gives company k |
| Leads.CompanyClickRequest | src/pages/Leads.tsx:231-234 | the contact request carries action "company_click" and the normalised company name |
| Leads.Contacts | src/pages/Leads.tsx:245 | an array answer is the contact list; anything else is wrapped into a one-element list |
| Leads.ContactsNonEmpty | src/pages/Leads.tsx:245 | the contact list is empty iff the answer is the empty array |
| Leads.Strings | src/pages/Leads.tsx:115 | the roles are sent as strings, one per role, in order |
| Leads.ScrapRequest | src/pages/Leads.tsx:113-117 | the scrape request carries the company, the selected roles and the time stamp |
| Leads.LeadsPage.constructor | src/pages/Leads.tsx:39-53 | the page starts with the seven default roles, nothing selected and every dialog closed |
| Leads.LeadsPage.FetchCompanies | src/pages/Leads.tsx:189-220 | companies are replaced by the normalised list; a failed request or a throwing normalisation sets the error message and keeps the list |
| Leads.LeadsPage.CompanyClick | src/pages/Leads.tsx:225-254 | an answer opens the contact dialog with its contact list; a failure sets the error message |
| Leads.LeadsPage.CloseModal | src/pages/Leads.tsx:257-260 | the contact dialog closes and its contacts are cleared |
| Leads.LeadsPage.OpenScrapDialog | src/pages/Leads.tsx:314-315 | the scrape dialog opens for the company; the roles are kept |
| Leads.LeadsPage.CancelScrapDialog | src/pages/Leads.tsx:428-430 | the dialog closes and the custom input is cleared and hidden; the selection is kept |
| Leads.LeadsPage.RoleSelect | src/pages/Leads.tsx:61-72 | "Other" only shows the custom input; any other role toggles in the selection; nothing else changes |
| Leads.LeadsPage.AddCustomRole | src/pages/Leads.tsx:74-81 | a custom role with non-blank text that is not yet available is appended to both lists and the input is cleared; otherwise nothing changes |
| Leads.LeadsPage.RemoveRole | src/pages/Leads.tsx:83-85 | the selection loses every occurrence of the role |
| Leads.LeadsPage.ScrapSubmit | src/pages/Leads.tsx:89-178 | without a company or a role nothing is sent and nothing changes; otherwise it sends the scrape request; success closes the dialog and clears the selection; failure keeps everything |
| Leads.LoadedCompanyCanBeSubmitted | src/pages/Leads.tsx:206-210 | any loaded company passes the company check, so with a role selected the scrape can be submitted |
| AnalysisRequestForm.AiMembers | src/pages/IndustryAnalysisForm.tsx:158-164 | the AI payload has distinct member names |
| AnalysisRequestForm.IndustryMembers | src/pages/IndustryAnalysisForm.tsx:166-173 | the industry payload has distinct member names |
| AnalysisRequestForm.CompanyMembers | src/pages/IndustryAnalysisForm.tsx:175-182 | the company payload has distinct member names |
| AnalysisRequestForm.Members | src/pages/IndustryAnalysisForm.tsx:156-183 | the payload for each type has distinct member names |
| AnalysisRequestForm.Payload | src/pages/IndustryAnalysisForm.tsx:156-183 | an object of string members with distinct names whose `type` is the analysis type |
| AnalysisRequestForm.PayloadFields | src/pages/IndustryAnalysisForm.tsx:156-183 | each type's payload has exactly its literal's member names in order; every member carries its form field (the industry resolved from "Other"), and the company payload has no OutputSize |
| AnalysisRequestForm.AiPayload | src/pages/IndustryAnalysisForm.tsx:157-164 | the AI payload's names are type, IndustryName, ResearchInstruction, OutputSize, Role, each with its field |
| AnalysisRequestForm.IndustryPayload | src/pages/IndustryAnalysisForm.tsx:165-173 | the industry payload's names are type, Industry, Duration, ResearchInstruction, OutputSize, Notes, with the resolved industry and the other fields |
| AnalysisRequestForm.CompanyPayload | src/pages/IndustryAnalysisForm.tsx:174-182 | the company payload's names are type, companyName, analysisDescription, companyLocation, roles, Notes, each with its field, and no OutputSize |
| AnalysisRequestForm.ValidatesIffComplete | src/pages/IndustryAnalysisForm.tsx:124-152 | validation passes iff the payload members it checks for the type are non-empty |
| AnalysisRequestForm.EnabledIffComplete | src/pages/IndustryAnalysisForm.tsx:458-466 | the button is enabled iff nothing is generating and the payload members it checks for the type are non-empty |
| AnalysisRequestForm.ValidImpliesEnabled | src/pages/IndustryAnalysisForm.tsx:458-466 | whatever passes validation has the button enabled |
| AnalysisRequestForm.EnabledVersusValid | src/pages/IndustryAnalysisForm.tsx:458-466 | for AI and company the button is enabled iff validation passes; for industry validation adds the research instruction |
| AnalysisRequestForm.EnabledButInvalid | src/pages/IndustryAnalysisForm.tsx:133-135 | an industry form with industry and duration but no instruction has the button enabled and fails validation |
| AnalysisRequestForm.NotifyFormData | src/pages/IndustryAnalysisForm.tsx:110-120 | form data is reported iff the type is company, and carries its five fields |
| AnalysisRequestForm.ApplyInitialData | src/pages/IndustryAnalysisForm.tsx:98-108 | initial company data copies its five fields, selects company and shows the form; nothing else changes; no data changes nothing |
| AnalysisRequestForm.ReportedDataRoundTrip | src/pages/IndustryAnalysisForm.tsx:98-120 | feeding the reported data back as initial data gives back the same fields |
| AnalysisRequestForm.GenerateAnalysis | src/pages/IndustryAnalysisForm.tsx:122-209 | a request is made iff validation passes, with the payload; a result iff it also gets a response text; form data is reported iff there is a result and the type is company |
| AnalysisRequestForm.InvalidSendsNothing | src/pages/IndustryAnalysisForm.tsx:124-152 | a form that fails validation sends, delivers and reports nothing |
| AnalysisRequestForm.InitialFormSendsNothing | src/pages/IndustryAnalysisForm.tsx:42-50 | the untouched form sends nothing and its button is disabled |
| AnalysisRequestForm.InitialDataRequest | src/pages/IndustryAnalysisForm.tsx:98-108 | after initial data with a company name, generating sends a company payload with that name |
| IndustryForm.Payload | src/components/forms/IndustryForm.tsx:34-41 | members type, Industry, Duration, ResearchInstruction, OutputSize, Notes in order; type "industry"; Industry resolved from "Other"; Notes as entered |
| IndustryForm.EnabledIffComplete | src/components/forms/IndustryForm.tsx:154 | the button is enabled iff nothing is loading and the four payload members it checks (industry, duration, instruction, output size) are non-empty |
| IndustryForm.Click | src/components/forms/IndustryForm.tsx:31-59 | a click sends iff the button is enabled, sends the payload, and hands the parent the response text or the fixed error HTML |
| IndustryForm.AgreesWithPage | src/components/forms/IndustryForm.tsx:154 | the stand-alone industry form sends what the page form sends, and its button is enabled iff the page form validates |
| AiAnalysisForm.OutputSizesAreMultiplesOfFive | src/components/forms/AIAnalysisForm.tsx:27 | the ten output sizes are 5, 10, …, 50 |
| AiAnalysisForm.Payload | src/components/forms/AIAnalysisForm.tsx:32-39 | members type, industryName, duration, researchInstruction, outputSize, notes in order; type "industry"; the four fields verbatim; notes "" |
| AiAnalysisForm.EnabledIffComplete | src/components/forms/AIAnalysisForm.tsx:129 | the button is enabled iff nothing is loading and the four fields are non-empty |
| AiAnalysisForm.Click | src/components/forms/AIAnalysisForm.tsx:29-57 | a click sends iff the button is enabled, sends the payload, and hands the parent the response text or the fixed error HTML |
| CompanyForm.Payload | src/components/forms/CompanyForm.tsx:23-30 | members type, companyName, analysisDescription, companyLocation, roles, notes in order; type "company"; the description is the research instruction; notes "" |
| CompanyForm.RequestBody | src/components/forms/CompanyForm.tsx:37 | the request body has one member, `body`, holding the payload, and no `type` of its own |
| CompanyForm.EnabledIffComplete | src/components/forms/CompanyForm.tsx:103 | the button is enabled iff nothing is loading and the four fields are non-empty |
| CompanyForm.Click | src/components/forms/CompanyForm.tsx:20-48 | a click sends iff the button is enabled, sends the payload under `body`, and hands the parent the response text or the fixed error HTML |
| AnalysisResult.AddRow | src/components/AnalysisResult.tsx:33-39 | a row with two cells and a non-empty trimmed key sets that key to the trimmed value; any other row changes nothing |
| AnalysisResult.ExtractTable | src/components/AnalysisResult.tsx:30-40 | the row loop computes the reference table `TableSpec` |
| AnalysisResult.TableKeys | src/components/AnalysisResult.tsx:33-39 | a key is in the table iff some contributing row has it |
| AnalysisResult.TableLastWins | src/components/AnalysisResult.tsx:38 | a key holds the value of the last row that has it |
| AnalysisResult.TableTrimmed | src/components/AnalysisResult.tsx:36-38 | keys are non-empty and trimmed, and values are trimmed |
| AnalysisResult.CollectTexts | src/components/AnalysisResult.tsx:48-53 | the text loop computes the reference list `TextsSpec` |
| AnalysisResult.TextsAppend | src/components/AnalysisResult.tsx:50-53 | texts are collected in document order |
| AnalysisResult.TextsMembers | src/components/AnalysisResult.tsx:50-53 | every collected text is non-empty, trimmed and the trimmed text of some block |
| AnalysisResult.TextsComplete | src/components/AnalysisResult.tsx:50-53 | every block with a non-blank text is collected |
| AnalysisResult.TableKeyInjective | src/components/AnalysisResult.tsx:43 | different table indexes give different keys |
| AnalysisResult.TableKeyNotTextContent | src/components/AnalysisResult.tsx:43-56 | no table key collides with `text_content` |
| AnalysisResult.Parse | src/components/AnalysisResult.tsx:22-59 | the parse loop computes the reference record `ParseSpec` |
| AnalysisResult.TablesEntries | src/components/AnalysisResult.tsx:28-45 | `table_{k+1}` is present iff table k yields an entry, and then holds that table; there are no other keys |
| AnalysisResult.ParseEntries | src/components/AnalysisResult.tsx:28-57 | the record holds the non-empty tables under `table_{k+1}`, and `text_content` iff some text was collected |
| AnalysisResult.MeasuredHeight | src/components/AnalysisResult.tsx:78-84 | the height is at least each of the five measurements and equal to one of them |
| AnalysisResult.NextHeight | src/components/AnalysisResult.tsx:71-89 | a throw gives 1200; no document or a zero height keeps the height; otherwise it is min(h + 40, 750), in (40, 750] |
| AnalysisResult.NextHeightPossible | src/components/AnalysisResult.tsx:71-89 | the height is always 800, 1200 or in (40, 750] |
| AnalysisResult.AnalysisView.constructor | src/components/AnalysisResult.tsx:13-15 | the view starts with no parsed data and height 800 |
| AnalysisResult.AnalysisView.OnResult | src/components/AnalysisResult.tsx:19-64 | an empty result is not parsed; a parse failure clears the data; otherwise the data is the parsed record; the height is kept |
| AnalysisResult.AnalysisView.HandleLoad | src/components/AnalysisResult.tsx:71-90 | the height follows `NextHeight` and stays a possible height; the data is kept |

## Left out

- Network requests and webhooks of every page: their outcome is an input (`FetchResponse`, `SaveResponse`, `Answer`, `Reply`, `succeeded`), and the URLs and headers are not modelled.
- The CORS-proxy and sample-data fallbacks of the dashboard fetch (`src/pages/Home.tsx:27-67,72-173`): network plumbing; the model starts from the answer.
- Toasts, `console` output, `setTimeout` scheduling, the scrape `AbortController` timeout, loading and saving flags, and React effects: side effects and timing.
- Concurrency: a second fetch or save while one is in flight, and edits made while a save is in flight. The model is sequential, so the design description's "selective baseline advance" does not arise.
- The rates of the dashboard (`toFixed`) and the `Math.random` click estimate (`src/pages/Home.tsx:228-230,276,303`): floating point and randomness.
- `processTemplateContent` (`src/pages/EmailTemplates.tsx:150-162`): regex-based HTML clean-up for the preview only.
- The "generate templates" button (`src/pages/EmailTemplates.tsx:453-490`): one request and a delayed refetch, nothing computed.
- DOMParser, `textContent` and the iframe measurements (`src/components/AnalysisResult.tsx:23-24,73-84`): the model starts from their outputs (tables of rows of cell texts, text blocks, five numbers).
- `loadAnalysisForm` (`src/pages/IndustryAnalysisForm.tsx:55-90`): it loads the industry list over the network and shows the form; the list only feeds a select box.
- The handler `onCompanyFormDataChange` is taken to be present; when the parent passes none, nothing is reported.
- JavaScript property-key order: integer-like keys come first in `Object.values`. The model keeps first-encounter order for the grouping and the company table.
- JavaScript key coercion: a company name that is not a string becomes a string key. In the dashboard model a name is any truthy JSON value and two names are the same key only when the values are equal.
- `Set` equality on the dashboard's keys: a `Set` compares objects by identity. The model compares JSON values by value.
- `NaN` is not modelled as a truthiness case.
- A `__proto__` key in a result table (`src/components/AnalysisResult.tsx:38`): assigning it changes the object's prototype instead of adding a key. The model adds it as a key.
- Duplicate keys in parsed JSON: the model takes the first member with a name, as `Get` does; `JSON.parse` keeps the last one.
- `src/pages/api/email-templates.ts` and `src/pages/api/dashboard.js`: request-forwarding and CORS plumbing.
- `src/components/ChatWidget.tsx`, `src/App.tsx`, `src/components/Navbar.tsx`, `src/pages/Salesforce.tsx`, `src/pages/Analysis.tsx` and `src/components/AnalysisResults.tsx`: script injection, routing and static markup, no data logic.
- EmailTemplates.FlattenFails: the model's row (`RawRecord`) gives `Company` any JSON value, but its slot columns only strings and its `row_number` a natural number. So the model does not cover a `null` element of the answer array, which throws at `src/pages/EmailTemplates.tsx:123`. It also does not cover a number in a slot column, which is truthy and is copied into the template, or a missing `row_number`, whose id reads "undefined-i". The row type the page declares allows these (`src/pages/EmailTemplates.tsx:36`).
- CampaignMetrics.Lead: a lead is an object of JSON values. A `null` element of the dashboard's array, which throws at its first property read (`lead.Company` at `src/pages/Home.tsx:197`), is not modelled.
- EmailTemplates.TruncateSubject: lengths and the cut are counted in Unicode code points, while `length` and `substring` count UTF-16 code units. A subject with characters outside the Basic Multilingual Plane, such as emoji, is truncated later in the model than in the page, and the model never splits a surrogate pair as `substring` can.
- WebhookReply.Delivered: a throw from the parent's `onAnalysisGenerated` callback is caught by the form's own `catch`, which then calls the callback a second time with the error markup (`src/components/forms/IndustryForm.tsx:52-55`, `src/components/forms/AIAnalysisForm.tsx:50-53`, `src/components/forms/CompanyForm.tsx:41-44`). The callback is taken not to throw, so the model delivers one string per click.
- EmailTemplates.SaveErrorMessage: its contract covers only the message for something thrown that is not an `Error`. The HTTP-error message is `HttpErrorMessage`. The messages chosen by `includes` on an error's own text are the function's cases.

## Findings

| source | as written | input that shows it | evidently intended | confidence | as-written member | corrected member |
|---|---|---|---|---|---|---|
| src/pages/Home.tsx:251-258 | `if (!companies[companyName])` on a plain object finds the names `Object.prototype` already has, so no row is created and the lead is counted on the inherited value | one lead with Company "constructor" | every named lead is counted in its company's row, so the leads counts sum to the named leads | not executed | CampaignMetrics.ConstructorNameDropped | CampaignMetrics.CompanyLeadsSum |
| src/pages/EmailTemplates.tsx:309-315 | `if (!acc[template.company])` on `{}` sees the inherited `constructor` function, skips creating the bucket, and `acc[company].push` then throws | one template whose company is "constructor" | each company gets a bucket holding exactly its templates | not executed | EmailTemplates.ConstructorCompanyThrows | EmailTemplates.OfCompanyMembers |
