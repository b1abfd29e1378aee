// The leads page: the list of companies loaded from the leads webhook, the
// contacts of a clicked company, and the "scrap" dialog in which roles are
// chosen before a scraping request is sent for the selected company.
module Leads {

  import opened Wrappers
  import opened Json
  import opened Text

  // ---------------------------------------------------------------------
  // Role lists
  // ---------------------------------------------------------------------

  /** `roles.filter(r => r !== role)`. */
  function RemoveAll(roles: seq<string>, role: string): (r: seq<string>)
    ensures role !in r
    ensures forall x :: x in r <==> x in roles && x != role
    ensures |r| <= |roles|
  {
    if roles == [] then []
    else RemoveAll(roles[..|roles| - 1], role)
         + (if roles[|roles| - 1] == role then [] else [roles[|roles| - 1]])
  }

  /** The checkbox of a role other than "Other": removes it when selected,
      appends it otherwise. */
  function Toggle(roles: seq<string>, role: string): seq<string> {
    if role in roles then RemoveAll(roles, role) else roles + [role]
  }

  predicate Distinct(roles: seq<string>) {
    forall a, b :: 0 <= a < b < |roles| ==> roles[a] != roles[b]
  }

  /** The filter works piecewise, so it keeps the other roles in order. */
  lemma {:induction false} RemoveAllAppend(a: seq<string>, b: seq<string>, role: string)
    ensures RemoveAll(a + b, role) == RemoveAll(a, role) + RemoveAll(b, role)
  {
    if b == [] {
      assert a + b == a;
    } else {
      var binit, blast := b[..|b| - 1], b[|b| - 1];
      assert (a + b)[..|a + b| - 1] == a + binit;
      assert (a + b)[|a + b| - 1] == blast;
      RemoveAllAppend(a, binit, role);
    }
  }

  /** Removing a role that is not there changes nothing. */
  lemma {:induction false} RemoveAllAbsent(roles: seq<string>, role: string)
    requires role !in roles
    ensures RemoveAll(roles, role) == roles
  {
    if roles != [] {
      RemoveAllAbsent(roles[..|roles| - 1], role);
    }
  }

  /** Every occurrence goes: the count of `role` drops to zero and the
      count of every other role is kept. */
  lemma {:induction false} RemoveAllCounts(roles: seq<string>, role: string, x: string)
    ensures multiset(RemoveAll(roles, role))[x] == if x == role then 0 else multiset(roles)[x]
  {
    if roles != [] {
      var init, last := roles[..|roles| - 1], roles[|roles| - 1];
      RemoveAllCounts(init, role, x);
      assert roles == init + [last];
    }
  }

  lemma {:induction false} RemoveAllKeepsDistinct(roles: seq<string>, role: string)
    requires Distinct(roles)
    ensures Distinct(RemoveAll(roles, role))
  {
    if roles != [] {
      var init, last := roles[..|roles| - 1], roles[|roles| - 1];
      assert Distinct(init);
      RemoveAllKeepsDistinct(init, role);
      assert last !in init;
    }
  }

  /** After a toggle the role is selected exactly when it was not before;
      every other role keeps its state. */
  lemma ToggleMembers(roles: seq<string>, role: string, x: string)
    ensures x in Toggle(roles, role) <==> if x == role then role !in roles else x in roles
  {
  }

  /** Toggling a role that is not selected twice gives the list back. */
  lemma ToggleTwiceAbsent(roles: seq<string>, role: string)
    requires role !in roles
    ensures Toggle(Toggle(roles, role), role) == roles
  {
    var once := roles + [role];
    assert role in once;
    RemoveAllAppend(roles, [role], role);
    RemoveAllAbsent(roles, role);
    assert RemoveAll([role], role) == [];
  }

  /** Toggling a selected role twice does not give the list back in general:
      the role moves to the end. */
  lemma ToggleTwicePresent(roles: seq<string>, role: string)
    requires role in roles
    ensures Toggle(Toggle(roles, role), role) == RemoveAll(roles, role) + [role]
  {
  }

  /** For instance, deselecting and reselecting "CEO" in ["CEO", "CTO"]
      gives ["CTO", "CEO"]. */
  lemma ToggleTwiceReorders()
    ensures Toggle(Toggle(["CEO", "CTO"], "CEO"), "CEO") == ["CTO", "CEO"]
  {
    var roles := ["CEO", "CTO"];
    assert roles[..1] == ["CEO"] && roles[..1][..0] == [];
    assert "CTO" != "CEO";
    assert RemoveAll(roles, "CEO") == ["CTO"];
    ToggleTwicePresent(roles, "CEO");
  }

  lemma ToggleKeepsDistinct(roles: seq<string>, role: string)
    requires Distinct(roles)
    ensures Distinct(Toggle(roles, role))
  {
    if role in roles {
      RemoveAllKeepsDistinct(roles, role);
    }
  }

  const InitialRoles: seq<string> :=
    ["CEO", "CTO", "CFO", "VP of Sales", "Sales Director", "Sales Manager", "Other"]

  // ---------------------------------------------------------------------
  // Companies and contacts
  // ---------------------------------------------------------------------

  datatype Company = Company(companyName: string, description: Json, whySalesforce: string)

  const NoDescription: string := "No description available."

  // `item.Company?.replace(/^\d+\.\s*/, "").trim() || "N/A"`, `None` when
  // the value is not a string and `replace` throws.
  function CompanyNameOf(v: Option<Json>): (r: Option<string>)
    ensures r.Some? ==> r.value != ""
    ensures v.Some? && v.value.JStr? && NormalizeCompanyName(v.value.s) != "" ==>
              r == Some(NormalizeCompanyName(v.value.s))
    ensures v.Some? && v.value.JStr? && NormalizeCompanyName(v.value.s) == "" ==> r == Some("N/A")
  {
    match v
    case None => Some("N/A")
    case Some(JNull) => Some("N/A")
    case Some(JStr(s)) => var n := NormalizeCompanyName(s); Some(if n == "" then "N/A" else n)
    case Some(_) => None
  }

  /** `item["Why Salesforce ? "]?.trim() || ""`, `None` when `trim` throws. */
  function WhyOf(v: Option<Json>): (r: Option<string>)
    ensures v.Some? && v.value.JStr? ==> r == Some(Trim(v.value.s))
    ensures v.None? || v == Some(JNull) ==> r == Some("")
  {
    match v
    case None => Some("")
    case Some(JNull) => Some("")
    case Some(JStr(s)) => Some(Trim(s))
    case Some(_) => None
  }

  /** One element of the `rawData.map(...)` normalisation; `None` when it
      throws (a `null` element, or a non-string name or reason). Reading a
      property of any other non-object value gives `undefined`. */
  function NormalizeCompany(item: Json): (r: Option<Company>)
    ensures r.Some? ==> r.value.companyName != "" && Truthy(Some(r.value.description))
  {
    if item.JNull? then None
    else
      var name := CompanyNameOf(Get(item, "Company"));
      var description := Get(item, "Description");
      var why := WhyOf(Get(item, "Why Salesforce ? "));
      if name.None? || why.None? then None
      else Some(Company(name.value,
                        if Truthy(description) then description.value else JStr(NoDescription),
                        why.value))
  }

  /** `rawData.map(...)`: `None` when `rawData` is not an array or one of
      its elements throws. */
  function NormalizeCompanies(raw: Json): Option<seq<Company>> {
    if !raw.JArr? then None else NormalizeAll(raw.items)
  }

  /** `items.map(f)` for a callback that may throw (`None`). */
  function MapAll<A, B>(f: A -> Option<B>, items: seq<A>): (r: Option<seq<B>>)
    ensures r.Some? ==> |r.value| == |items|
  {
    if items == [] then Some([])
    else
      var front := MapAll(f, items[..|items| - 1]);
      var last := f(items[|items| - 1]);
      if front.Some? && last.Some? then Some(front.value + [last.value]) else None
  }

  /** The mapped list holds one result per element, in order, exactly when
      no element throws. */
  lemma {:induction false} MapAllPointwise<A, B>(f: A -> Option<B>, items: seq<A>)
    ensures MapAll(f, items).Some? <==> forall k :: 0 <= k < |items| ==> f(items[k]).Some?
    ensures MapAll(f, items).Some? ==>
              forall k :: 0 <= k < |items| ==> MapAll(f, items).value[k] == f(items[k]).value
  {
    if items != [] {
      var init := items[..|items| - 1];
      MapAllPointwise(f, init);
      assert forall k :: 0 <= k < |init| ==> init[k] == items[k];
    }
  }

  function NormalizeAll(items: seq<Json>): (r: Option<seq<Company>>)
    ensures r.Some? ==> |r.value| == |items|
  {
    MapAll(NormalizeCompany, items)
  }

  /** The company list holds one normalised company per element, in order,
      exactly when no element throws. */
  lemma NormalizeAllPointwise(items: seq<Json>)
    ensures NormalizeAll(items).Some? <==> forall k :: 0 <= k < |items| ==> NormalizeCompany(items[k]).Some?
    ensures NormalizeAll(items).Some? ==>
              forall k :: 0 <= k < |items| ==> NormalizeAll(items).value[k] == NormalizeCompany(items[k]).value
  {
    MapAllPointwise(NormalizeCompany, items);
  }

  /** A plain name is shown as it is; a numbered one without its number;
      a missing or empty one as "N/A". */
  lemma CompanyNameCases(v: Option<Json>)
    ensures v.None? || v == Some(JNull) || v == Some(JStr("")) ==> CompanyNameOf(v) == Some("N/A")
    ensures v.Some? && (v.value.JNum? || v.value.JBool? || v.value.JArr? || v.value.JObj?) ==>
              CompanyNameOf(v) == None
  {
    if v == Some(JStr("")) {
      assert Trim(StripOrdinalPrefix("")) == "";
    }
  }

  /** The body of the company-click request. */
  function CompanyClickRequest(companyName: string): (body: Json)
    ensures Get(body, "action") == Some(JStr("company_click"))
    ensures Get(body, "company_name") == Some(JStr(NormalizeCompanyName(companyName)))
  {
    JObj([("action", JStr("company_click")), ("company_name", JStr(NormalizeCompanyName(companyName)))])
  }

  const GetCompaniesRequest: Json := JObj([("action", JStr("get_companies"))])

  /** `Array.isArray(result) ? result : [result]`. */
  function Contacts(result: Json): (cs: seq<Json>)
    ensures result.JArr? ==> cs == result.items
    ensures !result.JArr? ==> cs == [result]
  {
    if result.JArr? then result.items else [result]
  }

  /** Only an empty array gives no contacts; anything else that is not an
      array is one contact. */
  lemma ContactsNonEmpty(result: Json)
    ensures |Contacts(result)| == 0 <==> result == JArr([])
  {
  }

  // ---------------------------------------------------------------------
  // The scraping request
  // ---------------------------------------------------------------------

  function Strings(roles: seq<string>): (js: seq<Json>)
    ensures |js| == |roles|
    ensures forall i :: 0 <= i < |roles| ==> js[i] == JStr(roles[i])
  {
    if roles == [] then [] else Strings(roles[..|roles| - 1]) + [JStr(roles[|roles| - 1])]
  }

  /** Submitting is allowed once a company with a name is selected and at
      least one role is chosen. */
  predicate SubmitAllowed(selected: Option<Company>, roles: seq<string>) {
    selected.Some? && selected.value.companyName != "" && roles != []
  }

  /** `formData`: the company, the roles in selection order and the time of
      the request. */
  function ScrapRequest(company: string, roles: seq<string>, timestamp: string): (body: Json)
    ensures Get(body, "company") == Some(JStr(company))
    ensures Get(body, "roles") == Some(JArr(Strings(roles)))
    ensures Get(body, "timestamp") == Some(JStr(timestamp))
  {
    var ms := [("company", JStr(company)), ("roles", JArr(Strings(roles))), ("timestamp", JStr(timestamp))];
    GetFound(ms, 1);
    GetFound(ms, 2);
    JObj(ms)
  }

  datatype Request = Request(body: Json)

  // ---------------------------------------------------------------------
  // The page's state
  // ---------------------------------------------------------------------

  const CompaniesError: string := "Failed to load companies. Please try again later."
  const ContactsError: string := "Failed to load contact details. Please try again later."

  /** What the leads webhook answered: a failure (network, non-2xx status,
      a body that is not JSON) or the decoded body. */
  datatype Answer = Failed | Body(value: Json)

  class LeadsPage {
    var availableRoles: seq<string>
    var selectedRoles: seq<string>
    var customRole: string
    var showCustomRoleInput: bool
    var isScrapDialogOpen: bool
    var selectedScrapCompany: Option<Company>
    var companies: seq<Company>
    var error: Option<string>
    var selectedCompany: Option<seq<Json>>
    var isModalOpen: bool

    /** The role lists hold no duplicates and every selected role is offered. */
    ghost predicate Valid()
      reads this
    {
      Distinct(availableRoles) && Distinct(selectedRoles)
      && (forall r :: r in selectedRoles ==> r in availableRoles)
    }

    constructor ()
      ensures availableRoles == InitialRoles && selectedRoles == [] && customRole == ""
      ensures !showCustomRoleInput && !isScrapDialogOpen && selectedScrapCompany == None
      ensures companies == [] && error == None && selectedCompany == None && !isModalOpen
      ensures Valid()
    {
      availableRoles := InitialRoles;
      selectedRoles := [];
      customRole := "";
      showCustomRoleInput, isScrapDialogOpen := false, false;
      selectedScrapCompany := None;
      companies := [];
      error := None;
      selectedCompany := None;
      isModalOpen := false;
    }

    /** `fetchCompanies`: the normalised list on success; otherwise the
        error message and the old list. */
    method FetchCompanies(answer: Answer) returns (request: Request)
      modifies this
      ensures request == Request(GetCompaniesRequest)
      ensures answer.Body? && NormalizeCompanies(answer.value).Some? ==>
                companies == NormalizeCompanies(answer.value).value && error == old(error)
      ensures answer.Failed? || NormalizeCompanies(answer.value).None? ==>
                companies == old(companies) && error == Some(CompaniesError)
      ensures availableRoles == old(availableRoles) && selectedRoles == old(selectedRoles)
      ensures customRole == old(customRole) && selectedScrapCompany == old(selectedScrapCompany)
      ensures selectedCompany == old(selectedCompany) && isModalOpen == old(isModalOpen)
    {
      request := Request(GetCompaniesRequest);
      if answer.Body? {
        var normalized := NormalizeCompanies(answer.value);
        if normalized.Some? {
          companies := normalized.value;
          return;
        }
      }
      error := Some(CompaniesError);
    }

    /** `handleCompanyClick`: asks for the contacts of the company and shows
        them, wrapping a single record into a list. */
    method CompanyClick(companyName: string, answer: Answer) returns (request: Request)
      modifies this
      ensures request == Request(CompanyClickRequest(companyName))
      ensures answer.Body? ==>
                selectedCompany == Some(Contacts(answer.value)) && isModalOpen && error == old(error)
      ensures answer.Failed? ==>
                selectedCompany == old(selectedCompany) && isModalOpen == old(isModalOpen)
                && error == Some(ContactsError)
      ensures companies == old(companies) && availableRoles == old(availableRoles)
      ensures selectedRoles == old(selectedRoles)
    {
      request := Request(CompanyClickRequest(companyName));
      if answer.Body? {
        selectedCompany := Some(Contacts(answer.value));
        isModalOpen := true;
      } else {
        error := Some(ContactsError);
      }
    }

    /** `closeModal`. */
    method CloseModal()
      modifies this
      ensures !isModalOpen && selectedCompany == None
      ensures companies == old(companies) && error == old(error)
      ensures availableRoles == old(availableRoles) && selectedRoles == old(selectedRoles)
    {
      isModalOpen := false;
      selectedCompany := None;
    }

    /** The "Scrap" button of a company row. */
    method OpenScrapDialog(company: Company)
      modifies this
      ensures selectedScrapCompany == Some(company) && isScrapDialogOpen
      ensures availableRoles == old(availableRoles) && selectedRoles == old(selectedRoles)
      ensures customRole == old(customRole) && showCustomRoleInput == old(showCustomRoleInput)
      ensures companies == old(companies)
    {
      selectedScrapCompany := Some(company);
      isScrapDialogOpen := true;
    }

    /** The dialog's Cancel button: the chosen roles stay chosen. */
    method CancelScrapDialog()
      modifies this
      ensures !isScrapDialogOpen && !showCustomRoleInput && customRole == ""
      ensures selectedRoles == old(selectedRoles) && availableRoles == old(availableRoles)
      ensures selectedScrapCompany == old(selectedScrapCompany) && companies == old(companies)
    {
      isScrapDialogOpen := false;
      showCustomRoleInput := false;
      customRole := "";
    }

    /** `handleRoleSelect`. */
    method RoleSelect(role: string)
      modifies this
      ensures role == "Other" ==> showCustomRoleInput && selectedRoles == old(selectedRoles)
      ensures role != "Other" ==>
                selectedRoles == Toggle(old(selectedRoles), role)
                && showCustomRoleInput == old(showCustomRoleInput)
      ensures availableRoles == old(availableRoles) && customRole == old(customRole)
      ensures isScrapDialogOpen == old(isScrapDialogOpen)
      ensures selectedScrapCompany == old(selectedScrapCompany) && companies == old(companies)
      ensures old(Valid()) && role in old(availableRoles) ==> Valid()
    {
      if role == "Other" {
        showCustomRoleInput := true;
        return;
      }
      if Valid() && role in availableRoles {
        ToggleKeepsDistinct(selectedRoles, role);
        forall x | x in Toggle(selectedRoles, role) ensures x in availableRoles {
          ToggleMembers(selectedRoles, role, x);
        }
      }
      selectedRoles := Toggle(selectedRoles, role);
    }

    /** `addCustomRole`: a new, non-blank role is offered and selected, and
        the input is cleared; anything else changes nothing. */
    method AddCustomRole()
      modifies this
      ensures Trim(old(customRole)) != "" && old(customRole) !in old(availableRoles) ==>
                availableRoles == old(availableRoles) + [old(customRole)]
                && selectedRoles == old(selectedRoles) + [old(customRole)]
                && customRole == ""
      ensures Trim(old(customRole)) == "" || old(customRole) in old(availableRoles) ==>
                availableRoles == old(availableRoles) && selectedRoles == old(selectedRoles)
                && customRole == old(customRole)
      ensures showCustomRoleInput == old(showCustomRoleInput) && isScrapDialogOpen == old(isScrapDialogOpen)
      ensures selectedScrapCompany == old(selectedScrapCompany) && companies == old(companies)
      ensures old(Valid()) ==> Valid()
    {
      if Trim(customRole) != "" && customRole !in availableRoles {
        availableRoles := availableRoles + [customRole];
        selectedRoles := selectedRoles + [customRole];
        customRole := "";
      }
    }

    /** `removeRole`: the chip's remove button. */
    method RemoveRole(roleToRemove: string)
      modifies this
      ensures selectedRoles == RemoveAll(old(selectedRoles), roleToRemove)
      ensures availableRoles == old(availableRoles) && customRole == old(customRole)
      ensures showCustomRoleInput == old(showCustomRoleInput) && isScrapDialogOpen == old(isScrapDialogOpen)
      ensures selectedScrapCompany == old(selectedScrapCompany) && companies == old(companies)
      ensures old(Valid()) ==> Valid()
    {
      if Valid() {
        RemoveAllKeepsDistinct(selectedRoles, roleToRemove);
      }
      selectedRoles := RemoveAll(selectedRoles, roleToRemove);
    }

    /** `handleScrapSubmit`, the time stamp and the outcome of the request
        given. No request without a named company or without a role; after
        a successful request the dialog closes and the choice is reset,
        after a failed one everything is kept. */
    method ScrapSubmit(timestamp: string, succeeded: bool) returns (request: Option<Request>)
      modifies this
      ensures !SubmitAllowed(old(selectedScrapCompany), old(selectedRoles)) ==>
                request == None && selectedRoles == old(selectedRoles)
                && isScrapDialogOpen == old(isScrapDialogOpen) && customRole == old(customRole)
                && showCustomRoleInput == old(showCustomRoleInput)
      ensures SubmitAllowed(old(selectedScrapCompany), old(selectedRoles)) ==>
                request == Some(Request(ScrapRequest(old(selectedScrapCompany).value.companyName,
                                                     old(selectedRoles), timestamp)))
      ensures SubmitAllowed(old(selectedScrapCompany), old(selectedRoles)) && succeeded ==>
                !isScrapDialogOpen && selectedRoles == [] && customRole == "" && !showCustomRoleInput
      ensures SubmitAllowed(old(selectedScrapCompany), old(selectedRoles)) && !succeeded ==>
                isScrapDialogOpen == old(isScrapDialogOpen) && selectedRoles == old(selectedRoles)
                && customRole == old(customRole) && showCustomRoleInput == old(showCustomRoleInput)
      ensures availableRoles == old(availableRoles) && selectedScrapCompany == old(selectedScrapCompany)
      ensures companies == old(companies)
      ensures old(Valid()) ==> Valid()
    {
      if selectedScrapCompany.None? || selectedScrapCompany.value.companyName == "" {
        return None;
      }
      if |selectedRoles| == 0 {
        return None;
      }
      request := Some(Request(ScrapRequest(selectedScrapCompany.value.companyName, selectedRoles, timestamp)));
      if succeeded {
        isScrapDialogOpen := false;
        selectedRoles := [];
        customRole := "";
        showCustomRoleInput := false;
      }
    }
  }

  /** A company from the loaded list can always be submitted once a role is
      chosen: normalisation never leaves a name empty. */
  lemma LoadedCompanyCanBeSubmitted(raw: Json, k: nat, roles: seq<string>)
    requires NormalizeCompanies(raw).Some? && k < |NormalizeCompanies(raw).value|
    requires roles != []
    ensures SubmitAllowed(Some(NormalizeCompanies(raw).value[k]), roles)
  {
    var items := raw.items;
    NormalizeAllPointwise(items);
  }
}
