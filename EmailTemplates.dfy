// The email-template review page: company rows with up to six template
// slots are flattened into templates, each template's status is edited
// against the baseline it was loaded with, and the changed ones are saved
// in one batch, after which the baseline moves forward.
module EmailTemplates {

  import opened Wrappers
  import opened Text
  import opened Json

  // ---------------------------------------------------------------------
  // Raw rows as the "get templates" webhook returns them
  // ---------------------------------------------------------------------

  /** The slot columns of a row, by header: `Email Templet i`, `Subject i`
      and `Status i` (see ColumnName); any other header is `Other`. */
  datatype Column = EmailTemplet(slot: nat) | Subject(slot: nat) | Status(slot: nat) | Other(name: string)

  function ColumnName(c: Column): string {
    match c
    case EmailTemplet(i) => "Email Templet " + NatToString(i)
    case Subject(i) => "Subject " + NatToString(i)
    case Status(i) => "Status " + NatToString(i)
    case Other(name) => name
  }

  /** One company row: its `row_number`, the JSON value of its `Company`
      column (`None` when the column is absent) and its string-valued slot
      columns. A missing slot column and an empty one are read alike, as
      JavaScript's `||` and `&&` read `undefined` and `""`. */
  datatype RawRecord = RawRecord(rowNumber: nat, company: Option<Json>, fields: map<Column, string>)

  const SlotCount: nat := 6

  function ContentKey(i: nat): Column { EmailTemplet(i) }
  function SubjectKey(i: nat): Column { Subject(i) }
  function StatusKey(i: nat): Column { Status(i) }

  /** `record[key]`, with a missing column read as "". */
  function Field(r: RawRecord, key: Column): string {
    if key in r.fields then r.fields[key] else ""
  }

  /** A slot yields a template only when both its body and its subject are non-empty. */
  predicate SlotPopulated(r: RawRecord, i: nat) {
    Field(r, ContentKey(i)) != "" && Field(r, SubjectKey(i)) != ""
  }

  predicate AnyPopulated(r: RawRecord) {
    exists i :: 1 <= i <= SlotCount && SlotPopulated(r, i)
  }

  /** `template.Company.replace(...)` can be called: the value is a string.
      Absent, `null`, a number, a boolean, an array or an object has no
      `replace` method, and the call throws. */
  predicate CompanyIsText(r: RawRecord) {
    r.company.Some? && r.company.value.JStr?
  }

  /** Reading the company name throws; it is read only for a populated slot. */
  predicate ThrowsOnCompany(r: RawRecord) {
    AnyPopulated(r) && !CompanyIsText(r)
  }

  function CompanyOf(r: RawRecord): string {
    NormalizeCompanyName(if CompanyIsText(r) then r.company.value.s else "")
  }

  // ---------------------------------------------------------------------
  // Templates
  // ---------------------------------------------------------------------

  /** A flattened template. `changeRequest` is `None` where the page stores
      `undefined`; `originalStatus` is the baseline of the last load or save. */
  datatype Template = Template(
    id: string,
    company: string,
    templateNumber: nat,
    subject: string,
    content: string,
    status: string,
    changeRequest: Option<string>,
    originalStatus: string)

  predicate IsDirty(t: Template) {
    t.status != t.originalStatus
  }

  function TemplateId(row: nat, i: nat): string {
    NatToString(row) + "-" + NatToString(i)
  }

  /** An empty status column reads as "Pending"; any other value is kept. */
  function ResolveStatus(raw: string): (s: string)
    ensures s != ""
    ensures raw == "" ==> s == "Pending"
    ensures raw != "" ==> s == raw
  {
    if raw == "" then "Pending" else raw
  }

  /** The template the page builds for slot `i` of row `r`. */
  function MakeTemplate(r: RawRecord, i: nat, company: string): (t: Template)
    ensures t.id == TemplateId(r.rowNumber, i) && t.templateNumber == i
    ensures t.company == company
    ensures t.content == Field(r, ContentKey(i)) && t.subject == Field(r, SubjectKey(i))
    ensures t.status == ResolveStatus(Field(r, StatusKey(i)))
    ensures t.originalStatus == t.status && t.changeRequest == Some("")
    ensures !IsDirty(t)
  {
    var status := ResolveStatus(Field(r, StatusKey(i)));
    Template(TemplateId(r.rowNumber, i), company, i,
             Field(r, SubjectKey(i)), Field(r, ContentKey(i)), status, Some(""), status)
  }

  /** Templates of slots 1..n of one row, in slot order. */
  function SlotsUpTo(r: RawRecord, company: string, n: nat): seq<Template>
  {
    if n == 0 then [] else SlotsUpTo(r, company, n - 1) + SlotPart(r, company, n)
  }

  /** What slot `i` of row `r` contributes. */
  function SlotPart(r: RawRecord, company: string, i: nat): seq<Template> {
    if SlotPopulated(r, i) then [MakeTemplate(r, i, company)] else []
  }

  /** What one row contributes, or `None` when reading it throws. */
  function RecordTemplates(r: RawRecord): Option<seq<Template>>
  {
    if ThrowsOnCompany(r) then None else Some(SlotsUpTo(r, CompanyOf(r), SlotCount))
  }

  /** Both parts, one after the other, unless one of them threw. */
  function Concat(x: Option<seq<Template>>, y: Option<seq<Template>>): Option<seq<Template>> {
    if x.Some? && y.Some? then Some(x.value + y.value) else None
  }

  /** The parts of the rows, one after the other; `None` as soon as one
      row's part is `None`. */
  function Collect(part: RawRecord -> Option<seq<Template>>, data: seq<RawRecord>): Option<seq<Template>>
  {
    if data == [] then Some([])
    else Concat(Collect(part, data[..|data| - 1]), part(data[|data| - 1]))
  }

  /** The reference flattening: rows in order, each row's slots in order;
      `None` when some row throws. */
  function FlattenSpec(data: seq<RawRecord>): Option<seq<Template>>
  {
    Collect(RecordTemplates, data)
  }

  lemma FlattenStep(data: seq<RawRecord>, k: nat)
    requires k < |data|
    ensures FlattenSpec(data[..k + 1]) == Concat(FlattenSpec(data[..k]), RecordTemplates(data[k]))
  {
    assert data[..k + 1][..k] == data[..k];
  }

  /** The `forEach` callback of `processTemplatesData` for one row: slots
      1..6 in order, pushing a template for each populated one onto
      `processed`; `None` when reading the company name throws. */
  method PushRowTemplates(processed: seq<Template>, rec: RawRecord) returns (r: Option<seq<Template>>)
    ensures r == Concat(Some(processed), RecordTemplates(rec))
  {
    var company := CompanyOf(rec);
    var pushed := processed;
    var i := 1;
    while i <= SlotCount
      invariant 1 <= i <= SlotCount + 1
      invariant pushed == processed + SlotsUpTo(rec, company, i - 1)
      invariant !CompanyIsText(rec) ==> forall j :: 1 <= j < i ==> !SlotPopulated(rec, j)
    {
      if SlotPopulated(rec, i) && !CompanyIsText(rec) {
        assert ThrowsOnCompany(rec);
        return None;
      }
      PushSlot(processed, rec, company, i);
      pushed := pushed + SlotPart(rec, company, i);
      i := i + 1;
    }
    RowWithoutThrow(rec);
    r := Some(pushed);
  }

  lemma PushSlot(processed: seq<Template>, rec: RawRecord, company: string, i: nat)
    requires i >= 1
    ensures processed + SlotsUpTo(rec, company, i)
         == processed + SlotsUpTo(rec, company, i - 1) + SlotPart(rec, company, i)
  {
  }

  lemma RowWithoutThrow(rec: RawRecord)
    requires !CompanyIsText(rec) ==> forall j :: 1 <= j < SlotCount + 1 ==> !SlotPopulated(rec, j)
    ensures RecordTemplates(rec) == Some(SlotsUpTo(rec, CompanyOf(rec), SlotCount))
  {
  }

  /** `processTemplatesData`: the rows in order, each through the callback above. */
  method ProcessTemplatesData(data: seq<RawRecord>) returns (r: Option<seq<Template>>)
    ensures r == FlattenSpec(data)
  {
    var processed: seq<Template> := [];
    var k := 0;
    while k < |data|
      invariant 0 <= k <= |data|
      invariant FlattenSpec(data[..k]) == Some(processed)
    {
      var next := PushRowTemplates(processed, data[k]);
      FlattenStep(data, k);
      if next.None? {
        FlattenNonePropagates(data[..k + 1], data);
        return None;
      }
      processed := next.value;
      k := k + 1;
    }
    assert data[..k] == data;
    r := Some(processed);
  }

  lemma {:induction false} FlattenNonePropagates(prefix: seq<RawRecord>, data: seq<RawRecord>)
    requires FlattenSpec(prefix) == None
    requires |prefix| <= |data| && data[..|prefix|] == prefix
    ensures FlattenSpec(data) == None
  {
    if |data| > |prefix| {
      var init := data[..|data| - 1];
      assert init[..|prefix|] == prefix;
      FlattenNonePropagates(prefix, init);
    } else {
      assert data == prefix;
    }
  }

  // --- properties of the flattening ---------------------------------------

  /** The slots 1..n of a row that hold a template. */
  function PopulatedUpTo(r: RawRecord, n: nat): set<nat> {
    set i: nat | 1 <= i <= n && SlotPopulated(r, i)
  }

  /** The slots of a row that hold a template. */
  function PopulatedSlots(r: RawRecord): set<nat> {
    PopulatedUpTo(r, SlotCount)
  }

  function PopulatedCount(data: seq<RawRecord>): nat {
    if data == [] then 0
    else PopulatedCount(data[..|data| - 1]) + |PopulatedSlots(data[|data| - 1])|
  }

  lemma PopulatedUpToStep(r: RawRecord, n: nat)
    requires n > 0
    ensures |PopulatedUpTo(r, n)| == |PopulatedUpTo(r, n - 1)| + (if SlotPopulated(r, n) then 1 else 0)
  {
    var lower, upper := PopulatedUpTo(r, n - 1), PopulatedUpTo(r, n);
    if SlotPopulated(r, n) {
      assert upper == lower + {n};
      assert n !in lower;
    } else {
      assert upper == lower;
    }
  }

  lemma {:induction false} SlotsUpToCount(r: RawRecord, company: string, n: nat)
    ensures |SlotsUpTo(r, company, n)| == |PopulatedUpTo(r, n)|
  {
    if n > 0 {
      SlotsUpToCount(r, company, n - 1);
      PopulatedUpToStep(r, n);
      assert |SlotPart(r, company, n)| == if SlotPopulated(r, n) then 1 else 0;
    }
  }

  /** One template per populated slot: neither more nor fewer. */
  lemma {:induction false} FlattenCount(data: seq<RawRecord>)
    requires FlattenSpec(data).Some?
    ensures |FlattenSpec(data).value| == PopulatedCount(data)
  {
    if data != [] {
      var last := data[|data| - 1];
      FlattenCount(data[..|data| - 1]);
      SlotsUpToCount(last, CompanyOf(last), SlotCount);
    }
  }

  lemma {:induction false} SlotsUpToMembers(r: RawRecord, company: string, n: nat, t: Template)
    ensures t in SlotsUpTo(r, company, n) <==>
            exists i :: 1 <= i <= n && SlotPopulated(r, i) && t == MakeTemplate(r, i, company)
  {
    if n > 0 {
      SlotsUpToMembers(r, company, n - 1, t);
    }
  }

  /** `t` is the template of populated slot `i` of row `r`. */
  predicate SlotTemplate(r: RawRecord, i: nat, t: Template) {
    1 <= i <= SlotCount && SlotPopulated(r, i) && t == MakeTemplate(r, i, CompanyOf(r))
  }

  /** Every populated slot of every row yields its template. */
  lemma {:induction false} FlattenEmits(data: seq<RawRecord>, k: nat, i: nat, t: Template)
    requires FlattenSpec(data).Some?
    requires k < |data| && SlotTemplate(data[k], i, t)
    ensures t in FlattenSpec(data).value
  {
    var init, last := data[..|data| - 1], data[|data| - 1];
    var c := CompanyOf(last);
    var left, right := FlattenSpec(init).value, SlotsUpTo(last, c, SlotCount);
    assert FlattenSpec(data).value == left + right;
    if k < |init| {
      assert data[k] == init[k];
      FlattenEmits(init, k, i, t);
    } else {
      assert data[k] == last;
      assert 1 <= i <= SlotCount && SlotPopulated(last, i) && t == MakeTemplate(last, i, c);
      SlotsUpToMembers(last, c, SlotCount, t);
      assert t in right;
    }
  }

  /** Nothing else is emitted. */
  lemma {:induction false} FlattenOnlyEmits(data: seq<RawRecord>, t: Template)
    requires FlattenSpec(data).Some? && t in FlattenSpec(data).value
    ensures exists k, i :: 0 <= k < |data| && SlotTemplate(data[k], i, t)
  {
    var init, last := data[..|data| - 1], data[|data| - 1];
    var c := CompanyOf(last);
    var left, right := FlattenSpec(init).value, SlotsUpTo(last, c, SlotCount);
    assert FlattenSpec(data).value == left + right;
    if t in left {
      FlattenOnlyEmits(init, t);
      var k, i :| 0 <= k < |init| && SlotTemplate(init[k], i, t);
      assert data[k] == init[k];
    } else {
      SlotsUpToMembers(last, c, SlotCount, t);
      var i :| 1 <= i <= SlotCount && SlotPopulated(last, i) && t == MakeTemplate(last, i, c);
      assert SlotTemplate(data[|data| - 1], i, t);
    }
  }

  /** A template is emitted exactly when it is the template of a populated
      slot of some row. */
  lemma FlattenMembers(data: seq<RawRecord>, t: Template)
    requires FlattenSpec(data).Some?
    ensures t in FlattenSpec(data).value <==>
            exists k, i :: 0 <= k < |data| && SlotTemplate(data[k], i, t)
  {
    if t in FlattenSpec(data).value {
      FlattenOnlyEmits(data, t);
    }
    if exists k, i :: 0 <= k < |data| && SlotTemplate(data[k], i, t) {
      var k, i :| 0 <= k < |data| && SlotTemplate(data[k], i, t);
      FlattenEmits(data, k, i, t);
    }
  }

  /** Flattening throws exactly when some row has a populated slot and a
      `Company` value that is not a string. */
  lemma {:induction false} FlattenFails(data: seq<RawRecord>)
    ensures FlattenSpec(data).None? <==> exists k :: 0 <= k < |data| && ThrowsOnCompany(data[k])
  {
    if data != [] {
      var init, last := data[..|data| - 1], data[|data| - 1];
      FlattenFails(init);
      assert FlattenSpec(data) == Concat(FlattenSpec(init), RecordTemplates(last));
      assert RecordTemplates(last).None? <==> ThrowsOnCompany(last);
      if exists k :: 0 <= k < |init| && ThrowsOnCompany(init[k]) {
        var k :| 0 <= k < |init| && ThrowsOnCompany(init[k]);
        assert data[k] == init[k];
      } else if ThrowsOnCompany(last) {
        assert ThrowsOnCompany(data[|data| - 1]);
      } else {
        forall k | 0 <= k < |data| ensures !ThrowsOnCompany(data[k]) {
          if k < |init| {
            assert data[k] == init[k];
          }
        }
      }
    }
  }

  /** A row whose `Company` is not a string, say a number or `null`, and
      which has a populated slot makes the whole load throw. */
  lemma NonTextCompanyFails(data: seq<RawRecord>, k: nat)
    requires k < |data| && data[k].company.Some? && !data[k].company.value.JStr?
    requires SlotPopulated(data[k], 1)
    ensures FlattenSpec(data) == None
  {
    FlattenFails(data);
  }

  lemma {:induction false} CollectAppend(part: RawRecord -> Option<seq<Template>>, a: seq<RawRecord>, b: seq<RawRecord>)
    requires Collect(part, a).Some? && Collect(part, b).Some?
    ensures Collect(part, a + b) == Some(Collect(part, a).value + Collect(part, b).value)
  {
    if b == [] {
      assert a + b == a;
      assert Collect(part, a).value + [] == Collect(part, a).value;
    } else {
      var binit, blast := b[..|b| - 1], b[|b| - 1];
      assert (a + b)[..|a + b| - 1] == a + binit;
      assert (a + b)[|a + b| - 1] == blast;
      CollectAppend(part, a, binit);
      var x, y, z := Collect(part, a).value, Collect(part, binit).value, part(blast).value;
      assert (x + y) + z == x + (y + z);
    }
  }

  /** Rows come out in order: the templates of `a` precede those of `b`. */
  lemma FlattenAppend(a: seq<RawRecord>, b: seq<RawRecord>)
    requires FlattenSpec(a).Some? && FlattenSpec(b).Some?
    ensures FlattenSpec(a + b) == Some(FlattenSpec(a).value + FlattenSpec(b).value)
  {
    CollectAppend(RecordTemplates, a, b);
  }

  /** Every freshly loaded template is clean, with an empty change request. */
  lemma {:induction false} FlattenAllClean(data: seq<RawRecord>, t: Template)
    requires FlattenSpec(data).Some? && t in FlattenSpec(data).value
    ensures !IsDirty(t) && t.changeRequest == Some("")
    ensures 1 <= t.templateNumber <= SlotCount
  {
    FlattenMembers(data, t);
  }

  /** Ids are unique within one load when the row numbers are. */
  lemma FlattenIdsUnique(data: seq<RawRecord>)
    requires FlattenSpec(data).Some?
    requires forall a, b :: 0 <= a < b < |data| ==> data[a].rowNumber != data[b].rowNumber
    ensures forall x, y :: x in FlattenSpec(data).value && y in FlattenSpec(data).value && x.id == y.id ==> x == y
  {
    var ts := FlattenSpec(data).value;
    forall x, y | x in ts && y in ts && x.id == y.id ensures x == y {
      FlattenMembers(data, x);
      FlattenMembers(data, y);
      var kx, ix :| 0 <= kx < |data| && SlotTemplate(data[kx], ix, x);
      var ky, iy :| 0 <= ky < |data| && SlotTemplate(data[ky], iy, y);
      TemplateIdInjective(data[kx].rowNumber, ix, data[ky].rowNumber, iy);
    }
  }

  lemma TemplateIdInjective(m: nat, i: nat, n: nat, j: nat)
    requires 1 <= i <= SlotCount && 1 <= j <= SlotCount
    requires TemplateId(m, i) == TemplateId(n, j)
    ensures m == n && i == j
  {
    var a, b := NatToString(m), NatToString(n);
    var id := TemplateId(m, i);
    assert |a| == |b|;
    assert a == id[..|a|] == b;
    NatToStringInjective(m, n);
    assert NatToString(i) == id[|a| + 1..] == NatToString(j);
    NatToStringInjective(i, j);
  }

  // ---------------------------------------------------------------------
  // Editing one template
  // ---------------------------------------------------------------------

  /** The change request the editor stores: its text for "Rejected",
      `undefined` otherwise. */
  function EditedChangeRequest(status: string, text: string): Option<string> {
    if status == "Rejected" then Some(text) else None
  }

  /** The edit handler's `map`: the template with the given id takes the new
      status and change request; every other template, and every baseline,
      stays as it was. */
  function ApplyEdit(ts: seq<Template>, id: string, status: string, text: string): (r: seq<Template>)
    ensures |r| == |ts|
    ensures forall j :: 0 <= j < |ts| && ts[j].id != id ==> r[j] == ts[j]
    ensures forall j :: 0 <= j < |ts| && ts[j].id == id ==>
              r[j] == ts[j].(status := status, changeRequest := EditedChangeRequest(status, text))
    ensures forall j :: 0 <= j < |ts| ==> r[j].originalStatus == ts[j].originalStatus && r[j].id == ts[j].id
  {
    if ts == [] then []
    else
      var t := ts[0];
      var t' := if t.id == id then t.(status := status, changeRequest := EditedChangeRequest(status, text)) else t;
      var rest := ApplyEdit(ts[1..], id, status, text);
      assert forall j :: 1 <= j < |ts| ==> ts[j] == ts[1..][j - 1] && ([t'] + rest)[j] == rest[j - 1];
      [t'] + rest
  }

  /** After an edit the edited template is dirty exactly when its new status
      differs from its baseline: editing back to the baseline makes it clean. */
  lemma EditDirtiness(ts: seq<Template>, id: string, status: string, text: string, j: nat)
    requires j < |ts| && ts[j].id == id
    ensures IsDirty(ApplyEdit(ts, id, status, text)[j]) <==> status != ts[j].originalStatus
    ensures status == ts[j].originalStatus ==> !IsDirty(ApplyEdit(ts, id, status, text)[j])
  {
  }

  /** Repeating an edit changes nothing more. */
  lemma EditIdempotent(ts: seq<Template>, id: string, status: string, text: string)
    ensures ApplyEdit(ApplyEdit(ts, id, status, text), id, status, text) == ApplyEdit(ts, id, status, text)
  {
  }

  // ---------------------------------------------------------------------
  // The changed set and the save payload
  // ---------------------------------------------------------------------

  /** `filter(t => t.status !== t.originalStatus)`. */
  function Changed(ts: seq<Template>): (r: seq<Template>)
    ensures |r| <= |ts|
    ensures forall t :: t in r <==> t in ts && IsDirty(t)
  {
    if ts == [] then []
    else (if IsDirty(ts[0]) then [ts[0]] else []) + Changed(ts[1..])
  }

  /** The filter keeps list order: filtering a concatenation filters each
      part in turn. */
  lemma {:induction false} ChangedAppend(a: seq<Template>, b: seq<Template>)
    ensures Changed(a + b) == Changed(a) + Changed(b)
  {
    if a == [] {
      assert a + b == b;
    } else {
      assert (a + b)[0] == a[0] && (a + b)[1..] == a[1..] + b;
      ChangedAppend(a[1..], b);
    }
  }

  /** Each dirty template occurs in the changed set as often as in the list,
      and no clean one occurs. */
  lemma {:induction false} ChangedCounts(ts: seq<Template>, t: Template)
    ensures multiset(Changed(ts))[t] == if IsDirty(t) then multiset(ts)[t] else 0
  {
    if ts != [] {
      ChangedCounts(ts[1..], t);
      assert ts == [ts[0]] + ts[1..];
    }
  }

  lemma {:induction false} ChangedEmpty(ts: seq<Template>)
    ensures Changed(ts) == [] <==> forall j :: 0 <= j < |ts| ==> !IsDirty(ts[j])
  {
    if ts != [] {
      ChangedEmpty(ts[1..]);
      assert forall j :: 1 <= j < |ts| ==> ts[j] == ts[1..][j - 1];
    }
  }

  /** One entry of the save request, in the field order the page writes.
      The subject is not sent. */
  function SaveEntry(t: Template): (e: Json)
    ensures Keys(e) == ["Company name", "Templet Number", "Status", "Change Request", "Email templet"]
    ensures Get(e, "Company name") == Some(JStr(t.company))
    ensures Get(e, "Templet Number") == Some(JNum(t.templateNumber))
    ensures Get(e, "Status") == Some(JStr(t.status))
    ensures Get(e, "Change Request") == Some(JStr(t.changeRequest.GetOr("")))
    ensures Get(e, "Email templet") == Some(JStr(t.content))
    ensures Get(e, "Subject") == None
  {
    var ms := [("Company name", JStr(t.company)),
               ("Templet Number", JNum(t.templateNumber)),
               ("Status", JStr(t.status)),
               ("Change Request", JStr(t.changeRequest.GetOr(""))),
               ("Email templet", JStr(t.content))];
    GetFound(ms, 0);
    GetFound(ms, 1);
    GetFound(ms, 2);
    GetFound(ms, 3);
    GetFound(ms, 4);
    GetMissing(ms, "Subject");
    JObj(ms)
  }

  /** The save request: one entry per changed template, in list order. */
  function SavePayload(ts: seq<Template>): (p: seq<Json>)
    ensures |p| == |Changed(ts)|
    ensures forall j :: 0 <= j < |p| ==> p[j] == SaveEntry(Changed(ts)[j])
  {
    var changed := Changed(ts);
    seq(|changed|, j requires 0 <= j < |changed| => SaveEntry(changed[j]))
  }

  /** After a successful save every template's baseline is its status. */
  function AdvanceBaseline(ts: seq<Template>): (r: seq<Template>)
    ensures |r| == |ts|
    ensures forall j :: 0 <= j < |ts| ==> r[j] == ts[j].(originalStatus := ts[j].status)
  {
    seq(|ts|, j requires 0 <= j < |ts| => ts[j].(originalStatus := ts[j].status))
  }

  /** A successful save leaves nothing to save; statuses and contents are kept. */
  lemma SaveLeavesNothingChanged(ts: seq<Template>)
    ensures Changed(AdvanceBaseline(ts)) == []
    ensures forall j :: 0 <= j < |ts| ==>
              AdvanceBaseline(ts)[j].status == ts[j].status && AdvanceBaseline(ts)[j].content == ts[j].content
  {
    ChangedEmpty(AdvanceBaseline(ts));
  }

  /** Saving twice in a row: the second request's payload would be empty. */
  lemma SecondSaveIsEmpty(ts: seq<Template>)
    ensures SavePayload(AdvanceBaseline(ts)) == []
  {
    SaveLeavesNothingChanged(ts);
  }

  // ---------------------------------------------------------------------
  // Labels
  // ---------------------------------------------------------------------

  const TypeNames: seq<string> :=
    ["Welcome Email", "Follow-up Email", "Product Demo", "Case Study", "Pricing Information", "Final Follow-up"]

  /** `getTemplateTypeName`: the slot's fixed label, or `Template n`. */
  function TemplateTypeName(n: nat): (r: string)
    ensures 1 <= n <= SlotCount ==> r == TypeNames[n - 1]
    ensures !(1 <= n <= SlotCount) ==> r == "Template " + NatToString(n)
  {
    if 1 <= n <= |TypeNames| then TypeNames[n - 1] else "Template " + NatToString(n)
  }

  /** `truncateSubject`: unchanged when short enough, otherwise the first
      `maxLength` characters followed by "...". */
  function TruncateSubject(subject: string, maxLength: nat := 40): (r: string)
    ensures |subject| <= maxLength ==> r == subject
    ensures |subject| > maxLength ==> |r| == maxLength + 3 && r[..maxLength] == subject[..maxLength]
                                       && r[maxLength..] == "..."
  {
    if |subject| <= maxLength then subject else subject[..maxLength] + "..."
  }

  /** Truncating a truncated subject gives it back. */
  lemma TruncateIdempotent(subject: string, maxLength: nat)
    ensures TruncateSubject(TruncateSubject(subject, maxLength), maxLength) == TruncateSubject(subject, maxLength)
    ensures |TruncateSubject(subject, maxLength)| <= maxLength + 3
  {
    var r := TruncateSubject(subject, maxLength);
    if |subject| > maxLength {
      assert r[..maxLength] + "..." == r;
    }
  }

  // ---------------------------------------------------------------------
  // Grouping by company
  // ---------------------------------------------------------------------

  /** The templates of one company, in list order. */
  function OfCompany(ts: seq<Template>, c: string): seq<Template>
  {
    if ts == [] then []
    else OfCompany(ts[..|ts| - 1], c) + (if ts[|ts| - 1].company == c then [ts[|ts| - 1]] else [])
  }

  /** A company's bucket holds exactly its templates. */
  lemma {:induction false} OfCompanyMembers(ts: seq<Template>, c: string, t: Template)
    ensures t in OfCompany(ts, c) <==> t in ts && t.company == c
  {
    if ts != [] {
      var init := ts[..|ts| - 1];
      OfCompanyMembers(init, c, t);
      assert ts == init + [ts[|ts| - 1]];
    }
  }

  /** Buckets keep list order: the bucket of a concatenation is the bucket
      of each part in turn. */
  lemma {:induction false} OfCompanyAppend(a: seq<Template>, b: seq<Template>, c: string)
    ensures OfCompany(a + b, c) == OfCompany(a, c) + OfCompany(b, c)
  {
    if b == [] {
      assert a + b == a;
    } else {
      var binit, blast := b[..|b| - 1], b[|b| - 1];
      assert (a + b)[..|a + b| - 1] == a + binit;
      assert (a + b)[|a + b| - 1] == blast;
      OfCompanyAppend(a, binit, c);
    }
  }

  /** Company names in order of first appearance. */
  function CompanyOrder(ts: seq<Template>): seq<string>
  {
    if ts == [] then []
    else
      var front := CompanyOrder(ts[..|ts| - 1]);
      var c := ts[|ts| - 1].company;
      if c in front then front else front + [c]
  }

  /** Every company that has a template is listed, and nothing else. */
  lemma {:induction false} CompanyOrderMembers(ts: seq<Template>, c: string)
    ensures c in CompanyOrder(ts) <==> exists t :: t in ts && t.company == c
  {
    if ts != [] {
      var init, last := ts[..|ts| - 1], ts[|ts| - 1];
      CompanyOrderMembers(init, c);
      if exists t :: t in ts && t.company == c {
        var t :| t in ts && t.company == c;
        if t != last {
          assert t in init;
        }
      }
      if exists t :: t in init && t.company == c {
        var t :| t in init && t.company == c;
        assert t in ts;
      }
    }
  }

  /** Each company is listed once. */
  lemma {:induction false} CompanyOrderDistinct(ts: seq<Template>)
    ensures forall a, b :: 0 <= a < b < |CompanyOrder(ts)| ==> CompanyOrder(ts)[a] != CompanyOrder(ts)[b]
  {
    if ts != [] {
      CompanyOrderDistinct(ts[..|ts| - 1]);
    }
  }

  lemma OfCompanyStep(ts: seq<Template>, k: nat, c: string)
    requires k < |ts|
    ensures OfCompany(ts[..k + 1], c) == OfCompany(ts[..k], c) + (if ts[k].company == c then [ts[k]] else [])
  {
    assert ts[..k + 1][..k] == ts[..k];
  }

  lemma CompanyOrderStep(ts: seq<Template>, k: nat)
    requires k < |ts|
    ensures CompanyOrder(ts[..k + 1]) ==
            if ts[k].company in CompanyOrder(ts[..k]) then CompanyOrder(ts[..k])
            else CompanyOrder(ts[..k]) + [ts[k].company]
  {
    assert ts[..k + 1][..k] == ts[..k];
  }

  /** A company that has not appeared yet has no templates so far. */
  lemma OfAbsentCompany(ts: seq<Template>, c: string)
    requires c !in CompanyOrder(ts)
    ensures OfCompany(ts, c) == []
  {
    if OfCompany(ts, c) != [] {
      var u := OfCompany(ts, c)[0];
      OfCompanyMembers(ts, c, u);
      CompanyOrderMembers(ts, c);
    }
  }

  /** Pushing `ts[k]` into its company's bucket extends the buckets of
      `ts[..k]` to those of `ts[..k + 1]`. */
  lemma PushKeepsBuckets(ts: seq<Template>, k: nat, groups: map<string, seq<Template>>)
    requires k < |ts| && ts[k].company in groups
    requires forall c :: c in groups ==> groups[c] == OfCompany(ts[..k], c)
    ensures forall c :: c in groups ==>
              groups[ts[k].company := groups[ts[k].company] + [ts[k]]][c] == OfCompany(ts[..k + 1], c)
  {
    forall c | c in groups
      ensures groups[ts[k].company := groups[ts[k].company] + [ts[k]]][c] == OfCompany(ts[..k + 1], c)
    {
      OfCompanyStep(ts, k, c);
    }
  }

  /** Some template's company is a name `{}` already answers (such as
      "constructor"): `!acc[company]` is then false, no bucket is made, and
      `acc[company].push` throws because the inherited member is not an
      array. */
  predicate GroupingThrows(ts: seq<Template>) {
    exists k :: 0 <= k < |ts| && ts[k].company in InheritedNames
  }

  /** The buckets of `ts[..k]`, one per company in first-encounter order. */
  ghost predicate Groups(ts: seq<Template>, k: nat, order: seq<string>, groups: map<string, seq<Template>>)
    requires k <= |ts|
  {
    order == CompanyOrder(ts[..k])
    && (forall c :: c in groups <==> c in order)
    && (forall c :: c in groups ==> groups[c] == OfCompany(ts[..k], c))
  }

  /** Halfway through a step: the bucket of `ts[k]`'s company exists and the
      order already lists it, but `ts[k]` is not pushed yet. */
  ghost predicate ReadyToPush(ts: seq<Template>, k: nat, order: seq<string>, groups: map<string, seq<Template>>)
    requires k < |ts|
  {
    order == CompanyOrder(ts[..k + 1]) && ts[k].company in groups
    && (forall c :: c in groups <==> c in order)
    && (forall c :: c in groups ==> groups[c] == OfCompany(ts[..k], c))
  }

  /** Making the missing bucket (empty, as the company had no template so far). */
  lemma MakeBucket(ts: seq<Template>, k: nat, order: seq<string>, groups: map<string, seq<Template>>)
    requires k < |ts| && Groups(ts, k, order, groups)
    ensures ts[k].company in groups ==> ReadyToPush(ts, k, order, groups)
    ensures ts[k].company !in groups ==>
              ReadyToPush(ts, k, order + [ts[k].company], groups[ts[k].company := []])
  {
    CompanyOrderStep(ts, k);
    if ts[k].company !in groups {
      OfAbsentCompany(ts[..k], ts[k].company);
    }
  }

  /** Pushing `ts[k]` into its bucket completes the step. */
  lemma PushReady(ts: seq<Template>, k: nat, order: seq<string>, groups: map<string, seq<Template>>)
    requires k < |ts| && ReadyToPush(ts, k, order, groups)
    ensures Groups(ts, k + 1, order, groups[ts[k].company := groups[ts[k].company] + [ts[k]]])
  {
    PushKeepsBuckets(ts, k, groups);
  }

  /** One step of the `reduce` for a template whose company has no inherited
      member: make its bucket if it has none, then push it. */
  method PushTemplate(ghost ts: seq<Template>, k: nat, t: Template, order: seq<string>, groups: map<string, seq<Template>>)
      returns (order': seq<string>, groups': map<string, seq<Template>>)
    requires k < |ts| && t == ts[k]
    requires Groups(ts, k, order, groups)
    ensures Groups(ts, k + 1, order', groups')
  {
    MakeBucket(ts, k, order, groups);
    order', groups' := order, groups;
    if t.company !in groups {
      groups' := groups'[t.company := []];
      order' := order' + [t.company];
    }
    PushReady(ts, k, order', groups');
    groups' := groups'[t.company := groups'[t.company] + [t]];
  }

  /** `groupedTemplates`: one bucket per company, filled by pushing each
      template into its company's bucket; `ok` is false when the reduction
      throws. When it does not, the buckets are the reference grouping. */
  method GroupByCompany(ts: seq<Template>) returns (ok: bool, order: seq<string>, groups: map<string, seq<Template>>)
    ensures ok <==> !GroupingThrows(ts)
    ensures ok ==> order == CompanyOrder(ts)
    ensures ok ==> forall c :: c in groups <==> c in order
    ensures ok ==> forall c :: c in groups ==> groups[c] == OfCompany(ts, c)
  {
    order, groups := [], map[];
    var k := 0;
    while k < |ts|
      invariant 0 <= k <= |ts|
      invariant forall j :: 0 <= j < k ==> ts[j].company !in InheritedNames
      invariant Groups(ts, k, order, groups)
    {
      var t := ts[k];
      if t.company in InheritedNames {
        return false, order, groups;
      }
      order, groups := PushTemplate(ts, k, t, order, groups);
      k := k + 1;
    }
    assert ts[..k] == ts;
    ok := true;
  }

  /** A template of a company called "constructor" makes the page's
      grouping throw, although the intended grouping is one bucket holding
      that template. */
  lemma ConstructorCompanyThrows(t: Template)
    requires t.company == "constructor"
    ensures GroupingThrows([t])
    ensures CompanyOrder([t]) == ["constructor"] && OfCompany([t], "constructor") == [t]
  {
    assert "constructor" in InheritedNames;
    assert [t][0].company in InheritedNames;
    assert [t][..0] == [];
  }

  // ---------------------------------------------------------------------
  // The page's state
  // ---------------------------------------------------------------------

  /** What the templates webhook answered. */
  datatype FetchResponse =
    | FetchFailed               // network error, non-2xx status or a body that is not JSON
    | NotAnArray                // JSON that is not an array
    | Rows(data: seq<RawRecord>)

  /** How the save request ended. `Threw(Some(m))` is an `Error` with message
      `m` (a failed fetch, a CORS refusal, a body that is not JSON);
      `Threw(None)` something thrown that is not an `Error`. */
  datatype SaveResponse =
    | Saved
    | HttpError(code: nat)
    | Threw(message: Option<string>)

  datatype StatusKind = Success | Error
  datatype SaveStatus = SaveStatus(kind: StatusKind, message: string)

  const NetworkErrorMessage: string :=
    "Network error: Could not connect to the server. Please check your internet connection."
  const CorsErrorMessage: string :=
    "CORS error: The server is not configured to accept requests from this domain."

  /** The message shown for a failed save. */
  function SaveErrorMessage(response: SaveResponse): (m: string)
    requires !response.Saved?
    ensures response.Threw? && response.message.None? ==> m == "Failed to save templates"
  {
    var message :=
      match response
      case HttpError(code) => Some("HTTP error! status: " + NatToString(code))
      case Threw(m) => m;
    match message
    case None => "Failed to save templates"
    case Some(text) =>
      if Contains(text, "Failed to fetch") then NetworkErrorMessage
      else if Contains(text, "CORS") then CorsErrorMessage
      else text
  }

  /** A non-2xx answer is reported with its status code: the message the
      page builds for it mentions neither "Failed to fetch" nor "CORS". */
  lemma HttpErrorMessage(code: nat)
    ensures SaveErrorMessage(HttpError(code)) == "HTTP error! status: " + NatToString(code)
  {
    var prefix, digits := "HTTP error! status: ", NatToString(code);
    var text := prefix + digits;
    forall i | 0 <= i < |text|
      ensures text[i] != 'F' && text[i] != 'C'
    {
      if i >= |prefix| {
        assert text[i] == digits[i - |prefix|];
      }
    }
    AbsentFirstChar(text, "Failed to fetch");
    AbsentFirstChar(text, "CORS");
  }

  function SavedMessage(n: nat): string {
    NatToString(n) + " template(s) saved successfully!"
  }

  class TemplateManager {
    var rawTemplates: seq<RawRecord>
    var templates: seq<Template>
    var saveStatus: Option<SaveStatus>

    constructor ()
      ensures rawTemplates == [] && templates == [] && saveStatus == None
    {
      rawTemplates, templates, saveStatus := [], [], None;
    }

    /** The number on the save button; the button is enabled only when it is positive. */
    function ChangedCount(): nat
      reads this
    {
      |Changed(templates)|
    }

    /** `fetchTemplates`: a failed fetch keeps what is shown; a non-array
        answer empties the list; rows replace the list with their flattening,
        unless flattening throws, which keeps the old list. */
    method FetchTemplates(response: FetchResponse)
      modifies this
      ensures saveStatus == old(saveStatus)
      ensures response.FetchFailed? ==> templates == old(templates) && rawTemplates == old(rawTemplates)
      ensures response.NotAnArray? ==> templates == [] && rawTemplates == []
      ensures response.Rows? ==> rawTemplates == response.data
      ensures response.Rows? ==>
                templates == (match FlattenSpec(response.data)
                              case Some(ts) => ts
                              case None => old(templates))
      ensures ChangedCount() == 0 || templates == old(templates)
    {
      match response {
        case FetchFailed =>
        case NotAnArray =>
          rawTemplates, templates := [], [];
        case Rows(data) =>
          rawTemplates := data;
          var processed := ProcessTemplatesData(data);
          if processed.Some? {
            forall j | 0 <= j < |processed.value|
              ensures !IsDirty(processed.value[j])
            {
              FlattenAllClean(data, processed.value[j]);
            }
            ChangedEmpty(processed.value);
            templates := processed.value;
          }
      }
    }

    /** The editor's Save button for template `id`. */
    method EditTemplate(id: string, editingStatus: string, editingChangeRequest: string)
      modifies this
      ensures templates == ApplyEdit(old(templates), id, editingStatus, editingChangeRequest)
      ensures rawTemplates == old(rawTemplates) && saveStatus == old(saveStatus)
    {
      templates := ApplyEdit(templates, id, editingStatus, editingChangeRequest);
    }

    /** `handleSaveAll`. Returns the request body when a request is made. */
    method SaveAll(response: SaveResponse) returns (sent: Option<seq<Json>>)
      modifies this
      ensures rawTemplates == old(rawTemplates)
      ensures old(templates) == [] ==>
                sent == None && templates == old(templates)
                && saveStatus == Some(SaveStatus(Error, "No templates to save"))
      ensures old(templates) != [] && old(ChangedCount()) == 0 ==>
                sent == None && templates == old(templates)
                && saveStatus == Some(SaveStatus(Success, "No changes to save"))
      ensures old(ChangedCount()) > 0 ==> sent == Some(SavePayload(old(templates)))
      ensures old(ChangedCount()) > 0 && response.Saved? ==>
                templates == AdvanceBaseline(old(templates)) && ChangedCount() == 0
                && saveStatus == Some(SaveStatus(Success, SavedMessage(old(ChangedCount()))))
      ensures old(ChangedCount()) > 0 && !response.Saved? ==>
                templates == old(templates)
                && saveStatus == Some(SaveStatus(Error, SaveErrorMessage(response)))
    {
      if templates == [] {
        saveStatus := Some(SaveStatus(Error, "No templates to save"));
        return None;
      }
      saveStatus := None;
      var changed := Changed(templates);
      if |changed| == 0 {
        saveStatus := Some(SaveStatus(Success, "No changes to save"));
        return None;
      }
      sent := Some(SavePayload(templates));
      if response.Saved? {
        SaveLeavesNothingChanged(templates);
        templates := AdvanceBaseline(templates);
        saveStatus := Some(SaveStatus(Success, SavedMessage(|changed|)));
      } else {
        saveStatus := Some(SaveStatus(Error, SaveErrorMessage(response)));
      }
    }
  }

  /** One row for "2. Globex" whose first slot is filled, whose status
      column is absent and whose second slot has a body but no subject. */
  const GlobexRow: RawRecord :=
    RawRecord(2, Some(JStr("2. Globex")), map[EmailTemplet(1) := "Hello from us",
                     Subject(1) := "Introduction", EmailTemplet(2) := "Following up"])

  lemma GlobexUnnumbered()
    ensures !HasOrdinalPrefix("Globex")
    ensures !IsSpace('G') && !IsSpace('x')
  {
    assert !IsDigit("Globex"[0]);
  }

  lemma GlobexName()
    ensures NormalizeCompanyName("2. Globex") == "Globex"
  {
    GlobexUnnumbered();
    PlainNameUnchanged("Globex");
    assert AllDigits("2") && AllSpace(" ");
    assert "2. Globex" == "2" + "." + " " + "Globex";
    OrdinalPrefixIgnored("2", " ", "Globex");
  }

  lemma GlobexCompany()
    ensures CompanyOf(GlobexRow) == "Globex"
  {
    GlobexName();
    assert GlobexRow.company.value.s == "2. Globex";
  }

  lemma GlobexSlots()
    ensures SlotsUpTo(GlobexRow, "Globex", SlotCount) == [MakeTemplate(GlobexRow, 1, "Globex")]
  {
    var r := GlobexRow;
    assert SlotPopulated(r, 1);
    forall i | 2 <= i <= SlotCount
      ensures !SlotPopulated(r, i)
    {
      assert Subject(i) !in r.fields;
    }
    assert SlotsUpTo(r, "Globex", 1) == [MakeTemplate(r, 1, "Globex")];
    assert SlotsUpTo(r, "Globex", 2) == SlotsUpTo(r, "Globex", 1);
    assert SlotsUpTo(r, "Globex", 3) == SlotsUpTo(r, "Globex", 2);
    assert SlotsUpTo(r, "Globex", 4) == SlotsUpTo(r, "Globex", 3);
    assert SlotsUpTo(r, "Globex", 5) == SlotsUpTo(r, "Globex", 4);
  }

  lemma GlobexRecord()
    ensures RecordTemplates(GlobexRow) == Some([MakeTemplate(GlobexRow, 1, "Globex")])
  {
    GlobexCompany();
    GlobexSlots();
    assert CompanyIsText(GlobexRow);
  }

  /** A single row flattens to what that row contributes. */
  lemma SingleRowFlatten(r: RawRecord)
    ensures FlattenSpec([r]) == RecordTemplates(r)
  {
    FlattenStep([r], 0);
    assert [r][..1] == [r] && [r][..0] == [];
    assert FlattenSpec([]) == Some([]);
    if RecordTemplates(r).Some? {
      assert [] + RecordTemplates(r).value == RecordTemplates(r).value;
    }
  }

  lemma GlobexFlatten()
    ensures FlattenSpec([GlobexRow]) == Some([MakeTemplate(GlobexRow, 1, "Globex")])
  {
    GlobexRecord();
    SingleRowFlatten(GlobexRow);
  }

  /** The template of the Globex row, written out. */
  lemma GlobexTemplate()
    ensures FlattenSpec([GlobexRow]) ==
            Some([Template("2-1", "Globex", 1, "Introduction", "Hello from us", "Pending", Some(""), "Pending")])
  {
    GlobexFlatten();
    GlobexFirstSlot();
  }

  lemma GlobexFirstSlot()
    ensures MakeTemplate(GlobexRow, 1, "Globex")
         == Template("2-1", "Globex", 1, "Introduction", "Hello from us", "Pending", Some(""), "Pending")
  {
    GlobexCells();
    assert TemplateId(2, 1) == "2-1";
  }

  lemma GlobexCells()
    ensures Field(GlobexRow, StatusKey(1)) == ""
    ensures Field(GlobexRow, SubjectKey(1)) == "Introduction"
    ensures Field(GlobexRow, ContentKey(1)) == "Hello from us"
  {
  }

  /** Rejecting the only template of a clean list: it alone is changed, the
      save sends its entry, and once the baseline moves nothing is changed. */
  lemma RejectOnly(t: Template, text: string)
    requires !IsDirty(t) && t.status != "Rejected"
    ensures var t' := t.(status := "Rejected", changeRequest := Some(text));
            var ts := ApplyEdit([t], t.id, "Rejected", text);
            ts == [t'] && Changed(ts) == [t'] && SavePayload(ts) == [SaveEntry(t')]
            && Changed(AdvanceBaseline(ts)) == []
  {
    var t' := t.(status := "Rejected", changeRequest := Some(text));
    var ts := ApplyEdit([t], t.id, "Rejected", text);
    assert ts == [t'];
    assert Changed(ts) == [t'] by {
      assert ts[1..] == [];
    }
    SaveLeavesNothingChanged(ts);
  }

  /** The row yields one pending template for "Globex"; rejecting it makes
      exactly that template changed, the save sends one entry carrying the
      change request, and after the baseline moves nothing is changed. */
  lemma GlobexScenario()
    ensures FlattenSpec([GlobexRow]).Some? && |FlattenSpec([GlobexRow]).value| == 1
    ensures var t := FlattenSpec([GlobexRow]).value[0];
            t.company == "Globex" && t.templateNumber == 1 && t.id == "2-1"
            && t.status == "Pending" && t.originalStatus == "Pending"
    ensures var ts := ApplyEdit(FlattenSpec([GlobexRow]).value, "2-1", "Rejected", "tone too casual");
            |Changed(ts)| == 1 && Changed(ts)[0].status == "Rejected"
            && |SavePayload(ts)| == 1
            && Get(SavePayload(ts)[0], "Change Request") == Some(JStr("tone too casual"))
            && Get(SavePayload(ts)[0], "Company name") == Some(JStr("Globex"))
            && Changed(AdvanceBaseline(ts)) == []
  {
    GlobexTemplate();
    var t := Template("2-1", "Globex", 1, "Introduction", "Hello from us", "Pending", Some(""), "Pending");
    RejectOnly(t, "tone too casual");
  }

  /** A client of the page: a successful save followed by a second save
      sends nothing the second time. */
  method SaveTwice(m: TemplateManager, first: SaveResponse, second: SaveResponse)
      returns (sent1: Option<seq<Json>>, sent2: Option<seq<Json>>)
    requires m.ChangedCount() > 0 && first.Saved?
    modifies m
    ensures sent1.Some? && |sent1.value| > 0
    ensures sent2 == None
    ensures m.saveStatus == Some(SaveStatus(Success, "No changes to save"))
  {
    sent1 := m.SaveAll(first);
    sent2 := m.SaveAll(second);
  }
}
