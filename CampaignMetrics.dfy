// The dashboard's campaign figures: totals over all leads, a per-company
// table and per-sequence-step counters. A lead is one row of the campaign
// sheet; its values are JSON values, because the page combines them with
// JavaScript's `||`, where every falsy value is passed over.
module CampaignMetrics {

  import opened Wrappers
  import opened Json
  import opened Text

  /** The columns of a lead that the dashboard reads. Slot 1 has no number in
      its column names ("Send Status", "Opened", "sendStatus", "opened");
      slot i > 1 has ("Send Status i", "Opened i", "sendStatusi", "openedi").
      `String.prototype.replace(' ', '')` removes only the first space, so the
      fallback columns are "SendStatus" / "SendStatus i" and, for the opened
      flag, "Opened" itself for slot 1 and "Openedi" for slot i > 1; the
      latter is `OpenedNoSpace(i)`, which is read for i > 1 only.
      `Unread(name)` stands for every other column. */
  datatype LeadKey =
    | SendStatus(slot: nat)
    | SendStatusNoSpace(slot: nat)
    | SendStatusCamel(slot: nat)
    | Opened(slot: nat)
    | OpenedNoSpace(slot: nat)
    | OpenedLower(slot: nat)
    | CompanyUpper
    | CompanyLower
    | Unread(name: string)

  type Lead = map<LeadKey, Json>

  const Slots: nat := 6

  /** `lead[key]`, `None` standing for `undefined`. */
  function Read(lead: Lead, key: LeadKey): Option<Json> {
    if key in lead then Some(lead[key]) else None
  }

  /** `v === text`. */
  predicate Is(v: Option<Json>, text: string) {
    v == Some(JStr(text))
  }

  predicate IsSentText(v: Option<Json>) {
    Is(v, "Sent") || Is(v, "UNREAD")
  }

  // ---------------------------------------------------------------------
  // Loading
  // ---------------------------------------------------------------------

  /** What the dashboard webhook answered, once decoded. */
  datatype DashboardResponse = LeadRows(rows: seq<Lead>) | NotAnArray

  /** `Array.isArray(data) ? data : []`. */
  function CampaignData(response: DashboardResponse): (data: seq<Lead>)
    ensures response.NotAnArray? ==> data == []
    ensures response.LeadRows? ==> data == response.rows
  {
    match response
    case LeadRows(rows) => rows
    case NotAnArray => []
  }

  // ---------------------------------------------------------------------
  // `metrics`
  // ---------------------------------------------------------------------

  /** The opened column tried after `Opened i`: for slot 1 it is the same column. */
  function OpenedFallbackKey(i: nat): LeadKey {
    if i == 1 then Opened(1) else OpenedNoSpace(i)
  }

  /** `lead[sendStatusKey] || lead[sendStatusKey.replace(' ', '')] || ''`. */
  function MetricSendStatus(lead: Lead, i: nat): Option<Json> {
    Or(Or(Read(lead, SendStatus(i)), Read(lead, SendStatusNoSpace(i))), Some(JStr("")))
  }

  /** `lead[openedKey] || lead[openedKey.replace(' ', '')] || ''`. */
  function MetricOpened(lead: Lead, i: nat): Option<Json> {
    Or(Or(Read(lead, Opened(i)), Read(lead, OpenedFallbackKey(i))), Some(JStr("")))
  }

  /** Slot `i` counts as sent. */
  predicate SlotSent(lead: Lead, i: nat) {
    IsSentText(MetricSendStatus(lead, i))
  }

  /** Slot `i` counts as opened: it is tested only for a sent slot. */
  predicate SlotOpened(lead: Lead, i: nat) {
    SlotSent(lead, i) && Is(MetricOpened(lead, i), "Yes")
  }

  function SentUpTo(lead: Lead, n: nat): nat {
    if n == 0 then 0 else SentUpTo(lead, n - 1) + (if SlotSent(lead, n) then 1 else 0)
  }

  function OpenedUpTo(lead: Lead, n: nat): nat {
    if n == 0 then 0 else OpenedUpTo(lead, n - 1) + (if SlotOpened(lead, n) then 1 else 0)
  }

  /** A contact is engaged when one of its slots was sent and opened. */
  predicate Engaged(lead: Lead) {
    exists i :: 1 <= i <= Slots && SlotOpened(lead, i)
  }

  /** `lead.Company || lead.company || 'Unknown'`. */
  function CompanyKey(lead: Lead): Json {
    var v := Or(Or(Read(lead, CompanyUpper), Read(lead, CompanyLower)), Some(JStr("Unknown")));
    if v.Some? then v.value else JStr("Unknown")
  }

  function TotalSent(data: seq<Lead>): nat {
    if data == [] then 0 else TotalSent(data[..|data| - 1]) + SentUpTo(data[|data| - 1], Slots)
  }

  function TotalOpened(data: seq<Lead>): nat {
    if data == [] then 0 else TotalOpened(data[..|data| - 1]) + OpenedUpTo(data[|data| - 1], Slots)
  }

  function EngagedContacts(data: seq<Lead>): nat {
    if data == [] then 0
    else EngagedContacts(data[..|data| - 1]) + (if Engaged(data[|data| - 1]) then 1 else 0)
  }

  function Companies(data: seq<Lead>): set<Json> {
    if data == [] then {} else Companies(data[..|data| - 1]) + {CompanyKey(data[|data| - 1])}
  }

  function EngagedCompanies(data: seq<Lead>): set<Json> {
    if data == [] then {}
    else
      EngagedCompanies(data[..|data| - 1])
      + (if Engaged(data[|data| - 1]) then {CompanyKey(data[|data| - 1])} else {})
  }

  /** The integer part of the page's `metrics` (the rates are left out). */
  datatype Metrics = Metrics(
    totalContacts: nat,
    totalCompanies: nat,
    engagedCompanies: nat,
    engagedContacts: nat,
    sentEmails: nat,
    openedEmails: nat)

  function MetricsOf(data: seq<Lead>): Metrics {
    Metrics(|data|, |Companies(data)|, |EngagedCompanies(data)|,
            EngagedContacts(data), TotalSent(data), TotalOpened(data))
  }

  /** The inner `for` loop over one lead's slots. */
  method ScanSlots(lead: Lead) returns (sent: nat, opens: nat, engaged: bool)
    ensures sent == SentUpTo(lead, Slots) && opens == OpenedUpTo(lead, Slots)
    ensures engaged <==> Engaged(lead)
  {
    sent, opens, engaged := 0, 0, false;
    var i := 1;
    while i <= Slots
      invariant 1 <= i <= Slots + 1
      invariant sent == SentUpTo(lead, i - 1) && opens == OpenedUpTo(lead, i - 1)
      invariant engaged <==> exists j :: 1 <= j < i && SlotOpened(lead, j)
    {
      if IsSentText(MetricSendStatus(lead, i)) {
        sent := sent + 1;
        if Is(MetricOpened(lead, i), "Yes") {
          opens := opens + 1;
          engaged := true;
        }
      }
      i := i + 1;
    }
  }

  /** `metrics`: one pass over the leads, the counters and the two sets
      updated per lead. */
  method ComputeMetrics(data: seq<Lead>) returns (m: Metrics)
    ensures m == MetricsOf(data)
  {
    var companies: set<Json> := {};
    var engagedCompanies: set<Json> := {};
    var totalSent, totalOpened, contactsWithEngagement := 0, 0, 0;
    var k := 0;
    while k < |data|
      invariant 0 <= k <= |data|
      invariant companies == Companies(data[..k])
      invariant engagedCompanies == EngagedCompanies(data[..k])
      invariant totalSent == TotalSent(data[..k]) && totalOpened == TotalOpened(data[..k])
      invariant contactsWithEngagement == EngagedContacts(data[..k])
    {
      var lead := data[k];
      assert data[..k + 1][..k] == data[..k] && data[..k + 1][k] == lead;
      var company := CompanyKey(lead);
      companies := companies + {company};
      var sent, opens, engaged := ScanSlots(lead);
      totalSent, totalOpened := totalSent + sent, totalOpened + opens;
      if engaged {
        engagedCompanies := engagedCompanies + {company};
        contactsWithEngagement := contactsWithEngagement + 1;
      }
      k := k + 1;
    }
    assert data[..k] == data;
    m := Metrics(|data|, |companies|, |engagedCompanies|, contactsWithEngagement, totalSent, totalOpened);
  }

  // --- bounds -------------------------------------------------------------

  lemma {:induction false} SlotCountsBounded(lead: Lead, n: nat)
    ensures OpenedUpTo(lead, n) <= SentUpTo(lead, n) <= n
  {
    if n > 0 {
      SlotCountsBounded(lead, n - 1);
    }
  }

  /** A contact is engaged exactly when it has an opened slot. */
  lemma {:induction false} EngagedIffOpened(lead: Lead, n: nat)
    requires n <= Slots
    ensures OpenedUpTo(lead, n) > 0 <==> exists i :: 1 <= i <= n && SlotOpened(lead, i)
  {
    if n > 0 {
      EngagedIffOpened(lead, n - 1);
    }
  }

  lemma {:induction false} CompaniesBounded(data: seq<Lead>)
    ensures EngagedCompanies(data) <= Companies(data)
    ensures |Companies(data)| <= |data|
    ensures data != [] ==> |Companies(data)| >= 1
  {
    if data != [] {
      var init := data[..|data| - 1];
      CompaniesBounded(init);
      var c := CompanyKey(data[|data| - 1]);
      assert |Companies(init) + {c}| <= |Companies(init)| + 1;
      assert c in Companies(data);
    }
  }

  lemma {:induction false} CountsBounded(data: seq<Lead>)
    ensures TotalOpened(data) <= TotalSent(data) <= Slots * |data|
    ensures EngagedContacts(data) <= |data|
  {
    if data != [] {
      CountsBounded(data[..|data| - 1]);
      SlotCountsBounded(data[|data| - 1], Slots);
    }
  }

  /** The dashboard's figures are consistent: no more opens than sends, no
      more sends than six per contact, no more engaged contacts than contacts,
      no more engaged companies than companies and no more companies than
      contacts. */
  lemma MetricsBounded(data: seq<Lead>)
    ensures var m := MetricsOf(data);
            m.openedEmails <= m.sentEmails <= 6 * m.totalContacts
            && m.engagedContacts <= m.totalContacts
            && m.engagedCompanies <= m.totalCompanies <= m.totalContacts
            && (m.totalContacts > 0 ==> m.totalCompanies >= 1)
  {
    CountsBounded(data);
    CompaniesBounded(data);
    assert |EngagedCompanies(data)| <= |Companies(data)| by {
      SubsetCardinality(EngagedCompanies(data), Companies(data));
    }
  }

  lemma {:induction false} SubsetCardinality(a: set<Json>, b: set<Json>)
    requires a <= b
    ensures |a| <= |b|
  {
    if a != {} {
      var x :| x in a;
      SubsetCardinality(a - {x}, b - {x});
    }
  }

  // ---------------------------------------------------------------------
  // `companyPerformance`
  // ---------------------------------------------------------------------

  /** `item.Company || item.company`. */
  function NameOf(lead: Lead): Option<Json> {
    Or(Read(lead, CompanyUpper), Read(lead, CompanyLower))
  }

  predicate Named(lead: Lead) {
    Truthy(NameOf(lead))
  }

  /** `(item['Send Status'] || item.sendStatus) === "Sent"`: slot 1 only,
      and "UNREAD" does not count here. */
  predicate FirstSent(lead: Lead) {
    Is(Or(Read(lead, SendStatus(1)), Read(lead, SendStatusCamel(1))), "Sent")
  }

  /** Some opened flag is "Yes": "Opened", "opened", "Opened 2" .. "Opened 6". */
  predicate AnyOpened(lead: Lead) {
    Is(Read(lead, Opened(1)), "Yes") || Is(Read(lead, OpenedLower(1)), "Yes")
    || exists i :: 2 <= i <= Slots && Is(Read(lead, Opened(i)), "Yes")
  }

  predicate OfName(lead: Lead, name: Json) {
    Named(lead) && NameOf(lead) == Some(name)
  }

  datatype CompanyRow = CompanyRow(name: Json, leads: nat, sent: nat, opens: nat)

  /** The row of company `name` over `data`. */
  function RowOf(data: seq<Lead>, name: Json): (row: CompanyRow)
    ensures row.name == name
  {
    if data == [] then CompanyRow(name, 0, 0, 0)
    else
      var row := RowOf(data[..|data| - 1], name);
      var lead := data[|data| - 1];
      if OfName(lead, name) then
        CompanyRow(name, row.leads + 1,
                   row.sent + (if FirstSent(lead) then 1 else 0),
                   row.opens + (if AnyOpened(lead) then 1 else 0))
      else row
  }

  /** The company names in order of first appearance. */
  function CompanyNames(data: seq<Lead>): seq<Json> {
    if data == [] then []
    else
      var front := CompanyNames(data[..|data| - 1]);
      var lead := data[|data| - 1];
      if !Named(lead) || NameOf(lead).value in front then front else front + [NameOf(lead).value]
  }

  /** The reference table: one row per company name, in order of first
      appearance. */
  function CompanyRows(data: seq<Lead>): (rows: seq<CompanyRow>)
    ensures |rows| == |CompanyNames(data)|
  {
    var names := CompanyNames(data);
    seq(|names|, i requires 0 <= i < |names| => RowOf(data, names[i]))
  }

  /** A name for which `!companies[companyName]` is false before any row was
      made: no row is ever created and the increments go to the inherited
      member instead. */
  predicate Inherited(lead: Lead) {
    Named(lead) && NameOf(lead).value.JStr? && NameOf(lead).value.s in InheritedNames
  }

  /** The leads that can reach the table as the page is written. */
  function Visible(data: seq<Lead>): (r: seq<Lead>)
    ensures |r| <= |data|
  {
    if data == [] then []
    else Visible(data[..|data| - 1]) + (if Inherited(data[|data| - 1]) then [] else [data[|data| - 1]])
  }

  lemma VisibleStep(data: seq<Lead>, k: nat)
    requires k < |data|
    ensures Visible(data[..k + 1]) == Visible(data[..k]) + (if Inherited(data[k]) then [] else [data[k]])
  {
    assert data[..k + 1][..k] == data[..k];
  }

  lemma RowOfStep(v: seq<Lead>, lead: Lead, name: Json)
    ensures RowOf(v + [lead], name) ==
            if OfName(lead, name) then
              CompanyRow(name, RowOf(v, name).leads + 1,
                         RowOf(v, name).sent + (if FirstSent(lead) then 1 else 0),
                         RowOf(v, name).opens + (if AnyOpened(lead) then 1 else 0))
            else RowOf(v, name)
  {
    assert (v + [lead])[..|v + [lead]| - 1] == v;
  }

  lemma CompanyNamesStep(v: seq<Lead>, lead: Lead)
    ensures CompanyNames(v + [lead]) ==
            if !Named(lead) || NameOf(lead).value in CompanyNames(v) then CompanyNames(v)
            else CompanyNames(v) + [NameOf(lead).value]
  {
    assert (v + [lead])[..|v + [lead]| - 1] == v;
  }

  lemma {:induction false} AbsentNameHasEmptyRow(v: seq<Lead>, name: Json)
    requires name !in CompanyNames(v)
    ensures RowOf(v, name) == CompanyRow(name, 0, 0, 0)
  {
    if v != [] {
      var init := v[..|v| - 1];
      CompanyNamesStep(init, v[|v| - 1]);
      assert v == init + [v[|v| - 1]];
      AbsentNameHasEmptyRow(init, name);
    }
  }

  /** `order` and `table` are the dictionary of rows built from `v`:
      its keys in insertion order and its entries. */
  ghost predicate Tabulates(v: seq<Lead>, order: seq<Json>, table: map<Json, CompanyRow>) {
    order == CompanyNames(v)
    && (forall n :: n in table <==> n in order)
    && (forall n :: n in table ==> table[n] == RowOf(v, n))
  }

  lemma NamedStep(v: seq<Lead>, lead: Lead, order: seq<Json>, table: map<Json, CompanyRow>)
    requires Tabulates(v, order, table) && Named(lead)
    ensures var name := NameOf(lead).value;
            var t := if name in table then table else table[name := CompanyRow(name, 0, 0, 0)];
            var o := if name in table then order else order + [name];
            var r := t[name];
            Tabulates(v + [lead], o,
                      t[name := CompanyRow(name, r.leads + 1,
                                           r.sent + (if FirstSent(lead) then 1 else 0),
                                           r.opens + (if AnyOpened(lead) then 1 else 0))])
  {
    var name := NameOf(lead).value;
    CompanyNamesStep(v, lead);
    if name !in table {
      AbsentNameHasEmptyRow(v, name);
    }
    forall n ensures RowOf(v + [lead], n) ==
                     if OfName(lead, n) then
                       CompanyRow(n, RowOf(v, n).leads + 1,
                                  RowOf(v, n).sent + (if FirstSent(lead) then 1 else 0),
                                  RowOf(v, n).opens + (if AnyOpened(lead) then 1 else 0))
                     else RowOf(v, n)
    {
      RowOfStep(v, lead, n);
    }
  }

  lemma UnnamedStep(v: seq<Lead>, lead: Lead, order: seq<Json>, table: map<Json, CompanyRow>)
    requires Tabulates(v, order, table) && !Named(lead)
    ensures Tabulates(v + [lead], order, table)
  {
    CompanyNamesStep(v, lead);
    forall n | n in table ensures RowOf(v + [lead], n) == RowOf(v, n) {
      RowOfStep(v, lead, n);
    }
  }

  /** The `forEach` callback of `companyPerformance` for one lead. */
  method TabulateLead(ghost v: seq<Lead>, order: seq<Json>, table: map<Json, CompanyRow>, lead: Lead)
      returns (order': seq<Json>, table': map<Json, CompanyRow>)
    requires Tabulates(v, order, table)
    ensures Tabulates(v + (if Inherited(lead) then [] else [lead]), order', table')
  {
    order', table' := order, table;
    var companyName := NameOf(lead);
    if !Truthy(companyName) {
      UnnamedStep(v, lead, order, table);
      return;
    }
    if Inherited(lead) {
      // The inherited member is truthy, so no row is created; the
      // increments change that member, not the table.
      assert v + [] == v;
      return;
    }
    NamedStep(v, lead, order, table);
    var name := companyName.value;
    if name !in table' {
      table' := table'[name := CompanyRow(name, 0, 0, 0)];
      order' := order' + [name];
    }
    var row := table'[name];
    table' := table'[name := CompanyRow(name, row.leads + 1,
                                        row.sent + (if FirstSent(lead) then 1 else 0),
                                        row.opens + (if AnyOpened(lead) then 1 else 0))];
  }

  /** `companyPerformance`: a dictionary of rows filled lead by lead, then
      its values in insertion order. As written, a lead whose name is one of
      `InheritedNames` never gets a row. */
  method CompanyPerformance(data: seq<Lead>) returns (rows: seq<CompanyRow>)
    ensures rows == CompanyRows(Visible(data))
  {
    var table: map<Json, CompanyRow> := map[];
    var order: seq<Json> := [];
    var k := 0;
    while k < |data|
      invariant 0 <= k <= |data|
      invariant Tabulates(Visible(data[..k]), order, table)
    {
      VisibleStep(data, k);
      order, table := TabulateLead(Visible(data[..k]), order, table, data[k]);
      k := k + 1;
    }
    assert data[..k] == data;
    rows := seq(|order|, i requires 0 <= i < |order| => table[order[i]]);
  }

  // --- properties of the table --------------------------------------------

  function NamedCount(data: seq<Lead>): nat {
    if data == [] then 0 else NamedCount(data[..|data| - 1]) + (if Named(data[|data| - 1]) then 1 else 0)
  }

  function SumLeads(rows: seq<CompanyRow>): nat {
    if rows == [] then 0 else SumLeads(rows[..|rows| - 1]) + rows[|rows| - 1].leads
  }

  predicate Distinct(names: seq<Json>) {
    forall a, b :: 0 <= a < b < |names| ==> names[a] != names[b]
  }

  lemma {:induction false} CompanyNamesDistinct(data: seq<Lead>)
    ensures Distinct(CompanyNames(data))
  {
    if data != [] {
      CompanyNamesDistinct(data[..|data| - 1]);
    }
  }

  lemma {:induction false} CompanyNamesNamed(data: seq<Lead>, name: Json)
    ensures name in CompanyNames(data) <==> exists k :: 0 <= k < |data| && OfName(data[k], name)
  {
    if data != [] {
      var init, last := data[..|data| - 1], data[|data| - 1];
      CompanyNamesNamed(init, name);
      if exists k :: 0 <= k < |init| && OfName(init[k], name) {
        var k :| 0 <= k < |init| && OfName(init[k], name);
        assert data[k] == init[k];
      }
      if exists k :: 0 <= k < |data| && OfName(data[k], name) {
        var k :| 0 <= k < |data| && OfName(data[k], name);
        if k < |init| {
          assert init[k] == data[k];
        }
      }
    }
  }

  /** Sum of the leads of the rows of `names` over `data`. */
  function SumOver(data: seq<Lead>, names: seq<Json>): nat {
    if names == [] then 0 else SumOver(data, names[..|names| - 1]) + RowOf(data, names[|names| - 1]).leads
  }

  lemma {:induction false} SumOverStep(v: seq<Lead>, lead: Lead, names: seq<Json>)
    requires Distinct(names)
    ensures SumOver(v + [lead], names) ==
            SumOver(v, names) + (if Named(lead) && NameOf(lead).value in names then 1 else 0)
  {
    if names != [] {
      var init, last := names[..|names| - 1], names[|names| - 1];
      assert Distinct(init);
      SumOverStep(v, lead, init);
      RowOfStep(v, lead, last);
      if Named(lead) && NameOf(lead).value == last {
        assert last !in init;
      }
      assert Named(lead) && NameOf(lead).value in names <==>
             (Named(lead) && NameOf(lead).value in init) || (Named(lead) && NameOf(lead).value == last);
    }
  }

  lemma SumOverAppendName(data: seq<Lead>, names: seq<Json>, name: Json)
    ensures SumOver(data, names + [name]) == SumOver(data, names) + RowOf(data, name).leads
  {
    assert (names + [name])[..|names + [name]| - 1] == names;
  }

  /** A lead with a new name adds a row holding just that lead. */
  lemma SumOverNewName(v: seq<Lead>, lead: Lead)
    requires Named(lead) && NameOf(lead).value !in CompanyNames(v)
    ensures SumOver(v + [lead], CompanyNames(v) + [NameOf(lead).value]) == SumOver(v + [lead], CompanyNames(v)) + 1
  {
    var name := NameOf(lead).value;
    SumOverAppendName(v + [lead], CompanyNames(v), name);
    AbsentNameHasEmptyRow(v, name);
    RowOfStep(v, lead, name);
  }

  lemma SumOverCountsStep(v: seq<Lead>, lead: Lead)
    requires SumOver(v, CompanyNames(v)) == NamedCount(v)
    ensures SumOver(v + [lead], CompanyNames(v + [lead])) == NamedCount(v + [lead])
  {
    assert (v + [lead])[..|v|] == v;
    CompanyNamesDistinct(v);
    CompanyNamesStep(v, lead);
    SumOverStep(v, lead, CompanyNames(v));
    if Named(lead) && NameOf(lead).value !in CompanyNames(v) {
      SumOverNewName(v, lead);
    }
  }

  lemma {:induction false} SumOverCounts(data: seq<Lead>)
    ensures SumOver(data, CompanyNames(data)) == NamedCount(data)
  {
    if data != [] {
      var v, lead := data[..|data| - 1], data[|data| - 1];
      assert data == v + [lead];
      SumOverCounts(v);
      SumOverCountsStep(v, lead);
    }
  }

  lemma {:induction false} SumLeadsIsSumOver(data: seq<Lead>, names: seq<Json>)
    ensures SumLeads(seq(|names|, i requires 0 <= i < |names| => RowOf(data, names[i]))) == SumOver(data, names)
  {
    var rows := seq(|names|, i requires 0 <= i < |names| => RowOf(data, names[i]));
    if names != [] {
      var init := names[..|names| - 1];
      SumLeadsIsSumOver(data, init);
      assert rows[..|rows| - 1] == seq(|init|, i requires 0 <= i < |init| => RowOf(data, init[i]));
    }
  }

  /** Every named lead is counted in exactly one row: the rows' lead counts
      add up to the number of named leads. */
  lemma CompanyLeadsSum(data: seq<Lead>)
    ensures SumLeads(CompanyRows(data)) == NamedCount(data)
  {
    SumLeadsIsSumOver(data, CompanyNames(data));
    SumOverCounts(data);
  }

  lemma {:induction false} RowBounded(data: seq<Lead>, name: Json)
    ensures RowOf(data, name).sent <= RowOf(data, name).leads
    ensures RowOf(data, name).opens <= RowOf(data, name).leads
  {
    if data != [] {
      RowBounded(data[..|data| - 1], name);
    }
  }

  /** Each row has at least one lead, and no more sends or opens than leads;
      the rows name distinct companies. */
  lemma CompanyRowsBounded(data: seq<Lead>)
    ensures forall i :: 0 <= i < |CompanyRows(data)| ==>
              var r := CompanyRows(data)[i];
              1 <= r.leads && r.sent <= r.leads && r.opens <= r.leads
    ensures forall a, b :: 0 <= a < b < |CompanyRows(data)| ==>
              CompanyRows(data)[a].name != CompanyRows(data)[b].name
  {
    var names := CompanyNames(data);
    CompanyNamesDistinct(data);
    forall i | 0 <= i < |names|
      ensures 1 <= RowOf(data, names[i]).leads
      ensures RowOf(data, names[i]).sent <= RowOf(data, names[i]).leads
      ensures RowOf(data, names[i]).opens <= RowOf(data, names[i]).leads
    {
      RowBounded(data, names[i]);
      RowHasLead(data, names[i]);
    }
  }

  lemma {:induction false} RowHasLead(data: seq<Lead>, name: Json)
    requires name in CompanyNames(data)
    ensures RowOf(data, name).leads >= 1
  {
    if data != [] {
      var v, lead := data[..|data| - 1], data[|data| - 1];
      CompanyNamesStep(v, lead);
      assert data == v + [lead];
      RowOfStep(v, lead, name);
      if name in CompanyNames(v) {
        RowHasLead(v, name);
      }
    }
  }

  lemma {:induction false} VisibleOfPlain(data: seq<Lead>)
    requires forall k :: 0 <= k < |data| ==> !Inherited(data[k])
    ensures Visible(data) == data
  {
    if data != [] {
      VisibleOfPlain(data[..|data| - 1]);
    }
  }

  /** As written, the table agrees with the reference table whenever no
      lead is named after an inherited member. */
  lemma CompanyPerformanceOfPlainNames(data: seq<Lead>)
    requires forall k :: 0 <= k < |data| ==> !Inherited(data[k])
    ensures CompanyRows(Visible(data)) == CompanyRows(data)
    ensures SumLeads(CompanyRows(Visible(data))) == NamedCount(data)
  {
    VisibleOfPlain(data);
    CompanyLeadsSum(data);
  }

  /** A single lead from a company named "constructor" gets no row as the
      page is written, although it is a named lead. */
  lemma ConstructorNameDropped()
    ensures var data := [map[CompanyUpper := JStr("constructor")]];
            NamedCount(data) == 1 && CompanyRows(Visible(data)) == []
  {
    var lead: Lead := map[CompanyUpper := JStr("constructor")];
    var data := [lead];
    assert NameOf(lead) == Some(JStr("constructor"));
    assert "constructor" in InheritedNames;
    assert Inherited(lead);
    assert data[..0] == [];
    assert Visible(data) == [];
  }

  // ---------------------------------------------------------------------
  // `sequenceData`
  // ---------------------------------------------------------------------

  /** Sent for the sequence chart: `Send Status i` or `sendStatus i` is
      "Sent" or "UNREAD", each column compared on its own. */
  predicate StepSent(lead: Lead, i: nat) {
    IsSentText(Read(lead, SendStatus(i))) || IsSentText(Read(lead, SendStatusCamel(i)))
  }

  /** Opened for the sequence chart: `Opened i` or `opened i` is "Yes",
      whether or not the step was sent. */
  predicate StepOpened(lead: Lead, i: nat) {
    Is(Read(lead, Opened(i)), "Yes") || Is(Read(lead, OpenedLower(i)), "Yes")
  }

  function StepSentCount(data: seq<Lead>, i: nat): nat {
    if data == [] then 0
    else StepSentCount(data[..|data| - 1], i) + (if StepSent(data[|data| - 1], i) then 1 else 0)
  }

  function StepOpenedCount(data: seq<Lead>, i: nat): nat {
    if data == [] then 0
    else StepOpenedCount(data[..|data| - 1], i) + (if StepOpened(data[|data| - 1], i) then 1 else 0)
  }

  function StepLabel(i: nat): string {
    "Email " + NatToString(i)
  }

  datatype SequenceRow = SequenceRow(template: string, sent: nat, opens: nat)

  function StepRow(data: seq<Lead>, i: nat): SequenceRow {
    SequenceRow(StepLabel(i), StepSentCount(data, i), StepOpenedCount(data, i))
  }

  /** Counting one more lead adds its step-i send and open to row i. */
  lemma StepRowStep(data: seq<Lead>, k: nat, i: nat)
    requires k < |data|
    ensures StepRow(data[..k + 1], i) ==
            StepRow(data[..k], i).(sent := StepRow(data[..k], i).sent + (if StepSent(data[k], i) then 1 else 0),
                                   opens := StepRow(data[..k], i).opens + (if StepOpened(data[k], i) then 1 else 0))
  {
    assert data[..k + 1][..k] == data[..k];
  }

  /** `sequenceData`: six rows "Email 1" .. "Email 6", whose counters are
      incremented in place lead by lead. */
  method SequenceData(data: seq<Lead>) returns (templates: array<SequenceRow>)
    ensures fresh(templates) && templates.Length == Slots
    ensures forall j :: 0 <= j < Slots ==> templates[j] == StepRow(data, j + 1)
  {
    templates := new SequenceRow[Slots](j => SequenceRow(StepLabel(j + 1), 0, 0));
    var k := 0;
    while k < |data|
      invariant 0 <= k <= |data|
      invariant forall j :: 0 <= j < Slots ==> templates[j] == StepRow(data[..k], j + 1)
    {
      var item := data[k];
      var i := 1;
      while i <= Slots
        invariant 1 <= i <= Slots + 1
        invariant forall j :: 0 <= j < i - 1 ==> templates[j] == StepRow(data[..k + 1], j + 1)
        invariant forall j :: i - 1 <= j < Slots ==> templates[j] == StepRow(data[..k], j + 1)
      {
        StepRowStep(data, k, i);
        var row := templates[i - 1];
        if StepSent(item, i) {
          row := row.(sent := row.sent + 1);
        }
        if StepOpened(item, i) {
          row := row.(opens := row.opens + 1);
        }
        templates[i - 1] := row;
        i := i + 1;
      }
      k := k + 1;
    }
    assert data[..k] == data;
  }

  lemma {:induction false} StepCountsBounded(data: seq<Lead>, i: nat)
    ensures StepSentCount(data, i) <= |data| && StepOpenedCount(data, i) <= |data|
  {
    if data != [] {
      StepCountsBounded(data[..|data| - 1], i);
    }
  }

  /** The sequence chart does not require a step to be sent before counting
      it as opened: a lead with only "Opened" set to "Yes" is one open and
      no send for "Email 1". */
  lemma OpenedWithoutSent()
    ensures var data := [map[Opened(1) := JStr("Yes")]];
            StepOpenedCount(data, 1) == 1 && StepSentCount(data, 1) == 0
  {
    var lead: Lead := map[Opened(1) := JStr("Yes")];
    var data := [lead];
    assert data[..0] == [];
    assert StepOpened(lead, 1);
    assert !StepSent(lead, 1);
  }
}
