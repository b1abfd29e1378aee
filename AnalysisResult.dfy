// The analysis-result view: the data it extracts from the returned HTML
// and the height it gives the iframe that shows it. The HTML parser and
// the iframe's layout are outside the model; what they produce is given
// as an abstract document (tables of rows of cell texts, and the texts of
// the paragraphs and headings in document order) and as the five
// measured heights.
module AnalysisResult {

  import opened Wrappers
  import opened Text

  /** The text of each `td`/`th` cell of one `tr`, in order. */
  type Row = seq<string>

  /** The rows of one `table`, in order. */
  type Table = seq<Row>

  /** What the parser yields: every table in document order, and the text
      of every `p` and `h1`..`h6` element in document order. */
  datatype Document = Document(tables: seq<Table>, texts: seq<string>)

  /** A value of the parsed-data record: one table's key/value data, or the
      collected texts. */
  datatype Entry = TableEntry(fields: map<string, string>) | TextEntry(texts: seq<string>)

  // ---------------------------------------------------------------------
  // Rows and tables

  /** A row contributes when it has at least two cells and the first
      cell's trimmed text is not empty. */
  predicate Contributes(row: Row) {
    |row| >= 2 && Trim(row[0]) != ""
  }

  function KeyOf(row: Row): string
    requires |row| >= 2
  {
    Trim(row[0])
  }

  function ValueOf(row: Row): string
    requires |row| >= 2
  {
    Trim(row[1])
  }

  /** The record one table yields, row by row; a later row overwrites an
      earlier one with the same key. */
  function TableSpec(rows: Table): map<string, string> {
    if rows == [] then map[]
    else
      var t := TableSpec(rows[..|rows| - 1]);
      var row := rows[|rows| - 1];
      if Contributes(row) then t[KeyOf(row) := ValueOf(row)] else t
  }

  /** The per-row step of the extraction loop. */
  method AddRow(t: map<string, string>, row: Row) returns (t': map<string, string>)
    ensures t' == if Contributes(row) then t[KeyOf(row) := ValueOf(row)] else t
  {
    t' := t;
    if |row| >= 2 {
      var key := Trim(row[0]);
      var value := Trim(row[1]);
      if key != "" {
        t' := t[key := value];
      }
    }
  }

  /** The row loop for one table. */
  method ExtractTable(rows: Table) returns (t: map<string, string>)
    ensures t == TableSpec(rows)
  {
    t := map[];
    var i := 0;
    while i < |rows|
      invariant 0 <= i <= |rows|
      invariant t == TableSpec(rows[..i])
    {
      assert rows[..i + 1][..i] == rows[..i];
      t := AddRow(t, rows[i]);
      i := i + 1;
    }
    assert rows[..|rows|] == rows;
  }

  /** A key is in a table's record exactly when some contributing row has
      it as its trimmed first cell. */
  lemma {:induction false} TableKeys(rows: Table, k: string)
    ensures k in TableSpec(rows) <==>
      exists i :: 0 <= i < |rows| && Contributes(rows[i]) && KeyOf(rows[i]) == k
  {
    if rows != [] {
      var init := rows[..|rows| - 1];
      TableKeys(init, k);
      if k in TableSpec(init) {
        var i :| 0 <= i < |init| && Contributes(init[i]) && KeyOf(init[i]) == k;
        assert rows[i] == init[i];
      }
      if exists i :: 0 <= i < |rows| && Contributes(rows[i]) && KeyOf(rows[i]) == k {
        var i :| 0 <= i < |rows| && Contributes(rows[i]) && KeyOf(rows[i]) == k;
        if i < |init| {
          assert init[i] == rows[i];
        }
      }
    }
  }

  /** The value stored under a key is the second cell of the last row
      carrying that key. */
  lemma {:induction false} TableLastWins(rows: Table, i: nat)
    requires i < |rows| && Contributes(rows[i])
    requires forall j :: i < j < |rows| && Contributes(rows[j]) ==> KeyOf(rows[j]) != KeyOf(rows[i])
    ensures KeyOf(rows[i]) in TableSpec(rows)
    ensures TableSpec(rows)[KeyOf(rows[i])] == ValueOf(rows[i])
  {
    if i < |rows| - 1 {
      var init := rows[..|rows| - 1];
      assert init[i] == rows[i];
      forall j | i < j < |init| && Contributes(init[j])
        ensures KeyOf(init[j]) != KeyOf(init[i])
      {
        assert init[j] == rows[j];
      }
      TableLastWins(init, i);
    }
  }

  /** Every stored key is non-empty and already trimmed, and so is every
      stored value. */
  lemma {:induction false} TableTrimmed(rows: Table)
    ensures forall k :: k in TableSpec(rows) ==>
      k != "" && Trim(k) == k && Trim(TableSpec(rows)[k]) == TableSpec(rows)[k]
  {
    if rows != [] {
      TableTrimmed(rows[..|rows| - 1]);
      var row := rows[|rows| - 1];
      if Contributes(row) {
        TrimIdempotent(row[0]);
        TrimIdempotent(row[1]);
      }
    }
  }

  // ---------------------------------------------------------------------
  // Texts

  /** The trimmed non-empty texts, in document order. */
  function TextsSpec(texts: seq<string>): seq<string> {
    if texts == [] then []
    else
      var out := TextsSpec(texts[..|texts| - 1]);
      var text := Trim(texts[|texts| - 1]);
      if text != "" then out + [text] else out
  }

  /** The text loop. */
  method CollectTexts(texts: seq<string>) returns (out: seq<string>)
    ensures out == TextsSpec(texts)
  {
    out := [];
    var i := 0;
    while i < |texts|
      invariant 0 <= i <= |texts|
      invariant out == TextsSpec(texts[..i])
    {
      assert texts[..i + 1][..i] == texts[..i];
      var text := Trim(texts[i]);
      if text != "" {
        out := out + [text];
      }
      i := i + 1;
    }
    assert texts[..|texts|] == texts;
  }

  /** Collecting the texts of two consecutive runs of elements gives the
      texts of the first run followed by those of the second. */
  lemma {:induction false} TextsAppend(a: seq<string>, b: seq<string>)
    ensures TextsSpec(a + b) == TextsSpec(a) + TextsSpec(b)
  {
    if b == [] {
      assert a + b == a;
    } else {
      var b' := b[..|b| - 1];
      assert (a + b)[..|a + b| - 1] == a + b';
      assert (a + b)[|a + b| - 1] == b[|b| - 1];
      TextsAppend(a, b');
    }
  }

  /** A collected text is the trimmed text of some element, never empty
      and never with surrounding whitespace; there are no more of them than
      elements. */
  lemma {:induction false} TextsMembers(texts: seq<string>)
    ensures |TextsSpec(texts)| <= |texts|
    ensures forall x :: x in TextsSpec(texts) ==>
      x != "" && Trim(x) == x && exists i :: 0 <= i < |texts| && Trim(texts[i]) == x
  {
    if texts != [] {
      var init := texts[..|texts| - 1];
      TextsMembers(init);
      TrimIdempotent(texts[|texts| - 1]);
      forall x | x in TextsSpec(init)
        ensures exists i :: 0 <= i < |texts| && Trim(texts[i]) == x
      {
        var i :| 0 <= i < |init| && Trim(init[i]) == x;
        assert texts[i] == init[i];
      }
    }
  }

  /** Every element whose trimmed text is not empty is collected. */
  lemma {:induction false} TextsComplete(texts: seq<string>, i: nat)
    requires i < |texts| && Trim(texts[i]) != ""
    ensures Trim(texts[i]) in TextsSpec(texts)
  {
    if i < |texts| - 1 {
      assert texts[..|texts| - 1][i] == texts[i];
      TextsComplete(texts[..|texts| - 1], i);
    }
  }

  // ---------------------------------------------------------------------
  // The parsed-data record

  /** The key of the table with zero-based index `k` (`table_${k + 1}`). */
  function TableKey(k: nat): string {
    "table_" + NatToString(k + 1)
  }

  const TextContentKey := "text_content"

  lemma TableKeyInjective(a: nat, b: nat)
    requires TableKey(a) == TableKey(b)
    ensures a == b
  {
    assert TableKey(a)[6..] == NatToString(a + 1);
    assert TableKey(b)[6..] == NatToString(b + 1);
    NatToStringInjective(a + 1, b + 1);
  }

  lemma TableKeyNotTextContent(k: nat)
    ensures TableKey(k) != TextContentKey
  {
    assert TableKey(k)[1] == 'a';
    assert TextContentKey[1] == 'e';
  }

  /** The entries the table loop adds: one per table that yields data. */
  function TablesSpec(tables: seq<Table>): map<string, Entry> {
    if tables == [] then map[]
    else
      var data := TablesSpec(tables[..|tables| - 1]);
      var t := TableSpec(tables[|tables| - 1]);
      if t != map[] then data[TableKey(|tables| - 1) := TableEntry(t)] else data
  }

  /** The whole parsed-data record of a document. */
  function ParseSpec(doc: Document): map<string, Entry> {
    var data := TablesSpec(doc.tables);
    var texts := TextsSpec(doc.texts);
    if texts != [] then data[TextContentKey := TextEntry(texts)] else data
  }

  /** The table loop followed by the text loop. */
  method Parse(doc: Document) returns (data: map<string, Entry>)
    ensures data == ParseSpec(doc)
  {
    data := map[];
    var index := 0;
    while index < |doc.tables|
      invariant 0 <= index <= |doc.tables|
      invariant data == TablesSpec(doc.tables[..index])
    {
      assert doc.tables[..index + 1][..index] == doc.tables[..index];
      var t := ExtractTable(doc.tables[index]);
      if t != map[] {
        data := data[TableKey(index) := TableEntry(t)];
      }
      index := index + 1;
    }
    assert doc.tables[..|doc.tables|] == doc.tables;
    var texts := CollectTexts(doc.texts);
    if texts != [] {
      data := data[TextContentKey := TextEntry(texts)];
    }
  }

  /** `table_{k+1}` is present exactly when the table with index k yields
      some data, and then holds that data; only table keys are present. */
  lemma {:induction false} TablesEntries(tables: seq<Table>)
    ensures forall k: nat :: TableKey(k) in TablesSpec(tables) <==>
      k < |tables| && TableSpec(tables[k]) != map[]
    ensures forall k: nat :: k < |tables| && TableSpec(tables[k]) != map[] ==>
      TablesSpec(tables)[TableKey(k)] == TableEntry(TableSpec(tables[k]))
    ensures forall key :: key in TablesSpec(tables) ==> exists k: nat :: key == TableKey(k)
  {
    if tables != [] {
      var n := |tables| - 1;
      var init := tables[..n];
      TablesEntries(init);
      forall k: nat | k < n
        ensures tables[k] == init[k]
      {
      }
      forall k: nat | TableKey(k) == TableKey(n)
        ensures k == n
      {
        TableKeyInjective(k, n);
      }
    }
  }

  /** The record of a document: its table entries as above and, exactly
      when some element has non-blank text, `text_content` with the
      collected texts. */
  lemma ParseEntries(doc: Document)
    ensures forall k: nat :: TableKey(k) in ParseSpec(doc) <==>
      k < |doc.tables| && TableSpec(doc.tables[k]) != map[]
    ensures forall k: nat :: k < |doc.tables| && TableSpec(doc.tables[k]) != map[] ==>
      ParseSpec(doc)[TableKey(k)] == TableEntry(TableSpec(doc.tables[k]))
    ensures TextContentKey in ParseSpec(doc) <==> TextsSpec(doc.texts) != []
    ensures TextContentKey in ParseSpec(doc) ==>
      ParseSpec(doc)[TextContentKey] == TextEntry(TextsSpec(doc.texts))
  {
    TablesEntries(doc.tables);
    forall k: nat
      ensures TableKey(k) != TextContentKey
    {
      TableKeyNotTextContent(k);
    }
  }

  // ---------------------------------------------------------------------
  // The iframe height

  /** What `handleLoad` finds: reading the frame's document threw, there
      is no document, or the five heights were measured (a missing body or
      root element measures 0). */
  datatype Measurement =
    | AccessThrew
    | NoDocument
    | Measured(bodyScroll: nat, bodyOffset: nat, rootClient: nat, rootScroll: nat, rootOffset: nat)

  function Max(a: nat, b: nat): nat {
    if a >= b then a else b
  }

  /** The largest of the five measured heights. */
  function MeasuredHeight(m: Measurement): (h: nat)
    requires m.Measured?
    ensures h >= m.bodyScroll && h >= m.bodyOffset && h >= m.rootClient
    ensures h >= m.rootScroll && h >= m.rootOffset
    ensures h == m.bodyScroll || h == m.bodyOffset || h == m.rootClient
      || h == m.rootScroll || h == m.rootOffset
  {
    Max(Max(Max(Max(m.bodyScroll, m.bodyOffset), m.rootClient), m.rootScroll), m.rootOffset)
  }

  /** The height after one `handleLoad`: 40 pixels more than the content,
      capped at 750, once content has been measured; 1200 when the frame
      could not be read; otherwise the height is kept. */
  function NextHeight(height: int, m: Measurement): (r: int)
    ensures m.AccessThrew? ==> r == 1200
    ensures m.NoDocument? ==> r == height
    ensures m.Measured? && MeasuredHeight(m) == 0 ==> r == height
    ensures m.Measured? && MeasuredHeight(m) > 0 ==>
      40 < r <= 750 && (r == 750 || r == MeasuredHeight(m) + 40)
      && r <= MeasuredHeight(m) + 40
  {
    match m
    case AccessThrew => 1200
    case NoDocument => height
    case Measured(_, _, _, _, _) =>
      var h := MeasuredHeight(m);
      if h > 0 then (if h + 40 <= 750 then h + 40 else 750) else height
  }

  /** The heights the frame can have: the initial 800, the fallback 1200,
      or a measured height in (40, 750]. */
  predicate PossibleHeight(h: int) {
    h == 800 || h == 1200 || 40 < h <= 750
  }

  lemma NextHeightPossible(height: int, m: Measurement)
    requires PossibleHeight(height)
    ensures PossibleHeight(NextHeight(height, m))
  {
  }

  /** The view's state: the parsed data (absent until a result has been
      parsed, or after parsing threw) and the iframe height. */
  class AnalysisView {
    var parsedData: Option<map<string, Entry>>
    var iframeHeight: int

    ghost predicate Valid()
      reads this
    {
      PossibleHeight(iframeHeight)
    }

    constructor ()
      ensures parsedData == None && iframeHeight == 800
      ensures Valid()
    {
      parsedData := None;
      iframeHeight := 800;
    }

    /** The parsing effect for a new result. An empty result is not parsed;
        otherwise the parser yields a document, or `None` when it threw. */
    method OnResult(result: string, parsed: Option<Document>)
      modifies this
      ensures result == "" ==> parsedData == old(parsedData)
      ensures result != "" && parsed.None? ==> parsedData == None
      ensures result != "" && parsed.Some? ==> parsedData == Some(ParseSpec(parsed.value))
      ensures iframeHeight == old(iframeHeight)
    {
      if result == "" {
        return;
      }
      match parsed
      case None =>
        parsedData := None;
      case Some(doc) =>
        var data := Parse(doc);
        parsedData := Some(data);
    }

    /** One run of `handleLoad`, with the measurement it takes. */
    method HandleLoad(m: Measurement)
      requires Valid()
      modifies this
      ensures iframeHeight == NextHeight(old(iframeHeight), m)
      ensures parsedData == old(parsedData)
      ensures Valid()
    {
      match m {
        case AccessThrew =>
          iframeHeight := 1200;
        case NoDocument =>
        case Measured(_, _, _, _, _) =>
          var height := MeasuredHeight(m);
          if height > 0 {
            iframeHeight := if height + 40 <= 750 then height + 40 else 750;
          }
      }
      NextHeightPossible(old(iframeHeight), m);
    }
  }
}
