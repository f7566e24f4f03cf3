/**
 * The knowledge-base resolver: a spreadsheet of incident-type -> CWE rows becomes a
 * table from incident type to classification, with forgiving header matching,
 * list-valued cells, and a guaranteed "Unknown Incident" entry.
 *
 * A spreadsheet is modelled as pandas hands it over: sheets with a list of column
 * headers and rows mapping a header to the stringified cell, where an empty cell
 * reads "nan".
 */
module KbLoader {
  import opened Prelude

  const UnknownIncident := "Unknown Incident"

  /** One classification record of the table (the dict stored per incident type). */
  datatype Classification = Classification(
    cwe: string,
    title: string,
    description: string,
    exampleCves: seq<string>,
    keywords: seq<string>,
    source: Option<string>)

  type Mapping = map<string, Classification>

  // ===========================================================================
  // _normalize_col
  // ===========================================================================

  predicate IsNormChar(c: char) { IsLowerAscii(c) || IsDigit(c) }

  /** re.sub("[^a-z0-9]+", "", s): keep only lower-case ASCII letters and digits. */
  function KeepNormChars(s: string): (r: string)
    ensures |r| <= |s|
    ensures forall i :: 0 <= i < |r| ==> IsNormChar(r[i])
  {
    if s == [] then [] else (if IsNormChar(s[0]) then [s[0]] else []) + KeepNormChars(s[1..])
  }

  /**
   * Header normalisation, one character at a time: lower-case it and keep it only if
   * it is in [a-z0-9]. NormalizeIsStripLowerFilter shows this is the source's
   * strip, then lower, then re.sub.
   */
  function Normalize(s: string): (r: string)
    ensures |r| <= |s|
    ensures forall i :: 0 <= i < |r| ==> IsNormChar(r[i])
  {
    if s == [] then []
    else (if IsNormChar(LowerChar(s[0])) then [LowerChar(s[0])] else []) + Normalize(s[1..])
  }

  lemma {:induction false} NormalizeAppend(a: string, b: string)
    ensures Normalize(a + b) == Normalize(a) + Normalize(b)
  {
    if a == [] {
      assert a + b == b;
    } else {
      assert (a + b)[1..] == a[1..] + b;
      NormalizeAppend(a[1..], b);
    }
  }

  lemma {:induction false} NormalizeStripLeft(s: string)
    ensures Normalize(StripLeft(s)) == Normalize(s)
  {
    if |s| > 0 && IsSpace(s[0]) {
      NormalizeStripLeft(s[1..]);
    }
  }

  lemma {:induction false} NormalizeStripRight(s: string)
    ensures Normalize(StripRight(s)) == Normalize(s)
  {
    if |s| > 0 && IsSpace(s[|s| - 1]) {
      var n := |s| - 1;
      NormalizeStripRight(s[..n]);
      assert s == s[..n] + [s[n]];
      NormalizeAppend(s[..n], [s[n]]);
      assert Normalize([s[n]]) == [];
    }
  }

  lemma {:induction false} KeepNormCharsOfLower(s: string)
    ensures KeepNormChars(Lower(s)) == Normalize(s)
  {
    if s != [] {
      assert Lower(s)[1..] == Lower(s[1..]);
      KeepNormCharsOfLower(s[1..]);
    }
  }

  /** Normalize is `re.sub("[^a-z0-9]+", "", s.strip().lower())`. */
  lemma NormalizeIsStripLowerFilter(s: string)
    ensures Normalize(s) == KeepNormChars(Lower(Strip(s)))
  {
    KeepNormCharsOfLower(Strip(s));
    NormalizeStripLeft(s);
    NormalizeStripRight(StripLeft(s));
  }

  lemma {:induction false} NormalizeOfNorm(s: string)
    requires forall i :: 0 <= i < |s| ==> IsNormChar(s[i])
    ensures Normalize(s) == s
  {
    if s != [] {
      NormalizeOfNorm(s[1..]);
    }
  }

  /** Normalising a normalised header changes nothing. */
  lemma NormalizeIdempotent(s: string)
    ensures Normalize(Normalize(s)) == Normalize(s)
  {
    NormalizeOfNorm(Normalize(s));
  }

  // ===========================================================================
  // _first_match_col
  // ===========================================================================

  /** {_normalize_col(c): c for c in cols}: a later column with the same key wins. */
  function NormIndex(cols: seq<string>): map<string, string>
  {
    if cols == [] then map[]
    else NormIndex(cols[..|cols| - 1])[Normalize(cols[|cols| - 1]) := cols[|cols| - 1]]
  }

  /** The last position of a column whose normalised name is `key`, or -1. */
  function LastWithNorm(cols: seq<string>, key: string): (j: int)
    ensures -1 <= j < |cols|
    ensures j >= 0 ==> Normalize(cols[j]) == key
    ensures forall i :: j < i < |cols| ==> Normalize(cols[i]) != key
  {
    if cols == [] then -1
    else if Normalize(cols[|cols| - 1]) == key then |cols| - 1
    else LastWithNorm(cols[..|cols| - 1], key)
  }

  lemma {:induction false} NormIndexSpec(cols: seq<string>, key: string)
    ensures key in NormIndex(cols) <==> LastWithNorm(cols, key) >= 0
    ensures key in NormIndex(cols) ==> NormIndex(cols)[key] == cols[LastWithNorm(cols, key)]
  {
    if cols != [] {
      NormIndexSpec(cols[..|cols| - 1], key);
    }
  }

  function FirstMatchIn(index: map<string, string>, candidates: seq<string>): Option<string>
  {
    if candidates == [] then None
    else if Normalize(candidates[0]) in index then Some(index[Normalize(candidates[0])])
    else FirstMatchIn(index, candidates[1..])
  }

  /** The real column header for the first candidate spelling that any column matches. */
  function FirstMatchCol(cols: seq<string>, candidates: seq<string>): Option<string>
  {
    FirstMatchIn(NormIndex(cols), candidates)
  }

  /** No column matches candidate `cand`. */
  predicate Unmatched(cols: seq<string>, cand: string) {
    LastWithNorm(cols, Normalize(cand)) < 0
  }

  lemma {:induction false} FirstMatchColSpec(cols: seq<string>, candidates: seq<string>)
    ensures FirstMatchCol(cols, candidates).None? <==>
      forall i :: 0 <= i < |candidates| ==> Unmatched(cols, candidates[i])
    ensures FirstMatchCol(cols, candidates).Some? ==>
      exists i :: 0 <= i < |candidates| && !Unmatched(cols, candidates[i])
        && (forall k :: 0 <= k < i ==> Unmatched(cols, candidates[k]))
        && FirstMatchCol(cols, candidates).value == cols[LastWithNorm(cols, Normalize(candidates[i]))]
  {
    if candidates != [] {
      NormIndexSpec(cols, Normalize(candidates[0]));
      FirstMatchColSpec(cols, candidates[1..]);
      if Unmatched(cols, candidates[0]) {
        var r := FirstMatchCol(cols, candidates[1..]);
        assert FirstMatchCol(cols, candidates) == r;
        if r.Some? {
          var i :| 0 <= i < |candidates[1..]| && !Unmatched(cols, candidates[1..][i])
            && (forall k :: 0 <= k < i ==> Unmatched(cols, candidates[1..][k]))
            && r.value == cols[LastWithNorm(cols, Normalize(candidates[1..][i]))];
          assert !Unmatched(cols, candidates[i + 1]);
          assert forall k :: 0 <= k < i + 1 ==> Unmatched(cols, candidates[k]) by {
            forall k | 0 <= k < i + 1 ensures Unmatched(cols, candidates[k]) {
              if k > 0 { assert candidates[k] == candidates[1..][k - 1]; }
            }
          }
        } else {
          forall i | 0 <= i < |candidates| ensures Unmatched(cols, candidates[i]) {
            if i > 0 { assert candidates[i] == candidates[1..][i - 1]; }
          }
        }
      } else {
        assert !Unmatched(cols, candidates[0]);
      }
    }
  }

  // ===========================================================================
  // _guess_sheet
  // ===========================================================================

  predicate IsPreferredSheet(name: string) {
    Normalize(name) in {"cwemapping", "cwe", "vulnerabilitymapping", "kb"}
  }

  function FirstPreferred(names: seq<string>): (i: nat)
    ensures i <= |names|
    ensures i < |names| ==> IsPreferredSheet(names[i])
    ensures forall j :: 0 <= j < i ==> !IsPreferredSheet(names[j])
  {
    if names == [] then 0
    else if IsPreferredSheet(names[0]) then 0
    else 1 + FirstPreferred(names[1..])
  }

  /**
   * Index of the sheet to read: the first one with a preferred name, else the first
   * one; None when the workbook has no sheet (the source then fails on `[0]`).
   */
  function GuessSheet(names: seq<string>): (r: Option<nat>)
    ensures r.None? <==> names == []
    ensures r.Some? ==> r.value < |names|
    ensures r.Some? && IsPreferredSheet(names[r.value]) ==>
      forall j :: 0 <= j < r.value ==> !IsPreferredSheet(names[j])
    ensures r.Some? && !IsPreferredSheet(names[r.value]) ==>
      r.value == 0 && forall j :: 0 <= j < |names| ==> !IsPreferredSheet(names[j])
  {
    var i := FirstPreferred(names);
    if i < |names| then Some(i)
    else if names == [] then None
    else Some(0)
  }

  // ===========================================================================
  // _parse_csv_like_list
  // ===========================================================================

  predicate IsDelimiter(c: char) { c == ',' || c == '\n' || c == ';' || c == '|' }

  function DelimIndex(s: string): (i: nat)
    ensures i <= |s|
    ensures i < |s| ==> IsDelimiter(s[i])
    ensures forall k :: 0 <= k < i ==> !IsDelimiter(s[k])
  {
    if s == [] || IsDelimiter(s[0]) then 0 else 1 + DelimIndex(s[1..])
  }

  /**
   * Split at every delimiter character. The source splits at runs of delimiters;
   * the two differ only by empty pieces, which StripAll drops.
   */
  function SplitOnDelimiters(s: string): (parts: seq<string>)
    ensures |parts| > 0
    ensures forall k, j :: 0 <= k < |parts| && 0 <= j < |parts[k]| ==> !IsDelimiter(parts[k][j])
    decreases |s|
  {
    var i := DelimIndex(s);
    if i == |s| then [s] else [s[..i]] + SplitOnDelimiters(s[i + 1..])
  }

  /** A list element as the parser yields it: non-empty, stripped, delimiter-free. */
  predicate IsCleanItem(x: string) {
    x != [] && Strip(x) == x && forall j :: 0 <= j < |x| ==> !IsDelimiter(x[j])
  }

  /** [p.strip() for p in parts if p.strip()] */
  function StripAll(parts: seq<string>): (r: seq<string>)
    requires forall k, j :: 0 <= k < |parts| && 0 <= j < |parts[k]| ==> !IsDelimiter(parts[k][j])
    ensures |r| <= |parts|
    ensures forall k :: 0 <= k < |r| ==> IsCleanItem(r[k])
  {
    if parts == [] then []
    else
      var p := Strip(parts[0]);
      StripSpec(parts[0]);
      StripChars(parts[0]);
      StripOfStripped(p);
      assert forall j :: 0 <= j < |p| ==> !IsDelimiter(p[j]) by {
        forall j | 0 <= j < |p| ensures !IsDelimiter(p[j]) {
          assert p[j] in parts[0];
        }
      }
      (if p != [] then [p] else []) + StripAll(parts[1..])
  }

  /** _parse_csv_like_list: None or a blank cell gives []; otherwise the clean pieces in order. */
  function ParseList(val: Option<string>): (r: seq<string>)
    ensures val.None? ==> r == []
    ensures val.Some? && Strip(val.value) == [] ==> r == []
    ensures forall k :: 0 <= k < |r| ==> IsCleanItem(r[k])
  {
    if val.None? then []
    else
      var s := Strip(val.value);
      if s == [] then [] else StripAll(SplitOnDelimiters(s))
  }

  /** A list written as "a; b; c". */
  function Join(xs: seq<string>): string
  {
    if xs == [] then "" else if |xs| == 1 then xs[0] else xs[0] + "; " + Join(xs[1..])
  }

  lemma {:induction false} JoinEnds(xs: seq<string>)
    requires |xs| > 0 && forall k :: 0 <= k < |xs| ==> xs[k] != []
    ensures |Join(xs)| > 0
    ensures Join(xs)[0] == xs[0][0]
    ensures Join(xs)[|Join(xs)| - 1] == xs[|xs| - 1][|xs[|xs| - 1]| - 1]
  {
    if |xs| > 1 {
      JoinEnds(xs[1..]);
    }
  }

  lemma {:induction false} StripLeftPadded(pad: string, x: string)
    requires forall j :: 0 <= j < |pad| ==> IsSpace(pad[j])
    requires |x| > 0 ==> !IsSpace(x[0])
    ensures StripLeft(pad + x) == x
  {
    if pad == [] {
      assert pad + x == x;
    } else {
      assert (pad + x)[1..] == pad[1..] + x;
      StripLeftPadded(pad[1..], x);
    }
  }

  lemma StripPadded(pad: string, x: string)
    requires forall j :: 0 <= j < |pad| ==> IsSpace(pad[j])
    requires Strip(x) == x
    ensures Strip(pad + x) == x
  {
    StripSpec(x);
    StripLeftPadded(pad, x);
    assert StripLeft(x) == x;
  }

  lemma {:induction false} DelimIndexAt(s: string, i: nat)
    requires i < |s| && IsDelimiter(s[i])
    requires forall j :: 0 <= j < i ==> !IsDelimiter(s[j])
    ensures DelimIndex(s) == i
  {
    if i > 0 {
      DelimIndexAt(s[1..], i - 1);
    }
  }

  /** A delimiter-free piece followed by ';' is split off as the first part. */
  lemma SplitAfterItem(head: string, rest: string)
    requires forall j :: 0 <= j < |head| ==> !IsDelimiter(head[j])
    ensures SplitOnDelimiters(head + ";" + rest) == [head] + SplitOnDelimiters(rest)
  {
    var s := head + ";" + rest;
    assert forall j :: 0 <= j < |head| ==> s[j] == head[j];
    assert s[|head|] == ';';
    DelimIndexAt(s, |head|);
    assert s[..|head|] == head && s[|head| + 1..] == rest;
  }

  /** A first part that strips to a non-empty item contributes exactly that item. */
  lemma StripAllCons(p: string, parts: seq<string>)
    requires forall j :: 0 <= j < |p| ==> !IsDelimiter(p[j])
    requires forall k, j :: 0 <= k < |parts| && 0 <= j < |parts[k]| ==> !IsDelimiter(parts[k][j])
    requires Strip(p) != []
    ensures StripAll([p] + parts) == [Strip(p)] + StripAll(parts)
  {
    assert ([p] + parts)[0] == p;
    assert ([p] + parts)[1..] == parts;
  }

  lemma SplitJoinSingle(pad: string, x: string)
    requires forall j :: 0 <= j < |pad| ==> pad[j] == ' '
    requires IsCleanItem(x)
    ensures StripAll(SplitOnDelimiters(pad + x)) == [x]
  {
    var s := pad + x;
    assert forall j :: 0 <= j < |s| ==> !IsDelimiter(s[j]);
    assert DelimIndex(s) == |s|;
    StripPadded(pad, x);
  }

  lemma {:induction false} SplitJoin(pad: string, xs: seq<string>)
    requires |pad| <= 1 && forall j :: 0 <= j < |pad| ==> pad[j] == ' '
    requires |xs| > 0 && forall k :: 0 <= k < |xs| ==> IsCleanItem(xs[k])
    ensures StripAll(SplitOnDelimiters(pad + Join(xs))) == xs
    decreases |xs|
  {
    if |xs| == 1 {
      SplitJoinSingle(pad, xs[0]);
    } else {
      var rest := " " + Join(xs[1..]);
      var head := pad + xs[0];
      assert pad + Join(xs) == head + ";" + rest;
      assert forall j :: 0 <= j < |head| ==> !IsDelimiter(head[j]);
      SplitAfterItem(head, rest);
      StripPadded(pad, xs[0]);
      SplitJoin(" ", xs[1..]);
      StripAllCons(head, SplitOnDelimiters(rest));
      assert xs == [xs[0]] + xs[1..];
    }
  }

  /** A non-empty list of clean items, written out, has no surrounding white space. */
  lemma JoinIsStripped(xs: seq<string>)
    requires |xs| > 0 && forall k :: 0 <= k < |xs| ==> IsCleanItem(xs[k])
    ensures Strip(Join(xs)) == Join(xs)
  {
    JoinEnds(xs);
    var s := Join(xs);
    StripSpec(xs[0]);
    StripSpec(xs[|xs| - 1]);
    StripOfStripped(s);
  }

  /** Writing clean items as "a; b; c" and parsing the cell gives the items back. */
  lemma ParseListJoin(xs: seq<string>)
    requires forall k :: 0 <= k < |xs| ==> IsCleanItem(xs[k])
    ensures ParseList(Some(Join(xs))) == xs
  {
    if xs != [] {
      JoinIsStripped(xs);
      SplitJoin("", xs);
      assert "" + Join(xs) == Join(xs);
    }
  }

  // ===========================================================================
  // load_kb_from_excel: columns, rows, the mapping
  // ===========================================================================

  const IncidentAliases: seq<string> := ["Incident Type", "Incident Types", "Incident", "Signal Type", "Type"]
  const KeywordAliases: seq<string> := ["Keywords", "Keyword", "Match Keywords", "Matching Keywords"]
  const CweAliases: seq<string> := ["CWE Code", "CWE", "CWE-ID", "CWE ID"]
  const TitleAliases: seq<string> := ["CWE Title", "Title", "CWE Name", "Name"]
  const DescriptionAliases: seq<string> := ["Description", "Meaning", "CWE Meaning", "Details", "Summary"]
  const CveAliases: seq<string> := ["Example CVEs", "CVEs", "CVE Examples"]

  /** The header chosen for each logical field, if any. */
  datatype Columns = Columns(
    incident: Option<string>,
    keywords: Option<string>,
    cwe: Option<string>,
    title: Option<string>,
    description: Option<string>,
    cves: Option<string>)

  function DetectColumns(cols: seq<string>): Columns
  {
    Columns(
      FirstMatchCol(cols, IncidentAliases),
      FirstMatchCol(cols, KeywordAliases),
      FirstMatchCol(cols, CweAliases),
      FirstMatchCol(cols, TitleAliases),
      FirstMatchCol(cols, DescriptionAliases),
      FirstMatchCol(cols, CveAliases))
  }

  /** Python truthiness of an optional column name (`if col_title:`). */
  predicate Present(col: Option<string>) { col.Some? && col.value != [] }

  type Row = map<string, string>

  /** row.get(col, "") */
  function CellText(row: Row, col: string): string {
    if col in row then row[col] else ""
  }

  /** row.get(col) */
  function CellValue(row: Row, col: string): Option<string> {
    if col in row then Some(row[col]) else None
  }

  /** A CWE cell the loader skips: blank, or pandas' rendering of an empty cell. */
  predicate IsBlankCode(code: string) {
    code == [] || Lower(code) == "nan"
  }

  /** The stripped CWE cell of a row. */
  function CodeOf(cols: Columns, row: Row): string
    requires Present(cols.cwe)
  {
    Strip(CellText(row, cols.cwe.value))
  }

  /** The incident labels of a row; "Unknown Incident" when the cell lists none. */
  function IncidentsOf(cols: Columns, row: Row): (incidents: seq<string>)
    ensures |incidents| > 0
    ensures incidents == [UnknownIncident] || forall k :: 0 <= k < |incidents| ==> IsCleanItem(incidents[k])
    ensures !Present(cols.incident) ==> incidents == [UnknownIncident]
    ensures Present(cols.incident) && ParseList(CellValue(row, cols.incident.value)) != [] ==>
      incidents == ParseList(CellValue(row, cols.incident.value))
    ensures Present(cols.incident) && ParseList(CellValue(row, cols.incident.value)) == [] ==>
      incidents == [UnknownIncident]
  {
    var labels := if Present(cols.incident) then ParseList(CellValue(row, cols.incident.value)) else [];
    if labels == [] then [UnknownIncident] else labels
  }

  function OrNA(s: string): string { if s == [] then "N/A" else s }

  /** The classification a row with CWE code `code` contributes. */
  function EntryOf(cols: Columns, row: Row, code: string, source: string): Classification
  {
    var title := if Present(cols.title) then Strip(CellText(row, cols.title.value)) else "";
    var desc := if Present(cols.description) then Strip(CellText(row, cols.description.value)) else "";
    var cves := if Present(cols.cves) then ParseList(CellValue(row, cols.cves.value)) else [];
    var keywords := if Present(cols.keywords) then ParseList(CellValue(row, cols.keywords.value)) else [];
    Classification(code, OrNA(title), OrNA(desc), cves, keywords, Some(source))
  }

  /** What one accepted row contributes: its incident labels and its classification. */
  datatype RowRecord = RowRecord(incidents: seq<string>, entry: Classification)

  /** The body of the row loop up to the inner `for inc in incidents`; None for a skipped row. */
  function ReadRow(cols: Columns, row: Row, source: string): (r: Option<RowRecord>)
    requires Present(cols.cwe)
  {
    var code := CodeOf(cols, row);
    if IsBlankCode(code) then None
    else Some(RowRecord(IncidentsOf(cols, row), EntryOf(cols, row, code, source)))
  }

  /** inc_key: the stripped label, or "Unknown Incident" for an empty one. */
  function IncidentKey(inc: string): string {
    if inc == [] then UnknownIncident
    else if Strip(inc) == [] then UnknownIncident
    else Strip(inc)
  }

  function RowKeys(incidents: seq<string>): (keys: seq<string>)
    ensures |keys| == |incidents|
  {
    if incidents == [] then [] else RowKeys(incidents[..|incidents| - 1]) + [IncidentKey(incidents[|incidents| - 1])]
  }

  lemma {:induction false} RowKeysAt(incidents: seq<string>, i: nat)
    requires i < |incidents|
    ensures RowKeys(incidents)[i] == IncidentKey(incidents[i])
  {
    var n := |incidents| - 1;
    if i < n {
      RowKeysAt(incidents[..n], i);
    }
  }

  /** The inner loop: every label of the row is (re)bound to the row's classification. */
  function AddLabels(m: Mapping, incidents: seq<string>, e: Classification): Mapping
  {
    if incidents == [] then m
    else AddLabels(m, incidents[..|incidents| - 1], e)[IncidentKey(incidents[|incidents| - 1]) := e]
  }

  lemma {:induction false} AddLabelsSpec(m: Mapping, incidents: seq<string>, e: Classification, key: string)
    ensures key in AddLabels(m, incidents, e) <==> key in m || key in RowKeys(incidents)
    ensures key in RowKeys(incidents) ==> AddLabels(m, incidents, e)[key] == e
    ensures key !in RowKeys(incidents) && key in m ==> AddLabels(m, incidents, e)[key] == m[key]
  {
    if incidents != [] {
      var n := |incidents| - 1;
      AddLabelsSpec(m, incidents[..n], e, key);
      assert RowKeys(incidents) == RowKeys(incidents[..n]) + [IncidentKey(incidents[n])];
    }
  }

  /** The row records of a whole sheet, in row order (None for skipped rows). */
  function ReadRows(cols: Columns, rows: seq<Row>, source: string): (recs: seq<Option<RowRecord>>)
    requires Present(cols.cwe)
    ensures |recs| == |rows|
  {
    if rows == [] then []
    else ReadRows(cols, rows[..|rows| - 1], source) + [ReadRow(cols, rows[|rows| - 1], source)]
  }

  lemma {:induction false} ReadRowsAt(cols: Columns, rows: seq<Row>, source: string, i: nat)
    requires Present(cols.cwe) && i < |rows|
    ensures ReadRows(cols, rows, source)[i] == ReadRow(cols, rows[i], source)
  {
    var n := |rows| - 1;
    var init := rows[..n];
    assert ReadRows(cols, rows, source) == ReadRows(cols, init, source) + [ReadRow(cols, rows[n], source)];
    if i < n {
      ReadRowsAt(cols, init, source, i);
      assert init[i] == rows[i];
    }
  }

  /** The table the row loop builds from a sequence of row records. */
  function Accumulate(recs: seq<Option<RowRecord>>): Mapping
  {
    if recs == [] then map[]
    else
      var m := Accumulate(recs[..|recs| - 1]);
      match recs[|recs| - 1]
      case None => m
      case Some(rec) => AddLabels(m, rec.incidents, rec.entry)
  }

  /** The table the row loop has built after `rows`, before the fallback entry. */
  function MappingOf(cols: Columns, rows: seq<Row>, source: string): Mapping
    requires Present(cols.cwe)
  {
    Accumulate(ReadRows(cols, rows, source))
  }

  function FallbackEntry(source: string): Classification {
    Classification("CWE-1059", "Insufficient Technical Impact Assessment",
      "Unable to classify incident type with available evidence.", [], [], Some(source))
  }

  /** Insert the fallback entry unless a row already defined "Unknown Incident". */
  function WithFallback(m: Mapping, source: string): (r: Mapping)
    ensures UnknownIncident in r
    ensures forall k :: k in m ==> k in r && r[k] == m[k]
    ensures forall k :: k in r && k != UnknownIncident ==> k in m
  {
    if UnknownIncident in m then m else m[UnknownIncident := FallbackEntry(source)]
  }

  /** Does record `rec` carry key `key`? */
  predicate HasKey(rec: Option<RowRecord>, key: string) {
    rec.Some? && key in RowKeys(rec.value.incidents)
  }

  /** The last accepted record carrying `key`, or -1. */
  function LastRecordFor(recs: seq<Option<RowRecord>>, key: string): (j: int)
    ensures -1 <= j < |recs|
    ensures j >= 0 ==> HasKey(recs[j], key)
    ensures forall i :: j < i < |recs| ==> !HasKey(recs[i], key)
  {
    if recs == [] then -1
    else if HasKey(recs[|recs| - 1], key) then |recs| - 1
    else LastRecordFor(recs[..|recs| - 1], key)
  }

  /**
   * The table holds exactly the keys some accepted row carries, and each maps to the
   * classification of the LAST accepted row carrying it (later rows overwrite).
   */
  lemma {:induction false} AccumulateSpec(recs: seq<Option<RowRecord>>, key: string)
    ensures key in Accumulate(recs) <==> LastRecordFor(recs, key) >= 0
    ensures key in Accumulate(recs) ==> Accumulate(recs)[key] == recs[LastRecordFor(recs, key)].value.entry
  {
    if recs != [] {
      var n := |recs| - 1;
      AccumulateSpec(recs[..n], key);
      var m := Accumulate(recs[..n]);
      if recs[n].Some? {
        AddLabelsSpec(m, recs[n].value.incidents, recs[n].value.entry, key);
      }
      if !HasKey(recs[n], key) {
        var j := LastRecordFor(recs[..n], key);
        assert LastRecordFor(recs, key) == j;
        if j >= 0 { assert recs[..n][j] == recs[j]; }
      }
    }
  }

  /** The last row of the sheet that is accepted and lists `key`, or -1. */
  function LastRowFor(cols: Columns, rows: seq<Row>, source: string, key: string): int
    requires Present(cols.cwe)
  {
    LastRecordFor(ReadRows(cols, rows, source), key)
  }

  /**
   * Row-level reading of AccumulateSpec: `key` is in the table iff some accepted row
   * lists it, and it then carries the classification of the last such row.
   */
  lemma MappingOfSpec(cols: Columns, rows: seq<Row>, source: string, key: string)
    requires Present(cols.cwe)
    ensures var j := LastRowFor(cols, rows, source, key);
      && -1 <= j < |rows|
      && (key in MappingOf(cols, rows, source) <==> j >= 0)
      && (j >= 0 ==>
            && ReadRow(cols, rows[j], source).Some?
            && key in RowKeys(ReadRow(cols, rows[j], source).value.incidents)
            && MappingOf(cols, rows, source)[key] == ReadRow(cols, rows[j], source).value.entry)
      && (forall i :: j < i < |rows| ==> !HasKey(ReadRow(cols, rows[i], source), key))
  {
    var recs := ReadRows(cols, rows, source);
    AccumulateSpec(recs, key);
    var j := LastRowFor(cols, rows, source, key);
    if j >= 0 {
      ReadRowsAt(cols, rows, source, j);
    }
    forall i | j < i < |rows| ensures !HasKey(ReadRow(cols, rows[i], source), key) {
      ReadRowsAt(cols, rows, source, i);
    }
  }

  lemma AcceptedEntryWellFormed(cols: Columns, row: Row, source: string)
    requires Present(cols.cwe) && ReadRow(cols, row, source).Some?
    ensures var e := ReadRow(cols, row, source).value.entry;
      !IsBlankCode(e.cwe) && e.title != [] && e.description != []
    ensures var e := ReadRow(cols, row, source).value.entry;
      && e.cwe == CodeOf(cols, row)
      && e.title == (if Present(cols.title) then OrNA(Strip(CellText(row, cols.title.value))) else "N/A")
      && e.description ==
           (if Present(cols.description) then OrNA(Strip(CellText(row, cols.description.value))) else "N/A")
  {
  }

  lemma EntrySource(cols: Columns, row: Row, source: string)
    requires Present(cols.cwe) && ReadRow(cols, row, source).Some?
    ensures ReadRow(cols, row, source).value.entry.source == Some(source)
  {
  }

  /** Every classification in a loaded table has a real CWE code, a title and a description. */
  lemma LoadedEntriesWellFormed(cols: Columns, rows: seq<Row>, source: string, key: string)
    requires Present(cols.cwe)
    requires key in WithFallback(MappingOf(cols, rows, source), source)
    ensures var e := WithFallback(MappingOf(cols, rows, source), source)[key];
      !IsBlankCode(e.cwe) && e.title != [] && e.description != []
  {
    var m := MappingOf(cols, rows, source);
    if key in m {
      MappingOfSpec(cols, rows, source, key);
      AcceptedEntryWellFormed(cols, rows[LastRowFor(cols, rows, source, key)], source);
    } else {
      assert |Lower("CWE-1059")| == 8;
    }
  }

  /** Fan-out: all labels of the last row share that row's classification. */
  lemma LastRowFansOut(cols: Columns, rows: seq<Row>, source: string, key: string)
    requires Present(cols.cwe) && |rows| > 0
    requires HasKey(ReadRow(cols, rows[|rows| - 1], source), key)
    ensures key in MappingOf(cols, rows, source)
    ensures MappingOf(cols, rows, source)[key] == ReadRow(cols, rows[|rows| - 1], source).value.entry
  {
    MappingOfSpec(cols, rows, source, key);
  }

  // ----- dropna(how="all") -----

  /** A row every cell of which pandas rendered from NaN. */
  predicate IsEmptyRow(row: Row) {
    forall c :: c in row ==> row[c] == "nan"
  }

  function DropEmptyRows(rows: seq<Row>): (r: seq<Row>)
    ensures |r| <= |rows|
  {
    if rows == [] then []
    else DropEmptyRows(rows[..|rows| - 1]) + (if IsEmptyRow(rows[|rows| - 1]) then [] else [rows[|rows| - 1]])
  }

  lemma EmptyRowSkipped(cols: Columns, row: Row, source: string)
    requires Present(cols.cwe) && IsEmptyRow(row)
    ensures ReadRow(cols, row, source).None?
  {
    var code := CodeOf(cols, row);
    if cols.cwe.value in row {
      assert row[cols.cwe.value] == "nan";
      StripOfStripped("nan");
      assert Lower("nan") == "nan";
    }
  }

  /** Dropping all-empty rows cannot change the table: the row loop skips them anyway. */
  lemma {:induction false} DropEmptyRowsIrrelevant(cols: Columns, rows: seq<Row>, source: string)
    requires Present(cols.cwe)
    ensures MappingOf(cols, DropEmptyRows(rows), source) == MappingOf(cols, rows, source)
  {
    if rows != [] {
      var n := |rows| - 1;
      DropEmptyRowsIrrelevant(cols, rows[..n], source);
      var d := DropEmptyRows(rows[..n]);
      if IsEmptyRow(rows[n]) {
        EmptyRowSkipped(cols, rows[n], source);
        assert DropEmptyRows(rows) == d;
      } else {
        var d' := d + [rows[n]];
        assert DropEmptyRows(rows) == d';
        assert d'[..|d|] == d;
        assert ReadRows(cols, d', source) == ReadRows(cols, d, source) + [ReadRow(cols, rows[n], source)];
      }
    }
  }

  /** The inner loop of load_kb_from_excel: bind every label of one row. */
  method AddRowLabels(m: Mapping, incidents: seq<string>, e: Classification) returns (mapping: Mapping)
    ensures mapping == AddLabels(m, incidents, e)
  {
    mapping := m;
    var j := 0;
    while j < |incidents|
      invariant 0 <= j <= |incidents|
      invariant mapping == AddLabels(m, incidents[..j], e)
    {
      assert incidents[..j + 1][..j] == incidents[..j];
      mapping := mapping[IncidentKey(incidents[j]) := e];
      j := j + 1;
    }
    assert incidents[..j] == incidents;
  }

  lemma MappingOfStep(cols: Columns, rows: seq<Row>, source: string, i: nat)
    requires Present(cols.cwe) && i < |rows|
    ensures MappingOf(cols, rows[..i + 1], source) ==
      var m := MappingOf(cols, rows[..i], source);
      var rec := ReadRow(cols, rows[i], source);
      if rec.Some? then AddLabels(m, rec.value.incidents, rec.value.entry) else m
  {
    assert rows[..i + 1][..i] == rows[..i];
  }

  /** The row loop of load_kb_from_excel, then the fallback insertion. */
  method BuildMapping(cols: Columns, rows: seq<Row>, source: string) returns (mapping: Mapping)
    requires Present(cols.cwe)
    ensures mapping == WithFallback(MappingOf(cols, rows, source), source)
  {
    mapping := map[];
    var i := 0;
    while i < |rows|
      invariant 0 <= i <= |rows|
      invariant mapping == MappingOf(cols, rows[..i], source)
    {
      MappingOfStep(cols, rows, source, i);
      var rec := ReadRow(cols, rows[i], source);
      if rec.Some? {
        mapping := AddRowLabels(mapping, rec.value.incidents, rec.value.entry);
      }
      i := i + 1;
    }
    assert rows[..i] == rows;
    if UnknownIncident !in mapping {
      mapping := mapping[UnknownIncident := FallbackEntry(source)];
    }
  }

  // ===========================================================================
  // load_kb_from_excel and load_kb
  // ===========================================================================

  datatype Sheet = Sheet(name: string, columns: seq<string>, rows: seq<Row>)

  /** The cached or downloaded file: a workbook pandas can open, or one it cannot. */
  datatype ExcelFile = Readable(sheets: seq<Sheet>) | Corrupt(reason: string)

  datatype LoadError =
    | CacheDirFailed(message: string)
    | DownloadFailed(message: string)
    | Unreadable(message: string)
    | NoSheets
    | NoCweColumn(sheet: string, columns: seq<string>)

  datatype ExcelLoad = Loaded(mapping: Mapping) | LoadFailed(error: LoadError)

  function SheetNames(sheets: seq<Sheet>): (names: seq<string>)
    ensures |names| == |sheets|
    ensures forall i :: 0 <= i < |sheets| ==> names[i] == sheets[i].name
  {
    if sheets == [] then [] else [sheets[0].name] + SheetNames(sheets[1..])
  }

  /** The sheet the loader reads, if the workbook has one. */
  function ChosenSheet(sheets: seq<Sheet>): (r: Option<Sheet>)
    ensures r.None? <==> sheets == []
    ensures r.Some? ==> r.value in sheets
  {
    match GuessSheet(SheetNames(sheets))
    case None => None
    case Some(i) => Some(sheets[i])
  }

  /** The `source` recorded in every entry read from `sheet` of the file `fileName`. */
  function SourceOf(fileName: string, sheet: Sheet): string {
    fileName + "::" + sheet.name
  }

  /**
   * What load_kb_from_excel makes of the chosen sheet: without a CWE column it gives
   * up naming the sheet; otherwise the rows are read in order and the fallback added.
   */
  function SheetLoad(sheet: Sheet, fileName: string): (r: ExcelLoad)
    ensures r.LoadFailed? <==> !Present(DetectColumns(sheet.columns).cwe)
    ensures r.LoadFailed? ==> r.error == NoCweColumn(sheet.name, sheet.columns)
    ensures r.Loaded? ==> UnknownIncident in r.mapping
    ensures r.Loaded? ==>
      && Present(DetectColumns(sheet.columns).cwe)
      && r.mapping == WithFallback(MappingOf(DetectColumns(sheet.columns), sheet.rows, SourceOf(fileName, sheet)),
                                   SourceOf(fileName, sheet))
  {
    var cols := DetectColumns(sheet.columns);
    if !Present(cols.cwe) then LoadFailed(NoCweColumn(sheet.name, sheet.columns))
    else
      var source := SourceOf(fileName, sheet);
      Loaded(WithFallback(MappingOf(cols, sheet.rows, source), source))
  }

  /**
   * What load_kb_from_excel makes of a file: the table of the chosen sheet, or the
   * reason it gives up. `fileName` is the base name recorded as every entry's source.
   */
  function ExcelLoadOf(file: ExcelFile, fileName: string): (r: ExcelLoad)
    ensures file.Corrupt? ==> r == LoadFailed(Unreadable(file.reason))
    ensures file.Readable? && file.sheets == [] ==> r == LoadFailed(NoSheets)
    ensures file.Readable? && file.sheets != [] ==> r == SheetLoad(ChosenSheet(file.sheets).value, fileName)
    ensures r.LoadFailed? && file.Readable? && file.sheets != [] ==>
      r.error.NoCweColumn? && r.error.sheet == ChosenSheet(file.sheets).value.name
      && !Present(DetectColumns(ChosenSheet(file.sheets).value.columns).cwe)
    ensures file.Readable? && file.sheets != [] && !Present(DetectColumns(ChosenSheet(file.sheets).value.columns).cwe) ==>
      r.LoadFailed? && r.error.NoCweColumn?
    ensures r.Loaded? ==> UnknownIncident in r.mapping
  {
    if file.Corrupt? then LoadFailed(Unreadable(file.reason))
    else if file.sheets == [] then LoadFailed(NoSheets)
    else SheetLoad(ChosenSheet(file.sheets).value, fileName)
  }

  /** load_kb_from_excel: drop the all-empty rows, detect the columns, run the row loop. */
  method LoadKbFromExcel(file: ExcelFile, fileName: string) returns (r: ExcelLoad)
    ensures r == ExcelLoadOf(file, fileName)
  {
    if file.Corrupt? {
      return LoadFailed(Unreadable(file.reason));
    }
    var chosen := ChosenSheet(file.sheets);
    if chosen.None? {
      return LoadFailed(NoSheets);
    }
    var sheet := chosen.value;
    var rows := DropEmptyRows(sheet.rows);
    var cols := DetectColumns(sheet.columns);
    if !Present(cols.cwe) {
      return LoadFailed(NoCweColumn(sheet.name, sheet.columns));
    }
    var source := SourceOf(fileName, sheet);
    DropEmptyRowsIrrelevant(cols, sheet.rows, source);
    var mapping := BuildMapping(cols, rows, source);
    return Loaded(mapping);
  }

  datatype KbResult = KbResult(ok: bool, mapping: Mapping, error: Option<LoadError>, source: Option<string>)

  /** What fetching the KB URL produced. */
  datatype Fetch = Fetched(file: ExcelFile) | FetchFailed(error: string)

  /**
   * load_kb: create the cache directory, download when asked to refresh or when nothing
   * is cached, then parse the local file. `cacheDirError` is what os.makedirs raised, if
   * anything; `cached` is the file already at `localPath`, if any; `fileName` is
   * os.path.basename(localPath), the last component of the path, so it ends `localPath`.
   * `downloaded` tells whether the URL was fetched.
   */
  method LoadKb(cacheDirError: Option<string>, refresh: bool, cached: Option<ExcelFile>, fetch: Fetch,
                localPath: string, fileName: string)
    returns (res: KbResult, downloaded: bool)
    requires |fileName| <= |localPath| && localPath[|localPath| - |fileName|..] == fileName
    ensures downloaded <==> cacheDirError.None? && (refresh || cached.None?)
    ensures res.ok ==> res.error.None? && res.source == Some(localPath) && UnknownIncident in res.mapping
    ensures !res.ok ==> res.mapping == map[] && res.source.None? && res.error.Some?
    ensures cacheDirError.Some? ==> !res.ok && res.error == Some(CacheDirFailed(cacheDirError.value))
    ensures downloaded && fetch.FetchFailed? ==> !res.ok && res.error == Some(DownloadFailed(fetch.error))
    ensures cacheDirError.None? && !(downloaded && fetch.FetchFailed?) ==>
      var loaded := ExcelLoadOf(if downloaded then fetch.file else cached.value, fileName);
      && (res.ok <==> loaded.Loaded?)
      && (res.ok ==> res.mapping == loaded.mapping)
      && (!res.ok ==> res.error == Some(loaded.error))
  {
    if cacheDirError.Some? {
      return KbResult(false, map[], Some(CacheDirFailed(cacheDirError.value)), None), false;
    }
    var file: ExcelFile;
    downloaded := refresh || cached.None?;
    if downloaded {
      if fetch.FetchFailed? {
        return KbResult(false, map[], Some(DownloadFailed(fetch.error)), None), downloaded;
      }
      file := fetch.file;
    } else {
      file := cached.value;
    }
    var loaded := LoadKbFromExcel(file, fileName);
    if loaded.LoadFailed? {
      return KbResult(false, map[], Some(loaded.error), None), downloaded;
    }
    res := KbResult(true, loaded.mapping, None, Some(localPath));
  }

  // ===========================================================================
  // lookup_vuln
  // ===========================================================================

  function KbUnavailable(): Classification {
    Classification("CWE-1059", "KB Unavailable / Lookup Failed",
      "Unable to map incident to CWE (KB missing fallback).", [], [], None)
  }

  /** Exact key, else the table's "Unknown Incident" entry, else the unavailability record. */
  function LookupVuln(incidentType: string, mapping: Mapping): (r: Classification)
    ensures incidentType in mapping ==> r == mapping[incidentType]
    ensures incidentType !in mapping && UnknownIncident in mapping ==> r == mapping[UnknownIncident]
    ensures r == KbUnavailable() || r in mapping.Values
    ensures UnknownIncident in mapping ==> r in mapping.Values
  {
    if incidentType in mapping then mapping[incidentType]
    else if UnknownIncident in mapping then mapping[UnknownIncident]
    else KbUnavailable()
  }

  /**
   * Against a loaded table a lookup is answered by the last row naming the incident
   * type, or by the table's "Unknown Incident" entry; the unavailability record
   * (whose source is None) is never returned.
   */
  lemma LookupInLoadedTable(cols: Columns, rows: seq<Row>, source: string, incidentType: string)
    requires Present(cols.cwe)
    ensures var table := WithFallback(MappingOf(cols, rows, source), source);
      var j := LastRowFor(cols, rows, source, incidentType);
      && (j >= 0 ==>
            && ReadRow(cols, rows[j], source).Some?
            && LookupVuln(incidentType, table) == ReadRow(cols, rows[j], source).value.entry)
      && (j < 0 ==> LookupVuln(incidentType, table) == table[UnknownIncident])
      && LookupVuln(incidentType, table).source == Some(source)
  {
    MappingOfSpec(cols, rows, source, incidentType);
    MappingOfSpec(cols, rows, source, UnknownIncident);
    var u := LastRowFor(cols, rows, source, UnknownIncident);
    if u >= 0 {
      EntrySource(cols, rows[u], source);
    }
    var j := LastRowFor(cols, rows, source, incidentType);
    if j >= 0 {
      EntrySource(cols, rows[j], source);
    }
  }

  /**
   * The worked example: one row whose incident cell lists several clean labels
   * ("A; B") and whose CWE cell holds a code; every label resolves to that code.
   */
  lemma FanOutExample(cols: Columns, row: Row, labels: seq<string>, code: string, source: string, wanted: string)
    requires Present(cols.cwe) && Present(cols.incident)
    requires forall k :: 0 <= k < |labels| ==> IsCleanItem(labels[k])
    requires wanted in labels
    requires cols.incident.value in row && row[cols.incident.value] == Join(labels)
    requires cols.cwe.value in row && row[cols.cwe.value] == code
    requires code != [] && Strip(code) == code && Lower(code) != "nan"
    ensures LookupVuln(wanted, WithFallback(MappingOf(cols, [row], source), source)).cwe == code
  {
    ParseListJoin(labels);
    assert IncidentsOf(cols, row) == labels;
    var rec := ReadRow(cols, row, source);
    assert rec.Some? && rec.value.incidents == labels;
    var k :| 0 <= k < |labels| && labels[k] == wanted;
    assert IsCleanItem(labels[k]);
    RowKeysAt(labels, k);
    LastRowFansOut(cols, [row], source, wanted);
  }

  /**
   * pandas renders an empty incident-type cell as "nan", which is not blank to the
   * list parser: such a row is filed under the key "nan", not "Unknown Incident".
   */
  lemma EmptyIncidentCellFiledUnderNan(cols: Columns, row: Row)
    requires Present(cols.incident)
    requires cols.incident.value in row && row[cols.incident.value] == "nan"
    ensures RowKeys(IncidentsOf(cols, row)) == ["nan"]
  {
    StripOfStripped("nan");
    assert IsCleanItem("nan");
    ParseListJoin(["nan"]);
    assert Join(["nan"]) == "nan";
  }
}
