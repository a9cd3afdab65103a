/**
 * FileProcessor: which uploads are accepted, how a file's column names are
 * matched against the synonyms of the target fields, and how every row is
 * reshaped into a record of those fields plus the columns nobody mapped.
 * A decoded file is a table: its column names and one cell per column in
 * each row.
 */
module FileProcessing {
  import opened Common

  // ---------------------------------------------------------------------
  // allowed_file
  // ---------------------------------------------------------------------

  const AllowedExtensions: set<string> := {"csv", "xlsx", "xls", "tsv"}

  /** Position of the last occurrence of c in s. */
  function LastIndexOf(s: string, c: char): (r: Option<nat>)
    ensures r.None? <==> c !in s
    ensures r.Some? ==> r.value < |s| && s[r.value] == c && c !in s[r.value + 1..]
  {
    if s == [] then None
    else if s[|s| - 1] == c then Some(|s| - 1)
    else
      var r := LastIndexOf(s[..|s| - 1], c);
      assert r.Some? ==> s[r.value + 1..] == s[..|s| - 1][r.value + 1..] + [s[|s| - 1]];
      assert s == s[..|s| - 1] + [s[|s| - 1]];
      r
  }

  /** `'.' in filename and filename.rsplit('.', 1)[1].lower() in ALLOWED_EXTENSIONS` */
  function AllowedFile(filename: string): (r: bool)
    ensures r ==> '.' in filename && |filename| >= 4
  {
    match LastIndexOf(filename, '.')
    case None => false
    case Some(i) => Lower(filename[i + 1..]) in AllowedExtensions
  }

  /** Characters other than c appended after a string do not move its last c. */
  lemma {:induction false} LastIndexOfSkips(a: string, b: string, c: char)
    requires c !in b
    ensures LastIndexOf(a + b, c) == LastIndexOf(a, c)
    decreases |b|
  {
    if b != [] {
      var b' := b[..|b| - 1];
      assert (a + b)[..|a + b| - 1] == a + b';
      assert (a + b)[|a + b| - 1] == b[|b| - 1] && b[|b| - 1] in b;
      assert c !in b' by {
        assert forall k :: 0 <= k < |b'| ==> b'[k] == b[k];
      }
      LastIndexOfSkips(a, b', c);
    } else {
      assert a + b == a;
    }
  }

  lemma LastDotOf(stem: string, ext: string)
    requires '.' !in ext
    ensures LastIndexOf(stem + "." + ext, '.') == Some(|stem|)
  {
    LastIndexOfSkips(stem + ".", ext, '.');
    assert (stem + ".")[|stem|] == '.';
  }

  /**
   * A file is accepted exactly when its name is some stem, a dot, and an
   * extension without dots that lower-cases to csv, xlsx, xls or tsv.
   */
  lemma AllowedFileIff(filename: string)
    ensures AllowedFile(filename) <==>
            exists stem: string, ext: string ::
              filename == stem + "." + ext && '.' !in ext && Lower(ext) in AllowedExtensions
  {
    var r := LastIndexOf(filename, '.');
    if r.Some? {
      var stem, ext := filename[..r.value], filename[r.value + 1..];
      assert filename == stem + "." + ext;
    }
    if exists stem: string, ext: string ::
         filename == stem + "." + ext && '.' !in ext && Lower(ext) in AllowedExtensions {
      var stem: string, ext: string :|
        filename == stem + "." + ext && '.' !in ext && Lower(ext) in AllowedExtensions;
      LastDotOf(stem, ext);
      assert filename[|stem| + 1..] == ext;
    }
  }

  // ---------------------------------------------------------------------
  // normalize_column_name
  // ---------------------------------------------------------------------

  /** `"" if not name else str(name).lower().strip()`: no longer than the name, with no whitespace at either end. */
  function NormalizeColumnName(name: Option<string>): (r: string)
    ensures name.None? ==> r == ""
    ensures name.Some? ==> |r| <= |name.value|
    ensures r == [] || (!IsSpace(r[0]) && !IsSpace(r[|r| - 1]))
  {
    if name.None? || name.value == "" then "" else Strip(Lower(name.value))
  }

  lemma LowerOfLowered(t: string)
    requires forall i :: 0 <= i < |t| ==> LowerChar(t[i]) == t[i]
    ensures Lower(t) == t
  {
  }

  /** A normalised name is lower case with no surrounding whitespace: normalising it again changes nothing. */
  lemma NormalizeIdempotent(name: Option<string>)
    ensures NormalizeColumnName(Some(NormalizeColumnName(name))) == NormalizeColumnName(name)
  {
    var n := NormalizeColumnName(name);
    if n != "" {
      var lowered := Lower(name.value);
      var a, b := StripIsSlice(lowered);
      forall i | 0 <= i < |n| ensures LowerChar(n[i]) == n[i] {
        assert n[i] == lowered[a + i];
        LowerCharIdempotent(name.value[a + i]);
      }
      LowerOfLowered(n);
      StripIdempotent(lowered);
    }
  }

  // ---------------------------------------------------------------------
  // suggest_mapping
  // ---------------------------------------------------------------------

  function Norm(column: string): string
  {
    NormalizeColumnName(Some(column))
  }

  /**
   * `{normalize(col): col for col in file_columns}`: every normalised name
   * points at the LAST column that normalises to it.
   */
  function NormalizedColumns(norm: string -> string, columns: seq<string>): (index: map<string, string>)
    ensures forall n :: n in index <==> exists k :: 0 <= k < |columns| && norm(columns[k]) == n
  {
    if columns == [] then map[]
    else
      var init := columns[..|columns| - 1];
      var last := columns[|columns| - 1];
      var index := NormalizedColumns(norm, init);
      assert forall k :: 0 <= k < |init| ==> columns[k] == init[k];
      index[norm(last) := last]
  }

  /** When several columns normalise to the same name, the last of them is the one kept. */
  lemma {:induction false} LastColumnWins(norm: string -> string, columns: seq<string>, n: string)
    requires n in NormalizedColumns(norm, columns)
    ensures exists k :: 0 <= k < |columns| && NormalizedColumns(norm, columns)[n] == columns[k] &&
                        norm(columns[k]) == n && forall j :: k < j < |columns| ==> norm(columns[j]) != n
  {
    var init := columns[..|columns| - 1];
    var last := columns[|columns| - 1];
    if norm(last) == n {
      assert NormalizedColumns(norm, columns)[n] == columns[|columns| - 1];
    } else {
      var index := NormalizedColumns(norm, init);
      assert NormalizedColumns(norm, columns) == index[norm(last) := last];
      LastColumnWins(norm, init, n);
      var k :| 0 <= k < |init| && index[n] == init[k] &&
               norm(init[k]) == n && forall j :: k < j < |init| ==> norm(init[j]) != n;
      assert columns[k] == init[k];
      forall j | k < j < |columns|
        ensures norm(columns[j]) != n
      {
        if j < |columns| - 1 {
          assert columns[j] == init[j];
        }
      }
    }
  }

  /** The target fields in the order of their dictionary, each with its synonyms in order. */
  type Targets = seq<(string, seq<string>)>

  /** The inner loop: the column of the first synonym whose normalised form names a column. */
  function FirstSynonym(norm: string -> string, index: map<string, string>, synonyms: seq<string>): (r: Option<string>)
    ensures r.None? <==> forall k :: 0 <= k < |synonyms| ==> norm(synonyms[k]) !in index
    ensures r.Some? ==>
              exists k :: 0 <= k < |synonyms| && norm(synonyms[k]) in index &&
                          r.value == index[norm(synonyms[k])] &&
                          forall j :: 0 <= j < k ==> norm(synonyms[j]) !in index
  {
    if synonyms == [] then None
    else if norm(synonyms[0]) in index then Some(index[norm(synonyms[0])])
    else
      var r := FirstSynonym(norm, index, synonyms[1..]);
      assert forall k :: 1 <= k < |synonyms| ==> synonyms[k] == synonyms[1..][k - 1];
      r
  }

  /** The outer loop over the target fields. */
  function Suggested(norm: string -> string, index: map<string, string>, targets: Targets): map<string, string>
  {
    if targets == [] then map[]
    else
      var (field, synonyms) := targets[|targets| - 1];
      var mapping := Suggested(norm, index, targets[..|targets| - 1]);
      match FirstSynonym(norm, index, synonyms)
      case None => mapping
      case Some(column) => mapping[field := column]
  }

  /**
   * suggest_mapping over the column list and the target table: every key is a
   * target field and every value a column of the file.
   */
  function SuggestMapping(columns: seq<string>, targets: Targets): (r: map<string, string>)
    ensures forall f :: f in r ==> r[f] in columns && exists k :: 0 <= k < |targets| && targets[k].0 == f
  {
    SuggestedInColumns(Norm, columns, targets);
    Suggested(Norm, NormalizedColumns(Norm, columns), targets)
  }

  /** The inner loop of suggest_mapping, stopping at the first synonym found. */
  method MatchSynonym(index: map<string, string>, synonyms: seq<string>) returns (r: Option<string>)
    ensures r == FirstSynonym(Norm, index, synonyms)
  {
    var i := 0;
    while i < |synonyms|
      invariant i <= |synonyms|
      invariant FirstSynonym(Norm, index, synonyms) == FirstSynonym(Norm, index, synonyms[i..])
    {
      var normalized := NormalizeColumnName(Some(synonyms[i]));
      FirstSynonymAt(index, synonyms, i);
      if normalized in index {
        return Some(index[normalized]);
      }
      i := i + 1;
    }
    return None;
  }

  /** The inner loop's search from position i: that synonym's column, or the search from i + 1. */
  lemma FirstSynonymAt(index: map<string, string>, synonyms: seq<string>, i: nat)
    requires i < |synonyms|
    ensures FirstSynonym(Norm, index, synonyms[i..])
            == if Norm(synonyms[i]) in index then Some(index[Norm(synonyms[i])])
               else FirstSynonym(Norm, index, synonyms[i + 1..])
  {
    assert synonyms[i..][0] == synonyms[i];
    assert synonyms[i..][1..] == synonyms[i + 1..];
  }

  /** The dictionary comprehension over the file's columns. */
  method IndexColumns(columns: seq<string>) returns (index: map<string, string>)
    ensures index == NormalizedColumns(Norm, columns)
  {
    index := map[];
    for i := 0 to |columns|
      invariant index == NormalizedColumns(Norm, columns[..i])
    {
      assert columns[..i + 1][..i] == columns[..i];
      index := index[NormalizeColumnName(Some(columns[i])) := columns[i]];
    }
    assert columns[..|columns|] == columns;
  }

  /** suggest_mapping: the nested loops over fields and synonyms. */
  method SuggestMappingLoop(columns: seq<string>, targets: Targets) returns (mapping: map<string, string>)
    ensures mapping == SuggestMapping(columns, targets)
  {
    var index := IndexColumns(columns);
    mapping := map[];
    for i := 0 to |targets|
      invariant mapping == Suggested(Norm, index, targets[..i])
    {
      assert targets[..i + 1][..i] == targets[..i];
      var (field, synonyms) := targets[i];
      var found := MatchSynonym(index, synonyms);
      if found.Some? {
        mapping := mapping[field := found.value];
      }
    }
    assert targets[..|targets|] == targets;
  }

  /** The suggestion maps exactly the target fields with a synonym that names a file column. */
  lemma {:induction false} SuggestedKeys(norm: string -> string, index: map<string, string>, targets: Targets)
    ensures forall f :: f in Suggested(norm, index, targets) <==>
              exists k :: 0 <= k < |targets| && targets[k].0 == f && FirstSynonym(norm, index, targets[k].1).Some?
  {
    if targets != [] {
      var init := targets[..|targets| - 1];
      SuggestedKeys(norm, index, init);
      assert forall k :: 0 <= k < |init| ==> targets[k] == init[k];
    }
  }

  /** Every suggested column is a column of the file, named by one of the field's synonyms. */
  lemma {:induction false} SuggestedValue(norm: string -> string, columns: seq<string>, targets: Targets, f: string)
    requires f in Suggested(norm, NormalizedColumns(norm, columns), targets)
    ensures var column := Suggested(norm, NormalizedColumns(norm, columns), targets)[f];
            column in columns &&
            exists k, j :: 0 <= k < |targets| && targets[k].0 == f &&
                           0 <= j < |targets[k].1| && norm(targets[k].1[j]) == norm(column)
  {
    var index := NormalizedColumns(norm, columns);
    var init := targets[..|targets| - 1];
    var (field, synonyms) := targets[|targets| - 1];
    var found := FirstSynonym(norm, index, synonyms);
    if found.Some? && f == field {
      var j :| 0 <= j < |synonyms| && norm(synonyms[j]) in index && found.value == index[norm(synonyms[j])];
      LastColumnWins(norm, columns, norm(synonyms[j]));
      assert targets[|targets| - 1].1[j] == synonyms[j];
    } else {
      SuggestedValue(norm, columns, init, f);
      var k, j :| 0 <= k < |init| && init[k].0 == f && 0 <= j < |init[k].1| &&
                  norm(init[k].1[j]) == norm(Suggested(norm, index, init)[f]);
      assert targets[k] == init[k];
    }
  }

  /** Every key of the suggestion is a target field, every value a file column. */
  lemma SuggestedInColumns(norm: string -> string, columns: seq<string>, targets: Targets)
    ensures forall f :: f in Suggested(norm, NormalizedColumns(norm, columns), targets) ==>
              Suggested(norm, NormalizedColumns(norm, columns), targets)[f] in columns &&
              exists k :: 0 <= k < |targets| && targets[k].0 == f
  {
    var r := Suggested(norm, NormalizedColumns(norm, columns), targets);
    forall f | f in r
      ensures r[f] in columns && exists k :: 0 <= k < |targets| && targets[k].0 == f
    {
      SuggestedValue(norm, columns, targets, f);
    }
  }

  /** With distinct field names, a field's column is the one its first matching synonym names. */
  lemma {:induction false} SuggestedFirstSynonymWins(norm: string -> string, index: map<string, string>,
                                                     targets: Targets, k: nat)
    requires k < |targets|
    requires forall i, j :: 0 <= i < j < |targets| ==> targets[i].0 != targets[j].0
    requires FirstSynonym(norm, index, targets[k].1).Some?
    ensures targets[k].0 in Suggested(norm, index, targets)
    ensures Suggested(norm, index, targets)[targets[k].0] == FirstSynonym(norm, index, targets[k].1).value
  {
    var init := targets[..|targets| - 1];
    if k < |targets| - 1 {
      assert targets[k] == init[k];
      SuggestedFirstSynonymWins(norm, index, init, k);
    }
  }

  // ---------------------------------------------------------------------
  // process_and_map
  // ---------------------------------------------------------------------

  /** A cell value pandas may hold: text, a number, a flag or a timestamp. */
  datatype Value = Text(text: string) | Number(number: real) | Flag(flag: bool) | Timestamp(stamp: string)

  /** A cell: NaN / None, or a value. */
  datatype Cell = Missing | Present(value: Value)

  /** A decoded file: the column names and, per row, the cell of each column. */
  datatype Table = Table(columns: seq<string>, rows: seq<map<string, Cell>>)

  function CellAt(row: map<string, Cell>, column: string): Cell
  {
    if column in row then row[column] else Missing
  }

  /** The JSON-serialisable form: timestamps become their text, everything else is kept. */
  function Json(v: Value): (r: Value)
    ensures !r.Timestamp?
  {
    if v.Timestamp? then Text(v.stamp) else v
  }

  /** `{campo_destino: columna_origen}`, in dictionary order; the source may be empty or absent. */
  type Mapping = seq<(string, Option<string>)>

  /** One output row: the mapped fields and, when any, datos_adicionales. */
  datatype Record = Record(fields: map<string, Option<Value>>, additional: Option<map<string, Value>>)

  /** The value of one target field: None unless the source names a column of the file holding a value. */
  function FieldValue(table: Table, row: map<string, Cell>, source: Option<string>): (r: Option<Value>)
    ensures r.Some? <==> source.Some? && source.value != "" && source.value in table.columns
                         && CellAt(row, source.value).Present?
  {
    if source.Some? && source.value != "" && source.value in table.columns then
      match CellAt(row, source.value)
      case Missing => None
      case Present(v) => Some(Json(v))
    else None
  }

  function Fields(table: Table, row: map<string, Cell>, mapping: Mapping): map<string, Option<Value>>
  {
    if mapping == [] then map[]
    else
      var (field, source) := mapping[|mapping| - 1];
      Fields(table, row, mapping[..|mapping| - 1])[field := FieldValue(table, row, source)]
  }

  /** `col in column_mapping.values()` */
  predicate IsSource(mapping: Mapping, column: string)
  {
    exists k :: 0 <= k < |mapping| && mapping[k].1 == Some(column)
  }

  /** additional_data over the first columns. */
  function Additional(columns: seq<string>, row: map<string, Cell>, mapping: Mapping): map<string, Value>
  {
    if columns == [] then map[]
    else
      var column := columns[|columns| - 1];
      var rest := Additional(columns[..|columns| - 1], row, mapping);
      if !IsSource(mapping, column) && CellAt(row, column).Present? then
        rest[column := Json(CellAt(row, column).value)]
      else rest
  }

  /**
   * The record of one row: a field for each mapping target, and additional
   * data only when some unmapped file column holds a value.
   */
  function RecordOf(table: Table, row: map<string, Cell>, mapping: Mapping): (r: Record)
    ensures forall f :: f in r.fields <==> exists k :: 0 <= k < |mapping| && mapping[k].0 == f
    ensures r.additional.Some? ==>
              r.additional.value != map[] &&
              forall c :: c in r.additional.value ==> c in table.columns && !IsSource(mapping, c)
  {
    FieldsKeys(table, row, mapping);
    AdditionalColumns(table.columns, row, mapping);
    var extra := Additional(table.columns, row, mapping);
    Record(Fields(table, row, mapping), if extra == map[] then None else Some(extra))
  }

  /** mapped_data: one record per row. */
  function Mapped(table: Table, rows: seq<map<string, Cell>>, mapping: Mapping): seq<Record>
  {
    if rows == [] then []
    else Mapped(table, rows[..|rows| - 1], mapping) + [RecordOf(table, rows[|rows| - 1], mapping)]
  }

  /** The two inner loops of process_and_map, for one row. */
  method MapRow(table: Table, row: map<string, Cell>, mapping: Mapping) returns (record: Record)
    ensures record == RecordOf(table, row, mapping)
  {
    var fields: map<string, Option<Value>> := map[];
    for i := 0 to |mapping|
      invariant fields == Fields(table, row, mapping[..i])
    {
      assert mapping[..i + 1][..i] == mapping[..i];
      var (field, source) := mapping[i];
      if source.Some? && source.value != "" && source.value in table.columns {
        var cell := CellAt(row, source.value);
        if cell.Missing? {
          fields := fields[field := None];
        } else {
          fields := fields[field := Some(Json(cell.value))];
        }
      } else {
        fields := fields[field := None];
      }
    }
    assert mapping[..|mapping|] == mapping;
    var additional: map<string, Value> := map[];
    for i := 0 to |table.columns|
      invariant additional == Additional(table.columns[..i], row, mapping)
    {
      assert table.columns[..i + 1][..i] == table.columns[..i];
      var column := table.columns[i];
      if !IsSource(mapping, column) {
        var cell := CellAt(row, column);
        if cell.Present? {
          additional := additional[column := Json(cell.value)];
        }
      }
    }
    assert table.columns[..|table.columns|] == table.columns;
    record := Record(fields, if additional == map[] then None else Some(additional));
  }

  /** process_and_map over a decoded table. */
  method ProcessAndMap(table: Table, mapping: Mapping) returns (records: seq<Record>)
    ensures records == Mapped(table, table.rows, mapping)
  {
    records := [];
    for i := 0 to |table.rows|
      invariant records == Mapped(table, table.rows[..i], mapping)
    {
      assert table.rows[..i + 1][..i] == table.rows[..i];
      var record := MapRow(table, table.rows[i], mapping);
      records := records + [record];
    }
    assert table.rows[..|table.rows|] == table.rows;
  }

  /** One record per row, in row order. */
  lemma {:induction false} MappedFollowsRows(table: Table, rows: seq<map<string, Cell>>, mapping: Mapping)
    ensures |Mapped(table, rows, mapping)| == |rows|
    ensures forall k :: 0 <= k < |rows| ==> Mapped(table, rows, mapping)[k] == RecordOf(table, rows[k], mapping)
  {
    if rows != [] {
      MappedFollowsRows(table, rows[..|rows| - 1], mapping);
    }
  }

  /** Every field named in the mapping is a key of the record, and no other. */
  lemma {:induction false} FieldsKeys(table: Table, row: map<string, Cell>, mapping: Mapping)
    ensures forall f :: f in Fields(table, row, mapping) <==> exists k :: 0 <= k < |mapping| && mapping[k].0 == f
  {
    if mapping != [] {
      var init := mapping[..|mapping| - 1];
      FieldsKeys(table, row, init);
      assert forall k :: 0 <= k < |init| ==> mapping[k] == init[k];
    }
  }

  /** A field's value is the one its last entry's source column gives. */
  lemma {:induction false} FieldsValues(table: Table, row: map<string, Cell>, mapping: Mapping, k: nat)
    requires k < |mapping|
    requires forall j :: k < j < |mapping| ==> mapping[j].0 != mapping[k].0
    ensures mapping[k].0 in Fields(table, row, mapping)
    ensures Fields(table, row, mapping)[mapping[k].0] == FieldValue(table, row, mapping[k].1)
  {
    if k < |mapping| - 1 {
      var init := mapping[..|mapping| - 1];
      assert mapping[k] == init[k];
      FieldsValues(table, row, init, k);
    }
  }

  /** datos_adicionales holds exactly the present values of the columns no field is mapped from. */
  lemma {:induction false} AdditionalColumns(columns: seq<string>, row: map<string, Cell>, mapping: Mapping)
    ensures var extra := Additional(columns, row, mapping);
            forall c :: c in extra <==> c in columns && !IsSource(mapping, c) && CellAt(row, c).Present?
    ensures var extra := Additional(columns, row, mapping);
            forall c :: c in extra ==> extra[c] == Json(CellAt(row, c).value)
  {
    if columns != [] {
      AdditionalColumns(columns[..|columns| - 1], row, mapping);
      assert columns == columns[..|columns| - 1] + [columns[|columns| - 1]];
    }
  }
}
