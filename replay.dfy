/**
 * The historical replay script: every row of a CSV export is projected
 * through the rename table, every field is cast by the casting table, and
 * the rows are sent in file order, skipping a row whose timestamp repeats
 * the one sent just before it. Each message is the row behind two envelope
 * entries, agv_id and agv_type. Sending a message is appending it to the
 * output sequence; the CSV file is given as its sequence of rows.
 */
module Replay {
  import opened Wrappers
  import opened ReplayFields

  /** A row as csv.DictReader yields it: column header to cell text. */
  type CsvRow = map<string, string>

  /** A row after projection: the raw text of each payload field. */
  type ProjectedRow = map<Field, string>

  /** A cast field value: the result of str, float, int or bool_to_int. */
  datatype Value = Str(text: string) | Float(number: real) | Int(integer: int)

  /** A row after casting. */
  type TypedRow = map<Field, Value>

  /**
   * Python's float and int applied to a string; None where they raise
   * ValueError. Their exact grammars are library behaviour and stay abstract.
   */
  datatype Parsers = Parsers(parseFloat: string -> Option<real>, parseInt: string -> Option<int>)

  /** The exceptions the script can raise before it sends anything. */
  datatype ReplayError =
    | MissingColumn(column: string)  // KeyError from row[col] in the projection
    | CastFailed                     // KeyError for a key without caster, or ValueError from a parser

  /** The envelope entries every message carries. */
  const AgvId: string := "AGV_1"
  const AgvType: string := "v1"

  /** bool_to_int: 1 for exactly the text "true", 0 for anything else. */
  function BoolToInt(value: string): (r: int)
    ensures r == 1 <==> value == "true"
    ensures r == 0 <==> value != "true"
  {
    if value == "true" then 1 else 0
  }

  /** Capitalised, numeric, negated and empty texts all give 0. */
  lemma BoolToIntIsExact()
    ensures BoolToInt("true") == 1
    ensures BoolToInt("True") == 0 && BoolToInt("TRUE") == 0 && BoolToInt("1") == 0
    ensures BoolToInt("false") == 0 && BoolToInt("") == 0 && BoolToInt(" true") == 0
  {
  }

  /** Applies one caster to the raw text of a field; None where the caster raises. */
  function Cast(c: Caster, text: string, p: Parsers): (r: Option<Value>)
    ensures c == AsStr ==> r == Some(Str(text))
    ensures c == AsBoolToInt ==> r.Some? && r.value.Int? && (r.value.integer == 1 <==> text == "true")
    ensures c == AsFloat ==> (r.Some? <==> p.parseFloat(text).Some?) && (r.Some? ==> r.value == Float(p.parseFloat(text).value))
    ensures c == AsInt ==> (r.Some? <==> p.parseInt(text).Some?) && (r.Some? ==> r.value == Int(p.parseInt(text).value))
  {
    match c
    case AsStr => Some(Str(text))
    case AsFloat => if p.parseFloat(text).Some? then Some(Float(p.parseFloat(text).value)) else None
    case AsInt => if p.parseInt(text).Some? then Some(Int(p.parseInt(text).value)) else None
    case AsBoolToInt => Some(Int(BoolToInt(text)))
  }

  // ---------------------------------------------------------------------
  // Projection (read_csv_to_list_of_dicts)
  // ---------------------------------------------------------------------

  /** columns_mapping.items(): (source column, payload field) pairs in table order. */
  function ColumnsMapping(): (items: seq<(string, Field)>)
    ensures |items| == FieldCount
    ensures forall i :: 0 <= i < FieldCount ==> items[i] == (SourceColumn(FieldAt(i)), FieldAt(i))
  {
    seq(FieldCount, i requires 0 <= i < FieldCount => (SourceColumn(FieldAt(i)), FieldAt(i)))
  }

  /** Every payload field has its entry in the rename table, at its ordinal. */
  lemma ColumnsMappingCovers(f: Field)
    ensures Ordinal(f) < |ColumnsMapping()| && ColumnsMapping()[Ordinal(f)] == (SourceColumn(f), f)
  {
    FieldAtOrdinal(f);
  }

  /**
   * {newcol: row[col] for col, newcol in items}: the entries are taken in
   * order and the first source column missing from the row raises.
   */
  function Project<K>(row: CsvRow, items: seq<(string, K)>): Result<map<K, string>, ReplayError>
  {
    if |items| == 0 then Ok(map[])
    else
      match Project(row, items[..|items| - 1])
      case Err(e) => Err(e)
      case Ok(m) =>
        var (col, newcol) := items[|items| - 1];
        if col in row then Ok(m[newcol := row[col]])
        else Err(MissingColumn(col))
  }

  /** The projection the replay applies to every row. */
  function ProjectRow(row: CsvRow): Result<ProjectedRow, ReplayError>
  {
    Project(row, ColumnsMapping())
  }

  /**
   * A projection succeeds exactly when every source column is present; its
   * keys are then the targets, and the last entry for a target decides its
   * text. Otherwise it reports the first missing column.
   */
  lemma ProjectSpec<K>(row: CsvRow, items: seq<(string, K)>)
    ensures Project(row, items).Ok? <==> forall i :: 0 <= i < |items| ==> items[i].0 in row
    ensures Project(row, items).Ok? ==> Project(row, items).value.Keys == set i | 0 <= i < |items| :: items[i].1
    ensures Project(row, items).Ok? ==>
      forall i :: 0 <= i < |items| && (forall j :: i < j < |items| ==> items[j].1 != items[i].1) ==>
        Project(row, items).value[items[i].1] == row[items[i].0]
    ensures Project(row, items).Err? ==>
      exists j :: 0 <= j < |items| && items[j].0 !in row &&
        (forall i :: 0 <= i < j ==> items[i].0 in row) &&
        Project(row, items).error == MissingColumn(items[j].0)
  {
    ProjectOutcome(row, items);
    ProjectContents(row, items);
  }

  /** Success exactly when every source column is present; otherwise the first missing one is reported. */
  lemma {:induction false} ProjectOutcome<K>(row: CsvRow, items: seq<(string, K)>)
    ensures Project(row, items).Ok? <==> forall i :: 0 <= i < |items| ==> items[i].0 in row
    ensures Project(row, items).Err? ==>
      exists j :: 0 <= j < |items| && items[j].0 !in row &&
        (forall i :: 0 <= i < j ==> items[i].0 in row) &&
        Project(row, items).error == MissingColumn(items[j].0)
  {
    if |items| > 0 {
      var front := items[..|items| - 1];
      ProjectOutcome(row, front);
      assert forall i :: 0 <= i < |front| ==> front[i] == items[i];
    }
  }

  /** On success the keys are the targets and the last entry for a target decides its text. */
  lemma {:induction false} ProjectContents<K>(row: CsvRow, items: seq<(string, K)>)
    ensures Project(row, items).Ok? ==> Project(row, items).value.Keys == set i | 0 <= i < |items| :: items[i].1
    ensures Project(row, items).Ok? ==>
      forall i :: 0 <= i < |items| && (forall j :: i < j < |items| ==> items[j].1 != items[i].1) ==>
        items[i].0 in row && Project(row, items).value[items[i].1] == row[items[i].0]
  {
    ProjectOutcome(row, items);
    if |items| > 0 {
      var front := items[..|items| - 1];
      ProjectContents(row, front);
      assert forall i :: 0 <= i < |front| ==> front[i] == items[i];
      if Project(row, front).Ok? && items[|items| - 1].0 in row {
        assert (set i | 0 <= i < |items| :: items[i].1) == (set i | 0 <= i < |front| :: front[i].1) + {items[|items| - 1].1};
      }
    }
  }


  /**
   * A row projects exactly when it has every source column of the rename
   * table; the projected row then has every payload field, each holding the
   * text of its source column. Otherwise the first missing column, in table
   * order, is reported.
   */
  lemma ProjectRowSpec(row: CsvRow)
    ensures ProjectRow(row).Ok? <==> forall f :: SourceColumn(f) in row
    ensures ProjectRow(row).Ok? ==> forall f :: f in ProjectRow(row).value
    ensures ProjectRow(row).Ok? ==> forall f :: ProjectRow(row).value[f] == row[SourceColumn(f)]
    ensures ProjectRow(row).Err? ==>
      exists f :: SourceColumn(f) !in row &&
        (forall g :: Ordinal(g) < Ordinal(f) ==> SourceColumn(g) in row) &&
        ProjectRow(row).error == MissingColumn(SourceColumn(f))
  {
    ProjectRowSucceeds(row);
    if ProjectRow(row).Ok? {
      forall f ensures f in ProjectRow(row).value && ProjectRow(row).value[f] == row[SourceColumn(f)] {
        ProjectRowValue(row, f);
      }
    } else {
      ProjectRowError(row);
    }
  }

  lemma ProjectRowSucceeds(row: CsvRow)
    ensures ProjectRow(row).Ok? <==> forall f :: SourceColumn(f) in row
  {
    var items := ColumnsMapping();
    ProjectSpec(row, items);
    if !forall f :: SourceColumn(f) in row {
      var f :| SourceColumn(f) !in row;
      ColumnsMappingCovers(f);
    }
  }

  lemma ProjectRowValue(row: CsvRow, f: Field)
    requires ProjectRow(row).Ok?
    ensures SourceColumn(f) in row && f in ProjectRow(row).value
    ensures ProjectRow(row).value[f] == row[SourceColumn(f)]
  {
    var items := ColumnsMapping();
    ProjectSpec(row, items);
    ColumnsMappingCovers(f);
    var i := Ordinal(f);
    forall j | i < j < |items| ensures items[j].1 != f {
      OrdinalFieldAt(j);
    }
  }

  lemma ProjectRowError(row: CsvRow)
    requires ProjectRow(row).Err?
    ensures exists f ::
      SourceColumn(f) !in row &&
      (forall g :: Ordinal(g) < Ordinal(f) ==> SourceColumn(g) in row) &&
      ProjectRow(row).error == MissingColumn(SourceColumn(f))
  {
    var items := ColumnsMapping();
    ProjectSpec(row, items);
    var j :| 0 <= j < |items| && items[j].0 !in row &&
      (forall i :: 0 <= i < j ==> items[i].0 in row) &&
      ProjectRow(row).error == MissingColumn(items[j].0);
    OrdinalFieldAt(j);
    var f := FieldAt(j);
    forall g | Ordinal(g) < Ordinal(f) ensures SourceColumn(g) in row {
      ColumnsMappingCovers(g);
    }
  }

  /** Projection of a whole file: one row after another, the first failure raises. */
  function ProjectAll(rows: seq<CsvRow>): Result<seq<ProjectedRow>, ReplayError>
  {
    if rows == [] then Ok([])
    else
      match ProjectRow(rows[0])
      case Err(e) => Err(e)
      case Ok(m) =>
        match ProjectAll(rows[1..])
        case Err(e) => Err(e)
        case Ok(ms) => Ok([m] + ms)
  }

  /**
   * read_csv_to_list_of_dicts without the file access: the projected rows
   * are appended one by one, in file order.
   */
  method ReadCsvToListOfDicts(rows: seq<CsvRow>) returns (r: Result<seq<ProjectedRow>, ReplayError>)
    ensures r == ProjectAll(rows)
    ensures r.Ok? <==> forall k :: 0 <= k < |rows| ==> ProjectRow(rows[k]).Ok?
    ensures r.Ok? ==> |r.value| == |rows| && forall k :: 0 <= k < |rows| ==> Ok(r.value[k]) == ProjectRow(rows[k])
    ensures r.Err? ==>
      exists k :: 0 <= k < |rows| && ProjectRow(rows[k]) == Err(r.error) &&
        forall j :: 0 <= j < k ==> ProjectRow(rows[j]).Ok?
  {
    ProjectAllSpec(rows);
    var data: seq<ProjectedRow> := [];
    assert rows[0..] == rows;
    PrependNothing(ProjectAll(rows));
    for k := 0 to |rows|
      invariant |data| == k
      invariant forall j :: 0 <= j < k ==> ProjectRow(rows[j]) == Ok(data[j])
      invariant ProjectAll(rows) == PrependAll(data, ProjectAll(rows[k..]))
    {
      assert rows[k..][0] == rows[k] && rows[k..][1..] == rows[k + 1..];
      match ProjectRow(rows[k])
      case Err(e) =>
        r := Err(e);
        assert r.Err? ==> ProjectRow(rows[k]) == Err(r.error) && forall j :: 0 <= j < k ==> ProjectRow(rows[j]).Ok?;
        return;
      case Ok(m) =>
        PrependAppend(data, m, ProjectAll(rows[k + 1..]));
        data := data + [m];
    }
    assert rows[|rows|..] == [] && data + [] == data;
    r := Ok(data);
  }

  /** prefix followed by the rows of r, or r's error. */
  function PrependAll<T>(prefix: seq<T>, r: Result<seq<T>, ReplayError>): Result<seq<T>, ReplayError>
  {
    match r
    case Err(e) => Err(e)
    case Ok(s) => Ok(prefix + s)
  }

  lemma PrependNothing<T>(r: Result<seq<T>, ReplayError>)
    ensures PrependAll([], r) == r
  {
    if r.Ok? {
      assert [] + r.value == r.value;
    }
  }

  lemma PrependAppend<T>(prefix: seq<T>, x: T, r: Result<seq<T>, ReplayError>)
    ensures PrependAll(prefix, match r case Err(e) => Err(e) case Ok(s) => Ok([x] + s)) == PrependAll(prefix + [x], r)
  {
    match r
    case Err(e) =>
    case Ok(s) => assert prefix + ([x] + s) == (prefix + [x]) + s;
  }

  // ---------------------------------------------------------------------
  // Casting (cast_dictionary_values)
  // ---------------------------------------------------------------------

  /** The key has a caster and its caster accepts the key's text. */
  predicate Castable<K>(input: map<K, string>, targets: K -> Option<Caster>, p: Parsers, k: K)
    requires k in input
  {
    targets(k).Some? && Cast(targets(k).value, input[k], p).Some?
  }

  /**
   * {key: target_types[key](value) for key, value in input_dict.items()}:
   * the key set is kept and each value goes through its key's caster; a key
   * without caster, or a caster that raises, aborts the whole dictionary.
   */
  function CastDictionaryValues<K>(input: map<K, string>, targets: K -> Option<Caster>, p: Parsers): (r: Result<map<K, Value>, ReplayError>)
    ensures r.Ok? <==> forall k :: k in input ==> Castable(input, targets, p, k)
    ensures r.Err? ==> r.error == CastFailed
    ensures r.Ok? ==> r.value.Keys == input.Keys
    ensures r.Ok? ==> forall k :: k in input ==> Some(r.value[k]) == Cast(targets(k).value, input[k], p)
  {
    if forall k :: k in input ==> Castable(input, targets, p, k) then
      Ok(map k | k in input :: Cast(targets(k).value, input[k], p).value)
    else
      Err(CastFailed)
  }

  /** The casting table as the dictionary lookup target_types[key]. */
  function CasterOf(f: Field): Option<Caster>
  {
    Some(CastingMapping(f))
  }

  /** cast_dictionary_values(row, casting_mapping) */
  function CastRow(row: ProjectedRow, p: Parsers): Result<TypedRow, ReplayError>
  {
    CastDictionaryValues(row, CasterOf, p)
  }

  /**
   * Every projected field has a caster, so casting a projected row can only
   * fail in float or int, never for a missing caster, str or bool_to_int.
   */
  lemma CastRowSpec(row: ProjectedRow, p: Parsers)
    ensures CastRow(row, p).Ok? <==> forall f :: f in row ==> Cast(CastingMapping(f), row[f], p).Some?
    ensures CastRow(row, p).Err? ==>
      exists f :: f in row && CastingMapping(f) in {AsFloat, AsInt} && Cast(CastingMapping(f), row[f], p).None?
    ensures CastRow(row, p).Ok? ==> CastRow(row, p).value.Keys == row.Keys
    ensures CastRow(row, p).Ok? ==>
      forall f :: f in row ==> Some(CastRow(row, p).value[f]) == Cast(CastingMapping(f), row[f], p)
  {
    if CastRow(row, p).Err? {
      var f :| f in row && !Castable(row, CasterOf, p, f);
      assert CastingMapping(f) != AsStr && CastingMapping(f) != AsBoolToInt;
    }
  }

  /** [cast_dictionary_values(row, casting_mapping) for row in csv_result] */
  function CastAll(rows: seq<ProjectedRow>, p: Parsers): (r: Result<seq<TypedRow>, ReplayError>)
    ensures r.Ok? <==> forall k :: 0 <= k < |rows| ==> CastRow(rows[k], p).Ok?
    ensures r.Ok? ==> |r.value| == |rows| && forall k :: 0 <= k < |rows| ==> Ok(r.value[k]) == CastRow(rows[k], p)
  {
    if rows == [] then Ok([])
    else
      match CastRow(rows[0], p)
      case Err(e) => Err(e)
      case Ok(m) =>
        match CastAll(rows[1..], p)
        case Err(e) => Err(e)
        case Ok(ms) =>
          assert forall k :: 1 <= k < |rows| ==> rows[k] == rows[1..][k - 1];
          Ok([m] + ms)
  }

  /** The whole file projects, then the whole file casts; nothing is sent before both succeed. */
  function PrepareRows(rows: seq<CsvRow>, p: Parsers): Result<seq<TypedRow>, ReplayError>
  {
    match ProjectAll(rows)
    case Err(e) => Err(e)
    case Ok(projected) => CastAll(projected, p)
  }

  // ---------------------------------------------------------------------
  // Messages and the send loop
  // ---------------------------------------------------------------------

  /** A message as json.dumps lays it out: key/value entries in order. */
  type Message = seq<(string, Value)>

  /** The payload keys and their fields in table order, the insertion order of every row dict. */
  function PayloadKeys(): (keys: seq<(string, Field)>)
    ensures |keys| == FieldCount
    ensures forall i :: 0 <= i < FieldCount ==> keys[i] == (Name(FieldAt(i)), FieldAt(i))
  {
    seq(FieldCount, i requires 0 <= i < FieldCount => (Name(FieldAt(i)), FieldAt(i)))
  }

  /** The entries **row contributes: each present field under its key, in key order. */
  function Entries<K>(row: map<K, Value>, keys: seq<(string, K)>): seq<(string, Value)>
  {
    if |keys| == 0 then []
    else (if keys[0].1 in row then [(keys[0].0, row[keys[0].1])] else []) + Entries(row, keys[1..])
  }

  lemma {:induction false} EntriesOfComplete<K>(row: map<K, Value>, keys: seq<(string, K)>)
    requires forall i :: 0 <= i < |keys| ==> keys[i].1 in row
    ensures |Entries(row, keys)| == |keys|
    ensures forall i :: 0 <= i < |keys| ==> Entries(row, keys)[i] == (keys[i].0, row[keys[i].1])
  {
    if |keys| > 0 {
      EntriesOfComplete(row, keys[1..]);
    }
  }

  /** {"agv_id": AGV_ID, "agv_type": AGV_TYPE, **row} */
  function MessageOf(row: TypedRow): Message
  {
    [("agv_id", Str(AgvId)), ("agv_type", Str(AgvType))] + Entries(row, PayloadKeys())
  }

  /** A row that carries every payload field. */
  predicate Complete(row: TypedRow)
  {
    forall f :: f in row
  }

  /**
   * The message of a complete row: agv_id = "AGV_1" and agv_type = "v1"
   * first, then every field of the row unchanged under its payload key in
   * table order; no field entry reuses an envelope key, so the spread does
   * not overwrite the envelope.
   */
  lemma MessageOfSpec(row: TypedRow)
    requires Complete(row)
    ensures |MessageOf(row)| == 2 + FieldCount
    ensures MessageOf(row)[0] == ("agv_id", Str("AGV_1")) && MessageOf(row)[1] == ("agv_type", Str("v1"))
    ensures forall f :: MessageOf(row)[2 + Ordinal(f)] == (Name(f), row[f])
    ensures forall j :: 2 <= j < |MessageOf(row)| ==> MessageOf(row)[j].0 != "agv_id" && MessageOf(row)[j].0 != "agv_type"
  {
    MessageOfLayout(row);
    MessageOfFields(row);
    MessageOfNoClash(row);
  }

  /** The message is the envelope followed by one entry per table position. */
  lemma MessageOfLayout(row: TypedRow)
    requires Complete(row)
    ensures |MessageOf(row)| == 2 + FieldCount
    ensures MessageOf(row)[0] == ("agv_id", Str("AGV_1")) && MessageOf(row)[1] == ("agv_type", Str("v1"))
    ensures forall i :: 0 <= i < FieldCount ==> MessageOf(row)[2 + i] == (Name(FieldAt(i)), row[FieldAt(i)])
  {
    EntriesOfComplete(row, PayloadKeys());
  }

  lemma MessageOfFields(row: TypedRow)
    requires Complete(row)
    ensures |MessageOf(row)| == 2 + FieldCount
    ensures forall f :: Ordinal(f) < FieldCount && MessageOf(row)[2 + Ordinal(f)] == (Name(f), row[f])
  {
    MessageOfLayout(row);
    forall f
      ensures Ordinal(f) < FieldCount && MessageOf(row)[2 + Ordinal(f)] == (Name(f), row[f])
    {
      FieldAtOrdinal(f);
    }
  }

  lemma MessageOfNoClash(row: TypedRow)
    requires Complete(row)
    ensures forall j :: 2 <= j < |MessageOf(row)| ==> MessageOf(row)[j].0 != "agv_id" && MessageOf(row)[j].0 != "agv_type"
  {
    MessageOfLayout(row);
    forall j | 2 <= j < |MessageOf(row)|
      ensures MessageOf(row)[j].0 != "agv_id" && MessageOf(row)[j].0 != "agv_type"
    {
      NoEnvelopeClash(FieldAt(j - 2));
    }
  }


  /** Every row has a timestamp field to compare. */
  predicate Stamped(rows: seq<TypedRow>)
  {
    forall k :: 0 <= k < |rows| ==> Ts in rows[k]
  }

  /** Row k opens a run: it is the first row or its timestamp differs from the row before. */
  predicate Kept(rows: seq<TypedRow>, k: nat)
    requires Stamped(rows) && k < |rows|
  {
    k == 0 || rows[k][Ts] != rows[k - 1][Ts]
  }

  /** The rows the send loop emits from the first n rows: the first row of every run of equal timestamps. */
  function SentRows(rows: seq<TypedRow>, n: nat): (sent: seq<TypedRow>)
    requires Stamped(rows) && n <= |rows|
    ensures Stamped(sent)
  {
    if n == 0 then []
    else SentRows(rows, n - 1) + (if Kept(rows, n - 1) then [rows[n - 1]] else [])
  }

  /** Positions of the rows SentRows keeps. */
  function SentPositions(rows: seq<TypedRow>, n: nat): seq<nat>
    requires Stamped(rows) && n <= |rows|
  {
    if n == 0 then []
    else SentPositions(rows, n - 1) + (if Kept(rows, n - 1) then [n - 1] else [])
  }

  /**
   * The sent rows are an order-preserving subsequence of the input: they
   * sit at strictly increasing positions, and a position is used exactly
   * when its row is kept.
   */
  lemma SentRowsSubsequence(rows: seq<TypedRow>, n: nat)
    requires Stamped(rows) && n <= |rows|
    ensures |SentPositions(rows, n)| == |SentRows(rows, n)|
    ensures forall j :: 0 <= j < |SentRows(rows, n)| ==>
      SentPositions(rows, n)[j] < n && SentRows(rows, n)[j] == rows[SentPositions(rows, n)[j]]
    ensures forall j, l :: 0 <= j < l < |SentPositions(rows, n)| ==> SentPositions(rows, n)[j] < SentPositions(rows, n)[l]
    ensures forall k :: 0 <= k < n ==> (k in SentPositions(rows, n) <==> Kept(rows, k))
  {
    SentPositionsMatch(rows, n);
    SentPositionsOrdered(rows, n);
  }

  /** Each sent row is the input row at its recorded position. */
  lemma {:induction false} SentPositionsMatch(rows: seq<TypedRow>, n: nat)
    requires Stamped(rows) && n <= |rows|
    ensures |SentPositions(rows, n)| == |SentRows(rows, n)|
    ensures forall j :: 0 <= j < |SentRows(rows, n)| ==>
      SentPositions(rows, n)[j] < n && SentRows(rows, n)[j] == rows[SentPositions(rows, n)[j]]
  {
    if n > 0 {
      SentPositionsMatch(rows, n - 1);
    }
  }

  /** The recorded positions increase and are exactly the kept ones. */
  lemma {:induction false} SentPositionsOrdered(rows: seq<TypedRow>, n: nat)
    requires Stamped(rows) && n <= |rows|
    ensures forall j :: 0 <= j < |SentPositions(rows, n)| ==> SentPositions(rows, n)[j] < n
    ensures forall j, l :: 0 <= j < l < |SentPositions(rows, n)| ==> SentPositions(rows, n)[j] < SentPositions(rows, n)[l]
    ensures forall k :: 0 <= k < n ==> (k in SentPositions(rows, n) <==> Kept(rows, k))
  {
    if n > 0 {
      SentPositionsOrdered(rows, n - 1);
    }
  }


  /** The most recently sent row carries the timestamp of the last row read. */
  lemma {:induction false} LastSentStamp(rows: seq<TypedRow>, n: nat)
    requires Stamped(rows) && 0 < n <= |rows|
    ensures |SentRows(rows, n)| > 0
    ensures SentRows(rows, n)[|SentRows(rows, n)| - 1][Ts] == rows[n - 1][Ts]
  {
    if n > 1 && !Kept(rows, n - 1) {
      LastSentStamp(rows, n - 1);
    }
  }

  /**
   * The loop's own rule, a row is sent iff its timestamp differs from that
   * of the most recently sent row, picks the same rows as comparing each row
   * with the one before it.
   */
  lemma KeptIffNewStamp(rows: seq<TypedRow>, k: nat)
    requires Stamped(rows) && k < |rows|
    ensures Kept(rows, k) <==>
      (SentRows(rows, k) == [] || rows[k][Ts] != SentRows(rows, k)[|SentRows(rows, k)| - 1][Ts])
  {
    if k > 0 {
      LastSentStamp(rows, k);
    }
  }

  /** No two consecutive sent rows share a timestamp. */
  lemma {:induction false} SentRowsNoRepeat(rows: seq<TypedRow>, n: nat)
    requires Stamped(rows) && n <= |rows|
    ensures forall j :: 0 < j < |SentRows(rows, n)| ==> SentRows(rows, n)[j][Ts] != SentRows(rows, n)[j - 1][Ts]
  {
    if n > 1 {
      SentRowsNoRepeat(rows, n - 1);
      LastSentStamp(rows, n - 1);
    }
  }

  /** The sent rows are a subsequence, so there are never more than the rows read. */
  lemma SentRowsLength(rows: seq<TypedRow>, n: nat)
    requires Stamped(rows) && n <= |rows|
    ensures |SentRows(rows, n)| <= n
  {
    SentRowsSubsequence(rows, n);
    var ps := SentPositions(rows, n);
    forall j | 0 <= j < |ps| ensures j <= ps[j] {
      PositionsGrow(ps, j);
    }
    if |ps| > 0 {
      assert |ps| - 1 <= ps[|ps| - 1] < n;
    }
  }

  lemma {:induction false} PositionsGrow(ps: seq<nat>, j: nat)
    requires j < |ps|
    requires forall a, b :: 0 <= a < b < |ps| ==> ps[a] < ps[b]
    ensures j <= ps[j]
  {
    if j > 0 {
      PositionsGrow(ps, j - 1);
    }
  }

  /** A row keyed only by its timestamp, for the example below. */
  function StampOnly(t: string): TypedRow
  {
    map[Ts := Str(t)]
  }

  /** Timestamps t1, t1, t2, t1 send three rows: only the adjacent repeat is dropped. */
  lemma ConsecutiveDuplicatesOnly()
    ensures var rows := [StampOnly("t1"), StampOnly("t1"), StampOnly("t2"), StampOnly("t1")];
      Stamped(rows) && SentRows(rows, 4) == [rows[0], rows[2], rows[3]]
  {
    var rows := [StampOnly("t1"), StampOnly("t1"), StampOnly("t2"), StampOnly("t1")];
    assert Stamped(rows);
    assert SentRows(rows, 1) == [rows[0]];
    assert !Kept(rows, 1) && SentRows(rows, 2) == [rows[0]];
    assert Kept(rows, 2) && SentRows(rows, 3) == [rows[0], rows[2]];
    assert Kept(rows, 3);
  }

  /** The messages of a sequence of rows. */
  function Messages(rows: seq<TypedRow>): (ms: seq<Message>)
    ensures |ms| == |rows| && forall k :: 0 <= k < |rows| ==> ms[k] == MessageOf(rows[k])
  {
    seq(|rows|, k requires 0 <= k < |rows| => MessageOf(rows[k]))
  }

  lemma SentRowsStep(rows: seq<TypedRow>, k: nat)
    requires Stamped(rows) && k < |rows|
    ensures SentRows(rows, k + 1) == if Kept(rows, k) then SentRows(rows, k) + [rows[k]] else SentRows(rows, k)
  {
    assert SentRows(rows, k) + [] == SentRows(rows, k);
  }

  lemma MessagesAppend(rows: seq<TypedRow>, row: TypedRow)
    ensures Messages(rows + [row]) == Messages(rows) + [MessageOf(row)]
  {
  }

  /**
   * The send loop: a row is sent unless its timestamp equals that of the
   * row sent last (prev_row_ts, initially None, which no timestamp equals).
   */
  method SendLoop(mapped: seq<TypedRow>) returns (sent: seq<Message>)
    requires Stamped(mapped)
    ensures sent == Messages(SentRows(mapped, |mapped|))
  {
    sent := [];
    var prevRowTs: Option<Value> := None;
    for k := 0 to |mapped|
      invariant sent == Messages(SentRows(mapped, k))
      invariant prevRowTs == if k == 0 then None else Some(mapped[k - 1][Ts])
    {
      var row := mapped[k];
      SentRowsStep(mapped, k);
      if Some(row[Ts]) == prevRowTs {
        continue;
      }
      MessagesAppend(SentRows(mapped, k), row);
      sent := sent + [MessageOf(row)];
      prevRowTs := Some(row[Ts]);
    }
  }

  lemma CastAllComplete(rows: seq<CsvRow>, p: Parsers)
    requires PrepareRows(rows, p).Ok?
    ensures forall k :: 0 <= k < |PrepareRows(rows, p).value| ==> Complete(PrepareRows(rows, p).value[k])
  {
    var projected := ProjectAll(rows).value;
    ProjectAllSpec(rows);
    forall k | 0 <= k < |projected| ensures Complete(CastRow(projected[k], p).value) {
      ProjectRowSpec(rows[k]);
      CastRowSpec(projected[k], p);
    }
  }

  lemma {:induction false} ProjectAllSpec(rows: seq<CsvRow>)
    ensures ProjectAll(rows).Ok? <==> forall k :: 0 <= k < |rows| ==> ProjectRow(rows[k]).Ok?
    ensures ProjectAll(rows).Ok? ==> |ProjectAll(rows).value| == |rows|
    ensures ProjectAll(rows).Ok? ==>
      forall k :: 0 <= k < |rows| ==> Ok(ProjectAll(rows).value[k]) == ProjectRow(rows[k])
  {
    if rows != [] {
      ProjectAllSpec(rows[1..]);
      assert forall k :: 1 <= k < |rows| ==> rows[k] == rows[1..][k - 1];
    }
  }

  /**
   * The script end to end. If any row lacks a mapped column or any field
   * fails to cast, the script raises before its first send: nothing is sent.
   * Otherwise it sends, in file order, the message of the first row of
   * every run of equal timestamps.
   */
  method ReplayFile(rows: seq<CsvRow>, p: Parsers) returns (sent: seq<Message>, failure: Option<ReplayError>)
    ensures failure.Some? <==> PrepareRows(rows, p).Err?
    ensures failure.Some? ==> sent == [] && failure.value == PrepareRows(rows, p).error
    ensures failure.None? ==> Stamped(PrepareRows(rows, p).value)
    ensures failure.None? ==>
      sent == Messages(SentRows(PrepareRows(rows, p).value, |PrepareRows(rows, p).value|))
  {
    var csvResult := ReadCsvToListOfDicts(rows);
    if csvResult.Err? {
      return [], Some(csvResult.error);
    }
    var mappedResults := CastAll(csvResult.value, p);
    if mappedResults.Err? {
      return [], Some(mappedResults.error);
    }
    CastAllComplete(rows, p);
    sent := SendLoop(mappedResults.value);
    failure := None;
  }
}
