/** The export step of generate.py's main block (lines 131-144): the header
    is the aliases of the fields, and each record becomes one row by folding
    every field's key path over it with
    `reduce(lambda d, key: d.get(key) if d else None, path, record)`. */
module Export {
  import opened Json

  /** One output column: its header alias and the key path to its value. */
  datatype Field = Field(alias: string, path: seq<string>)

  /** The fold's accumulator: the current value, or the AttributeError that
      `.get` raises on a truthy value that is not a dict. */
  datatype Walk = Value(v: Json) | NoGet

  /** The lambda at generate.py:139 applied to an accumulator and a key; an
      exception raised by an earlier step propagates. */
  function Lookup(d: Walk, key: string): (r: Walk)
    ensures d.NoGet? ==> r.NoGet?
    ensures d.Value? && !Truthy(d.v) ==> r == Value(Null)
    ensures d.Value? && Truthy(d.v) && d.v.Obj? ==> r == Value(Get(d.v.entries, key))
    ensures d.Value? && Truthy(d.v) && !d.v.Obj? ==> r.NoGet?
  {
    match d
    case NoGet => NoGet
    case Value(v) =>
      if !Truthy(v) then Value(Null)
      else if v.Obj? then Value(Get(v.entries, key))
      else NoGet
  }

  /** `functools.reduce` over a key path: a left fold from `acc`. */
  function Fold(acc: Walk, path: seq<string>): Walk
    decreases |path|
  {
    if path == [] then acc else Fold(Lookup(acc, path[0]), path[1..])
  }

  /** The value at `path` in `record` (generate.py:138-142). */
  function Extract(record: Json, path: seq<string>): (r: Walk)
    ensures path == [] ==> r == Value(record)
  {
    Fold(Value(record), path)
  }

  /** Folding over `p + q` is folding over `p`, then over `q`. */
  lemma {:induction false} FoldAppend(acc: Walk, p: seq<string>, q: seq<string>)
    ensures Fold(acc, p + q) == Fold(Fold(acc, p), q)
    decreases |p|
  {
    if p != [] {
      assert (p + q)[0] == p[0] && (p + q)[1..] == p[1..] + q;
      FoldAppend(Lookup(acc, p[0]), p[1..], q);
    } else {
      assert p + q == q;
    }
  }

  /** Extending a path by one key is one more lookup. */
  lemma ExtractSnoc(record: Json, p: seq<string>, key: string)
    ensures Extract(record, p + [key]) == Lookup(Extract(record, p), key)
  {
    FoldAppend(Value(record), p, [key]);
    assert [key][1..] == [];
  }

  /** An exception, once raised, ends the fold. */
  lemma {:induction false} NoGetStays(q: seq<string>)
    ensures Fold(NoGet, q) == NoGet
    decreases |q|
  {
    if q != [] {
      NoGetStays(q[1..]);
    }
  }

  /** A falsy value yields None at the next step and at every step after. */
  lemma {:induction false} FalsyYieldsNull(v: Json, q: seq<string>)
    requires !Truthy(v) && q != []
    ensures Fold(Value(v), q) == Value(Null)
    decreases |q|
  {
    if |q| > 1 {
      FalsyYieldsNull(Null, q[1..]);
    }
  }

  /** Once a step of the path yields a falsy value, every longer path yields
      None. */
  lemma ExtractAfterFalsy(record: Json, p: seq<string>, q: seq<string>)
    requires Extract(record, p).Value? && !Truthy(Extract(record, p).v)
    requires q != []
    ensures Extract(record, p + q) == Value(Null)
  {
    FoldAppend(Value(record), p, q);
    FalsyYieldsNull(Extract(record, p).v, q);
  }

  /** A key absent from the record, at any depth of path after it, gives None. */
  lemma MissingFirstKey(record: Json, key: string, rest: seq<string>)
    requires record.Obj? && key !in Keys(record.entries)
    ensures Extract(record, [key] + rest) == Value(Null)
  {
    GetIsLookup(record.entries, key);
    FoldAppend(Value(record), [key], rest);
    assert Fold(Value(record), [key]) == Value(Null) by {
      assert [key][1..] == [];
    }
    if rest != [] {
      FalsyYieldsNull(Null, rest);
    }
  }

  /** The fold gets stuck at step i: the value reached by the first i keys is
      truthy but not a dict, so `.get` is not there. */
  predicate StuckAt(record: Json, path: seq<string>, i: nat)
    requires i <= |path|
  {
    match Extract(record, path[..i])
    case Value(v) => Truthy(v) && !v.Obj?
    case NoGet => false
  }

  /** Extraction raises exactly when some step of the path meets a truthy
      non-dict; otherwise it yields a value. */
  lemma {:induction false} RaisesIffStuck(record: Json, path: seq<string>)
    ensures Extract(record, path).NoGet? <==> exists i :: 0 <= i < |path| && StuckAt(record, path, i)
    decreases |path|
  {
    if path != [] {
      var p := path[..|path| - 1];
      var key := path[|path| - 1];
      assert path == p + [key];
      ExtractSnoc(record, p, key);
      RaisesIffStuck(record, p);
      assert forall i :: 0 <= i < |p| ==> path[..i] == p[..i];
      assert path[..|p|] == p;
      if Extract(record, path).NoGet? {
        if Extract(record, p).NoGet? {
          var i :| 0 <= i < |p| && StuckAt(record, p, i);
          assert StuckAt(record, path, i);
        } else {
          assert StuckAt(record, path, |p|);
        }
      } else {
        forall i | 0 <= i < |path| ensures !StuckAt(record, path, i) {
          if i < |p| {
            assert StuckAt(record, path, i) == StuckAt(record, p, i);
          }
        }
      }
    }
  }

  /** A container record without cloud metadata: the provider column of
      the containers export is None. */
  lemma MissingCloudMetadata()
    ensures Extract(Obj([("info", Obj([("name", Str("nginx"))]))]),
                    ["info", "cloudMetadata", "provider"]) == Value(Null)
  {
    var info := Obj([("name", Str("nginx"))]);
    var record := Obj([("info", info)]);
    assert Extract(record, ["info"]) == Value(info);
    assert "cloudMetadata" !in Keys(info.entries);
    MissingFirstKey(info, "cloudMetadata", ["provider"]);
    FoldAppend(Value(record), ["info"], ["cloudMetadata", "provider"]);
    assert ["info"] + ["cloudMetadata", "provider"] == ["info", "cloudMetadata", "provider"];
  }

  /** A path that runs past a non-empty string does not give None: `.get`
      is looked up on the string and the extraction raises. */
  lemma PathThroughStringRaises()
    ensures Extract(Obj([("info", Obj([("name", Str("nginx"))]))]),
                    ["info", "name", "provider"]) == NoGet
  {
    var record := Obj([("info", Obj([("name", Str("nginx"))]))]);
    assert Extract(record, ["info", "name"]) == Value(Str("nginx")) by {
      ExtractSnoc(record, ["info"], "name");
      assert ["info"] + ["name"] == ["info", "name"];
    }
    ExtractSnoc(record, ["info", "name"], "provider");
    assert ["info", "name"] + ["provider"] == ["info", "name", "provider"];
  }

  /** The header row: the aliases in declaration order (generate.py:131). */
  function Header(fields: seq<Field>): (h: seq<string>)
    ensures |h| == |fields|
    ensures forall j :: 0 <= j < |fields| ==> h[j] == fields[j].alias
  {
    seq(|fields|, j requires 0 <= j < |fields| => fields[j].alias)
  }

  /** One record's row, or the index of the field whose extraction raised. */
  datatype Row = Cells(cells: seq<Json>) | RaisedAt(field: nat)

  /** The row built for `record` (generate.py:135-143): one cell per field,
      in field order, each the field's extracted value; or the first field
      whose extraction raises, which ends the export. */
  function RowOf(record: Json, fields: seq<Field>): (r: Row)
    decreases |fields|
    ensures r.Cells? ==>
      && |r.cells| == |fields|
      && forall j :: 0 <= j < |fields| ==> Extract(record, fields[j].path) == Value(r.cells[j])
    ensures r.RaisedAt? ==>
      && r.field < |fields| && Extract(record, fields[r.field].path).NoGet?
      && forall j :: 0 <= j < r.field ==> Extract(record, fields[j].path).Value?
  {
    if fields == [] then Cells([])
    else match Extract(record, fields[0].path)
      case NoGet => RaisedAt(0)
      case Value(v) =>
        match RowOf(record, fields[1..])
        case Cells(cs) => Cells([v] + cs)
        case RaisedAt(k) => RaisedAt(k + 1)
  }

  /** The append loop of generate.py:135-143. */
  method BuildRow(record: Json, fields: seq<Field>) returns (r: Row)
    ensures r == RowOf(record, fields)
  {
    var row: seq<Json> := [];
    for j := 0 to |fields|
      invariant |row| == j
      invariant forall k :: 0 <= k < j ==> Extract(record, fields[k].path) == Value(row[k])
    {
      var cell := Extract(record, fields[j].path);
      if cell.NoGet? {
        var expected := RowOf(record, fields);
        assert expected.RaisedAt? ==> expected.field == j;
        return RaisedAt(j);
      }
      row := row + [cell.v];
    }
    r := Cells(row);
    var expected := RowOf(record, fields);
    if expected.Cells? {
      assert expected.cells == row;
    }
  }

  /** What the CSV writer is given: the header, then one row per record,
      up to the first record whose row raised (`failed`). */
  datatype Table = Table(header: seq<string>, rows: seq<seq<Json>>, failed: bool)

  /** The rows written for `results`. */
  function RowsOf(results: seq<Json>, fields: seq<Field>): (t: (seq<seq<Json>>, bool))
    decreases |results|
    ensures |t.0| <= |results|
    ensures t.1 <==> |t.0| < |results|
    ensures forall j :: 0 <= j < |t.0| ==> RowOf(results[j], fields) == Cells(t.0[j])
    ensures t.1 ==> RowOf(results[|t.0|], fields).RaisedAt?
  {
    if results == [] then ([], false)
    else match RowOf(results[0], fields)
      case RaisedAt(_) => ([], true)
      case Cells(cs) =>
        var rest := RowsOf(results[1..], fields);
        assert forall j :: 0 <= j < |rest.0| ==> results[1..][j] == results[j + 1];
        assert rest.1 ==> results[1..][|rest.0|] == results[|rest.0| + 1];
        ([cs] + rest.0, rest.1)
  }

  /** The table written for one output (generate.py:129-144): every row lines
      up with the header, one cell per field. */
  function TableOf(results: seq<Json>, fields: seq<Field>): (t: Table)
    ensures t.header == Header(fields)
    ensures forall j :: 0 <= j < |t.rows| ==> |t.rows[j]| == |t.header|
    ensures t.failed <==> |t.rows| < |results|
  {
    var rows := RowsOf(results, fields);
    Table(Header(fields), rows.0, rows.1)
  }

  /** The writing loop of generate.py:131-144, with the CSV writer replaced
      by the sequence of rows handed to it. */
  method WriteTable(results: seq<Json>, fields: seq<Field>) returns (t: Table)
    ensures t == TableOf(results, fields)
  {
    var header := Header(fields);
    var rows: seq<seq<Json>> := [];
    for i := 0 to |results|
      invariant |rows| == i
      invariant forall j :: 0 <= j < i ==> RowOf(results[j], fields) == Cells(rows[j])
    {
      var row := BuildRow(results[i], fields);
      if row.RaisedAt? {
        t := Table(header, rows, true);
        assert RowsOf(results, fields).0 == rows by { RowsOfPrefix(results, fields, i); }
        return;
      }
      rows := rows + [row.cells];
    }
    t := Table(header, rows, false);
    assert RowsOf(results, fields).0 == rows by { RowsOfPrefix(results, fields, |results|); }
  }

  /** RowsOf is determined by its rows: when the first i records give rows
      and record i (if any) raises, those rows are exactly what is written. */
  lemma {:induction false} RowsOfPrefix(results: seq<Json>, fields: seq<Field>, i: nat)
    requires i <= |results|
    requires forall j :: 0 <= j < i ==> RowOf(results[j], fields).Cells?
    requires i < |results| ==> RowOf(results[i], fields).RaisedAt?
    ensures |RowsOf(results, fields).0| == i
    decreases i
  {
    if i > 0 {
      forall j | 0 <= j < i - 1 ensures RowOf(results[1..][j], fields).Cells? {
        assert results[1..][j] == results[j + 1];
      }
      if i < |results| { assert results[1..][i - 1] == results[i]; }
      RowsOfPrefix(results[1..], fields, i - 1);
    }
  }
}
