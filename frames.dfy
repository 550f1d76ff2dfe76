/**
 * The part of a pandas DataFrame the pipeline relies on: named columns in order,
 * whole-column assignment, in-place renaming, selection of a list of columns and
 * `fillna(0)`.
 */
module Frames {
  import opened Results

  /** A cell: a number (int64 or float64, idealised as a real), a string, or NaN. */
  datatype Cell = Num(x: real) | Str(s: string) | Missing

  /** A selected column, as `df[features]` hands it to a model. */
  datatype Column = Column(name: string, values: seq<Cell>)

  predicate Distinct<T(==)>(s: seq<T>) {
    forall i, j :: 0 <= i < j < |s| ==> s[i] != s[j]
  }

  /** A column of `rows` copies of `v`: what `df[name] = v` broadcasts a scalar to. */
  function Fill(rows: nat, v: Cell): (col: seq<Cell>)
    ensures |col| == rows && forall i :: 0 <= i < rows ==> col[i] == v
  {
    seq(rows, i => v)
  }

  /** A scalar broadcast to a one-row frame is the one-cell column. */
  lemma FillOne(v: Cell)
    ensures Fill(1, v) == [v]
  {
    assert Fill(1, v)[0] == v;
  }

  /** The value of a table: column names in order and each column's cells. */
  datatype Table = Table(names: seq<string>, data: map<string, seq<Cell>>, rows: nat) {

    /**
     * The names list the columns exactly and every column has `rows` cells. That
     * the names are also distinct is kept separately (`WithKeepsDistinct`,
     * `RenamedKeepsDistinct`), so that proofs about column contents need not carry it.
     */
    ghost predicate Valid() {
      (forall n :: n in data <==> n in names) &&
      (forall n :: n in data ==> |data[n]| == rows)
    }

    /** `df[name] = column`: an existing column is replaced where it stands, a new one is appended. */
    function With(name: string, column: seq<Cell>): (t: Table)
      requires Valid() && |column| == rows
      ensures t.Valid()
    {
      Table(if name in data then names else names + [name], data[name := column], rows)
    }

    /** `df.rename(columns={from: to})` */
    function Renamed(from: string, to: string): (t: Table)
      requires Valid() && from in data && to !in data
      ensures t.Valid()
    {
      var names' := seq(|names|, i requires 0 <= i < |names| => if names[i] == from then to else names[i]);
      assert forall i :: 0 <= i < |names| ==> (names'[i] == to <==> names[i] == from);
      Table(names', (data - {from})[to := data[from]], rows)
    }
  }

  /** Assigning a column never duplicates a name: a new name is appended only when it is absent. */
  lemma WithKeepsDistinct(t: Table, name: string, column: seq<Cell>)
    requires t.Valid() && |column| == t.rows && Distinct(t.names)
    ensures Distinct(t.With(name, column).names)
  {
  }

  /** Renaming to an absent name never duplicates a name. */
  lemma RenamedKeepsDistinct(t: Table, from: string, to: string)
    requires t.Valid() && from in t.data && to !in t.data && Distinct(t.names)
    ensures Distinct(t.Renamed(from, to).names)
  {
  }

  /** The names of `features` that `t` has no column for, in order. */
  function Absent(t: Table, features: seq<string>): (r: seq<string>)
    ensures forall n :: n in r <==> n in features && n !in t.data
  {
    if features == [] then []
    else (if features[0] in t.data then [] else [features[0]]) + Absent(t, features[1..])
  }

  /**
   * `df[features]`: the listed columns in list order, or a KeyError naming the
   * missing ones.
   */
  function Select(t: Table, features: seq<string>): (r: Result<seq<Column>, seq<string>>)
    requires t.Valid()
    ensures r.Ok? <==> forall n :: n in features ==> n in t.data
    ensures r.Ok? ==> |r.value| == |features|
    ensures r.Ok? ==> forall i :: 0 <= i < |features| ==> r.value[i] == Column(features[i], t.data[features[i]])
    ensures r.Err? ==> r.error != [] && forall n :: n in r.error ==> n in features && n !in t.data
  {
    var missing := Absent(t, features);
    if missing != [] then
      assert missing[0] in missing;
      Err(missing)
    else Ok(seq(|features|, i requires 0 <= i < |features| => Column(features[i], t.data[features[i]])))
  }

  /** `.fillna(v)` on one cell: NaN becomes `v`, every other cell is kept. */
  function FillNa(c: Cell, v: Cell): (r: Cell)
    ensures c.Missing? ==> r == v
    ensures !c.Missing? ==> r == c
  {
    if c.Missing? then v else c
  }

  /** `fillna(0)` on one cell. */
  function FillZeroCell(c: Cell): (r: Cell)
    ensures !r.Missing?
    ensures c.Missing? ==> r == Num(0.0)
    ensures !c.Missing? ==> r == c
  {
    FillNa(c, Num(0.0))
  }

  /** `.fillna(0)` on selected columns: NaN becomes 0, everything else is kept. */
  function FillZero(cols: seq<Column>): (r: seq<Column>)
    ensures |r| == |cols|
    ensures forall i :: 0 <= i < |cols| ==> r[i].name == cols[i].name && |r[i].values| == |cols[i].values|
    ensures forall i, k :: 0 <= i < |cols| && 0 <= k < |cols[i].values| ==>
      && (cols[i].values[k].Missing? ==> r[i].values[k] == Num(0.0))
      && (!cols[i].values[k].Missing? ==> r[i].values[k] == cols[i].values[k])
  {
    seq(|cols|, i requires 0 <= i < |cols| =>
      Column(cols[i].name, seq(|cols[i].values|, k requires 0 <= k < |cols[i].values| => FillZeroCell(cols[i].values[k]))))
  }

  /**
   * `df[features].fillna(0)`: the listed columns in list order with NaN replaced by
   * 0, or a KeyError naming the missing ones.
   */
  function Matrix(t: Table, features: seq<string>): (r: Result<seq<Column>, seq<string>>)
    requires t.Valid()
    ensures r.Ok? <==> forall n :: n in features ==> n in t.data
    ensures r.Ok? ==> |r.value| == |features|
    ensures r.Ok? ==> forall i :: 0 <= i < |features| ==>
      && r.value[i].name == features[i] && |r.value[i].values| == t.rows
      && forall k :: 0 <= k < t.rows ==> r.value[i].values[k] == FillZeroCell(t.data[features[i]][k])
    ensures r.Err? ==> r.error != [] && forall n :: n in r.error ==> n in features && n !in t.data
  {
    match Select(t, features)
    case Ok(cols) => Ok(FillZero(cols))
    case Err(missing) => Err(missing)
  }

  /** The keys of a dict given as its items in insertion order. */
  function Keys(record: seq<(string, Cell)>): (ks: seq<string>)
    ensures |ks| == |record| && forall i :: 0 <= i < |record| ==> ks[i] == record[i].0
  {
    seq(|record|, i requires 0 <= i < |record| => record[i].0)
  }

  /**
   * The one-row table `pd.DataFrame([record])` builds from a dict given as its
   * items in insertion order: one column per key, holding that key's value.
   */
  function RecordTable(record: seq<(string, Cell)>): (t: Table)
    ensures t.Valid() && t.rows == 1
  {
    if record == [] then Table([], map[], 1)
    else
      var last := record[|record| - 1];
      RecordTable(record[..|record| - 1]).With(last.0, [last.1])
  }

  /** No key occurs twice among a dict's items, as in any Python dict. */
  ghost predicate DistinctKeys(record: seq<(string, Cell)>) {
    forall i, j :: 0 <= i < j < |record| ==> record[i].0 != record[j].0
  }

  /** With distinct keys, each key's column holds that key's value. */
  lemma {:induction false} RecordTableColumns(record: seq<(string, Cell)>)
    requires DistinctKeys(record)
    ensures forall i :: 0 <= i < |record| ==>
      record[i].0 in RecordTable(record).data && RecordTable(record).data[record[i].0] == [record[i].1]
  {
    if record != [] {
      var init := record[..|record| - 1];
      RecordTableColumns(init);
      var last := record[|record| - 1];
      forall i | 0 <= i < |record| - 1 ensures record[i].0 != last.0 && init[i] == record[i] {}
    }
  }

  /** With distinct keys, the record's table has the keys as its column names, in order. */
  lemma {:induction false} RecordTableNames(record: seq<(string, Cell)>)
    requires DistinctKeys(record)
    ensures RecordTable(record).names == Keys(record)
  {
    if record != [] {
      var init := record[..|record| - 1];
      RecordTableNames(init);
      var last := record[|record| - 1];
      assert Keys(record) == Keys(init) + [last.0];
      assert last.0 !in Keys(init);
    }
  }

  /** Appending an item to the dict appends its column to the record's table. */
  lemma RecordTableAppend(record: seq<(string, Cell)>, key: string, value: Cell)
    ensures RecordTable(record + [(key, value)]) == RecordTable(record).With(key, [value])
  {
    assert (record + [(key, value)])[..|record|] == record;
  }

  /** A DataFrame that the pipeline changes in place. */
  class DataFrame {
    var names: seq<string>
    var data: map<string, seq<Cell>>
    var rows: nat

    function Snapshot(): Table
      reads this
    {
      Table(names, data, rows)
    }

    ghost predicate Valid()
      reads this
    {
      Snapshot().Valid()
    }

    /** A frame holding the given table, as `pd.read_csv` or `pd.DataFrame` would produce it. */
    constructor (t: Table)
      requires t.Valid()
      ensures Valid() && Snapshot() == t
    {
      names, data, rows := t.names, t.data, t.rows;
    }

    /** `df[name] = column` */
    method Assign(name: string, column: seq<Cell>)
      requires Valid() && |column| == rows
      modifies this
      ensures Valid() && Snapshot() == old(Snapshot()).With(name, column)
    {
      if name !in data {
        names := names + [name];
      }
      data := data[name := column];
    }

    /** `df.rename(columns={from: to}, inplace=True)` */
    method Rename(from: string, to: string)
      requires Valid() && from in data && to !in data
      modifies this
      ensures Valid() && Snapshot() == old(Snapshot()).Renamed(from, to)
    {
      var t := Snapshot().Renamed(from, to);
      names, data := t.names, t.data;
    }
  }
}
