/**
  * Parameterised SQL as the services build it: WHERE conditions and SET
  * assignments that name their values by placeholder number (`$k` is the
  * k-th bound value), and what such a statement selects or writes.
  *
  * A row is a map from column names to values.  How PostgreSQL orders and
  * pattern-matches values is a parameter (`Engine`).
  */
module Sql {
  import opened JsValues

  type Row = map<string, Value>

  /** A column of a row; a column the row lacks reads as NULL. */
  function Col(row: Row, column: string): Value {
    if column in row then row[column] else Null
  }

  // ---------------------------------------------------------------------------
  // WHERE

  datatype Comparison = Equal | AtLeast | AtMost

  datatype Condition =
    | Compare(column: string, op: Comparison, param: nat)   // `column = $param`, `>=`, `<=`
    | EitherLike(first: string, second: string, param: nat) // `(first ILIKE $param OR second ILIKE $param)`
    | IsTrue(column: string)                                // `column = true`
    | OneOf(column: string, options: seq<Value>)            // `column IN (…)` over literals

  /** The database's ordering of values and its `ILIKE`. */
  datatype Engine = Engine(atLeast: (Value, Value) -> bool, ilike: (Value, Value) -> bool)

  predicate HasParam(c: Condition) {
    c.Compare? || c.EitherLike?
  }

  /** The placeholders of a condition list, in order. */
  function Params(conditions: seq<Condition>): (ps: seq<nat>)
    ensures |ps| <= |conditions|
  {
    if conditions == [] then []
    else
      var last := conditions[|conditions| - 1];
      Params(conditions[..|conditions| - 1]) + (if HasParam(last) then [last.param] else [])
  }

  /** The placeholders of the statement are $1, $2, … in order, one per bound value. */
  predicate Numbered(ps: seq<nat>, values: seq<Value>) {
    |ps| == |values| && forall i :: 0 <= i < |ps| ==> ps[i] == i + 1
  }

  lemma {:induction false} ParamsAppend(conditions: seq<Condition>, c: Condition)
    ensures Params(conditions + [c]) == Params(conditions) + (if HasParam(c) then [c.param] else [])
  {
    assert (conditions + [c])[..|conditions|] == conditions;
  }

  /** Appending the condition for the next placeholder keeps the numbering. */
  lemma PushKeepsNumbering(conditions: seq<Condition>, values: seq<Value>, c: Condition, v: Value)
    requires Numbered(Params(conditions), values)
    requires HasParam(c) && c.param == |values| + 1
    ensures Numbered(Params(conditions + [c]), values + [v])
  {
    ParamsAppend(conditions, c);
  }

  /** A condition holds of a row, its placeholder read from `values`. */
  predicate Holds(engine: Engine, row: Row, c: Condition, values: seq<Value>) {
    match c
    case Compare(column, op, p) =>
      1 <= p <= |values| &&
      (match op
       case Equal => Col(row, column) == values[p - 1]
       case AtLeast => engine.atLeast(Col(row, column), values[p - 1])
       case AtMost => engine.atLeast(values[p - 1], Col(row, column)))
    case EitherLike(first, second, p) =>
      1 <= p <= |values| &&
      (engine.ilike(Col(row, first), values[p - 1]) || engine.ilike(Col(row, second), values[p - 1]))
    case IsTrue(column) => Col(row, column) == Bool(true)
    case OneOf(column, options) => Col(row, column) in options
  }

  /** The conditions joined with AND. */
  predicate HoldsAll(engine: Engine, row: Row, conditions: seq<Condition>, values: seq<Value>) {
    forall i :: 0 <= i < |conditions| ==> Holds(engine, row, conditions[i], values)
  }

  /** A condition reads only its own placeholder, so binding more values later changes nothing. */
  lemma HoldsExtends(engine: Engine, row: Row, c: Condition, values: seq<Value>, more: seq<Value>)
    requires HasParam(c) ==> 1 <= c.param <= |values|
    ensures Holds(engine, row, c, values + more) == Holds(engine, row, c, values)
  {
    if HasParam(c) {
      assert (values + more)[c.param - 1] == values[c.param - 1];
    }
  }

  /** Conjoining one more condition: the rows selected are those selected before that also meet it. */
  lemma HoldsAllPush(engine: Engine, row: Row, conditions: seq<Condition>, values: seq<Value>, c: Condition, v: Value)
    requires forall i :: 0 <= i < |conditions| ==> HasParam(conditions[i]) ==> 1 <= conditions[i].param <= |values|
    requires HasParam(c) ==> c.param == |values| + 1
    ensures HoldsAll(engine, row, conditions + [c], values + [v]) <==>
      HoldsAll(engine, row, conditions, values) && Holds(engine, row, c, values + [v])
  {
    forall i | 0 <= i < |conditions| {
      HoldsExtends(engine, row, conditions[i], values, [v]);
    }
    assert forall i :: 0 <= i < |conditions| ==> (conditions + [c])[i] == conditions[i];
    assert (conditions + [c])[|conditions|] == c;
  }

  /** Every placeholder of a numbered list names a bound value. */
  lemma NumberedBounds(conditions: seq<Condition>, values: seq<Value>)
    requires Numbered(Params(conditions), values)
    ensures forall i :: 0 <= i < |conditions| ==> HasParam(conditions[i]) ==> 1 <= conditions[i].param <= |values|
  {
    forall i | 0 <= i < |conditions| && HasParam(conditions[i])
      ensures 1 <= conditions[i].param <= |values|
    {
      ParamIndex(conditions, i);
      var ps := Params(conditions);
      var k :| 0 <= k < |ps| && ps[k] == conditions[i].param;
      assert ps[k] == k + 1 && |ps| == |values|;
    }
  }

  lemma {:induction false} ParamIndex(conditions: seq<Condition>, i: nat)
    requires i < |conditions| && HasParam(conditions[i])
    ensures conditions[i].param in Params(conditions)
  {
    var front := conditions[..|conditions| - 1];
    assert conditions == front + [conditions[|conditions| - 1]];
    ParamsAppend(front, conditions[|conditions| - 1]);
    if i < |conditions| - 1 {
      assert front[i] == conditions[i];
      ParamIndex(front, i);
    }
  }

  // ---------------------------------------------------------------------------
  // UPDATE … SET … WHERE id = $n-1 AND <owner> = $n

  /** `column = $param` in a SET list. */
  datatype Assignment = Assignment(column: string, param: nat)

  /** The SET list and the bound values of an UPDATE whose last two placeholders pick the row and its owner. */
  datatype Update = Update(assignments: seq<Assignment>, values: seq<Value>, idParam: nat, ownerParam: nat)
  {
    /** The SET placeholders are $1..$n in order; the id is $n+1 and the owner $n+2, the last two values. */
    predicate WellNumbered() {
      && |values| == |assignments| + 2
      && (forall i :: 0 <= i < |assignments| ==> assignments[i].param == i + 1)
      && idParam == |values| - 1
      && ownerParam == |values|
    }

    /** The (column, value) pairs the SET list writes, each value read through its placeholder. */
    function Writes(): (w: seq<(string, Value)>)
      requires WellNumbered()
      ensures |w| == |assignments|
      ensures forall i :: 0 <= i < |w| ==> w[i] == (assignments[i].column, values[i])
    {
      seq(|assignments|, i requires 0 <= i < |assignments| => (assignments[i].column, values[assignments[i].param - 1]))
    }

    function IdValue(): Value
      requires WellNumbered()
    {
      values[idParam - 1]
    }

    function OwnerValue(): Value
      requires WellNumbered()
    {
      values[ownerParam - 1]
    }
  }

  /** A SET list built from (column, value) pairs, consecutively numbered from $1, followed by the id and the owner. */
  function UpdateOf(writes: seq<(string, Value)>, id: Value, owner: Value): (u: Update)
    ensures u.WellNumbered() && u.Writes() == writes
    ensures u.IdValue() == id && u.OwnerValue() == owner
  {
    Update(
      seq(|writes|, i requires 0 <= i < |writes| => Assignment(writes[i].0, i + 1)),
      seq(|writes|, i requires 0 <= i < |writes| => writes[i].1) + [id, owner],
      |writes| + 1, |writes| + 2)
  }

  /** The SET list and values built so far write `writes`, numbered from $1. */
  ghost predicate Listed(fields: seq<Assignment>, values: seq<Value>, writes: seq<(string, Value)>) {
    && |fields| == |values| == |writes|
    && forall j :: 0 <= j < |fields| ==> fields[j].param == j + 1 && (fields[j].column, values[j]) == writes[j]
  }

  lemma PushListed(fields: seq<Assignment>, values: seq<Value>, writes: seq<(string, Value)>, column: string, v: Value)
    requires Listed(fields, values, writes)
    ensures Listed(fields + [Assignment(column, |fields| + 1)], values + [v], writes + [(column, v)])
  {
  }

  lemma ListedWrites(fields: seq<Assignment>, values: seq<Value>, writes: seq<(string, Value)>, id: Value, owner: Value)
    requires Listed(fields, values, writes)
    ensures var u := Update(fields, values + [id, owner], |values| + 1, |values| + 2);
      u.WellNumbered() && u.Writes() == writes && u.IdValue() == id && u.OwnerValue() == owner
  {
    var u := Update(fields, values + [id, owner], |values| + 1, |values| + 2);
    assert u.WellNumbered();
    assert forall j :: 0 <= j < |fields| ==> u.values[j] == values[j];
  }

  /** The row after the SET list, applied left to right. */
  function ApplyWrites(row: Row, writes: seq<(string, Value)>): Row {
    if writes == [] then row
    else
      var last := writes[|writes| - 1];
      ApplyWrites(row, writes[..|writes| - 1])[last.0 := last.1]
  }

  /** Applying two SET lists one after the other is applying their concatenation. */
  lemma {:induction false} ApplyWritesConcat(row: Row, a: seq<(string, Value)>, b: seq<(string, Value)>)
    ensures ApplyWrites(row, a + b) == ApplyWrites(ApplyWrites(row, a), b)
  {
    if b != [] {
      var n := |b| - 1;
      assert (a + b)[..|a + b| - 1] == a + b[..n];
      assert (a + b)[|a + b| - 1] == b[n];
      ApplyWritesConcat(row, a, b[..n]);
    } else {
      assert a + b == a;
    }
  }

  /** A column the SET list does not name keeps its value. */
  lemma {:induction false} ApplyWritesUntouched(row: Row, writes: seq<(string, Value)>, column: string)
    requires forall i :: 0 <= i < |writes| ==> writes[i].0 != column
    ensures Col(ApplyWrites(row, writes), column) == Col(row, column)
    ensures column in ApplyWrites(row, writes) <==> column in row
  {
    if writes != [] {
      ApplyWritesUntouched(row, writes[..|writes| - 1], column);
    }
  }

  /** A column the SET list names exactly once gets the value bound for it. */
  lemma {:induction false} ApplyWritesOnce(row: Row, writes: seq<(string, Value)>, i: nat)
    requires i < |writes|
    requires forall j :: 0 <= j < |writes| && j != i ==> writes[j].0 != writes[i].0
    ensures Col(ApplyWrites(row, writes), writes[i].0) == writes[i].1
  {
    var n := |writes| - 1;
    if i < n {
      ApplyWritesOnce(row, writes[..n], i);
    } else {
      assert writes[i] == writes[n];
    }
  }

  /** When every write to a column writes the same value, the column ends with that value. */
  lemma {:induction false} ApplyWritesAgree(row: Row, writes: seq<(string, Value)>, column: string, v: Value)
    requires (column, v) in writes
    requires forall i :: 0 <= i < |writes| && writes[i].0 == column ==> writes[i].1 == v
    ensures Col(ApplyWrites(row, writes), column) == v
  {
    var n := |writes| - 1;
    if writes[n].0 != column {
      assert (column, v) in writes[..n] by {
        var i :| 0 <= i < |writes| && writes[i] == (column, v);
        assert i < n && writes[..n][i] == writes[i];
      }
      ApplyWritesAgree(row, writes[..n], column, v);
    }
  }

  // ---------------------------------------------------------------------------
  // A whitelist of request keys, each naming the column it is written to

  /**
    * The assignment one request entry contributes: a defined value under a
    * key of the whitelist, written to that key's column.
    */
  function PickedWrite(table: map<string, string>, entry: (string, Value)): seq<(string, Value)> {
    if entry.1 != Undefined && entry.0 in table then [(table[entry.0], entry.1)] else []
  }

  /** The assignments of a request, in the order of its entries. */
  function PickedWrites(table: map<string, string>, data: Entries): seq<(string, Value)> {
    if data == [] then [] else PickedWrites(table, data[..|data| - 1]) + PickedWrite(table, data[|data| - 1])
  }

  /** No assignment at all exactly when no entry has a defined value under a listed key. */
  lemma {:induction false} PickedWritesEmpty(table: map<string, string>, data: Entries)
    ensures PickedWrites(table, data) == [] <==> forall i :: 0 <= i < |data| ==> data[i].1 == Undefined || data[i].0 !in table
  {
    if data != [] {
      var n := |data| - 1;
      PickedWritesEmpty(table, data[..n]);
      assert forall i :: 0 <= i < n ==> data[..n][i] == data[i];
      var front, last := PickedWrites(table, data[..n]), PickedWrite(table, data[n]);
      assert PickedWrites(table, data) == front + last;
      assert |front + last| == |front| + |last|;
      assert last == [] <==> data[n].1 == Undefined || data[n].0 !in table;
    }
  }

  /** Every entry with a defined value under a listed key is written, to its column. */
  lemma {:induction false} PickedEntryWritten(table: map<string, string>, data: Entries, i: nat)
    requires i < |data| && data[i].1 != Undefined && data[i].0 in table
    ensures (table[data[i].0], data[i].1) in PickedWrites(table, data)
  {
    var n := |data| - 1;
    if i < n {
      assert data[..n][i] == data[i];
      PickedEntryWritten(table, data[..n], i);
    }
  }

  /** Every assignment comes from an entry with a defined value under a listed key. */
  lemma {:induction false} PickedWriteHasEntry(table: map<string, string>, data: Entries, w: (string, Value))
    requires w in PickedWrites(table, data)
    ensures exists i :: 0 <= i < |data| && data[i].1 == w.1 && data[i].0 in table && table[data[i].0] == w.0
  {
    var n := |data| - 1;
    if w in PickedWrites(table, data[..n]) {
      PickedWriteHasEntry(table, data[..n], w);
      var i :| 0 <= i < n && data[..n][i].1 == w.1 && data[..n][i].0 in table && table[data[..n][i].0] == w.0;
      assert data[..n][i] == data[i];
    }
  }

  /**
    * The request loop `Object.entries(data).forEach(...)`: each defined value
    * under a listed key is appended to the SET list with the next placeholder.
    */
  method PushPicked(table: map<string, string>, data: Entries,
                    fields0: seq<Assignment>, values0: seq<Value>, ghost writes0: seq<(string, Value)>)
    returns (fields: seq<Assignment>, values: seq<Value>, ghost writes: seq<(string, Value)>)
    requires Listed(fields0, values0, writes0)
    ensures Listed(fields, values, writes)
    ensures writes == writes0 + PickedWrites(table, data)
  {
    fields, values, writes := fields0, values0, writes0;
    var paramCount := |fields|;
    for i := 0 to |data|
      invariant paramCount == |fields|
      invariant Listed(fields, values, writes)
      invariant writes == writes0 + PickedWrites(table, data[..i])
    {
      var (key, value) := data[i];
      assert data[..i + 1] == data[..i] + [data[i]];
      if value != Undefined && key in table {
        paramCount := paramCount + 1;
        PushListed(fields, values, writes, table[key], value);
        fields := fields + [Assignment(table[key], paramCount)];
        values := values + [value];
        writes := writes + [(table[key], value)];
      }
    }
    assert data[..|data|] == data;
  }

  /**
    * The same loop as the source writes its test, `value !== undefined &&
    * table[key]`: the lookup also finds the members every object inherits, so
    * a request key such as `constructor` yields an assignment to a "column"
    * named after the inherited member's text.
    */
  function PickedWriteAsWritten(table: map<string, string>, entry: (string, Value)): seq<(string, Value)> {
    var column := LookupInherited(table, entry.0);
    if entry.1 != Undefined && column.Some? then [(column.value, entry.1)] else []
  }

  function PickedWritesAsWritten(table: map<string, string>, data: Entries): seq<(string, Value)> {
    if data == [] then []
    else PickedWritesAsWritten(table, data[..|data| - 1]) + PickedWriteAsWritten(table, data[|data| - 1])
  }

  /** Without a key that names an inherited member, the loop as written and the whitelist agree. */
  lemma {:induction false} PickedAsWrittenOwnKeys(table: map<string, string>, data: Entries)
    requires forall i :: 0 <= i < |data| ==> PrototypeMemberText(data[i].0).None?
    ensures PickedWritesAsWritten(table, data) == PickedWrites(table, data)
  {
    if data != [] {
      var n := |data| - 1;
      assert forall i :: 0 <= i < n ==> data[..n][i] == data[i];
      PickedAsWrittenOwnKeys(table, data[..n]);
    }
  }

  /** Every row of a table sits under its own id. */
  predicate KeyedById(table: map<string, Row>) {
    forall id {:trigger table[id]} :: id in table ==> Col(table[id], "id") == Str(id)
  }

  /** Writing a row under its own id keeps the table keyed by id. */
  lemma KeyedByIdPut(table: map<string, Row>, id: string, row: Row)
    requires KeyedById(table) && Col(row, "id") == Str(id)
    ensures KeyedById(table[id := row])
  {
  }

  /** The union of two tables keyed by id is keyed by id. */
  lemma KeyedByIdUnion(a: map<string, Row>, b: map<string, Row>)
    requires KeyedById(a) && KeyedById(b)
    ensures KeyedById(a + b)
  {
    forall id | id in a + b
      ensures Col((a + b)[id], "id") == Str(id)
    {
      if id in b {
        assert (a + b)[id] == b[id];
      } else {
        assert (a + b)[id] == a[id];
      }
    }
  }
}
