/** The table a query callback receives (`PopulateTableFromQuery` in
    gm_tmysql.cpp): one row table per fetched row, keyed 1, 2, ... in fetch
    order, each cell typed by its column and keyed by position or, with
    QUERY_FLAG_ASSOC, by field name. */
module Rows {
  import opened Common

  /** A key of a row table: the position `i + 1` of a field, or its name. */
  datatype Key = Index(n: nat) | Name(s: string)

  /** A non-nil cell value. The conversion of a numeric cell to a Lua
      number (`atof`) is not modelled: a `Number` keeps its text. */
  datatype Cell = Number(text: string) | Text(text: string)

  /** The column types whose cells are pushed as numbers. `LongLong` is not
      among them. */
  predicate IsNumeric(t: FieldType)
  {
    t.Decimal? || t.NewDecimal? || t.Float? || t.Double? || t.Tiny? ||
    t.Short? || t.Int24? || t.Bit? || t.Long?
  }

  /** The value pushed for one cell; `None` is nil. */
  function CellOf(v: Option<string>, t: FieldType): (c: Option<Cell>)
    ensures c.None? <==> v.None?
    ensures c.Some? ==> c.value.text == v.value && (c.value.Number? <==> IsNumeric(t))
  {
    match v
    case None => None
    case Some(s) => if IsNumeric(t) then Some(Number(s)) else Some(Text(s))
  }

  /** A 64-bit integer column reaches the host as text. */
  lemma LongLongIsText(s: string)
    ensures CellOf(Some(s), LongLong) == Some(Text(s))
  {
  }

  function KeyOf(assoc: bool, f: Field, i: nat): Key
  {
    if assoc then Name(f.name) else Index(i + 1)
  }

  /** The row table after its first `n` fields were stored. Storing nil under
      a key removes whatever an earlier field with the same key stored. */
  function RowTable(fields: seq<Field>, row: seq<Option<string>>, assoc: bool, n: nat): map<Key, Cell>
    requires n <= |fields| && n <= |row|
  {
    if n == 0 then map[]
    else
      var t := RowTable(fields, row, assoc, n - 1);
      var k := KeyOf(assoc, fields[n - 1], n - 1);
      match CellOf(row[n - 1], fields[n - 1].ftype)
      case None => t - {k}
      case Some(c) => t[k := c]
  }

  /** The last of the first `n` fields stored under key `k`, if any. */
  function LastWith(fields: seq<Field>, assoc: bool, k: Key, n: nat): (j: Option<nat>)
    requires n <= |fields|
    ensures j.Some? ==> j.value < n && KeyOf(assoc, fields[j.value], j.value) == k
    ensures j.Some? ==> forall i :: j.value < i < n ==> KeyOf(assoc, fields[i], i) != k
    ensures j.None? ==> forall i :: 0 <= i < n ==> KeyOf(assoc, fields[i], i) != k
  {
    if n == 0 then None
    else if KeyOf(assoc, fields[n - 1], n - 1) == k then Some(n - 1)
    else LastWith(fields, assoc, k, n - 1)
  }

  /** The last write under a key decides it: the key is present exactly when
      the last field stored under it was not NULL, and then holds that
      field's cell; a key no field maps to is absent. */
  lemma {:induction false} LastWriteWins(fields: seq<Field>, row: seq<Option<string>>, assoc: bool, n: nat, k: Key)
    requires n <= |fields| && n <= |row|
    ensures var t := RowTable(fields, row, assoc, n);
      match LastWith(fields, assoc, k, n)
      case None => k !in t
      case Some(j) =>
        && (k in t <==> row[j].Some?)
        && (k in t ==> t[k] == CellOf(row[j], fields[j].ftype).value)
  {
    if n > 0 {
      LastWriteWins(fields, row, assoc, n - 1, k);
    }
  }

  /** Without QUERY_FLAG_ASSOC every key is a position `1 ..= n`, and
      position `i + 1` holds field `i`'s cell exactly when it is not NULL. */
  lemma PositionalRow(fields: seq<Field>, row: seq<Option<string>>, n: nat, i: nat)
    requires n <= |fields| && n <= |row| && i < n
    ensures forall k :: k in RowTable(fields, row, false, n) ==> k.Index? && 1 <= k.n <= n
    ensures Index(i + 1) in RowTable(fields, row, false, n) <==> row[i].Some?
    ensures row[i].Some? ==> RowTable(fields, row, false, n)[Index(i + 1)] == CellOf(row[i], fields[i].ftype).value
  {
    forall k | k in RowTable(fields, row, false, n) ensures k.Index? && 1 <= k.n <= n {
      LastWriteWins(fields, row, false, n, k);
    }
    LastWriteWins(fields, row, false, n, Index(i + 1));
  }

  /** With QUERY_FLAG_ASSOC every key is a field name; when two fields share
      a name, the later one decides. */
  lemma AssocRow(fields: seq<Field>, row: seq<Option<string>>, n: nat, j: nat)
    requires n <= |fields| && n <= |row| && j < n
    requires forall i :: j < i < n ==> fields[i].name != fields[j].name
    ensures forall k :: k in RowTable(fields, row, true, n) ==> k.Name?
    ensures Name(fields[j].name) in RowTable(fields, row, true, n) <==> row[j].Some?
    ensures row[j].Some? ==>
              RowTable(fields, row, true, n)[Name(fields[j].name)] == CellOf(row[j], fields[j].ftype).value
  {
    forall k | k in RowTable(fields, row, true, n) ensures k.Name? {
      LastWriteWins(fields, row, true, n, k);
    }
    var k := Name(fields[j].name);
    LastWriteWins(fields, row, true, n, k);
    var w := LastWith(fields, true, k, n);
    assert w.Some? && w.value >= j;
    assert w.value == j;
  }

  /** The row table of the row fetched `rowid`-th (counting from 1). */
  function NumberedRow(res: StoredResult, assoc: bool, rowid: nat): map<Key, Cell>
    requires 1 <= rowid <= |res.rows|
  {
    RowTable(res.fields, res.rows[rowid - 1], assoc, |res.fields|)
  }

  /** The table handed to the callback: nothing when the query has no result,
      otherwise the row tables keyed 1, 2, ... in fetch order. */
  function ResultTable(r: Option<StoredResult>, assoc: bool): (t: map<nat, map<Key, Cell>>)
    ensures r.None? ==> t == map[]
    ensures r.Some? ==> forall i :: i in t <==> 1 <= i <= |r.value.rows|
  {
    match r
    case None => map[]
    case Some(res) =>
      map i | 1 <= i <= |res.rows| :: NumberedRow(res, assoc, i)
  }

  /** The field loop of `PopulateTableFromQuery`: stores every field of one
      fetched row into a fresh row table. */
  method StoreRow(fields: seq<Field>, row: seq<Option<string>>, flags: int) returns (resultrow: map<Key, Cell>)
    requires |row| == |fields|
    ensures resultrow == RowTable(fields, row, HasFlag(flags, QUERY_FLAG_ASSOC), |fields|)
  {
    resultrow := map[];
    var i := 0;
    while i < |fields|
      invariant i <= |fields|
      invariant resultrow == RowTable(fields, row, HasFlag(flags, QUERY_FLAG_ASSOC), i)
    {
      var field := fields[i];
      var accos := HasFlag(flags, QUERY_FLAG_ASSOC);
      var key := if accos then Name(field.name) else Index(i + 1);
      if row[i].None? {
        resultrow := resultrow - {key};
      } else if IsNumeric(field.ftype) {
        resultrow := resultrow[key := Number(row[i].value)];
      } else {
        resultrow := resultrow[key := Text(row[i].value)];
      }
      i := i + 1;
    }
  }

  /** `PopulateTableFromQuery`: fetches the rows one by one with a running
      row number and stores every field of each. */
  method PopulateTableFromQuery(q: Query) returns (table: map<nat, map<Key, Cell>>)
    ensures table == ResultTable(q.result, HasFlag(q.flags, QUERY_FLAG_ASSOC))
  {
    table := map[];
    if q.result == None {
      return;
    }
    var result := q.result.value;
    var fetched := 0;
    var rowid := 1;
    while fetched < |result.rows|
      invariant fetched <= |result.rows| && rowid == fetched + 1
      invariant table == map i | 1 <= i <= fetched :: NumberedRow(result, HasFlag(q.flags, QUERY_FLAG_ASSOC), i)
    {
      var resultrow := StoreRow(result.fields, result.rows[fetched], q.flags);
      table := table[rowid := resultrow];
      fetched := fetched + 1;
      rowid := rowid + 1;
    }
  }
}
