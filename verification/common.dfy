/** Values shared by the query engine and the host binding of tmysql4: queries,
    result sets, column types, query flags and connection handles. */
module Common {

  datatype Option<+T> = None | Some(value: T)

  /** An opaque client-library connection handle (a `MYSQL*`). Handles are
      handed out from a counter, so a freshly initialised handle differs from
      every earlier one. */
  type ConnId = nat

  /** The status a query carries. `Unset` is the value a query is constructed
      with; `DoExecute` replaces it except when a client call returned a
      negative code, which the source tests neither as failure nor as success. */
  datatype Status = Unset | Success | Fail

  /** Query flags are bits of the `int` the host passes; the two flags the
      engine tests, each a single bit. */
  const QUERY_FLAG_ASSOC: nat := 1
  const QUERY_FLAG_LASTID: nat := 2

  /** `flags & flag != 0` for a single-bit mask `flag`: that bit of the
      two's-complement `flags` is set. Division by a positive divisor
      rounds down here, as an arithmetic shift does, so negative flags
      need no special case. */
  predicate HasFlag(flags: int, flag: nat)
    requires flag > 0
  {
    (flags / flag) % 2 == 1
  }

  /** Column types a result field may report (`MYSQL_TYPE_*`). */
  datatype FieldType =
    | Decimal | Tiny | Short | Long | Float | Double | NullType | Timestamp
    | LongLong | Int24 | Date | Time | DateTime | Year | NewDate | VarChar
    | Bit | Json | NewDecimal | Enum | Set | TinyBlob | MediumBlob | LongBlob
    | Blob | VarString | String | Geometry

  datatype Field = Field(name: string, ftype: FieldType)

  /** A stored result (`MYSQL_RES*`): its field descriptions and its rows in
      fetch order; a row holds one cell per field, `None` for SQL NULL. */
  datatype ResultSet = ResultSet(fields: seq<Field>, rows: seq<seq<Option<string>>>)

  /** The client library hands out rows of exactly `mysql_num_fields` cells. */
  predicate WellFormed(r: ResultSet)
  {
    forall k :: 0 <= k < |r.rows| ==> |r.rows[k]| == |r.fields|
  }

  /** What `mysql_store_result` hands out: a result whose rows all fit its
      field list. */
  type StoredResult = r: ResultSet | WellFormed(r) witness ResultSet([], [])

  /** One submitted task. `id` stands for the identity of the heap object;
      `callback` and `callbackRef` are host reference numbers, -1 for none. */
  datatype Query = Query(
    id: nat,
    text: string,
    callback: int,
    flags: int,
    callbackRef: int,
    status: Status,
    error: string,
    result: Option<StoredResult>,
    lastId: nat)

  /** A query as `new Query(query, callback, flags, callbackref)` builds it. */
  function NewQuery(id: nat, text: string, callback: int, flags: int, callbackRef: int): Query
  {
    Query(id, text, callback, flags, callbackRef, Unset, [], None, 0)
  }

  /** The identities of a list of queries, in order. */
  function Ids(qs: seq<Query>): (r: seq<nat>)
    ensures |r| == |qs|
  {
    if qs == [] then [] else [qs[0].id] + Ids(qs[1..])
  }

  lemma {:induction false} IdsConcat(a: seq<Query>, b: seq<Query>)
    ensures Ids(a + b) == Ids(a) + Ids(b)
  {
    if a == [] {
      assert a + b == b;
    } else {
      assert (a + b)[1..] == a[1..] + b;
      IdsConcat(a[1..], b);
    }
  }

  ghost predicate Distinct<T>(s: seq<T>)
  {
    forall i, j :: 0 <= i < j < |s| ==> s[i] != s[j]
  }

  /** In a list without repetitions every member occurs exactly once. */
  lemma {:induction false} DistinctOccursOnce<T>(s: seq<T>, x: T)
    requires Distinct(s)
    ensures multiset(s)[x] == if x in s then 1 else 0
  {
    if s != [] {
      assert s == [s[0]] + s[1..];
      assert Distinct(s[1..]) by {
        forall i, j | 0 <= i < j < |s[1..]| ensures s[1..][i] != s[1..][j] {
          assert s[1..][i] == s[i + 1] && s[1..][j] == s[j + 1];
        }
      }
      DistinctOccursOnce(s[1..], x);
      if x == s[0] {
        assert x !in s[1..] by {
          forall k | 0 <= k < |s[1..]| ensures s[1..][k] != x {
            assert s[1..][k] == s[k + 1];
          }
        }
      }
      assert multiset(s) == multiset([s[0]]) + multiset(s[1..]);
    }
  }

  /** A concatenation has no repetitions exactly when neither part has and
      the parts share nothing. */
  lemma DistinctConcat<T>(a: seq<T>, b: seq<T>)
    ensures Distinct(a + b) <==> Distinct(a) && Distinct(b) && (forall x :: x in a ==> x !in b)
  {
    if Distinct(a + b) {
      forall i, j | 0 <= i < j < |a| ensures a[i] != a[j] {
        assert (a + b)[i] == a[i] && (a + b)[j] == a[j];
      }
      forall i, j | 0 <= i < j < |b| ensures b[i] != b[j] {
        assert (a + b)[|a| + i] == b[i] && (a + b)[|a| + j] == b[j];
      }
      forall i, j | 0 <= i < |a| && 0 <= j < |b| ensures a[i] != b[j] {
        assert (a + b)[i] == a[i] && (a + b)[|a| + j] == b[j];
      }
    }
    if Distinct(a) && Distinct(b) && (forall x :: x in a ==> x !in b) {
      forall i, j | 0 <= i < j < |a + b| ensures (a + b)[i] != (a + b)[j] {
        if j < |a| {
          assert (a + b)[i] == a[i] && (a + b)[j] == a[j];
        } else if i < |a| {
          assert (a + b)[i] == a[i] && (a + b)[j] == b[j - |a|];
          assert a[i] in a && b[j - |a|] in b;
        } else {
          assert (a + b)[i] == b[i - |a|] && (a + b)[j] == b[j - |a|];
        }
      }
    }
  }
}
