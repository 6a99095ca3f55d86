/** What a `findMany({ where, orderBy })` call returns: every row of a table that
    the `where` filter keeps, each once, in the `orderBy` order. `SelectSorted`
    evaluates such a query over a table held as a map from id to row. */
module Listing {

  /** `le` compares any two rows, and its comparisons chain. */
  ghost predicate TotalPreorder<V(!new)>(le: (V, V) -> bool) {
    && (forall a, b :: le(a, b) || le(b, a))
    && (forall a, b, c :: le(a, b) && le(b, c) ==> le(a, c))
  }

  predicate InTable<V>(ids: seq<string>, table: map<string, V>) {
    forall i :: 0 <= i < |ids| ==> ids[i] in table
  }

  predicate Distinct(ids: seq<string>) {
    forall i, j :: 0 <= i < j < |ids| ==> ids[i] != ids[j]
  }

  predicate SortedBy<V>(ids: seq<string>, table: map<string, V>, le: (V, V) -> bool)
    requires InTable(ids, table)
  {
    forall i, j :: 0 <= i < j < |ids| ==> le(table[ids[i]], table[ids[j]])
  }

  /** `ids` lists exactly the rows of `table` that `keep` accepts, each once,
      ordered by `le`. */
  ghost predicate IsListing<V>(ids: seq<string>, table: map<string, V>,
                               keep: V -> bool, le: (V, V) -> bool)
  {
    && InTable(ids, table)
    && Distinct(ids)
    && (forall i :: 0 <= i < |ids| ==> keep(table[ids[i]]))
    && (forall k :: k in table && keep(table[k]) ==> k in ids)
    && SortedBy(ids, table, le)
  }

  function Rows<V>(table: map<string, V>, ids: seq<string>): (rows: seq<V>)
    requires InTable(ids, table)
    ensures |rows| == |ids|
  {
    seq(|ids|, i requires 0 <= i < |ids| => table[ids[i]])
  }

  /** `rows` is what the query over `table` with filter `keep` and order `le` returns. */
  ghost predicate Lists<V>(rows: seq<V>, table: map<string, V>,
                           keep: V -> bool, le: (V, V) -> bool)
  {
    exists ids :: IsListing(ids, table, keep, le) && rows == Rows(table, ids)
  }

  /** Puts `k` in front of the first row that does not come before it. */
  function Insert<V>(k: string, ids: seq<string>, table: map<string, V>,
                     le: (V, V) -> bool): (r: seq<string>)
    requires k in table && InTable(ids, table)
    ensures InTable(r, table) && |r| == |ids| + 1
    ensures forall x :: x in r <==> x == k || x in ids
    ensures k !in ids && Distinct(ids) ==> Distinct(r)
  {
    if ids == [] || le(table[k], table[ids[0]]) then [k] + ids
    else
      var rest := Insert(k, ids[1..], table, le);
      assert forall x :: x in ids[1..] ==> x in ids;
      assert forall x :: x in ids ==> x == ids[0] || x in ids[1..];
      assert Distinct(ids) ==> Distinct(ids[1..]) && ids[0] !in ids[1..];
      [ids[0]] + rest
  }

  lemma {:induction false} InsertSorted<V(!new)>(k: string, ids: seq<string>,
                                                 table: map<string, V>, le: (V, V) -> bool)
    requires TotalPreorder(le) && k in table && InTable(ids, table) && SortedBy(ids, table, le)
    ensures SortedBy(Insert(k, ids, table, le), table, le)
  {
    if ids == [] || le(table[k], table[ids[0]]) {
      var r := Insert(k, ids, table, le);
      forall i, j | 0 <= i < j < |r| ensures le(table[r[i]], table[r[j]]) {
        if i == 0 && j > 1 {
          assert le(table[ids[0]], table[ids[j - 1]]);
        }
      }
    } else {
      var rest := Insert(k, ids[1..], table, le);
      InsertSorted(k, ids[1..], table, le);
      assert le(table[ids[0]], table[k]);
      forall i | 0 <= i < |rest| ensures le(table[ids[0]], table[rest[i]]) {
        if rest[i] != k {
          assert rest[i] in ids[1..];
          var j :| 0 <= j < |ids[1..]| && ids[1..][j] == rest[i];
          assert ids[j + 1] == rest[i];
        }
      }
      var r := [ids[0]] + rest;
      assert r == Insert(k, ids, table, le);
      forall i, j | 0 <= i < j < |r| ensures le(table[r[i]], table[r[j]]) {
        if i > 0 {
          assert r[i] == rest[i - 1] && r[j] == rest[j - 1];
        } else {
          assert r[j] == rest[j - 1];
        }
      }
    }
  }

  /** Evaluates the query: the rows `keep` accepts, in `le` order. Rows that `le`
      ties may come in any order, as in a database. */
  method SelectSorted<V(!new)>(table: map<string, V>, keep: V -> bool, le: (V, V) -> bool)
    returns (ids: seq<string>, rows: seq<V>)
    requires TotalPreorder(le)
    ensures IsListing(ids, table, keep, le)
    ensures rows == Rows(table, ids)
    ensures Lists(rows, table, keep, le)
  {
    ids := [];
    var todo := table.Keys;
    while todo != {}
      invariant todo <= table.Keys
      invariant InTable(ids, table) && Distinct(ids) && SortedBy(ids, table, le)
      invariant forall i :: 0 <= i < |ids| ==> ids[i] !in todo && keep(table[ids[i]])
      invariant forall k :: k in table && k !in todo && keep(table[k]) ==> k in ids
      decreases todo
    {
      var k :| k in todo;
      if keep(table[k]) {
        InsertSorted(k, ids, table, le);
        var before := ids;
        ids := Insert(k, before, table, le);
        forall i | 0 <= i < |ids| ensures ids[i] == k || ids[i] in before {
          assert ids[i] in ids;
        }
      }
      todo := todo - {k};
    }
    rows := Rows(table, ids);
  }

  /** Lexicographic order on code points: the order `orderBy: { name: "asc" }`
      gives under a binary collation. */
  predicate StrLe(a: string, b: string)
    decreases |a|
  {
    a == [] || (b != [] && (a[0] < b[0] || (a[0] == b[0] && StrLe(a[1..], b[1..]))))
  }

  lemma {:induction false} StrLeTotal(a: string, b: string)
    ensures StrLe(a, b) || StrLe(b, a)
    decreases |a|
  {
    if a != [] && b != [] && a[0] == b[0] {
      StrLeTotal(a[1..], b[1..]);
    }
  }

  lemma {:induction false} StrLeTransitive(a: string, b: string, c: string)
    requires StrLe(a, b) && StrLe(b, c)
    ensures StrLe(a, c)
    decreases |a|
  {
    if a != [] && a[0] == b[0] && b[0] == c[0] {
      StrLeTransitive(a[1..], b[1..], c[1..]);
    }
  }

  /** `orderBy: { key: "asc" }` on a text column. */
  function Ascending<V>(key: V -> string): (V, V) -> bool {
    (a: V, b: V) => StrLe(key(a), key(b))
  }

  /** `orderBy: { key: "desc" }` on a column whose values are instants or numbers. */
  function Descending<V>(key: V -> int): (V, V) -> bool {
    (a: V, b: V) => key(a) >= key(b)
  }

  /** A `findMany` without `orderBy`: the store may return the rows in any order. */
  function Unordered<V>(): (V, V) -> bool {
    (a: V, b: V) => true
  }

  lemma AscendingIsPreorder<V(!new)>(key: V -> string)
    ensures TotalPreorder(Ascending(key))
  {
    forall a: V, b: V ensures Ascending(key)(a, b) || Ascending(key)(b, a) {
      StrLeTotal(key(a), key(b));
    }
    forall a: V, b: V, c: V | Ascending(key)(a, b) && Ascending(key)(b, c)
      ensures Ascending(key)(a, c)
    {
      StrLeTransitive(key(a), key(b), key(c));
    }
  }

  lemma DescendingIsPreorder<V(!new)>(key: V -> int)
    ensures TotalPreorder(Descending(key))
  {
  }

  lemma UnorderedIsPreorder<V(!new)>()
    ensures TotalPreorder(Unordered<V>())
  {
  }
}
