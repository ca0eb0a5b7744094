/** The table behind a Spring Data repository: a map from generated id to row. */
module Store {

  /** `rows` lists the rows of `m`, row `rows[n]` being the one stored under
      `ids[n]`: every id of the table once, in some order. */
  ghost predicate Enumerates<R>(m: map<int, R>, ids: seq<int>, rows: seq<R>) {
    && |ids| == |rows| == |m|
    && (forall a, b :: 0 <= a < b < |ids| ==> ids[a] != ids[b])
    && (forall n :: 0 <= n < |ids| ==> ids[n] in m && rows[n] == m[ids[n]])
    && (forall k :: k in m ==> k in ids)
  }

  /** What a caller can see of such a list without the ids: as many rows as
      the table holds, each of them a stored row, and every stored row there. */
  ghost predicate Lists<R>(m: map<int, R>, rows: seq<R>) {
    && |rows| == |m|
    && (forall n :: 0 <= n < |rows| ==> rows[n] in m.Values)
    && (forall k :: k in m ==> m[k] in rows)
  }

  /** Enumerating a table by ids lists its rows. */
  lemma EnumeratesLists<R>(m: map<int, R>, ids: seq<int>, rows: seq<R>)
    requires Enumerates(m, ids, rows)
    ensures Lists(m, rows)
  {
    forall k | k in m
      ensures m[k] in rows
    {
      var n :| 0 <= n < |ids| && ids[n] == k;
      assert rows[n] == m[k];
    }
  }

  /** The list a query returns: every row of `m` once. The database gives no
      order, so the loop takes the ids in whatever order it picks them. */
  method ToList<R>(m: map<int, R>) returns (rows: seq<R>, ghost ids: seq<int>)
    ensures Enumerates(m, ids, rows)
    ensures Lists(m, rows)
  {
    rows, ids := [], [];
    var todo := m.Keys;
    while todo != {}
      invariant forall k :: k in todo ==> k in m
      invariant |ids| == |rows| && |ids| + |todo| == |m|
      invariant forall a, b :: 0 <= a < b < |ids| ==> ids[a] != ids[b]
      invariant forall n :: 0 <= n < |ids| ==> ids[n] in m && ids[n] !in todo && rows[n] == m[ids[n]]
      invariant forall k :: k in m ==> k in todo || k in ids
      decreases |todo|
    {
      assert exists k :: k in todo by {
        if forall k :: k !in todo { assert false; }
      }
      var k :| k in todo;
      rows, ids := rows + [m[k]], ids + [k];
      todo := todo - {k};
    }
    EnumeratesLists(m, ids, rows);
  }
}
