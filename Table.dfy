/** The `sensor_data` table and the three SQL operations the server runs on
    it: a `WHERE` filter, `ORDER BY timestamp DESC`, and `LIMIT ... OFFSET`.
    The table is a sequence of rows in insertion order. */
module Table {

  /** One row of `sensor_data`: the arrival time in milliseconds since the
      epoch, the temperature and the humidity. */
  datatype Row = Row(timestamp: int, temperature: real, humidity: real)

  // ---------------------------------------------------------------- WHERE

  /** The rows of `s` that satisfy `keep`, in table order. */
  function Filter(s: seq<Row>, keep: Row -> bool): (r: seq<Row>)
    ensures |r| <= |s|
    ensures forall k :: 0 <= k < |r| ==> keep(r[k]) && r[k] in s
  {
    if s == [] then []
    else
      var last := s[|s| - 1];
      Filter(s[..|s| - 1], keep) + (if keep(last) then [last] else [])
  }

  /** A row survives the filter exactly when it is in the table and
      satisfies the condition. */
  lemma {:induction false} FilterMember(s: seq<Row>, keep: Row -> bool, x: Row)
    ensures x in Filter(s, keep) <==> x in s && keep(x)
  {
    if s != [] {
      var init, last := s[..|s| - 1], s[|s| - 1];
      assert s == init + [last];
      FilterMember(init, keep, x);
    }
  }

  /** Filtering works row by row: the filter of two consecutive blocks of
      the table is the two filtered blocks, in the same order. This is the
      statement that the filter keeps the relative order of the rows. */
  lemma {:induction false} FilterConcat(a: seq<Row>, b: seq<Row>, keep: Row -> bool)
    ensures Filter(a + b, keep) == Filter(a, keep) + Filter(b, keep)
  {
    if b == [] {
      assert a + b == a;
    } else {
      var init, last := b[..|b| - 1], b[|b| - 1];
      assert (a + b)[..|a + b| - 1] == a + init;
      FilterConcat(a, init, keep);
    }
  }

  /** A filter drops nothing from a table all of whose rows already pass. */
  lemma {:induction false} FilterKeepsPassing(s: seq<Row>, keep: Row -> bool)
    requires forall k :: 0 <= k < |s| ==> keep(s[k])
    ensures Filter(s, keep) == s
  {
    if s != [] {
      var init := s[..|s| - 1];
      FilterKeepsPassing(init, keep);
      assert init + [s[|s| - 1]] == s;
    }
  }

  /** Running the same filter twice removes nothing the second time. */
  lemma FilterIdempotent(s: seq<Row>, keep: Row -> bool)
    ensures Filter(Filter(s, keep), keep) == Filter(s, keep)
  {
    FilterKeepsPassing(Filter(s, keep), keep);
  }

  // ------------------------------------------------------- ORDER BY DESC

  /** Newest first: timestamps never increase along the sequence. */
  predicate SortedDesc(s: seq<Row>)
  {
    forall i, j :: 0 <= i < j < |s| ==> s[i].timestamp >= s[j].timestamp
  }

  /** Puts `x` into the newest-first sequence `s` before the first row that
      is not newer than it. */
  function InsertNewestFirst(x: Row, s: seq<Row>): (r: seq<Row>)
    ensures |r| == |s| + 1
    ensures r[0] == x || (s != [] && r[0] == s[0])
  {
    if s == [] || s[0].timestamp <= x.timestamp then [x] + s
    else [s[0]] + InsertNewestFirst(x, s[1..])
  }

  /** Inserting into a newest-first sequence keeps it newest first and adds
      exactly the one row. */
  lemma {:induction false} InsertNewestFirstSorted(x: Row, s: seq<Row>)
    requires SortedDesc(s)
    ensures SortedDesc(InsertNewestFirst(x, s))
    ensures multiset(InsertNewestFirst(x, s)) == multiset(s) + multiset{x}
  {
    assert s != [] ==> s == [s[0]] + s[1..];
    if s != [] && s[0].timestamp > x.timestamp {
      var rest := InsertNewestFirst(x, s[1..]);
      InsertNewestFirstSorted(x, s[1..]);
      assert s[0].timestamp >= rest[0].timestamp;
      assert forall k :: 0 <= k < |rest| ==> rest[0].timestamp >= rest[k].timestamp;
    }
  }

  /** `ORDER BY timestamp DESC`: the same rows, newest first. Rows with
      equal timestamps come out in some order; SQL does not fix one. */
  function SortDesc(s: seq<Row>): (r: seq<Row>)
    ensures |r| == |s|
  {
    if s == [] then [] else InsertNewestFirst(s[0], SortDesc(s[1..]))
  }

  /** The sorted sequence is newest first and holds exactly the rows of the
      input, each as often as the input has it. */
  lemma {:induction false} SortDescCorrect(s: seq<Row>)
    ensures SortedDesc(SortDesc(s))
    ensures multiset(SortDesc(s)) == multiset(s)
  {
    if s != [] {
      assert s == [s[0]] + s[1..];
      SortDescCorrect(s[1..]);
      InsertNewestFirstSorted(s[0], SortDesc(s[1..]));
    }
  }

  // ------------------------------------------------------ LIMIT / OFFSET

  /** `LIMIT limit OFFSET offset`: skip `offset` rows, then take at most
      `limit`; an offset past the end gives no rows. */
  function Page(s: seq<Row>, offset: nat, limit: nat): (r: seq<Row>)
    ensures |r| <= limit
    ensures offset + |r| <= |s| || r == []
    ensures |r| == if offset >= |s| then 0 else if |s| - offset < limit then |s| - offset else limit
    ensures forall k :: 0 <= k < |r| ==> r[k] == s[offset + k]
  {
    if offset >= |s| then []
    else if offset + limit <= |s| then s[offset..offset + limit]
    else s[offset..]
  }
}
