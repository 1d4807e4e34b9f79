/** The `messages` table of database.go as an in-memory sequence of rows, and
    the three SQL statements the service runs against it, each written as a
    function: the per-user `SELECT ... ORDER BY timestamp ASC`, the
    `ORDER BY timestamp DESC LIMIT 1 OFFSET ?` that finds the trim threshold,
    and the `DELETE ... WHERE user_id = ? AND timestamp < ?`. */
module History {
  import opened Wrappers

  /** One row of `messages`; `time` stands for the timestamp column. The
      autoincrement id is the row's position in the sequence. */
  datatype Row = Row(userId: string, userName: string, role: string, content: string, time: int)

  /** The rows of user `u`, in insertion order (`WHERE user_id = ?`). */
  function RowsOf(rows: seq<Row>, u: string): (r: seq<Row>)
    ensures |r| <= |rows|
    ensures forall x :: x in r <==> x in rows && x.userId == u
  {
    if rows == [] then []
    else
      assert rows == rows[..|rows| - 1] + [rows[|rows| - 1]];
      var rest := RowsOf(rows[..|rows| - 1], u);
      if rows[|rows| - 1].userId == u then rest + [rows[|rows| - 1]] else rest
  }

  lemma {:induction false} RowsOfAppend(rows: seq<Row>, x: Row, u: string)
    ensures RowsOf(rows + [x], u) == if x.userId == u then RowsOf(rows, u) + [x] else RowsOf(rows, u)
  {
    assert (rows + [x])[..|rows|] == rows;
  }

  predicate SortedByTime(s: seq<Row>) {
    forall i, j :: 0 <= i < j < |s| ==> s[i].time <= s[j].time
  }

  /** Puts `x` into `s` after every row whose time is not later than its own,
      so rows with equal times keep their insertion order. */
  function Insert(s: seq<Row>, x: Row): (r: seq<Row>)
    ensures |r| == |s| + 1
    ensures multiset(r) == multiset(s) + multiset{x}
  {
    if s == [] || s[|s| - 1].time <= x.time then s + [x]
    else
      assert s == s[..|s| - 1] + [s[|s| - 1]];
      Insert(s[..|s| - 1], x) + [s[|s| - 1]]
  }

  /** `ORDER BY timestamp`: a stable insertion sort on the time column. */
  function SortByTime(s: seq<Row>): (r: seq<Row>)
    ensures |r| == |s|
    ensures multiset(r) == multiset(s)
  {
    if s == [] then []
    else
      assert s == s[..|s| - 1] + [s[|s| - 1]];
      Insert(SortByTime(s[..|s| - 1]), s[|s| - 1])
  }

  /** Every row of `Insert(s, x)` is one of `s` or `x` itself. */
  lemma InsertBounded(s: seq<Row>, x: Row, bound: int)
    requires forall y :: y in s ==> y.time <= bound
    requires x.time <= bound
    ensures forall y :: y in Insert(s, x) ==> y.time <= bound
  {
    var r := Insert(s, x);
    forall y | y in r
      ensures y.time <= bound
    {
      assert y in multiset(r);
      if y != x {
        assert y in multiset(s);
      }
    }
  }

  /** A sorted sequence followed by a row no earlier than any of its rows is
      sorted. */
  lemma AppendLatestSorted(r: seq<Row>, last: Row)
    requires SortedByTime(r)
    requires forall y :: y in r ==> y.time <= last.time
    ensures SortedByTime(r + [last])
  {
    forall i, j | 0 <= i < j < |r + [last]|
      ensures (r + [last])[i].time <= (r + [last])[j].time
    {
      if j == |r| {
        assert r[i] in r;
      }
    }
  }

  lemma {:induction false} InsertSorted(s: seq<Row>, x: Row)
    requires SortedByTime(s)
    ensures SortedByTime(Insert(s, x))
    decreases |s|
  {
    if s == [] || s[|s| - 1].time <= x.time {
    } else {
      var init, last := s[..|s| - 1], s[|s| - 1];
      InsertSorted(init, x);
      forall y | y in init
        ensures y.time <= last.time
      {
        var i :| 0 <= i < |init| && init[i] == y;
        assert s[i] == y;
      }
      InsertBounded(init, x, last.time);
      AppendLatestSorted(Insert(init, x), last);
    }
  }

  lemma {:induction false} SortSorted(s: seq<Row>)
    ensures SortedByTime(SortByTime(s))
    decreases |s|
  {
    if s != [] {
      SortSorted(s[..|s| - 1]);
      InsertSorted(SortByTime(s[..|s| - 1]), s[|s| - 1]);
    }
  }

  /** Sorting a sequence whose last row is the latest just appends that row:
      a row inserted with the newest timestamp is listed last. */
  lemma {:induction false} SortAppendLatest(s: seq<Row>, x: Row)
    requires forall y :: y in s ==> y.time <= x.time
    ensures SortByTime(s + [x]) == SortByTime(s) + [x]
  {
    assert (s + [x])[..|s|] == s;
    var sorted := SortByTime(s);
    if sorted != [] {
      var last := sorted[|sorted| - 1];
      assert last in multiset(sorted);
      assert last in s;
    }
  }

  /** `SELECT ... WHERE user_id = ? ORDER BY timestamp ASC`. */
  function Query(rows: seq<Row>, u: string): (q: seq<Row>)
    ensures SortedByTime(q)
    ensures multiset(q) == multiset(RowsOf(rows, u))
    ensures forall x :: x in q <==> x in rows && x.userId == u
  {
    var mine := RowsOf(rows, u);
    SortSorted(mine);
    var q := SortByTime(mine);
    assert forall x :: x in q <==> x in multiset(mine);
    q
  }

  /** Number of rows whose time is `t` or later; the rows strictly later than
      `t` are `CountFrom(s, t + 1)`. */
  function CountFrom(s: seq<Row>, t: int): (n: nat)
    ensures n <= |s|
  {
    if s == [] then 0
    else CountFrom(s[..|s| - 1], t) + (if s[|s| - 1].time >= t then 1 else 0)
  }

  lemma {:induction false} CountInsert(s: seq<Row>, x: Row, t: int)
    ensures CountFrom(Insert(s, x), t) == CountFrom(s, t) + (if x.time >= t then 1 else 0)
    decreases |s|
  {
    if s == [] || s[|s| - 1].time <= x.time {
      assert (s + [x])[..|s|] == s;
    } else {
      var init := s[..|s| - 1];
      var r := Insert(init, x);
      CountInsert(init, x, t);
      assert (r + [s[|s| - 1]])[..|r|] == r;
    }
  }

  lemma {:induction false} CountSort(s: seq<Row>, t: int)
    ensures CountFrom(SortByTime(s), t) == CountFrom(s, t)
    decreases |s|
  {
    if s != [] {
      CountSort(s[..|s| - 1], t);
      CountInsert(SortByTime(s[..|s| - 1]), s[|s| - 1], t);
    }
  }

  lemma {:induction false} CountMonotone(s: seq<Row>, a: int, b: int)
    requires a <= b
    ensures CountFrom(s, b) <= CountFrom(s, a)
    decreases |s|
  {
    if s != [] {
      CountMonotone(s[..|s| - 1], a, b);
    }
  }

  lemma {:induction false} CountNone(s: seq<Row>, t: int)
    requires forall i :: 0 <= i < |s| ==> s[i].time < t
    ensures CountFrom(s, t) == 0
    decreases |s|
  {
    if s != [] {
      CountNone(s[..|s| - 1], t);
    }
  }

  /** In a sorted sequence, the row at index `j` has at least `|s| - j` rows
      at its time or later and at most `|s| - 1 - j` rows strictly later. */
  lemma {:induction false} CountSortedAt(s: seq<Row>, j: nat)
    requires SortedByTime(s) && j < |s|
    ensures CountFrom(s, s[j].time) >= |s| - j
    ensures CountFrom(s, s[j].time + 1) <= |s| - 1 - j
    decreases |s|
  {
    var init := s[..|s| - 1];
    if j < |s| - 1 {
      assert init[j] == s[j];
      CountSortedAt(init, j);
    } else {
      CountNone(init, s[j].time + 1);
    }
  }

  /** SQLite treats a negative OFFSET as zero. */
  function Offset(keepCount: int): (off: nat)
    ensures keepCount >= 1 ==> off == keepCount - 1
    ensures keepCount < 1 ==> off == 0
  {
    if keepCount - 1 < 0 then 0 else keepCount - 1
  }

  /** `SELECT timestamp ... ORDER BY timestamp DESC LIMIT 1 OFFSET keepCount-1`:
      the time of the keepCount-th newest row of `u`, or `None` (no row) when
      `u` has fewer rows. */
  function Threshold(rows: seq<Row>, u: string, keepCount: int): (t: Option<int>)
    ensures t.None? <==> |RowsOf(rows, u)| <= Offset(keepCount)
  {
    var asc := SortByTime(RowsOf(rows, u));
    var off := Offset(keepCount);
    if off < |asc| then Some(asc[|asc| - 1 - off].time) else None
  }

  /** The threshold, when there is one, is the time `t` with at least
      `Offset + 1` rows of `u` at `t` or later and at most `Offset` rows
      strictly later. */
  lemma {:induction false} ThresholdCounts(rows: seq<Row>, u: string, keepCount: int, t: int)
    requires Threshold(rows, u, keepCount) == Some(t)
    ensures CountFrom(RowsOf(rows, u), t) >= Offset(keepCount) + 1
    ensures CountFrom(RowsOf(rows, u), t + 1) <= Offset(keepCount)
  {
    var mine, off := RowsOf(rows, u), Offset(keepCount);
    assert off < |mine| && t == SortByTime(mine)[|mine| - 1 - off].time by {
      var asc := SortByTime(mine);
      assert t == asc[|asc| - 1 - off].time;
    }
    RankCounts(mine, off, t);
  }

  /** The time `t` of the row with `off` rows after it in sorted order has
      at least `off + 1` rows at `t` or later and at most `off` strictly
      later. */
  lemma {:induction false} RankCounts(s: seq<Row>, off: nat, t: int)
    requires off < |s| && t == SortByTime(s)[|s| - 1 - off].time
    ensures CountFrom(s, t) >= off + 1
    ensures CountFrom(s, t + 1) <= off
  {
    SortSorted(s);
    SortedCounts(SortByTime(s), |s| - 1 - off, t, off);
    CountSort(s, t);
    CountSort(s, t + 1);
  }

  /** `CountSortedAt` with the time and the number of later rows named. */
  lemma {:induction false} SortedCounts(s: seq<Row>, j: nat, t: int, n: nat)
    requires SortedByTime(s) && j < |s| && t == s[j].time && n == |s| - 1 - j
    ensures CountFrom(s, t) >= n + 1 && CountFrom(s, t + 1) <= n
  {
    CountSortedAt(s, j);
  }

  /** At most one time satisfies the count characterisation. */
  lemma {:induction false} CountsDetermineTime(s: seq<Row>, off: nat, t1: int, t2: int)
    requires CountFrom(s, t1) >= off + 1 && CountFrom(s, t1 + 1) <= off
    requires CountFrom(s, t2) >= off + 1 && CountFrom(s, t2 + 1) <= off
    ensures t1 == t2
  {
    if t1 < t2 {
      CountMonotone(s, t1 + 1, t2);
    } else if t2 < t1 {
      CountMonotone(s, t2 + 1, t1);
    }
  }

  /** The count characterisation is also sufficient: a time with those counts
      is the threshold. */
  lemma {:induction false} ThresholdFromCounts(rows: seq<Row>, u: string, keepCount: int, t: int)
    requires CountFrom(RowsOf(rows, u), t) >= Offset(keepCount) + 1
    requires CountFrom(RowsOf(rows, u), t + 1) <= Offset(keepCount)
    ensures Threshold(rows, u, keepCount) == Some(t)
  {
    assert |RowsOf(rows, u)| > Offset(keepCount);
    var found := Threshold(rows, u, keepCount).value;
    ThresholdCounts(rows, u, keepCount, found);
    CountsDetermineTime(RowsOf(rows, u), Offset(keepCount), t, found);
  }

  /** `DELETE FROM messages WHERE user_id = ? AND timestamp < ?`. */
  function Trimmed(rows: seq<Row>, u: string, t: int): (r: seq<Row>)
    ensures |r| <= |rows|
    ensures forall x :: x in r <==> x in rows && !(x.userId == u && x.time < t)
  {
    if rows == [] then []
    else
      assert rows == rows[..|rows| - 1] + [rows[|rows| - 1]];
      var rest := Trimmed(rows[..|rows| - 1], u, t);
      var x := rows[|rows| - 1];
      if x.userId == u && x.time < t then rest else rest + [x]
  }

  /** The rows with time `t` or later, in order. */
  function KeepFrom(s: seq<Row>, t: int): (r: seq<Row>)
    ensures |r| == CountFrom(s, t)
  {
    if s == [] then []
    else
      var rest := KeepFrom(s[..|s| - 1], t);
      if s[|s| - 1].time >= t then rest + [s[|s| - 1]] else rest
  }

  lemma {:induction false} CountKeepFrom(s: seq<Row>, t: int, v: int)
    requires v >= t
    ensures CountFrom(KeepFrom(s, t), v) == CountFrom(s, v)
    decreases |s|
  {
    if s != [] {
      CountKeepFrom(s[..|s| - 1], t, v);
      var rest := KeepFrom(s[..|s| - 1], t);
      assert (rest + [s[|s| - 1]])[..|rest|] == rest;
    }
  }

  /** What the delete leaves of `u`'s rows, and of every other user's. */
  lemma {:induction false} RowsOfTrimmed(rows: seq<Row>, u: string, t: int, v: string)
    ensures RowsOf(Trimmed(rows, u, t), v) == if v == u then KeepFrom(RowsOf(rows, u), t) else RowsOf(rows, v)
    decreases |rows|
  {
    if rows != [] {
      var init, x := rows[..|rows| - 1], rows[|rows| - 1];
      RowsOfTrimmed(init, u, t, v);
      var rest := Trimmed(init, u, t);
      if !(x.userId == u && x.time < t) {
        RowsOfAppend(rest, x, v);
      }
      if v == u && x.userId == u {
        var mine := RowsOf(init, u);
        assert (mine + [x])[..|mine|] == mine;
      }
    }
  }

  lemma {:induction false} TrimmedTwice(rows: seq<Row>, u: string, t: int)
    ensures Trimmed(Trimmed(rows, u, t), u, t) == Trimmed(rows, u, t)
    decreases |rows|
  {
    if rows != [] {
      var init, x := rows[..|rows| - 1], rows[|rows| - 1];
      TrimmedTwice(init, u, t);
      var rest := Trimmed(init, u, t);
      if !(x.userId == u && x.time < t) {
        assert (rest + [x])[..|rest|] == rest;
      }
    }
  }

  /** After the delete, `u` keeps every row at the threshold or later: at
      least `Offset + 1` rows (keepCount when keepCount >= 1). */
  lemma {:induction false} TrimKeepsNewest(rows: seq<Row>, u: string, keepCount: int, t: int)
    requires Threshold(rows, u, keepCount) == Some(t)
    ensures |RowsOf(Trimmed(rows, u, t), u)| >= Offset(keepCount) + 1
  {
    ThresholdCounts(rows, u, keepCount, t);
    RowsOfTrimmed(rows, u, t, u);
  }

  /** Trimming twice with the same keepCount finds the same threshold and
      deletes nothing more. */
  lemma {:induction false} TrimIdempotent(rows: seq<Row>, u: string, keepCount: int, t: int)
    requires Threshold(rows, u, keepCount) == Some(t)
    ensures Threshold(Trimmed(rows, u, t), u, keepCount) == Some(t)
    ensures Trimmed(Trimmed(rows, u, t), u, t) == Trimmed(rows, u, t)
  {
    var trimmed := Trimmed(rows, u, t);
    ThresholdCounts(rows, u, keepCount, t);
    RowsOfTrimmed(rows, u, t, u);
    KeepFromCounts(RowsOf(rows, u), t, Offset(keepCount));
    ThresholdFromCounts(trimmed, u, keepCount, t);
    TrimmedTwice(rows, u, t);
  }

  lemma {:induction false} KeepFromCounts(s: seq<Row>, t: int, off: nat)
    requires CountFrom(s, t) >= off + 1 && CountFrom(s, t + 1) <= off
    ensures CountFrom(KeepFrom(s, t), t) >= off + 1 && CountFrom(KeepFrom(s, t), t + 1) <= off
  {
    CountKeepFrom(s, t, t);
    CountKeepFrom(s, t, t + 1);
  }
}
