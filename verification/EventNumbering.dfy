/** Sequence numbers of the `agent_events` table: rows are appended with the session's
    MAX(seq) + 1, and at every start packages/storage/src/schema.ts numbers all rows of a
    session again by their rank in (createdAt, rowid) order and then makes (sessionId, seq)
    unique. From the second start on the unique index is already there while rows are being
    renumbered, and an UPDATE checks it after every single row. */
module EventNumbering {
  import opened Options
  import opened Counting

  // Rows stand in rowid order. createdAt is an ISO timestamp; only its order matters.
  datatype Row = Row(id: string, sessionId: string, createdAt: int, seqNo: Option<int>)

  predicate SameSession(rows: seq<Row>, i: int, j: int)
    requires 0 <= i < |rows| && 0 <= j < |rows|
  {
    rows[i].sessionId == rows[j].sessionId
  }

  // Row j counts towards the rank of row i: same session, and not after it.
  predicate NotAfter(rows: seq<Row>, j: int, i: int)
    requires 0 <= i < |rows| && 0 <= j < |rows|
  {
    && SameSession(rows, i, j)
    && (rows[j].createdAt < rows[i].createdAt || (rows[j].createdAt == rows[i].createdAt && j <= i))
  }

  function RankSet(rows: seq<Row>, i: int): set<int>
    requires 0 <= i < |rows|
  {
    set j | 0 <= j < |rows| && NotAfter(rows, j, i)
  }

  function Rank(rows: seq<Row>, i: int): nat
    requires 0 <= i < |rows|
  {
    |RankSet(rows, i)|
  }

  function SessionRows(rows: seq<Row>, sessionId: string): set<int> {
    set i | 0 <= i < |rows| && rows[i].sessionId == sessionId
  }

  // The same rows with other numbers.
  predicate SameRows(a: seq<Row>, b: seq<Row>) {
    |a| == |b| && forall i :: 0 <= i < |a| ==> a[i] == b[i].(seqNo := a[i].seqNo)
  }

  // Every row carries its rank.
  predicate Numbered(rows: seq<Row>) {
    forall i :: 0 <= i < |rows| ==> rows[i].seqNo == Some(Rank(rows, i))
  }

  // Another row of the session already holds the number that row i is to be given.
  predicate Clashes(rows: seq<Row>, i: int, j: int, number: int)
    requires 0 <= i < |rows| && 0 <= j < |rows|
  {
    j != i && SameSession(rows, i, j) && rows[j].seqNo == Some(number)
  }

  // No row behind row p holds the number that row p is to be given.
  predicate ClearAhead(rows: seq<Row>, p: int)
    requires 0 <= p < |rows|
  {
    forall q :: p < q < |rows| && SameSession(rows, p, q) ==> rows[q].seqNo != Some(Rank(rows, p))
  }

  // No row still waiting for its new number holds the number some earlier row is given.
  predicate NoClash(rows: seq<Row>) {
    forall p :: 0 <= p < |rows| ==> ClearAhead(rows, p)
  }

  // ----- ranks number a session 1..n

  lemma RankOrder(rows: seq<Row>, i: int, j: int)
    requires 0 <= i < |rows| && 0 <= j < |rows| && i != j && SameSession(rows, i, j) && NotAfter(rows, i, j)
    ensures Rank(rows, i) < Rank(rows, j)
  {
    var (a, b) := (RankSet(rows, i), RankSet(rows, j));
    assert a <= b;
    assert j in b && j !in a;
    SubsetSize(a, b);
  }

  lemma RanksDiffer(rows: seq<Row>, i: int, j: int)
    requires 0 <= i < |rows| && 0 <= j < |rows| && i != j && SameSession(rows, i, j)
    ensures Rank(rows, i) != Rank(rows, j)
    ensures Rank(rows, i) < Rank(rows, j) <==> NotAfter(rows, i, j)
  {
    if NotAfter(rows, i, j) {
      RankOrder(rows, i, j);
    } else {
      RankOrder(rows, j, i);
    }
  }

  lemma RankRange(rows: seq<Row>, i: int)
    requires 0 <= i < |rows|
    ensures 1 <= Rank(rows, i) <= |SessionRows(rows, rows[i].sessionId)|
  {
    assert i in RankSet(rows, i);
    assert RankSet(rows, i) <= SessionRows(rows, rows[i].sessionId);
    SubsetSize(RankSet(rows, i), SessionRows(rows, rows[i].sessionId));
  }

  // Distinct numbers for distinct members: the image is as large as the set.
  lemma {:induction false} ImageSize(rows: seq<Row>, members: set<int>) returns (image: set<int>)
    requires forall i :: i in members ==> 0 <= i < |rows|
    requires forall i, j :: i in members && j in members ==> SameSession(rows, i, j)
    ensures forall k :: k in image <==> exists i :: i in members && Rank(rows, i) == k
    ensures |image| == |members|
  {
    if forall x :: x !in members {
      assert members == {};
      image := {};
    } else {
      var x :| x in members;
      var rest := ImageSize(rows, members - {x});
      image := rest + {Rank(rows, x)};
      if Rank(rows, x) in rest {
        var i :| i in members - {x} && Rank(rows, i) == Rank(rows, x);
        RanksDiffer(rows, i, x);
      }
    }
  }

  // Each of 1..n is the rank of some row of the session.
  lemma RankOnto(rows: seq<Row>, sessionId: string, k: int) returns (i: int)
    requires 1 <= k <= |SessionRows(rows, sessionId)|
    ensures 0 <= i < |rows| && rows[i].sessionId == sessionId && Rank(rows, i) == k
  {
    var members := SessionRows(rows, sessionId);
    var image := ImageSize(rows, members);
    var numbers := Range(1, |members|);
    forall r | r in image
      ensures r in numbers
    {
      var j :| j in members && Rank(rows, j) == r;
      RankRange(rows, j);
    }
    SubsetSize(image, numbers);
    assert k in image;
    i :| i in members && Rank(rows, i) == k;
  }

  // Rows before i have their new numbers, the others still their old ones.
  predicate Halfway(rows: seq<Row>, updated: seq<Row>, i: int) {
    && 0 <= i < |rows| && SameRows(updated, rows)
    && (forall p :: 0 <= p < i ==> updated[p].seqNo == Some(Rank(rows, p)))
    && (forall p :: i <= p < |rows| ==> updated[p] == rows[p])
  }

  lemma ClashShows(rows: seq<Row>, updated: seq<Row>, i: int, j: int)
    requires Halfway(rows, updated, i) && 0 <= j < |updated| && Clashes(updated, i, j, Rank(rows, i))
    ensures !NoClash(rows)
  {
    hide Rank;
    if j < i {
      RanksDiffer(rows, i, j);
    } else {
      assert SameSession(rows, i, j) && !ClearAhead(rows, i);
    }
  }

  lemma NoClashAhead(rows: seq<Row>, updated: seq<Row>, i: int)
    requires Halfway(rows, updated, i)
    requires forall j :: 0 <= j < |updated| ==> !Clashes(updated, i, j, Rank(rows, i))
    ensures ClearAhead(rows, i)
  {
    hide Rank;
    forall q | i < q < |rows| && SameSession(rows, i, q)
      ensures rows[q].seqNo != Some(Rank(rows, i))
    {
      assert !Clashes(updated, i, q, Rank(rows, i));
    }
  }

  lemma RanksIgnoreNumbers(a: seq<Row>, b: seq<Row>)
    requires SameRows(a, b)
    ensures forall i :: 0 <= i < |a| ==> Rank(a, i) == Rank(b, i)
  {
    forall i | 0 <= i < |a|
      ensures Rank(a, i) == Rank(b, i)
    {
      RankIgnoresNumbers(a, b, i);
    }
  }

  lemma RankIgnoresNumbers(a: seq<Row>, b: seq<Row>, i: int)
    requires SameRows(a, b) && 0 <= i < |a|
    ensures Rank(a, i) == Rank(b, i)
  {
    assert forall j :: 0 <= j < |a| ==> NotAfter(a, j, i) == NotAfter(b, j, i);
    assert RankSet(a, i) == RankSet(b, i);
  }

  // ----- the table

  class EventTable {
    var rows: seq<Row>
    var uniqueIndex: bool

    constructor ()
      ensures rows == [] && !uniqueIndex
    {
      rows := [];
      uniqueIndex := false;
    }

    // The last statement of the start-up script. When the index rejects a row the statement
    // is rolled back and start-up fails.
    method Renumber() returns (ok: bool)
      modifies this
      ensures ok <==> (old(uniqueIndex) ==> NoClash(old(rows)))
      ensures ok ==> uniqueIndex && SameRows(rows, old(rows)) && Numbered(rows)
      ensures !ok ==> rows == old(rows) && uniqueIndex == old(uniqueIndex)
    {
      hide Rank, NotAfter, Clashes, ClearAhead;
      ghost var before := rows;
      var updated := rows;
      var i := 0;
      while i < |updated|
        modifies {}
        invariant 0 <= i <= |updated| && SameRows(updated, before)
        invariant forall p :: 0 <= p < i ==> updated[p].seqNo == Some(Rank(before, p))
        invariant forall p :: i <= p < |updated| ==> updated[p] == before[p]
        invariant uniqueIndex ==> forall p :: 0 <= p < i ==> ClearAhead(before, p)
      {
        RankIgnoresNumbers(updated, before, i);
        var number := Rank(updated, i);
        if uniqueIndex && exists j :: 0 <= j < |updated| && Clashes(updated, i, j, number) {
          ghost var j :| 0 <= j < |updated| && Clashes(updated, i, j, number);
          ClashShows(before, updated, i, j);
          return false;
        }
        if uniqueIndex {
          NoClashAhead(before, updated, i);
        }
        updated := updated[i := updated[i].(seqNo := Some(number))];
        i := i + 1;
      }
      RanksIgnoreNumbers(updated, before);
      rows := updated;
      uniqueIndex := true;
      ok := true;
    }

    // The insert statements of the start-up script, for the events that are not in the table yet.
    method InsertMissing(events: seq<NewEvent>)
      modifies this
      ensures rows == WithInserted(old(rows), events) && uniqueIndex == old(uniqueIndex)
    {
      for i := 0 to |events|
        invariant rows == WithInserted(old(rows), events[..i]) && uniqueIndex == old(uniqueIndex)
      {
        assert events[..i + 1][..i] == events[..i];
        rows := rows + [Row(events[i].id, events[i].sessionId, events[i].createdAt, None)];
      }
      assert events[..|events|] == events;
    }

    // The insert statement of mcp-service.ts and approvals.ts.
    method Append(id: string, sessionId: string, createdAt: int) returns (seqNo: int)
      modifies this
      ensures rows == Appended(old(rows), id, sessionId, createdAt) && seqNo == NextSeq(old(rows), sessionId)
      ensures uniqueIndex == old(uniqueIndex)
    {
      var max: Option<int> := None;
      for i := 0 to |rows|
        modifies {}
        invariant max == MaxSeq(rows[..i], sessionId)
      {
        assert rows[..i + 1][..i] == rows[..i];
        if rows[i].sessionId == sessionId && rows[i].seqNo.Some? && (max.None? || max.value < rows[i].seqNo.value) {
          max := rows[i].seqNo;
        }
      }
      assert rows[..|rows|] == rows;
      seqNo := (if max.None? then 0 else max.value) + 1;
      rows := rows + [Row(id, sessionId, createdAt, Some(seqNo))];
    }
  }

  // MAX(seq) over the session's rows; NULL when there is none.
  function MaxSeq(rows: seq<Row>, sessionId: string): (m: Option<int>)
    ensures m.Some? ==> exists i :: 0 <= i < |rows| && rows[i].sessionId == sessionId && rows[i].seqNo == m
    ensures forall i :: 0 <= i < |rows| && rows[i].sessionId == sessionId && rows[i].seqNo.Some? ==>
              m.Some? && rows[i].seqNo.value <= m.value
  {
    if rows == [] then None
    else
      var (rest, last) := (MaxSeq(rows[..|rows| - 1], sessionId), rows[|rows| - 1]);
      if last.sessionId == sessionId && last.seqNo.Some? && (rest.None? || rest.value < last.seqNo.value)
      then last.seqNo else rest
  }

  function NextSeq(rows: seq<Row>, sessionId: string): int {
    var max := MaxSeq(rows, sessionId);
    (if max.None? then 0 else max.value) + 1
  }

  function Appended(rows: seq<Row>, id: string, sessionId: string, createdAt: int): seq<Row> {
    rows + [Row(id, sessionId, createdAt, Some(NextSeq(rows, sessionId)))]
  }

  // ----- what a start does to the table

  // Some row of the session carries the number k.
  predicate Holds(rows: seq<Row>, sessionId: string, k: int) {
    exists i :: 0 <= i < |rows| && rows[i].sessionId == sessionId && rows[i].seqNo == Some(k)
  }

  // Every session of n rows holds each of the numbers 1..n, in whatever order.
  ghost predicate Dense(rows: seq<Row>) {
    forall sessionId: string, k: int :: 1 <= k <= |SessionRows(rows, sessionId)| ==> Holds(rows, sessionId, k)
  }

  // A start numbers each session exactly 1..n ...
  lemma NumberedIsDense(rows: seq<Row>)
    requires Numbered(rows)
    ensures Dense(rows)
    ensures forall i :: 0 <= i < |rows| ==>
              rows[i].seqNo.Some? && 1 <= rows[i].seqNo.value <= |SessionRows(rows, rows[i].sessionId)|
  {
    forall sessionId, k | 1 <= k <= |SessionRows(rows, sessionId)|
      ensures Holds(rows, sessionId, k)
    {
      var i := RankOnto(rows, sessionId, k);
    }
    forall i | 0 <= i < |rows|
      ensures 1 <= Rank(rows, i) <= |SessionRows(rows, rows[i].sessionId)|
    {
      RankRange(rows, i);
    }
  }

  // ... in the order of (createdAt, rowid).
  lemma NumberedInOrder(rows: seq<Row>, i: int, j: int)
    requires Numbered(rows) && 0 <= i < |rows| && 0 <= j < |rows| && i != j && SameSession(rows, i, j)
    ensures rows[i].seqNo.value < rows[j].seqNo.value <==>
            rows[i].createdAt < rows[j].createdAt || (rows[i].createdAt == rows[j].createdAt && i < j)
  {
    RanksDiffer(rows, i, j);
  }

  // A numbered table is a fixed point: with or without the index the next start succeeds and
  // gives every row the number it has.
  lemma RenumberingAgainIsIdentity(rows: seq<Row>, again: seq<Row>)
    requires Numbered(rows) && SameRows(again, rows) && Numbered(again)
    ensures NoClash(rows) && again == rows
  {
    forall p, q | 0 <= p < q < |rows| && SameSession(rows, p, q)
      ensures rows[q].seqNo != Some(Rank(rows, p))
    {
      RanksDiffer(rows, p, q);
    }
    forall i | 0 <= i < |rows|
      ensures again[i] == rows[i]
    {
      RankIgnoresNumbers(again, rows, i);
    }
  }

  // Once the index exists, a start either changes nothing at all or fails: on a dense table
  // the renumbering gets through exactly when every row already has its rank.
  lemma StartIsIdentityOrFails(rows: seq<Row>)
    requires Dense(rows)
    ensures NoClash(rows) <==> Numbered(rows)
  {
    if Numbered(rows) {
      RenumberingAgainIsIdentity(rows, rows);
    }
    if NoClash(rows) {
      forall p | 0 <= p < |rows|
        ensures rows[p].seqNo == Some(Rank(rows, p))
      {
        NoClashFixes(rows, p);
      }
    }
  }

  lemma {:induction false} NoClashFixes(rows: seq<Row>, p: int)
    requires Dense(rows) && NoClash(rows) && 0 <= p < |rows|
    ensures rows[p].seqNo == Some(Rank(rows, p))
    decreases p
  {
    RankRange(rows, p);
    assert ClearAhead(rows, p);
    assert Holds(rows, rows[p].sessionId, Rank(rows, p));
    var q :| 0 <= q < |rows| && rows[q].sessionId == rows[p].sessionId && rows[q].seqNo == Some(Rank(rows, p));
    if q < p {
      NoClashFixes(rows, q);
      RanksDiffer(rows, q, p);
    } else if q > p {
      assert SameSession(rows, p, q);
    }
  }

  // ----- appending

  lemma AppendedSession(rows: seq<Row>, id: string, sessionId: string, createdAt: int, other: string)
    ensures SessionRows(Appended(rows, id, sessionId, createdAt), other) ==
            SessionRows(rows, other) + (if other == sessionId then {|rows|} else {})
    ensures |SessionRows(Appended(rows, id, sessionId, createdAt), other)| ==
            |SessionRows(rows, other)| + (if other == sessionId then 1 else 0)
  {
    assert |rows| !in SessionRows(rows, other);
  }

  // No number exceeds the session's count: together with density, each of 1..n once.
  ghost predicate Filled(rows: seq<Row>) {
    && Dense(rows)
    && forall i :: 0 <= i < |rows| ==>
         rows[i].seqNo.Some? && 1 <= rows[i].seqNo.value <= |SessionRows(rows, rows[i].sessionId)|
  }

  // MAX(seq) of such a session is its number of rows, so the next number is one more.
  lemma NextSeqCounts(rows: seq<Row>, sessionId: string)
    requires Filled(rows)
    ensures NextSeq(rows, sessionId) == |SessionRows(rows, sessionId)| + 1
  {
    var n := |SessionRows(rows, sessionId)|;
    if n > 0 {
      assert Holds(rows, sessionId, n);
    } else {
      assert forall i :: 0 <= i < |rows| && rows[i].sessionId == sessionId ==> i in SessionRows(rows, sessionId);
    }
  }

  // The new row is not older than anything its session holds.
  predicate InOrder(rows: seq<Row>, sessionId: string, createdAt: int) {
    forall i :: 0 <= i < |rows| && rows[i].sessionId == sessionId ==> rows[i].createdAt <= createdAt
  }

  lemma NewRowShiftsRank(rows: seq<Row>, row: Row, i: int)
    requires 0 <= i < |rows|
    ensures Rank(rows + [row], i) ==
            Rank(rows, i) + (if rows[i].sessionId == row.sessionId && row.createdAt < rows[i].createdAt then 1 else 0)
  {
    var after := rows + [row];
    var (before, now) := (RankSet(rows, i), RankSet(after, i));
    forall j | 0 <= j < |after|
      ensures j in now <==> j in before || (j == |rows| && NotAfter(after, j, i))
    {
      NewRowNotAfter(rows, row, j, i);
    }
    NewRowNotAfter(rows, row, |rows|, i);
    hide NotAfter, RankSet;
    if |rows| in now {
      assert now == before + {|rows|};
    } else {
      assert now == before;
    }
  }

  lemma NewRowNotAfter(rows: seq<Row>, row: Row, j: int, i: int)
    requires 0 <= i < |rows| && 0 <= j <= |rows|
    ensures j < |rows| ==> NotAfter(rows + [row], j, i) == NotAfter(rows, j, i)
    ensures NotAfter(rows + [row], |rows|, i) <==>
            rows[i].sessionId == row.sessionId && row.createdAt < rows[i].createdAt
    ensures |rows| !in RankSet(rows, i)
  {
  }

  lemma NewRowRank(rows: seq<Row>, row: Row)
    ensures Rank(rows + [row], |rows|) == |SessionRows(rows, row.sessionId)| + 1 <==>
            InOrder(rows, row.sessionId, row.createdAt)
  {
    var after := rows + [row];
    var n := |rows|;
    var members := SessionRows(rows, row.sessionId);
    forall j | 0 <= j < n
      ensures NotAfter(after, j, n) <==> j in members && rows[j].createdAt <= row.createdAt
    {
      assert after[j] == rows[j] && after[n] == row;
    }
    assert NotAfter(after, n, n);
    hide NotAfter;
    assert RankSet(after, n) <= members + {n};
    SubsetSize(RankSet(after, n), members + {n});
    if InOrder(rows, row.sessionId, row.createdAt) {
      assert RankSet(after, n) == members + {n};
    } else {
      var j :| 0 <= j < n && rows[j].sessionId == row.sessionId && row.createdAt < rows[j].createdAt;
      assert j in members && j !in RankSet(after, n);
    }
  }

  // Appending by MAX(seq) + 1 keeps a table numbered exactly when the row arrives in order.
  lemma AppendKeepsNumbering(rows: seq<Row>, id: string, sessionId: string, createdAt: int)
    requires Numbered(rows)
    ensures Numbered(Appended(rows, id, sessionId, createdAt)) <==> InOrder(rows, sessionId, createdAt)
  {
    var row := Row(id, sessionId, createdAt, Some(NextSeq(rows, sessionId)));
    var after := rows + [row];
    hide Rank, NextSeq, SessionRows;
    NewRowNumbered(rows, row);
    if InOrder(rows, sessionId, createdAt) {
      forall i | 0 <= i < |rows|
        ensures after[i].seqNo == Some(Rank(after, i))
      {
        OldRowKeepsRank(rows, row, i);
      }
    }
  }

  lemma NewRowNumbered(rows: seq<Row>, row: Row)
    requires Numbered(rows) && row.seqNo == Some(NextSeq(rows, row.sessionId))
    ensures row.seqNo == Some(Rank(rows + [row], |rows|)) <==> InOrder(rows, row.sessionId, row.createdAt)
  {
    hide Rank, NextSeq, SessionRows;
    NumberedIsDense(rows);
    NextSeqCounts(rows, row.sessionId);
    NewRowRank(rows, row);
  }

  lemma OldRowKeepsRank(rows: seq<Row>, row: Row, i: int)
    requires Numbered(rows) && InOrder(rows, row.sessionId, row.createdAt) && 0 <= i < |rows|
    ensures (rows + [row])[i].seqNo == Some(Rank(rows + [row], i))
  {
    hide Rank;
    NewRowShiftsRank(rows, row, i);
  }

  lemma AppendKeepsFilled(rows: seq<Row>, id: string, sessionId: string, createdAt: int)
    requires Filled(rows)
    ensures Filled(Appended(rows, id, sessionId, createdAt))
  {
    hide SessionRows;
    var after := Appended(rows, id, sessionId, createdAt);
    NextSeqCounts(rows, sessionId);
    forall s, k | 1 <= k <= |SessionRows(after, s)|
      ensures Holds(after, s, k)
    {
      AppendedSession(rows, id, sessionId, createdAt, s);
      if s == sessionId && k == |SessionRows(rows, s)| + 1 {
        assert after[|rows|].seqNo == Some(k);
      } else {
        StillHolds(rows, after[|rows|], s, k);
      }
    }
    forall i | 0 <= i < |after|
      ensures after[i].seqNo.Some? && 1 <= after[i].seqNo.value <= |SessionRows(after, after[i].sessionId)|
    {
      AppendedSession(rows, id, sessionId, createdAt, after[i].sessionId);
    }
  }

  lemma StillHolds(rows: seq<Row>, row: Row, sessionId: string, k: int)
    requires Holds(rows, sessionId, k)
    ensures Holds(rows + [row], sessionId, k)
  {
    var j :| 0 <= j < |rows| && rows[j].sessionId == sessionId && rows[j].seqNo == Some(k);
    assert (rows + [row])[j] == rows[j];
  }

  // Numbers once out of rank stay out of rank however much is appended after them.
  lemma AppendNeverRepairs(rows: seq<Row>, id: string, sessionId: string, createdAt: int)
    requires Filled(rows) && Numbered(Appended(rows, id, sessionId, createdAt))
    ensures Numbered(rows)
  {
    var after := Appended(rows, id, sessionId, createdAt);
    var n := |rows|;
    forall i | 0 <= i < n
      ensures rows[i].seqNo == Some(Rank(rows, i))
    {
      NewRowShiftsRank(rows, after[n], i);
      assert after[i].seqNo == Some(Rank(after, i)) && after[n].seqNo == Some(Rank(after, n));
      if rows[i].sessionId == sessionId && createdAt < rows[i].createdAt {
        RankOrder(after, n, i);
      }
    }
  }

  // ----- from one start to the next

  datatype NewEvent = NewEvent(id: string, sessionId: string, createdAt: int)

  function AppendAll(rows: seq<Row>, events: seq<NewEvent>): seq<Row>
    decreases |events|
  {
    if events == [] then rows
    else AppendAll(Appended(rows, events[0].id, events[0].sessionId, events[0].createdAt), events[1..])
  }

  predicate AllInOrder(rows: seq<Row>, events: seq<NewEvent>)
    decreases |events|
  {
    events == [] ||
    (InOrder(rows, events[0].sessionId, events[0].createdAt) &&
     AllInOrder(Appended(rows, events[0].id, events[0].sessionId, events[0].createdAt), events[1..]))
  }

  lemma {:induction false} AppendAllNumbered(rows: seq<Row>, events: seq<NewEvent>)
    requires Filled(rows)
    ensures Filled(AppendAll(rows, events))
    ensures Numbered(AppendAll(rows, events)) <==> Numbered(rows) && AllInOrder(rows, events)
    decreases |events|
  {
    hide Filled, Numbered, InOrder;
    if events != [] {
      var e := events[0];
      var next := Appended(rows, e.id, e.sessionId, e.createdAt);
      AppendKeepsFilled(rows, e.id, e.sessionId, e.createdAt);
      AppendAllNumbered(next, events[1..]);
      if Numbered(next) {
        AppendNeverRepairs(rows, e.id, e.sessionId, e.createdAt);
      }
      if Numbered(rows) {
        AppendKeepsNumbering(rows, e.id, e.sessionId, e.createdAt);
      }
    }
  }

  // After a start and any number of appended events, the next start gets through exactly when
  // every event arrived in (createdAt, rowid) order, and then it changes nothing.
  lemma {:induction false} NextStart(rows: seq<Row>, events: seq<NewEvent>)
    requires Numbered(rows)
    ensures NoClash(AppendAll(rows, events)) <==> AllInOrder(rows, events)
    ensures NoClash(AppendAll(rows, events)) <==> Numbered(AppendAll(rows, events))
  {
    NumberedIsDense(rows);
    AppendAllNumbered(rows, events);
    StartIsIdentityOrFails(AppendAll(rows, events));
  }

  // ----- rows the start itself inserts

  // Right before the renumbering a start copies events of other tables that are not in this one
  // yet, without a number.
  function WithInserted(rows: seq<Row>, events: seq<NewEvent>): seq<Row> {
    if events == [] then rows
    else
      var last := events[|events| - 1];
      WithInserted(rows, events[..|events| - 1]) + [Row(last.id, last.sessionId, last.createdAt, None)]
  }

  // How many of them move a row of the table up.
  function Earlier(events: seq<NewEvent>, row: Row): nat {
    if events == [] then 0
    else
      var last := events[|events| - 1];
      Earlier(events[..|events| - 1], row) +
        (if last.sessionId == row.sessionId && last.createdAt < row.createdAt then 1 else 0)
  }

  lemma {:induction false} InsertedRows(rows: seq<Row>, events: seq<NewEvent>, i: int)
    requires 0 <= i < |rows|
    ensures |WithInserted(rows, events)| == |rows| + |events| && WithInserted(rows, events)[i] == rows[i]
    ensures Rank(WithInserted(rows, events), i) == Rank(rows, i) + Earlier(events, rows[i])
  {
    hide Rank;
    if events != [] {
      var (init, last) := (events[..|events| - 1], events[|events| - 1]);
      InsertedRows(rows, init, i);
      NewRowShiftsRank(WithInserted(rows, init), Row(last.id, last.sessionId, last.createdAt, None), i);
    }
  }

  lemma {:induction false} InsertedUnnumbered(rows: seq<Row>, events: seq<NewEvent>, q: int)
    requires |rows| <= q < |rows| + |events|
    ensures |WithInserted(rows, events)| == |rows| + |events| && WithInserted(rows, events)[q].seqNo == None
  {
    var init := events[..|events| - 1];
    if q < |rows| + |init| {
      InsertedUnnumbered(rows, init, q);
    } else {
      InsertedLength(rows, init);
    }
  }

  lemma {:induction false} InsertedLength(rows: seq<Row>, events: seq<NewEvent>)
    ensures |WithInserted(rows, events)| == |rows| + |events|
  {
    if events != [] {
      InsertedLength(rows, events[..|events| - 1]);
    }
  }

  // No row holds the number to which an earlier row of its session is moved.
  predicate Undisturbed(rows: seq<Row>, events: seq<NewEvent>) {
    forall p, q :: 0 <= p < q < |rows| && SameSession(rows, p, q) ==>
      rows[q].seqNo != Some(Rank(rows, p) + Earlier(events, rows[p]))
  }

  // Whatever the table and whatever is inserted: that is when the start gets through.
  lemma StartInserting(rows: seq<Row>, events: seq<NewEvent>)
    ensures NoClash(WithInserted(rows, events)) <==> Undisturbed(rows, events)
  {
    hide Rank, WithInserted, Earlier;
    var all := WithInserted(rows, events);
    InsertedLength(rows, events);
    forall i | 0 <= i < |rows|
      ensures all[i] == rows[i] && Rank(all, i) == Rank(rows, i) + Earlier(events, rows[i])
    {
      InsertedRows(rows, events, i);
    }
    forall q | |rows| <= q < |all|
      ensures all[q].seqNo == None
    {
      InsertedUnnumbered(rows, events, q);
    }
    if NoClash(all) {
      forall p, q | 0 <= p < q < |rows| && SameSession(rows, p, q)
        ensures rows[q].seqNo != Some(Rank(rows, p) + Earlier(events, rows[p]))
      {
        assert SameSession(all, p, q) && ClearAhead(all, p);
      }
    }
    if Undisturbed(rows, events) {
      forall p, q | 0 <= p < q < |all| && SameSession(all, p, q)
        ensures all[q].seqNo != Some(Rank(all, p))
      {
        assert q < |rows| ==> SameSession(rows, p, q);
      }
    }
  }

  // The row that holds the number `moved`, if any, stands before row p.
  ghost predicate HeldBefore(rows: seq<Row>, p: int, moved: int)
    requires 0 <= p < |rows|
  {
    exists q :: 0 <= q < p && SameSession(rows, p, q) && Rank(rows, q) == moved
  }

  // A row that inserted ones precede gets a number that no row behind it still holds: one beyond
  // the session's, or one that a row before it has given up.
  ghost predicate MovesFreely(rows: seq<Row>, p: int, shift: nat)
    requires 0 <= p < |rows|
  {
    shift > 0 ==>
      var moved := Rank(rows, p) + shift;
      moved > |SessionRows(rows, rows[p].sessionId)| || HeldBefore(rows, p, moved)
  }

  // From any numbered table, whatever order its rows stand in.
  lemma StartInsertingNumbered(rows: seq<Row>, events: seq<NewEvent>)
    requires Numbered(rows)
    ensures NoClash(WithInserted(rows, events)) <==>
            forall p :: 0 <= p < |rows| ==> MovesFreely(rows, p, Earlier(events, rows[p]))
  {
    hide Rank, WithInserted, Earlier, SessionRows, MovesFreely;
    StartInserting(rows, events);
    forall p | 0 <= p < |rows|
      ensures (forall q :: p < q < |rows| && SameSession(rows, p, q) ==>
                 rows[q].seqNo != Some(Rank(rows, p) + Earlier(events, rows[p])))
              <==> MovesFreely(rows, p, Earlier(events, rows[p]))
    {
      MovedRow(rows, p, Earlier(events, rows[p]));
    }
  }

  lemma MovedRow(rows: seq<Row>, p: int, shift: nat)
    requires Numbered(rows) && 0 <= p < |rows|
    ensures (forall q :: p < q < |rows| && SameSession(rows, p, q) ==> rows[q].seqNo != Some(Rank(rows, p) + shift))
            <==> MovesFreely(rows, p, shift)
  {
    hide Rank, SessionRows;
    var moved := Rank(rows, p) + shift;
    RankRange(rows, p);
    forall q | p < q < |rows| && SameSession(rows, p, q)
      ensures Rank(rows, q) <= |SessionRows(rows, rows[p].sessionId)| && Rank(rows, q) != Rank(rows, p)
    {
      RankRange(rows, q);
      RanksDiffer(rows, p, q);
    }
    if moved <= |SessionRows(rows, rows[p].sessionId)| {
      var q := RankOnto(rows, rows[p].sessionId, moved);
      HolderOf(rows, p, q, moved);
    }
  }

  // Only one row of a session holds a number.
  lemma HolderOf(rows: seq<Row>, p: int, q: int, moved: int)
    requires Numbered(rows) && 0 <= p < |rows| && 0 <= q < |rows| && SameSession(rows, p, q) && Rank(rows, q) == moved
    ensures HeldBefore(rows, p, moved) <==> q < p
    ensures forall r :: 0 <= r < |rows| && SameSession(rows, p, r) && rows[r].seqNo == Some(moved) ==> r == q
  {
    hide Rank;
    forall r | 0 <= r < |rows| && SameSession(rows, p, r) && Rank(rows, r) == moved
      ensures r == q
    {
      if r != q {
        RanksDiffer(rows, r, q);
      }
    }
    assert rows[q].seqNo == Some(moved);
  }

  // From one start to the next, events appended in order and others inserted by the start: it
  // gets through exactly if every row that an inserted one precedes moves freely.
  lemma NextStartInserting(rows: seq<Row>, events: seq<NewEvent>, inserted: seq<NewEvent>)
    requires Numbered(rows) && AllInOrder(rows, events)
    ensures var stored := AppendAll(rows, events);
            NoClash(WithInserted(stored, inserted)) <==>
            forall p :: 0 <= p < |stored| ==> MovesFreely(stored, p, Earlier(inserted, stored[p]))
  {
    hide Rank, AppendAll, Earlier, WithInserted, MovesFreely;
    NumberedIsDense(rows);
    AppendAllNumbered(rows, events);
    StartInsertingNumbered(AppendAll(rows, events), inserted);
  }
}
