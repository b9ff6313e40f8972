/**
  Keyset pagination, newest first: snapshot history pages by storage id, artifact lineage by storage
  id and position. Both use one lexicographic key; a snapshot row has position 0.
 */
module Paging {
  import opened Common

  datatype Key = Key(id: int, position: int)

  /** `bytes` is the encoded length; `headroom` what must still be free before decoding the row. */
  datatype Row<T> = Row(key: Key, bytes: nat, headroom: nat, value: T)

  datatype PageError = RowTooLarge | CursorStuck

  predicate Before(a: Key, b: Key) {
    a.id < b.id || (a.id == b.id && a.position < b.position)
  }

  /** Rows are only ever appended, with growing keys and positive ids. */
  predicate Table<T>(rows: seq<Row<T>>) {
    && (forall i, j :: 0 <= i < j < |rows| ==> Before(rows[i].key, rows[j].key))
    && (forall i :: 0 <= i < |rows| ==> rows[i].key.id > 0)
  }

  predicate Selected<T(!new)>(row: Row<T>, matching: T -> bool, cursor: Option<Key>) {
    matching(row.value) && (cursor.None? || Before(row.key, cursor.value))
  }

  /** The query: matching rows below the cursor, newest first. */
  function Descending<T(!new)>(rows: seq<Row<T>>, matching: T -> bool, cursor: Option<Key>): seq<Row<T>> {
    if rows == [] then []
    else (if Selected(rows[|rows| - 1], matching, cursor) then [rows[|rows| - 1]] else [])
         + Descending(rows[..|rows| - 1], matching, cursor)
  }

  predicate Oversized<T>(row: Row<T>) {
    PAGE_ENVELOPE_RESERVE + row.bytes + 1 > MAX_PAGE_BYTES || PAGE_ENVELOPE_RESERVE + row.headroom > MAX_PAGE_BYTES
  }

  // ---------------------------------------------------------------- one page

  function Used<T>(page: seq<Row<T>>): nat {
    if page == [] then PAGE_ENVELOPE_RESERVE else Used(page[..|page| - 1]) + page[|page| - 1].bytes + 1
  }

  lemma UsedGrows<T>(page: seq<Row<T>>)
    ensures page == [] ==> Used(page) == PAGE_ENVELOPE_RESERVE
    ensures page != [] ==> Used(page) == Used(page[..|page| - 1]) + page[|page| - 1].bytes + 1
  {
  }

  /** The row does not fit behind the page any more. */
  predicate Overflows<T>(page: seq<Row<T>>, row: Row<T>) {
    row.headroom + Used(page) > MAX_PAGE_BYTES || Used(page) + row.bytes + 1 > MAX_PAGE_BYTES
  }

  /** Fill a page up to the limit and the byte budget; `more` says whether rows are left. */
  method FillPage<T(!new)>(rows: seq<Row<T>>, limit: nat) returns (r: Result<(seq<Row<T>>, bool), PageError>)
    requires limit >= 1
    ensures r.Err? <==> rows != [] && Oversized(rows[0])
    ensures r.Ok? ==> r.value.0 <= rows && |r.value.0| <= limit && (r.value.1 <==> |r.value.0| < |rows|)
    ensures r.Ok? && rows != [] ==> r.value.0 != []
    ensures r.Ok? ==> forall i :: 0 <= i < |r.value.0| ==> !Oversized(r.value.0[i])
    ensures r.Ok? ==> Used(r.value.0) <= MAX_PAGE_BYTES || r.value.0 == []
    ensures r.Ok? && r.value.1 ==> |r.value.0| == limit || Overflows(r.value.0, rows[|r.value.0|])
  {
    hide Used;
    UsedGrows<T>([]);
    var fetched := rows[..Min(|rows|, limit + 1)];  // the statement's LIMIT
    var page: seq<Row<T>>, bytes := [], PAGE_ENVELOPE_RESERVE;
    while |page| < |fetched|
      invariant page <= fetched && |page| <= limit && bytes == Used(page) >= PAGE_ENVELOPE_RESERVE
      invariant page == [] || bytes <= MAX_PAGE_BYTES
      invariant forall i :: 0 <= i < |page| ==> !Oversized(page[i])
      decreases |fetched| - |page|
    {
      if |page| == limit {
        return Ok((page, true));
      }
      var row := fetched[|page|];
      if row.headroom + bytes > MAX_PAGE_BYTES || bytes + row.bytes + 1 > MAX_PAGE_BYTES {
        if page == [] {
          return Err(RowTooLarge);
        }
        return Ok((page, true));
      }
      bytes := bytes + row.bytes + 1;
      UsedGrows(page + [row]);
      page := page + [row];
    }
    return Ok((page, false));
  }

  // ---------------------------------------------------------------- following the cursor

  lemma {:induction false} DescendingRows<T(!new)>(rows: seq<Row<T>>, matching: T -> bool, cursor: Option<Key>, i: nat)
    requires i < |Descending(rows, matching, cursor)|
    ensures var d := Descending(rows, matching, cursor);
            Selected(d[i], matching, cursor) && exists j :: 0 <= j < |rows| && rows[j] == d[i]
  {
    hide Selected;
    var n := |rows| - 1;
    var rest := Descending(rows[..n], matching, cursor);
    var head := if Selected(rows[n], matching, cursor) then 1 else 0;
    if i >= head {
      assert Descending(rows, matching, cursor)[i] == rest[i - head];
      DescendingRows(rows[..n], matching, cursor, i - head);
      var j :| 0 <= j < n && rows[..n][j] == rest[i - head];
      assert rows[j] == rest[i - head];
    }
  }

  /** The query's answer holds exactly the selected rows. */
  lemma {:induction false} DescendingMembers<T(!new)>(rows: seq<Row<T>>, matching: T -> bool, cursor: Option<Key>,
                                                      row: Row<T>)
    ensures row in Descending(rows, matching, cursor) <==> row in rows && Selected(row, matching, cursor)
  {
    hide Selected;
    if rows == [] {
    } else {
      var n := |rows| - 1;
      DescendingMembers(rows[..n], matching, cursor, row);
      assert rows == rows[..n] + [rows[n]];
    }
  }

  /** Its keys fall strictly, so it holds each row once. */
  lemma {:induction false} DescendingFalls<T(!new)>(rows: seq<Row<T>>, matching: T -> bool, cursor: Option<Key>, i: nat,
                                                    j: nat)
    requires Table(rows) && i < j < |Descending(rows, matching, cursor)|
    ensures Before(Descending(rows, matching, cursor)[j].key, Descending(rows, matching, cursor)[i].key)
  {
    hide Selected, Before;
    var n := |rows| - 1;
    var d, rest := Descending(rows, matching, cursor), Descending(rows[..n], matching, cursor);
    var head := if Selected(rows[n], matching, cursor) then 1 else 0;
    assert d[j] == rest[j - head];
    if i >= head {
      assert d[i] == rest[i - head];
      DescendingFalls(rows[..n], matching, cursor, i - head, j - head);
    } else {
      DescendingRows(rows[..n], matching, cursor, j - head);
      var k :| 0 <= k < n && rows[..n][k] == rest[j - head];
      assert Before(rows[k].key, rows[n].key);
    }
  }

  lemma DescendingStep<T(!new)>(rows: seq<Row<T>>, matching: T -> bool, cursor: Option<Key>)
    ensures rows == [] ==> Descending(rows, matching, cursor) == []
    ensures rows != [] ==>
      var n := |rows| - 1;
      Descending(rows, matching, cursor)
        == (if Selected(rows[n], matching, cursor) then [rows[n]] else []) + Descending(rows[..n], matching, cursor)
  {
  }

  lemma Excluded<T(!new)>(row: Row<T>, matching: T -> bool, key: Key)
    requires key == row.key || Before(key, row.key)
    ensures !Selected(row, matching, Some(key))
  {
  }

  lemma BelowCursor<T(!new)>(row: Row<T>, matching: T -> bool, cursor: Option<Key>)
    requires Selected(row, matching, cursor)
    ensures cursor.Some? ==> Before(row.key, cursor.value)
  {
  }

  /** Restarting below the k-th row continues exactly behind it. */
  lemma {:induction false} ContinueBehind<T(!new)>(rows: seq<Row<T>>, matching: T -> bool, cursor: Option<Key>, k: nat)
    requires Table(rows) && 1 <= k <= |Descending(rows, matching, cursor)|
    ensures var d := Descending(rows, matching, cursor);
            Descending(rows, matching, Some(d[k - 1].key)) == d[k..]
  {
    hide Selected, Before, Descending;
    DescendingStep(rows, matching, cursor);
    DescendingStep(rows, matching, Some(Descending(rows, matching, cursor)[k - 1].key));
    var n := |rows| - 1;
    var last, prefix := rows[n], rows[..n];
    var d, rest := Descending(rows, matching, cursor), Descending(prefix, matching, cursor);
    var head := if Selected(last, matching, cursor) then 1 else 0;
    if k > head {
      ContinueBehind(prefix, matching, cursor, k - head);
      assert d[k - 1] == rest[k - head - 1] && d[k..] == rest[k - head..];
      DescendingRows(prefix, matching, cursor, k - head - 1);
      var j :| 0 <= j < n && prefix[j] == rest[k - head - 1];
      assert Before(rows[j].key, rows[n].key);
      Excluded(last, matching, rows[j].key);
    } else {
      assert d[k - 1] == last && d[k..] == rest;
      Excluded(last, matching, last.key);
      assert cursor.Some? ==> Before(last.key, cursor.value) by { BelowCursor(last, matching, cursor); }
      BelowLast(prefix, matching, cursor, last.key);
    }
  }

  lemma {:induction false} BelowLast<T(!new)>(rows: seq<Row<T>>, matching: T -> bool, cursor: Option<Key>, key: Key)
    requires forall i :: 0 <= i < |rows| ==> Before(rows[i].key, key)
    requires cursor.Some? ==> Before(key, cursor.value)
    ensures Descending(rows, matching, Some(key)) == Descending(rows, matching, cursor)
  {
    if rows == [] {
    } else {
      var n := |rows| - 1;
      BelowLast(rows[..n], matching, cursor, key);
      assert Before(rows[n].key, key);
    }
  }

  /** Rows inserted later lie above the cursor and are never seen. */
  lemma {:induction false} InsertsInvisible<T(!new)>(rows: seq<Row<T>>, later: seq<Row<T>>, matching: T -> bool,
                                                     cursor: Key)
    requires forall i :: 0 <= i < |later| ==> !Before(later[i].key, cursor)
    ensures Descending(rows + later, matching, Some(cursor)) == Descending(rows, matching, Some(cursor))
    decreases |later|
  {
    if later == [] {
      assert rows + later == rows;
    } else {
      var all, n := rows + later, |later| - 1;
      assert all[|all| - 1] == later[n] && all[..|all| - 1] == rows + later[..n];
      InsertsInvisible(rows, later[..n], matching, cursor);
    }
  }

  /** The last key of a page lies below the page's cursor, and is a positive id. */
  lemma Progress<T(!new)>(rows: seq<Row<T>>, matching: T -> bool, cursor: Option<Key>, k: nat)
    requires Table(rows) && 1 <= k <= |Descending(rows, matching, cursor)|
    ensures var key := Descending(rows, matching, cursor)[k - 1].key;
            key.id > 0 && (cursor.Some? ==> Before(key, cursor.value))
  {
    DescendingRows(rows, matching, cursor, k - 1);
  }

  lemma AppendAbove<T(!new)>(rows: seq<Row<T>>, inserted: seq<Row<T>>, matching: T -> bool, cursor: Option<Key>, k: nat)
    requires Table(rows + inserted) && 1 <= k <= |Descending(rows, matching, cursor)|
    ensures var key := Descending(rows, matching, cursor)[k - 1].key;
            forall i :: 0 <= i < |inserted| ==> !Before(inserted[i].key, key)
  {
    hide Descending;
    DescendingRows(rows, matching, cursor, k - 1);
    var j :| 0 <= j < |rows| && rows[j] == Descending(rows, matching, cursor)[k - 1];
    forall i | 0 <= i < |inserted|
      ensures !Before(inserted[i].key, rows[j].key)
    {
      assert (rows + inserted)[j] == rows[j] && (rows + inserted)[|rows| + i] == inserted[i];
    }
  }

  lemma Advance<T>(all: seq<Row<T>>, visited: seq<Row<T>>, taken: seq<Row<T>>)
    requires visited <= all && taken <= all[|visited|..]
    requires forall i :: 0 <= i < |visited| ==> !Oversized(all[i])
    requires forall i :: 0 <= i < |taken| ==> !Oversized(taken[i])
    ensures visited + taken <= all && all[|visited|..][|taken|..] == all[|visited + taken|..]
    ensures forall i :: 0 <= i < |visited + taken| ==> !Oversized(all[i])
  {
    hide Oversized;
    forall i | 0 <= i < |taken|
      ensures all[|visited| + i] == taken[i]
    {
      assert all[|visited|..][i] == taken[i];
    }
    assert forall i :: |visited| <= i < |visited + taken| ==> all[i] == taken[i - |visited|];
  }

  /** Other writers append any rows with larger keys; a client past the k-th row sees none of them. */
  method InsertRows<T(!new)>(rows: seq<Row<T>>, ghost matching: T -> bool, ghost cursor: Option<Key>, ghost k: nat)
    returns (grown: seq<Row<T>>)
    requires Table(rows) && 1 <= k <= |Descending(rows, matching, cursor)|
    ensures Table(grown) && rows <= grown
    ensures var next := Some(Descending(rows, matching, cursor)[k - 1].key);
            Descending(grown, matching, next) == Descending(rows, matching, next)
  {
    hide Descending, Table, Before;
    var inserted: seq<Row<T>> := *;
    if !Table(rows + inserted) {
      return rows;
    }
    AppendAbove(rows, inserted, matching, cursor, k);
    InsertsInvisible(rows, inserted, matching, Descending(rows, matching, cursor)[k - 1].key);
    return rows + inserted;
  }

  /** Every matching row, newest id first, higher positions first within an id. */
  ghost predicate Complete<T(!new)>(answer: seq<Row<T>>, rows: seq<Row<T>>, matching: T -> bool) {
    && (forall row :: row in answer <==> row in rows && matching(row.value))
    && forall i, j :: 0 <= i < j < |answer| ==>
         || answer[j].key.id < answer[i].key.id
         || (answer[j].key.id == answer[i].key.id && answer[j].key.position < answer[i].key.position)
  }

  lemma AnswerMeans<T(!new)>(rows: seq<Row<T>>, matching: T -> bool)
    requires Table(rows)
    ensures Complete(Descending(rows, matching, None), rows, matching)
  {
    hide Descending;
    forall row ensures row in Descending(rows, matching, None) <==> row in rows && matching(row.value) {
      DescendingMembers(rows, matching, None, row);
    }
    var d := Descending(rows, matching, None);
    forall i, j | 0 <= i < j < |d| ensures Before(d[j].key, d[i].key) {
      DescendingFalls(rows, matching, None, i, j);
    }
  }

  /**
    Follow the continuation cursor to the end while rows keep being inserted. Every matching row
    present at the first page is returned exactly once, newest first, and nothing else; the client's
    progress check never fires, and the traversal fails only on a row that fits no page.
   */
  method Traverse<T(!new)>(initial: seq<Row<T>>, matching: T -> bool, limit: nat)
    returns (r: Result<seq<Row<T>>, PageError>)
    requires Table(initial) && limit >= 1
    ensures r.Ok? ==> r.value == Descending(initial, matching, None)
    ensures r.Ok? ==> Complete(r.value, initial, matching)
    ensures r.Err? ==> r.error == RowTooLarge
    ensures r.Err? <==> exists i ::
              0 <= i < |Descending(initial, matching, None)| && Oversized(Descending(initial, matching, None)[i])
  {
    hide Descending, Oversized, Table, Before, Complete;
    var rows := initial;
    var cursor: Option<Key> := None;
    var visited: seq<Row<T>> := [];
    ghost var all := Descending(initial, matching, None);
    while true
      invariant Table(rows) && initial <= rows
      invariant visited <= all && Descending(rows, matching, cursor) == all[|visited|..]
      invariant cursor == if visited == [] then None else Some(visited[|visited| - 1].key)
      invariant visited == [] ==> rows == initial
      invariant forall i :: 0 <= i < |visited| ==> !Oversized(all[i])
      decreases |all| - |visited|
    {
      ghost var left := Descending(rows, matching, cursor);
      var page := FillPage(Descending(rows, matching, cursor), limit);
      if page.Err? {
        assert left[0] == all[|visited|];
        return Err(RowTooLarge);
      }
      var (taken, more) := page.value;
      Advance(all, visited, taken);
      visited := visited + taken;
      if !more {
        assert visited == all;
        AnswerMeans(initial, matching);
        return Ok(visited);
      }
      var next := taken[|taken| - 1].key;
      assert next == left[|taken| - 1].key;
      Progress(rows, matching, cursor, |taken|);
      if taken == [] || next.id <= 0 || (cursor.Some? && !Before(next, cursor.value)) {
        return Err(CursorStuck);
      }
      ContinueBehind(rows, matching, cursor, |taken|);
      rows := InsertRows(rows, matching, cursor, |taken|);
      cursor := Some(next);
    }
  }
}
