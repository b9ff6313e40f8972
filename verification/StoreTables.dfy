/**
  The snapshot tables and the transaction one page performs on them. Tables are values; a
  transaction or savepoint is a copy that is kept or thrown away.
 */
module StoreTables {
  import opened Common
  import opened Protocol
  import opened ChartIndex
  import Sources

  type Source = Sources.Source

  /** One producer session as seen through one registered source. */
  datatype Stream = Stream(source: string, session: string)

  datatype Key = Key(stream: Stream, sequence: nat)

  /** Sequences `expected` up to but not including `oldest` were evicted before they were pulled. */
  datatype Gap = Gap(stream: Stream, expected: nat, oldest: nat)

  datatype Tables = Tables(rows: seq<Row>, unique: map<Key, nat>, cursors: map<Stream, nat>,
                           gaps: seq<Gap>, heads: map<Reporter, nat>, chart: Index) {
    function Cursor(stream: Stream): nat {
      if stream in cursors then cursors[stream] else 0
    }

    predicate Has(stream: Stream, sequence: nat) {
      Key(stream, sequence) in unique
    }
  }

  ghost const NO_TABLES := Tables([], map[], map[], [], map[], EMPTY)

  function StreamOf(source: Source, page: Page): Stream {
    Stream(source.id, page.session)
  }

  function KeyOf(row: Row): Key {
    Key(Stream(row.source, row.snapshot.session), row.snapshot.sequence)
  }

  // ---------------------------------------------------------------- rows

  /** Latest non-event snapshot per reporter, maintained with every insert. */
  function WithHead(heads: map<Reporter, nat>, row: Row, id: nat): map<Reporter, nat> {
    if row.snapshot.IsEvent() then heads else heads[ReporterOf(row) := id]
  }

  ghost function HeadsOf(rows: seq<Row>): map<Reporter, nat> {
    if rows == [] then map[] else WithHead(HeadsOf(rows[..|rows| - 1]), rows[|rows| - 1], |rows|)
  }

  ghost function AddRow(db: Tables, row: Row): Tables {
    db.(rows := db.rows + [row], unique := db.unique[KeyOf(row) := |db.rows|],
        heads := WithHead(db.heads, row, |db.rows| + 1), chart := Insert(db.chart, |db.rows| + 1, row))
  }

  ghost function AddRows(db: Tables, source: Source, snapshots: seq<Snapshot>): Tables {
    if snapshots == [] then db
    else AddRow(AddRows(db, source, snapshots[..|snapshots| - 1]),
                Row(source.run, source.id, snapshots[|snapshots| - 1]))
  }

  /** The unique index names each row once. */
  ghost predicate UniqueOk(db: Tables) {
    && (forall k :: k in db.unique ==> db.unique[k] < |db.rows| && KeyOf(db.rows[db.unique[k]]) == k)
    && (forall i :: 0 <= i < |db.rows| ==> KeyOf(db.rows[i]) in db.unique && db.unique[KeyOf(db.rows[i])] == i)
  }

  /** The chart index is exactly what a rebuild from the rows would give. */
  ghost predicate Charted(db: Tables) {
    db.chart == Build(db.rows)
  }

  /** The reporter's head is its newest observation; it has none exactly when it has no observation. */
  ghost predicate HeadRight(db: Tables, reporter: Reporter) {
    var wanted := HeadsOf(db.rows);
    (reporter in db.heads <==> reporter in wanted) && (reporter in db.heads ==> db.heads[reporter] == wanted[reporter])
  }

  ghost predicate Headed(db: Tables) {
    forall reporter :: HeadRight(db, reporter)
  }

  // ---------------------------------------------------------------- cursor coverage

  predicate InGap(db: Tables, stream: Stream, n: nat) {
    exists i :: 0 <= i < |db.gaps| && db.gaps[i].stream == stream && db.gaps[i].expected <= n < db.gaps[i].oldest
  }

  ghost predicate GapsApart(db: Tables) {
    forall i, j :: 0 <= i < j < |db.gaps| && db.gaps[i].stream == db.gaps[j].stream ==>
           db.gaps[i].oldest <= db.gaps[j].expected
  }

  ghost predicate GapsBelow(db: Tables) {
    forall i :: 0 <= i < |db.gaps| ==> db.gaps[i].expected < db.gaps[i].oldest < db.Cursor(db.gaps[i].stream)
  }

  /** Below the cursor: stored or in a gap, not both. At and above it: nothing. */
  ghost predicate Accounted(db: Tables, stream: Stream, n: nat) {
    if n < db.Cursor(stream) then db.Has(stream, n) <==> !InGap(db, stream, n)
    else !db.Has(stream, n) && !InGap(db, stream, n)
  }

  ghost predicate Coverage(db: Tables) {
    && GapsApart(db) && GapsBelow(db)
    && (forall stream, n :: Accounted(db, stream, n))
    && (forall stream :: db.Cursor(stream) > 0 ==> db.Has(stream, db.Cursor(stream) - 1))
  }

  /** Nothing here depends on the derived tables: a store with wrong heads is still covered. */
  ghost predicate Valid(db: Tables) {
    UniqueOk(db) && Coverage(db)
  }

  // ---------------------------------------------------------------- one page

  ghost predicate Identified(source: Source, d: Descriptor, page: Page) {
    && ValidDescriptor(d) && ValidPage(page) && d.session == page.session
    && d.run == source.run && d.attempt == source.attempt && d.role == source.role
    && ValidIdentifier(source.id) && ValidIdentifier(source.run)
  }

  /** How many leading snapshots of the page lie below the cursor. */
  function Skipped(page: Page, cursor: nat): (n: nat)
    ensures n <= |page.snapshots|
  {
    if page.snapshots == [] then 0
    else Min(Max(cursor - page.snapshots[0].sequence, 0), |page.snapshots|)
  }

  function News(page: Page, cursor: nat): seq<Snapshot> {
    page.snapshots[Skipped(page, cursor)..]
  }

  /** The page continues at the cursor, or openly reports what was dropped in between. */
  predicate Continues(page: Page, cursor: nat) {
    var news := News(page, cursor);
    if news == [] then page.next <= cursor
    else news[0].sequence == Max(cursor, page.oldest)
         && (page.oldest > cursor ==> page.droppedBefore == Some(page.oldest))
  }

  /** A snapshot below the cursor repeats a stored one exactly. */
  predicate Repeats(db: Tables, source: Source, s: Snapshot) {
    var key := Key(Stream(source.id, s.session), s.sequence);
    key in db.unique && db.unique[key] < |db.rows|
    && db.rows[db.unique[key]].run == source.run && db.rows[db.unique[key]].snapshot == s
  }

  ghost predicate Acceptable(db: Tables, source: Source, d: Descriptor, page: Page) {
    var cursor := db.Cursor(StreamOf(source, page));
    && Identified(source, d, page) && Continues(page, cursor)
    && forall i :: 0 <= i < Skipped(page, cursor) ==> Repeats(db, source, page.snapshots[i])
  }

  ghost function Ingested(db: Tables, source: Source, page: Page): Tables {
    var stream := StreamOf(source, page);
    var cursor := db.Cursor(stream);
    var news := News(page, cursor);
    if news == [] then db
    else Advance(AddRows(db, source, news), stream, cursor, page)
  }

  function Advance(db: Tables, stream: Stream, cursor: nat, page: Page): Tables {
    db.(gaps := db.gaps + (if page.oldest > cursor then [Gap(stream, cursor, page.oldest)] else []),
        cursors := db.cursors[stream := Max(cursor, page.next)])
  }

  // ---------------------------------------------------------------- rows keep their invariants

  /** The news of a valid page are the consecutive sequences from `start` on. */
  ghost predicate Consecutive(snapshots: seq<Snapshot>, session: string, start: nat) {
    forall i :: 0 <= i < |snapshots| ==> snapshots[i].session == session && snapshots[i].sequence == start + i
  }

  ghost predicate KeepsRows(db: Tables, later: Tables) {
    |db.rows| <= |later.rows| && forall i :: 0 <= i < |db.rows| ==> later.rows[i] == db.rows[i]
  }

  lemma {:induction false} AddRowsPlaces(db: Tables, source: Source, snapshots: seq<Snapshot>)
    ensures var tx := AddRows(db, source, snapshots);
            && KeepsRows(db, tx) && |tx.rows| == |db.rows| + |snapshots|
            && tx.cursors == db.cursors && tx.gaps == db.gaps
            && (forall i :: 0 <= i < |snapshots| ==> tx.rows[|db.rows| + i] == Row(source.run, source.id, snapshots[i]))
  {
    hide WithHead, Insert;
    if snapshots == [] {
    } else {
      AddRowsPlaces(db, source, snapshots[..|snapshots| - 1]);
    }
  }

  lemma AddRowsKeys(db: Tables, source: Source, snapshots: seq<Snapshot>, session: string, start: nat)
    requires Consecutive(snapshots, session, start)
    ensures var tx := AddRows(db, source, snapshots);
            && tx.cursors == db.cursors && tx.gaps == db.gaps && |tx.rows| == |db.rows| + |snapshots|
            && forall k :: k in tx.unique <==>
                 k in db.unique || (k.stream == Stream(source.id, session) && start <= k.sequence < start + |snapshots|)
  {
    hide Insert, WithHead;
    if snapshots == [] {
    } else {
      AddRowsKeys(db, source, snapshots[..|snapshots| - 1], session, start);
    }
  }

  lemma {:induction false} AddRowsUnique(db: Tables, source: Source, snapshots: seq<Snapshot>, session: string,
                                         start: nat)
    requires Consecutive(snapshots, session, start) && UniqueOk(db)
    requires forall n :: start <= n < start + |snapshots| ==> !db.Has(Stream(source.id, session), n)
    ensures UniqueOk(AddRows(db, source, snapshots))
  {
    hide AddRow, UniqueOk;
    if snapshots == [] {
    } else {
      var prefix := snapshots[..|snapshots| - 1];
      AddRowsUnique(db, source, prefix, session, start);
      AddRowsKeys(db, source, prefix, session, start);
      assert !db.Has(Stream(source.id, session), start + |prefix|);
      AddRowUnique(AddRows(db, source, prefix), Row(source.run, source.id, snapshots[|snapshots| - 1]));
    }
  }

  lemma AddRowUnique(db: Tables, row: Row)
    requires UniqueOk(db) && KeyOf(row) !in db.unique
    ensures UniqueOk(AddRow(db, row))
  {
    hide Insert, WithHead;
    var tx := AddRow(db, row);
    forall i | 0 <= i < |tx.rows| ensures KeyOf(tx.rows[i]) in tx.unique && tx.unique[KeyOf(tx.rows[i])] == i {
      if i < |db.rows| {
        assert tx.rows[i] == db.rows[i];
      }
    }
    forall k | k in tx.unique ensures tx.unique[k] < |tx.rows| && KeyOf(tx.rows[tx.unique[k]]) == k {
      if k != KeyOf(row) {
        assert tx.rows[tx.unique[k]] == db.rows[db.unique[k]];
      }
    }
  }

  // ---------------------------------------------------------------- rows and the derived tables

  lemma {:induction false} AddRowsCharted(db: Tables, source: Source, snapshots: seq<Snapshot>)
    requires Charted(db)
    ensures Charted(AddRows(db, source, snapshots))
  {
    hide Insert, WithHead;
    if snapshots == [] {
    } else {
      var prefix := AddRows(db, source, snapshots[..|snapshots| - 1]);
      AddRowsCharted(db, source, snapshots[..|snapshots| - 1]);
      BuildAppend(prefix.rows, Row(source.run, source.id, snapshots[|snapshots| - 1]));
    }
  }

  /** The later tables hold a new observation of the reporter. */
  ghost predicate ObservedSince(db: Tables, later: Tables, reporter: Reporter) {
    exists i :: |db.rows| <= i < |later.rows| && ReporterOf(later.rows[i]) == reporter
      && !later.rows[i].snapshot.IsEvent()
  }

  lemma AddRowHead(db: Tables, row: Row, reporter: Reporter)
    ensures HeadRight(AddRow(db, row), reporter)
       <==> HeadRight(db, reporter) || (ReporterOf(row) == reporter && !row.snapshot.IsEvent())
  {
    hide Insert;
    assert (db.rows + [row])[..|db.rows|] == db.rows;
  }

  lemma ObservedThen(a: Tables, b: Tables, c: Tables, reporter: Reporter)
    requires KeepsRows(a, b) && KeepsRows(b, c)
    ensures ObservedSince(a, c, reporter) <==> ObservedSince(a, b, reporter) || ObservedSince(b, c, reporter)
  {
    if ObservedSince(a, b, reporter) {
      var i :| |a.rows| <= i < |b.rows| && ReporterOf(b.rows[i]) == reporter && !b.rows[i].snapshot.IsEvent();
      assert c.rows[i] == b.rows[i];
    }
    if ObservedSince(a, c, reporter) {
      var i :| |a.rows| <= i < |c.rows| && ReporterOf(c.rows[i]) == reporter && !c.rows[i].snapshot.IsEvent();
      assert i < |b.rows| ==> b.rows[i] == c.rows[i];
    }
  }

  lemma AddRowObserved(db: Tables, row: Row, reporter: Reporter)
    ensures KeepsRows(db, AddRow(db, row))
    ensures ObservedSince(db, AddRow(db, row), reporter) <==> ReporterOf(row) == reporter && !row.snapshot.IsEvent()
  {
    hide Insert, WithHead;
    var tx := AddRow(db, row);
    assert tx.rows[|db.rows|] == row;
  }

  /** A head is right after inserting rows exactly when it was before or the reporter was observed. */
  lemma {:induction false} AddRowsHead(db: Tables, source: Source, snapshots: seq<Snapshot>, reporter: Reporter)
    ensures var tx := AddRows(db, source, snapshots);
            HeadRight(tx, reporter) <==> HeadRight(db, reporter) || ObservedSince(db, tx, reporter)
  {
    hide AddRow, HeadRight, ObservedSince, KeepsRows;
    if snapshots == [] {
      NothingObserved(db, db, reporter);
    } else {
      var n := |snapshots| - 1;
      var prefix, row := AddRows(db, source, snapshots[..n]), Row(source.run, source.id, snapshots[n]);
      AddRowsHead(db, source, snapshots[..n], reporter);
      AddRowsPlaces(db, source, snapshots[..n]);
      AddRowHead(prefix, row, reporter);
      AddRowObserved(prefix, row, reporter);
      ObservedThen(db, prefix, AddRow(prefix, row), reporter);
    }
  }

  lemma NothingObserved(db: Tables, same: Tables, reporter: Reporter)
    requires same.rows == db.rows
    ensures !ObservedSince(db, same, reporter)
  {
  }

  lemma NewsConsecutive(page: Page, cursor: nat)
    requires ValidPage(page)
    ensures var news := News(page, cursor);
            news != [] ==>
              Consecutive(news, page.session, news[0].sequence) && page.next == news[0].sequence + |news| > cursor
              && news[0].sequence >= cursor
  {
    hide ValidEnvelope, ValidSnapshot;
    var skip := Skipped(page, cursor);
    var news := News(page, cursor);
    if news != [] {
      assert Fits(page, skip);
      forall i | 0 <= i < |news| ensures news[i].session == page.session && news[i].sequence == news[0].sequence + i {
        assert Fits(page, skip + i);
      }
    }
  }

  /** Recording the gap and moving the cursor keeps every sequence accounted for. */
  lemma AdvanceCoverage(db: Tables, tx: Tables, stream: Stream, start: nat, page: Page)
    requires Coverage(db) && page.next > start >= db.Cursor(stream)
    requires start == Max(db.Cursor(stream), page.oldest)
    requires tx.cursors == db.cursors && tx.gaps == db.gaps
    requires forall k :: k in tx.unique <==> k in db.unique || (k.stream == stream && start <= k.sequence < page.next)
    ensures Coverage(Advance(tx, stream, db.Cursor(stream), page))
  {
    var cursor := db.Cursor(stream);
    var out := Advance(tx, stream, cursor, page);
    AdvanceGaps(db, out, stream, cursor, page);
    forall s, n ensures Accounted(out, s, n) {
      assert Accounted(db, s, n);
      AdvanceInGap(db, tx, stream, cursor, page, s, n);
    }
    forall s | out.Cursor(s) > 0 ensures out.Has(s, out.Cursor(s) - 1) {
      assert s == stream || db.Has(s, db.Cursor(s) - 1);
    }
  }

  lemma AdvanceInGap(db: Tables, tx: Tables, stream: Stream, cursor: nat, page: Page, s: Stream, n: nat)
    requires tx.gaps == db.gaps
    ensures InGap(Advance(tx, stream, cursor, page), s, n)
       <==> InGap(db, s, n) || (s == stream && cursor <= n < page.oldest)
  {
    var out := Advance(tx, stream, cursor, page);
    if InGap(db, s, n) {
      var i :| 0 <= i < |db.gaps| && db.gaps[i].stream == s && db.gaps[i].expected <= n < db.gaps[i].oldest;
      assert out.gaps[i] == db.gaps[i];
    }
    if s == stream && cursor <= n < page.oldest {
      assert out.gaps[|db.gaps|] == Gap(stream, cursor, page.oldest);
    }
  }

  lemma AdvanceGaps(db: Tables, out: Tables, stream: Stream, cursor: nat, page: Page)
    requires GapsApart(db) && GapsBelow(db) && cursor == db.Cursor(stream)
    requires page.next > Max(cursor, page.oldest)
    requires out.gaps == db.gaps + (if page.oldest > cursor then [Gap(stream, cursor, page.oldest)] else [])
    requires out.cursors == db.cursors[stream := Max(cursor, page.next)]
    ensures GapsApart(out) && GapsBelow(out)
  {
    forall i | 0 <= i < |out.gaps| ensures out.gaps[i].expected < out.gaps[i].oldest < out.Cursor(out.gaps[i].stream) {
      if i < |db.gaps| {
        assert out.gaps[i] == db.gaps[i];
      }
    }
    forall i, j | 0 <= i < j < |out.gaps| && out.gaps[i].stream == out.gaps[j].stream
      ensures out.gaps[i].oldest <= out.gaps[j].expected
    {
      assert out.gaps[i] == db.gaps[i];
      if j < |db.gaps| {
        assert out.gaps[j] == db.gaps[j];
      }
    }
  }

  /** An accepted page keeps the tables valid, whoever sent it. */
  lemma IngestedValid(db: Tables, source: Source, d: Descriptor, page: Page)
    requires Valid(db) && Acceptable(db, source, d, page)
    ensures Valid(Ingested(db, source, page))
  {
    hide ValidPage, ValidDescriptor, AddRows, Accounted, InGap, GapsApart, GapsBelow;
    var stream := StreamOf(source, page);
    var cursor := db.Cursor(stream);
    var news := News(page, cursor);
    if news != [] {
      NewsConsecutive(page, cursor);
      var start := news[0].sequence;
      var tx := AddRows(db, source, news);
      forall n | start <= n < start + |news| ensures !db.Has(stream, n) {
        AccountedAbove(db, stream, n);
      }
      AddRowsKeys(db, source, news, page.session, start);
      AddRowsUnique(db, source, news, page.session, start);
      AdvanceCoverage(db, tx, stream, start, page);
    }
  }

  /**
    Any page, accepted or not, keeps a correct chart index correct, and leaves a reporter's head right
    exactly when it was right or the page brings an observation of that reporter.
   */
  lemma IngestedDerived(db: Tables, source: Source, page: Page, reporter: Reporter)
    ensures KeepsRows(db, Ingested(db, source, page))
    ensures Charted(db) ==> Charted(Ingested(db, source, page))
    ensures HeadRight(Ingested(db, source, page), reporter)
       <==> HeadRight(db, reporter) || ObservedSince(db, Ingested(db, source, page), reporter)
  {
    hide AddRows, HeadsOf, Build;
    var news := News(page, db.Cursor(StreamOf(source, page)));
    NothingObserved(db, db, reporter);
    AddRowsPlaces(db, source, news);
    AddRowsHead(db, source, news, reporter);
    if Charted(db) {
      AddRowsCharted(db, source, news);
    }
    KeepsRowsSelf(db);
  }

  lemma KeepsRowsSelf(db: Tables)
    ensures KeepsRows(db, db)
  {
  }

  // ---------------------------------------------------------------- whole pages

  /** The table holds exactly this snapshot for this run and source under its session and sequence. */
  predicate StoredAs(db: Tables, source: Source, s: Snapshot) {
    var key := Key(Stream(source.id, s.session), s.sequence);
    key in db.unique && db.unique[key] < |db.rows| && db.rows[db.unique[key]] == Row(source.run, source.id, s)
  }

  predicate StoredPage(db: Tables, source: Source, page: Page) {
    forall i :: 0 <= i < |page.snapshots| ==> StoredAs(db, source, page.snapshots[i])
  }

  /** Something else is stored in the snapshot's place. */
  predicate Conflicting(db: Tables, source: Source, s: Snapshot) {
    var key := Key(Stream(source.id, s.session), s.sequence);
    key in db.unique && db.unique[key] < |db.rows| && db.rows[db.unique[key]] != Row(source.run, source.id, s)
  }

  /** A snapshot that repeats a stored one is stored, and nothing else is. */
  lemma RepeatsIsStored(db: Tables, source: Source, s: Snapshot)
    requires UniqueOk(db)
    ensures Repeats(db, source, s) <==> StoredAs(db, source, s)
  {
    var key := Key(Stream(source.id, s.session), s.sequence);
    assert key in db.unique ==> KeyOf(db.rows[db.unique[key]]) == key;
  }

  lemma IngestedKeeps(db: Tables, source: Source, page: Page)
    ensures var after := Ingested(db, source, page);
            KeepsRows(db, after) && |after.rows| == |db.rows| + |News(page, db.Cursor(StreamOf(source, page)))|
  {
    hide AddRows;
    AddRowsPlaces(db, source, News(page, db.Cursor(StreamOf(source, page))));
  }

  lemma StoredKept(db: Tables, later: Tables, source: Source, s: Snapshot)
    requires UniqueOk(db) && UniqueOk(later) && KeepsRows(db, later)
    ensures StoredAs(db, source, s) ==> StoredAs(later, source, s)
    ensures Conflicting(db, source, s) ==> !StoredAs(later, source, s)
  {
    var key := Key(Stream(source.id, s.session), s.sequence);
    if key in db.unique {
      var i := db.unique[key];
      assert later.rows[i] == db.rows[i] && KeyOf(later.rows[i]) == key;
    }
  }

  lemma NewIsStored(db: Tables, after: Tables, source: Source, page: Page, i: nat)
    requires var skip := Skipped(page, db.Cursor(StreamOf(source, page))); skip <= i < |page.snapshots|
    requires after == Ingested(db, source, page) && UniqueOk(after)
    ensures StoredAs(after, source, page.snapshots[i])
  {
    hide AddRows;
    var skip := Skipped(page, db.Cursor(StreamOf(source, page)));
    var news := News(page, db.Cursor(StreamOf(source, page)));
    AddRowsPlaces(db, source, news);
    assert news[i - skip] == page.snapshots[i];
    var at := |db.rows| + (i - skip);
    assert after.rows[at] == Row(source.run, source.id, page.snapshots[i]);
    assert after.unique[KeyOf(after.rows[at])] == at;
  }

  /** An accepted page is stored whole, repeated part included, and it contradicted nothing stored before. */
  lemma AcceptedIsStored(db: Tables, source: Source, d: Descriptor, page: Page)
    requires Valid(db) && Acceptable(db, source, d, page)
    ensures StoredPage(Ingested(db, source, page), source, page)
    ensures forall i :: 0 <= i < |page.snapshots| ==> !Conflicting(db, source, page.snapshots[i])
  {
    hide Coverage, ValidPage, Repeats, UniqueOk, KeepsRows, StoredAs, Conflicting, Ingested;
    var after := Ingested(db, source, page);
    IngestedValid(db, source, d, page);
    IngestedKeeps(db, source, page);
    forall i | 0 <= i < |page.snapshots|
      ensures StoredAs(after, source, page.snapshots[i]) && !Conflicting(db, source, page.snapshots[i])
    {
      StoredKept(db, after, source, page.snapshots[i]);
      if i < Skipped(page, db.Cursor(StreamOf(source, page))) {
        RepeatsIsStored(db, source, page.snapshots[i]);
      } else {
        NewIsStored(db, after, source, page, i);
      }
    }
  }

  lemma AccountedAbove(db: Tables, stream: Stream, n: nat)
    requires Coverage(db) && n >= db.Cursor(stream)
    ensures !db.Has(stream, n)
  {
    assert Accounted(db, stream, n);
  }

  lemma EmptyValid()
    ensures Valid(NO_TABLES) && Charted(NO_TABLES) && Headed(NO_TABLES)
  {
  }
}
