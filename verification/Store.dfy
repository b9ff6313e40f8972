/** The persistent snapshot store: page ingestion, grouped ingestion and the durability question. */
module Store {
  import opened Common
  import opened Protocol
  import opened ChartIndex
  import opened Indexer
  import opened StoreTables

  datatype IngestError = Rejected | SkipsUnreported | NeedsDroppedBefore | CannotAdvance | Conflict | Regresses

  datatype Submission = Submission(source: Source, descriptor: Descriptor, page: Page)

  // ---------------------------------------------------------------- specification of runs

  ghost function Apply(db: Tables, s: Submission): Tables {
    if Acceptable(db, s.source, s.descriptor, s.page) then Ingested(db, s.source, s.page) else db
  }

  ghost function ApplyAll(db: Tables, subs: seq<Submission>): Tables {
    if subs == [] then db else Apply(ApplyAll(db, subs[..|subs| - 1]), subs[|subs| - 1])
  }

  /** The i-th page of a group is accepted, in the tables the pages before it leave. */
  ghost predicate PageOk(db: Tables, subs: seq<Submission>, i: nat)
    requires i < |subs|
  {
    Acceptable(ApplyAll(db, subs[..i]), subs[i].source, subs[i].descriptor, subs[i].page)
  }

  /** How many of its snapshots are new there. */
  ghost function PageNews(db: Tables, subs: seq<Submission>, i: nat): nat
    requires i < |subs|
  {
    |News(subs[i].page, ApplyAll(db, subs[..i]).Cursor(StreamOf(subs[i].source, subs[i].page)))|
  }

  /** Cursor coverage holds in every store state any submissions can lead to. */
  lemma {:induction false} RunValid(db: Tables, subs: seq<Submission>)
    requires Valid(db)
    ensures Valid(ApplyAll(db, subs))
  {
    hide Valid, Acceptable, Ingested;
    if subs == [] {
    } else {
      var last := subs[|subs| - 1];
      RunValid(db, subs[..|subs| - 1]);
      if Acceptable(ApplyAll(db, subs[..|subs| - 1]), last.source, last.descriptor, last.page) {
        IngestedValid(ApplyAll(db, subs[..|subs| - 1]), last.source, last.descriptor, last.page);
      }
    }
  }

  /**
    Whatever is submitted, a correct chart index stays correct, and a head that is wrong after an
    interrupted opening is mended exactly by the reporter's next stored observation.
   */
  lemma {:induction false} RunDerived(db: Tables, subs: seq<Submission>, reporter: Reporter)
    ensures var later := ApplyAll(db, subs);
            && KeepsRows(db, later)
            && (Charted(db) ==> Charted(later))
            && (HeadRight(later, reporter) <==> HeadRight(db, reporter) || ObservedSince(db, later, reporter))
  {
    hide Charted, HeadRight, ObservedSince, KeepsRows, Acceptable, Ingested;
    if subs == [] {
      KeepsRowsSelf(db);
      NothingObserved(db, db, reporter);
    } else {
      var last, before := subs[|subs| - 1], ApplyAll(db, subs[..|subs| - 1]);
      RunDerived(db, subs[..|subs| - 1], reporter);
      IngestedDerived(before, last.source, last.page, reporter);
      KeepsRowsSelf(before);
      NothingObserved(before, before, reporter);
      KeepsThen(db, before, ApplyAll(db, subs));
      ObservedThen(db, before, ApplyAll(db, subs), reporter);
    }
  }

  lemma KeepsThen(a: Tables, b: Tables, c: Tables)
    requires KeepsRows(a, b) && KeepsRows(b, c)
    ensures KeepsRows(a, c)
  {
  }

  lemma {:induction false} ApplyAllAppend(db: Tables, a: seq<Submission>, b: seq<Submission>)
    ensures ApplyAll(db, a + b) == ApplyAll(ApplyAll(db, a), b)
  {
    hide Apply;
    if b == [] {
      assert a + b == a;
    } else {
      var ab := a + b;
      assert ab[..|ab| - 1] == a + b[..|b| - 1];
      ApplyAllAppend(db, a, b[..|b| - 1]);
    }
  }

  // ---------------------------------------------------------------- one page

  method FirstNew(page: Page, cursor: nat) returns (i: nat)
    requires ValidPage(page)
    ensures i == Skipped(page, cursor)
  {
    hide ValidEnvelope, ValidSnapshot;
    i := 0;
    while i < |page.snapshots| && page.snapshots[i].sequence < cursor
      invariant i <= |page.snapshots|
      invariant i > 0 ==> page.snapshots[i - 1].sequence < cursor
    {
      i := i + 1;
    }
    assert i > 0 ==> Fits(page, i - 1);
    assert i < |page.snapshots| ==> Fits(page, i);
  }

  method Identify(source: Source, d: Descriptor, page: Page) returns (ok: bool)
    ensures ok <==> Identified(source, d, page)
  {
    hide ValidPage, ValidDescriptor, ValidIdentifier;
    ok := ValidatePage(page);
    ok := ok && ValidDescriptor(d) && d.session == page.session
          && d.run == source.run && d.attempt == source.attempt && d.role == source.role
          && ValidIdentifier(source.id) && ValidIdentifier(source.run);
  }

  method InsertRow(db: Tables, row: Row) returns (tx: Tables)
    ensures tx == AddRow(db, row)
  {
    hide Insert;
    var charts := new ChartTables();
    charts.index := db.chart;
    var id := |db.rows| + 1;
    charts.InsertSnapshot(id, row);
    tx := db.(rows := db.rows + [row], unique := db.unique[KeyOf(row) := |db.rows|],
              heads := WithHead(db.heads, row, id), chart := charts.index);
  }

  /** A page whose snapshots below the cursor repeat stored ones; the rest are inserted in order. */
  method InsertNews(db: Tables, source: Source, page: Page) returns (tx: Tables, r: Result<nat, IngestError>)
    requires Valid(db) && ValidPage(page) && Continues(page, db.Cursor(StreamOf(source, page)))
    ensures r.Ok? <==> forall i :: 0 <= i < Skipped(page, db.Cursor(StreamOf(source, page))) ==>
            Repeats(db, source, page.snapshots[i])
    ensures r.Ok? ==> tx == AddRows(db, source, News(page, db.Cursor(StreamOf(source, page))))
    ensures r.Ok? ==> r.value == |News(page, db.Cursor(StreamOf(source, page)))|
    ensures r.Err? ==> r.error.Conflict? || r.error.Regresses?
    ensures r == Err(Conflict) ==>
            exists i :: 0 <= i < |page.snapshots| && Conflicting(db, source, page.snapshots[i])
  {
    hide ValidPage, Valid, AddRow, AddRows, Repeats, Conflicting, Continues;
    var stream := StreamOf(source, page);
    var committed := db.Cursor(stream);
    ghost var skip := Skipped(page, committed);
    tx := db;
    var accepted := 0;
    for i := 0 to |page.snapshots|
      invariant forall j :: 0 <= j < i && j < skip ==> Repeats(db, source, page.snapshots[j])
      invariant accepted == if i <= skip then 0 else i - skip
      invariant tx == if i <= skip then db else AddRows(db, source, page.snapshots[skip..i])
    {
      var s := page.snapshots[i];
      LookupPlace(db, tx, source, page, i);
      var key := Key(stream, s.sequence);
      if key in tx.unique {
        if tx.unique[key] < |tx.rows|
          && (tx.rows[tx.unique[key]].run != source.run || tx.rows[tx.unique[key]].snapshot != s) {
          ConflictAt(db, tx, source, page, i);
          return tx, Err(Conflict);
        }
      } else {
        if s.sequence < committed {
          return tx, Err(Regresses);
        }
        tx := InsertRow(tx, Row(source.run, source.id, s));
        accepted := accepted + 1;
        AddNext(db, source, page, skip, i);
      }
    }
    AddNothing(db, source, []);
    assert page.snapshots[skip..|page.snapshots|] == News(page, committed);
    return tx, Ok(accepted);
  }

  lemma ConflictAt(db: Tables, tx: Tables, source: Source, page: Page, i: nat)
    requires Valid(db) && ValidPage(page) && i < |page.snapshots|
    requires Continues(page, db.Cursor(StreamOf(source, page)))
    requires var skip := Skipped(page, db.Cursor(StreamOf(source, page)));
             tx == if i <= skip then db else AddRows(db, source, page.snapshots[skip..i])
    requires var key := Key(StreamOf(source, page), page.snapshots[i].sequence);
             && key in tx.unique && tx.unique[key] < |tx.rows|
             && (tx.rows[tx.unique[key]].run != source.run || tx.rows[tx.unique[key]].snapshot != page.snapshots[i])
    ensures Conflicting(db, source, page.snapshots[i])
  {
    hide ValidEnvelope, ValidSnapshot, AddRows, Coverage, Continues;
    LookupPlace(db, tx, source, page, i);
    assert Fits(page, i);
  }

  lemma AddNext(db: Tables, source: Source, page: Page, from: nat, i: nat)
    requires from <= i < |page.snapshots|
    ensures AddRows(db, source, page.snapshots[from..i + 1])
         == AddRow(if i == from then db else AddRows(db, source, page.snapshots[from..i]),
                   Row(source.run, source.id, page.snapshots[i]))
  {
    hide AddRow;
    assert page.snapshots[from..i + 1][..i - from] == page.snapshots[from..i];
  }

  /** Below the cursor the lookup sees the stored rows; from the cursor on it finds nothing. */
  lemma LookupPlace(db: Tables, tx: Tables, source: Source, page: Page, i: nat)
    requires Valid(db) && ValidPage(page) && i < |page.snapshots|
    requires Continues(page, db.Cursor(StreamOf(source, page)))
    requires var skip := Skipped(page, db.Cursor(StreamOf(source, page)));
             tx == if i <= skip then db else AddRows(db, source, page.snapshots[skip..i])
    ensures var cursor := db.Cursor(StreamOf(source, page));
            var key := Key(StreamOf(source, page), page.snapshots[i].sequence);
            && page.snapshots[i].session == page.session
            && (i < Skipped(page, cursor) <==> page.snapshots[i].sequence < cursor)
            && (i < Skipped(page, cursor) ==>
                  (Repeats(db, source, page.snapshots[i]) <==>
                     key in tx.unique && tx.rows[tx.unique[key]].run == source.run
                       && tx.rows[tx.unique[key]].snapshot == page.snapshots[i])
                  && (key in tx.unique ==> tx.unique[key] < |tx.rows|))
            && (i >= Skipped(page, cursor) ==> key !in tx.unique)
  {
    hide ValidEnvelope, ValidSnapshot, AddRows, Accounted, InGap, GapsApart, GapsBelow;
    var stream := StreamOf(source, page);
    var cursor := db.Cursor(stream);
    var skip := Skipped(page, cursor);
    assert Fits(page, i);
    if i >= skip {
      AccountedAbove(db, stream, page.snapshots[i].sequence);
      if i > skip {
        NewsConsecutive(page, cursor);
        var start := News(page, cursor)[0].sequence;
        assert Fits(page, skip);
        ConsecutivePrefix(page, skip, i);
        AddRowsKeys(db, source, page.snapshots[skip..i], page.session, start);
      }
    }
  }

  lemma ConsecutivePrefix(page: Page, from: nat, to: nat)
    requires ValidPage(page) && from < to <= |page.snapshots|
    ensures Consecutive(page.snapshots[from..to], page.session, page.snapshots[from].sequence)
  {
    hide ValidEnvelope, ValidSnapshot;
    assert Fits(page, from);
    forall i | 0 <= i < to - from
      ensures page.snapshots[from..to][i].session == page.session
           && page.snapshots[from..to][i].sequence == page.snapshots[from].sequence + i
    {
      assert Fits(page, from + i);
    }
  }

  /** A page with news starts exactly where the cursor or the reported loss says; one without may not advance. */
  method CheckContinuity(page: Page, committed: nat) returns (refusal: Option<IngestError>)
    requires ValidPage(page)
    ensures refusal.None? <==> Continues(page, committed)
    ensures refusal.Some? ==>
              refusal.value == if News(page, committed) == [] then CannotAdvance
                               else if News(page, committed)[0].sequence != Max(committed, page.oldest)
                                 then SkipsUnreported
                               else NeedsDroppedBefore
  {
    hide ValidPage;
    var first := FirstNew(page, committed);
    if first < |page.snapshots| {
      if page.snapshots[first].sequence != Max(committed, page.oldest) {
        return Some(SkipsUnreported);
      }
      if page.oldest > committed && page.droppedBefore != Some(page.oldest) {
        return Some(NeedsDroppedBefore);
      }
    } else if page.next > committed {
      return Some(CannotAdvance);
    }
    return None;
  }

  /**
    Validate the page, then store its news, the reported gap and the cursor together. Accepted
    exactly when acceptable, and then with exactly the specified effect.
   */
  method IngestPage(db: Tables, s: Submission) returns (tx: Tables, r: Result<nat, IngestError>)
    requires Valid(db)
    ensures r.Ok? <==> Acceptable(db, s.source, s.descriptor, s.page)
    ensures r.Ok? ==> tx == Ingested(db, s.source, s.page)
    ensures r.Ok? ==> r.value == |News(s.page, db.Cursor(StreamOf(s.source, s.page)))|
    ensures r == Err(Rejected) <==>
            !(&& ValidDescriptor(s.descriptor) && ValidPage(s.page)
              && ValidIdentifier(s.source.id) && ValidIdentifier(s.source.run)
              && s.descriptor.session == s.page.session && s.descriptor.run == s.source.run
              && s.descriptor.attempt == s.source.attempt && s.descriptor.role == s.source.role)
    ensures r.Ok? ==> KeepsRows(db, tx) && |tx.rows| == |db.rows| + r.value && StoredPage(tx, s.source, s.page)
    ensures r.Ok? ==> forall i :: 0 <= i < |s.page.snapshots| ==> !Conflicting(db, s.source, s.page.snapshots[i])
    ensures r == Err(Conflict) ==>
            exists i :: 0 <= i < |s.page.snapshots| && Conflicting(db, s.source, s.page.snapshots[i])
    ensures r.Err? && Identified(s.source, s.descriptor, s.page) ==>
              (r.error.Conflict? || r.error.Regresses? <==> Continues(s.page, db.Cursor(StreamOf(s.source, s.page))))
  {
    hide ValidPage, Valid, AddRows, Repeats, Identified, Continues, ValidDescriptor, ValidIdentifier, StoredPage,
         Conflicting, KeepsRows, Ingested, News;
    IdentifiedMeans(s);
    if Acceptable(db, s.source, s.descriptor, s.page) {
      AcceptedIsStored(db, s.source, s.descriptor, s.page);
      IngestedKeeps(db, s.source, s.page);
    }
    IngestedMeans(db, s.source, s.page);
    tx := db;
    var source, page := s.source, s.page;
    var ok := Identify(source, s.descriptor, page);
    if !ok {
      return tx, Err(Rejected);
    }
    IdentifiedPage(source, s.descriptor, page);
    var stream := StreamOf(source, page);
    var committed := db.Cursor(stream);
    var refusal := CheckContinuity(page, committed);
    if refusal.Some? {
      return tx, Err(refusal.value);
    }
    tx, r := InsertNews(db, source, page);
    AddNothing(db, source, News(page, committed));
    if r.Err? || r.value == 0 {
      return;
    }
    tx := Advance(tx, stream, committed, page);
  }

  lemma IdentifiedMeans(s: Submission)
    ensures Identified(s.source, s.descriptor, s.page) <==>
              && ValidDescriptor(s.descriptor) && ValidPage(s.page)
              && ValidIdentifier(s.source.id) && ValidIdentifier(s.source.run)
              && s.descriptor.session == s.page.session && s.descriptor.run == s.source.run
              && s.descriptor.attempt == s.source.attempt && s.descriptor.role == s.source.role
  {
  }

  lemma IngestedMeans(db: Tables, source: Source, page: Page)
    ensures var stream := StreamOf(source, page);
            var news := News(page, db.Cursor(stream));
            var after := if news == [] then db else Advance(AddRows(db, source, news), stream, db.Cursor(stream), page);
            Ingested(db, source, page) == after
  {
  }

  lemma AddNothing(db: Tables, source: Source, news: seq<Snapshot>)
    ensures news == [] ==> AddRows(db, source, news) == db
  {
  }

  lemma IdentifiedPage(source: Source, d: Descriptor, page: Page)
    requires Identified(source, d, page)
    ensures ValidPage(page)
  {
  }

  // ---------------------------------------------------------------- the store

  class SnapshotStore {
    var db: Tables

    constructor ()
      ensures db == NO_TABLES && Valid(db) && Charted(db) && Headed(db)
    {
      db := Tables([], map[], map[], [], map[], EMPTY);
      new;
      EmptyValid();
    }

    /** Grouped pages: each under its own savepoint, all under one commit, failed pages as no-ops. */
    method IngestBatch(subs: seq<Submission>) returns (results: seq<Result<nat, IngestError>>)
      requires Valid(db)
      modifies this
      ensures Valid(db) && db == ApplyAll(old(db), subs)
      ensures |results| == |subs|
      ensures forall i :: 0 <= i < |subs| ==>
                (results[i].Ok? <==> PageOk(old(db), subs, i))
                  && (results[i].Ok? ==> results[i].value == PageNews(old(db), subs, i))
    {
      hide Valid, Acceptable, Ingested, News;
      results := [];
      var tx := db;
      for i := 0 to |subs|
        invariant |results| == i && Valid(tx) && tx == ApplyAll(db, subs[..i]) && db == old(db)
        invariant forall j :: 0 <= j < i ==>
                    (results[j].Ok? <==> PageOk(db, subs, j))
                      && (results[j].Ok? ==> results[j].value == PageNews(db, subs, j))
      {
        var savepoint, result := IngestPage(tx, subs[i]);
        assert subs[..i + 1][..i] == subs[..i];
        if result.Ok? {
          IngestedValid(tx, subs[i].source, subs[i].descriptor, subs[i].page);
          tx := savepoint;
        }
        results := results + [result];
      }
      assert subs[..|subs|] == subs;
      db := tx;
    }

    /** `complete` for `next` says precisely that every sequence below `next` is stored. */
    method PersistedCursor(stream: Stream, next: nat) returns (persisted: nat, complete: bool, hasGaps: bool)
      requires Valid(db)
      ensures persisted == db.Cursor(stream)
      ensures complete <==> forall n :: 0 <= n < next ==> db.Has(stream, n)
      ensures hasGaps <==> exists n :: 0 <= n < next && InGap(db, stream, n)
    {
      hide UniqueOk, Coverage;
      persisted := db.Cursor(stream);
      hasGaps := exists i :: 0 <= i < |db.gaps| && GapBefore(db.gaps[i], stream, next);
      complete := persisted >= next && !hasGaps;
      CompleteMeans(db, stream, next);
    }
  }

  predicate GapBefore(gap: Gap, stream: Stream, next: nat) {
    gap.stream == stream && gap.expected < next
  }

  lemma CompleteMeans(db: Tables, stream: Stream, next: nat)
    requires Coverage(db)
    ensures var gaps := exists i :: 0 <= i < |db.gaps| && GapBefore(db.gaps[i], stream, next);
            && (gaps <==> exists n :: 0 <= n < next && InGap(db, stream, n))
            && (db.Cursor(stream) >= next && !gaps <==> forall n :: 0 <= n < next ==> db.Has(stream, n))
  {
    var gaps := exists i :: 0 <= i < |db.gaps| && GapBefore(db.gaps[i], stream, next);
    if gaps {
      var i :| 0 <= i < |db.gaps| && GapBefore(db.gaps[i], stream, next);
      var n := db.gaps[i].expected;
      assert db.gaps[i].expected < db.gaps[i].oldest < db.Cursor(stream);
      assert InGap(db, stream, n) && Accounted(db, stream, n);
      assert !db.Has(stream, n);
    } else {
      assert forall n :: 0 <= n < next ==> !InGap(db, stream, n);
      forall n | 0 <= n < next ensures n < db.Cursor(stream) <==> db.Has(stream, n) {
        assert Accounted(db, stream, n);
      }
      if db.Cursor(stream) < next {
        assert !db.Has(stream, next - 1);
      }
    }
  }

  /** Each sequence below a cursor lies in exactly one recorded gap, or is stored once and in none. */
  lemma ExactlyOneGap(db: Tables, stream: Stream, n: nat, i: nat, j: nat)
    requires Valid(db) && i < |db.gaps| && j < |db.gaps|
    requires db.gaps[i].stream == stream && db.gaps[i].expected <= n < db.gaps[i].oldest
    requires db.gaps[j].stream == stream && db.gaps[j].expected <= n < db.gaps[j].oldest
    ensures i == j && !db.Has(stream, n) && n < db.Cursor(stream)
  {
    assert InGap(db, stream, n);
    assert Accounted(db, stream, n);
  }
}
