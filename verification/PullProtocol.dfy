/**
  Producers, the network and the store together: every interleaving of captures, evictions,
  sealing, releases, pulls, lost pages and commits, and what holds in all of them.
 */
module PullProtocol {
  import opened Common
  import opened Text
  import opened Protocol
  import opened ProducerLog
  import opened Producer
  import ChartIndex
  import Json
  import Sources
  import opened StateTree
  import opened StoreTables
  import opened Store

  // ---------------------------------------------------------------- honest pages

  /** The page is what some moment of this producer's log would have served after cursor `after`. */
  ghost predicate Honest(p: Page, v: ProducerView, after: nat) {
    && ValidPage(p) && p.session == v.session
    && p.next <= |v.log| && |p.snapshots| <= p.next
    && p.next - |p.snapshots| == Max(after, p.oldest)
    && p.droppedBefore == (if after < p.oldest then Some(p.oldest) else None)
    && p.snapshots == v.Range(p.next - |p.snapshots|, p.next)
    && (p.snapshots != [] ==> p.oldest <= v.dropped)
  }

  lemma RangeValid(v: ProducerView, from: nat, to: nat)
    requires v.Valid() && from <= to <= |v.log|
    ensures forall i :: 0 <= i < to - from ==> ValidSnapshot(v.Range(from, to)[i])
  {
    hide ValidSnapshot;
    forall i | 0 <= i < to - from ensures ValidSnapshot(v.Range(from, to)[i]) {
      assert v.Range(from, to)[i] == v.At(from + i);
    }
  }

  lemma PageSmall(v: ProducerView, after: nat, limit: nat)
    requires v.Valid() && after <= |v.log|
    ensures PageBytes(v.PageAt(after, limit)) <= MAX_PAGE_BYTES
  {
    hide ValidSnapshot, SnapshotBytes, JsonBytes, Bytes, ProducerView.Admitted, ProducerView.WithinBudget;
    var p := v.PageAt(after, limit);
    var start := Max(after, v.Oldest());
    AdmittedFits(v, start, Min(start + limit, |v.log|), ENVELOPE_RESERVE + 6 * Bytes(v.session));
    SequenceDigits(p.oldest);
    SequenceDigits(p.next);
    assert Digits(1) == 1;
  }

  lemma PageEnvelope(v: ProducerView, after: nat, limit: nat)
    requires v.Valid() && after <= |v.log| && 1 <= limit <= MAX_PAGE_SNAPSHOTS
    ensures ValidEnvelope(v.PageAt(after, limit))
  {
    hide PageBytes, ValidSnapshot, ProducerView.Admitted, ProducerView.WithinBudget;
    PageSmall(v, after, limit);
  }

  /** A served page passes validation and is honest. */
  lemma PageHonest(v: ProducerView, after: nat, limit: nat)
    requires v.Valid() && after <= |v.log| && 1 <= limit <= MAX_PAGE_SNAPSHOTS
    ensures Honest(v.PageAt(after, limit), v, after)
  {
    hide ValidSnapshot, ValidEnvelope, ProducerView.Admitted, ProducerView.Valid;
    ValidBasics(v);
    var p := v.PageAt(after, limit);
    PageEnvelope(v, after, limit);
    RangeValid(v, p.next - |p.snapshots|, p.next);
    forall i | 0 <= i < |p.snapshots| ensures Fits(p, i) {
    }
  }

  /** While data remains a page of an unreleased producer is never empty, whatever the byte cut. */
  lemma PageProgress(v: ProducerView, after: nat, limit: nat)
    requires v.Valid() && !v.released && after < |v.log| && 1 <= limit
    ensures v.PageAt(after, limit).snapshots != []
  {
    hide ProducerView.WithinBudget;
    var start := Max(after, v.Oldest());
    if start < |v.log| {
      assert ValidSnapshot(v.At(start));
    }
  }

  /** Unreleased, or with nothing left to serve, the page loses nothing the producer still owes. */
  lemma PageWhole(v: ProducerView, after: nat, limit: nat)
    requires v.Valid() && after <= |v.log| && 1 <= limit
    ensures var p := v.PageAt(after, limit);
            (!v.released || after == |v.log|) <==> (p.snapshots != [] || p.oldest <= after)
  {
    hide ProducerView.WithinBudget, ValidSnapshot, ProducerView.Admitted;
    if !v.released && after < |v.log| {
      PageProgress(v, after, limit);
    }
  }

  // ---------------------------------------------------------------- the system

  /** A pulled page on its way to the store; the per-source lock is held while it travels. */
  datatype Flight = Flight(source: Source, descriptor: Descriptor, page: Page, after: nat, whole: bool)

  datatype World = World(producers: map<string, ProducerView>, descriptors: map<string, Descriptor>,
                         store: Tables, flights: map<string, Flight>)

  datatype Step =
    | Start(descriptor: Descriptor, limits: Limits)
    | Capture(session: string, bodies: seq<Body>)
    | Seal(session: string)
    | Release(session: string)
    | Pull(source: Source, described: string, serving: string, limit: nat)
    | Lose(id: string)
    | Commit(id: string)

  predicate ProducerText(d: Descriptor) {
    && d.version == PROTOCOL_VERSION && d.schema == SCHEMA_VERSION
    && ValidText(d.session) && ValidText(d.project) && ValidText(d.experiment)
    && ValidText(d.run) && ValidText(d.attempt) && ValidText(d.role)
  }

  /** The cursor the scraper reads for a source and the session its descriptor announced. */
  function ReadCursor(w: World, source: Source, session: string): nat {
    w.store.Cursor(Stream(source.id, session))
  }

  /** What a producer's own fields always satisfy; the invariant below implies it. */
  predicate Shaped(v: ProducerView) {
    v.dropped <= |v.log| && ValidLimits(v.limits)
  }

  ghost predicate Enabled(w: World, step: Step) {
    match step
    case Start(d, limits) => d.session !in w.producers && ProducerText(d) && ValidLimits(limits)
    case Capture(session, _) => session in w.producers
    case Seal(session) => session in w.producers
    case Release(session) => session in w.producers
    case Pull(source, described, serving, limit) =>
      // descriptor and history are two requests: a restart in between may answer the second
      && source.id !in w.flights && described in w.producers && serving in w.producers
      && described in w.descriptors && 1 <= limit <= MAX_PAGE_SNAPSHOTS
      && Shaped(w.producers[serving]) && ReadCursor(w, source, described) <= |w.producers[serving].log|
    case Lose(id) => id in w.flights
    case Commit(id) => id in w.flights
  }

  ghost function Next(w: World, step: Step): World
    requires Enabled(w, step)
  {
    match step
    case Start(d, limits) =>
      w.(producers := w.producers[d.session := ProducerView(d.session, limits, [], 0, false, false)],
         descriptors := w.descriptors[d.session := d])
    case Capture(session, bodies) =>
      var v := w.producers[session];
      if Shaped(v) && Capturable(v, bodies) then w.(producers := w.producers[session := v.AppendAll(bodies)]) else w
    case Seal(session) => w.(producers := w.producers[session := w.producers[session].(sealed := true)])
    case Release(session) =>
      w.(producers := w.producers[session := w.producers[session].(sealed := true, released := true)])
    case Pull(source, described, serving, limit) =>
      var after, v := ReadCursor(w, source, described), w.producers[serving];
      w.(flights := w.flights[source.id := Flight(source, w.descriptors[described], v.PageAt(after, limit), after,
                                                  !v.released || after == |v.log|)])
    case Lose(id) => w.(flights := w.flights - {id})
    case Commit(id) =>
      var f := w.flights[id];
      w.(store := Apply(w.store, Submission(f.source, f.descriptor, f.page)), flights := w.flights - {id})
  }

  ghost const INITIAL := World(map[], map[], NO_TABLES, map[])

  // ---------------------------------------------------------------- the invariant

  /** The stored snapshot is the one that session captured under that sequence. */
  ghost predicate Genuine(row: Row, producers: map<string, ProducerView>) {
    var s := row.snapshot;
    && s.session in producers && producers[s.session].session == s.session
    && s.sequence < |producers[s.session].log| && s == producers[s.session].At(s.sequence)
  }

  /** What a recorded gap covers was evicted by that session's producer. */
  ghost predicate Lost(gap: Gap, producers: map<string, ProducerView>) {
    gap.stream.session in producers && gap.oldest <= producers[gap.stream.session].dropped
  }

  /** The session announced itself for the run its snapshot is stored under. */
  ghost predicate Owned(row: Row, descriptors: map<string, Descriptor>) {
    row.snapshot.session in descriptors && descriptors[row.snapshot.session].run == row.run
  }

  ghost predicate ProducerOk(w: World, session: string)
    requires session in w.producers
  {
    && w.producers[session].Valid() && w.producers[session].session == session
    && session in w.descriptors && w.descriptors[session].session == session && ProducerText(w.descriptors[session])
  }

  ghost predicate FlightOk(w: World, id: string)
    requires id in w.flights
  {
    var f := w.flights[id];
    && f.source.id == id && f.page.session in w.producers
    && f.descriptor.session in w.producers && f.descriptor.session in w.descriptors
    && f.descriptor == w.descriptors[f.descriptor.session]
    && Honest(f.page, w.producers[f.page.session], f.after)
    && f.after == ReadCursor(w, f.source, f.descriptor.session)
    && (f.whole <==> f.page.snapshots != [] || f.page.oldest <= f.after)
  }

  ghost predicate Sound(w: World) {
    && (forall session :: session in w.producers ==> ProducerOk(w, session))
    && Valid(w.store) && Charted(w.store) && Headed(w.store)
    && (forall i :: 0 <= i < |w.store.rows| ==> Genuine(w.store.rows[i], w.producers))
    && (forall i :: 0 <= i < |w.store.rows| ==> Owned(w.store.rows[i], w.descriptors))
    && (forall i :: 0 <= i < |w.store.gaps| ==> Lost(w.store.gaps[i], w.producers))
    && (forall id :: id in w.flights ==> FlightOk(w, id))
  }

  // ---------------------------------------------------------------- logs only grow

  predicate Extends(v: ProducerView, u: ProducerView) {
    u.session == v.session && |v.log| <= |u.log| && u.log[..|v.log|] == v.log && v.dropped <= u.dropped
  }

  lemma HonestExtends(p: Page, v: ProducerView, u: ProducerView, after: nat)
    requires Honest(p, v, after) && Extends(v, u)
    ensures Honest(p, u, after)
  {
    hide ValidPage;
    var from := p.next - |p.snapshots|;
    forall i | from <= i < p.next ensures v.At(i) == u.At(i) {
      assert u.log[i] == u.log[..|v.log|][i];
    }
    assert v.Range(from, p.next) == u.Range(from, p.next);
  }

  lemma GenuineExtends(row: Row, producers: map<string, ProducerView>, session: string, u: ProducerView)
    requires Genuine(row, producers) && (session in producers ==> Extends(producers[session], u))
             && u.session == session
    ensures Genuine(row, producers[session := u])
  {
    if row.snapshot.session == session {
      var v := producers[session];
      assert u.log[row.snapshot.sequence] == u.log[..|v.log|][row.snapshot.sequence];
    }
  }

  /** Replacing one producer by an extension of itself keeps the system sound. */
  lemma ProducerStepSound(w: World, session: string, u: ProducerView)
    requires Sound(w) && session in w.producers && u.Valid() && Extends(w.producers[session], u)
    ensures Sound(w.(producers := w.producers[session := u]))
  {
    hide Valid, Honest, Genuine, ProducerView.Valid, Extends, ProducerText;
    var w' := w.(producers := w.producers[session := u]);
    assert u.session == session by {
      assert ProducerOk(w, session);
      ExtendsSession(w.producers[session], u);
    }
    forall s | s in w'.producers ensures ProducerOk(w', s) {
      assert ProducerOk(w, s);
    }
    forall i | 0 <= i < |w'.store.rows|
      ensures Genuine(w'.store.rows[i], w'.producers) && Owned(w'.store.rows[i], w'.descriptors)
    {
      assert Genuine(w.store.rows[i], w.producers) && Owned(w.store.rows[i], w.descriptors);
      GenuineExtends(w.store.rows[i], w.producers, session, u);
    }
    ExtendsSession(w.producers[session], u);
    forall i | 0 <= i < |w'.store.gaps| ensures Lost(w'.store.gaps[i], w'.producers) {
      assert Lost(w.store.gaps[i], w.producers);
    }
    forall id | id in w'.flights ensures FlightOk(w', id) {
      assert FlightOk(w, id);
      if w.flights[id].page.session == session {
        HonestExtends(w.flights[id].page, w.producers[session], u, w.flights[id].after);
      }
    }
  }

  lemma ExtendsSession(v: ProducerView, u: ProducerView)
    requires Extends(v, u)
    ensures u.session == v.session && v.dropped <= u.dropped
  {
  }

  lemma StartSound(w: World, d: Descriptor, limits: Limits)
    requires Sound(w) && Enabled(w, Start(d, limits))
    ensures Sound(Next(w, Start(d, limits)))
  {
    hide Valid, Honest, Genuine, ProducerText, ProducerView.Valid;
    var v := ProducerView(d.session, limits, [], 0, false, false);
    var w' := Next(w, Start(d, limits));
    StartValid(d, limits);
    forall s | s in w'.producers ensures ProducerOk(w', s) {
      if s != d.session {
        assert ProducerOk(w, s);
      }
    }
    forall i | 0 <= i < |w'.store.rows|
      ensures Genuine(w'.store.rows[i], w'.producers) && Owned(w'.store.rows[i], w'.descriptors)
    {
      assert Genuine(w.store.rows[i], w.producers) && Owned(w.store.rows[i], w.descriptors);
      GenuineExtends(w.store.rows[i], w.producers, d.session, v);
    }
    forall id | id in w'.flights ensures FlightOk(w', id) {
      assert FlightOk(w, id);
    }
  }

  lemma StartValid(d: Descriptor, limits: Limits)
    requires ProducerText(d) && ValidLimits(limits)
    ensures ProducerView(d.session, limits, [], 0, false, false).Valid()
  {
  }

  lemma CaptureSound(w: World, session: string, bodies: seq<Body>)
    requires Sound(w) && Enabled(w, Capture(session, bodies))
    ensures Sound(Next(w, Capture(session, bodies)))
  {
    hide Sound, ValidBody, ProducerView.Valid, ProducerView.AppendAll, ProducerView.AllRoom;
    assert ProducerOk(w, session) by {
      SoundProducer(w, session);
    }
    var v := w.producers[session];
    ValidBasics(v);
    if Capturable(v, bodies) {
      CaptureValid(v, bodies);
      ProducerStepSound(w, session, v.AppendAll(bodies));
    }
  }

  lemma SoundProducer(w: World, session: string)
    requires Sound(w) && session in w.producers
    ensures ProducerOk(w, session)
  {
  }

  /** Sealing and releasing change what is served, never what was captured. */
  lemma SealSound(w: World, session: string, released: bool)
    requires Sound(w) && session in w.producers
    ensures var v := w.producers[session];
            Sound(w.(producers := w.producers[session := v.(sealed := true, released := released || v.released)]))
  {
    hide Sound;
    SoundProducer(w, session);
    var v := w.producers[session];
    var u := v.(sealed := true, released := released || v.released);
    assert u.Valid() by {
      hide ValidSnapshot, CostOf, Observations;
      assert forall k :: 0 <= k < |u.log| ==> u.At(k) == v.At(k);
    }
    ProducerStepSound(w, session, u);
  }

  lemma PullSound(w: World, source: Source, described: string, serving: string, limit: nat)
    requires Sound(w) && Enabled(w, Pull(source, described, serving, limit))
    ensures Sound(Next(w, Pull(source, described, serving, limit)))
  {
    hide Valid, Honest, Genuine, ProducerView.Valid, ProducerView.PageAt, ProducerText;
    var w' := Next(w, Pull(source, described, serving, limit));
    assert ProducerOk(w, described) && ProducerOk(w, serving);
    var v, after := w.producers[serving], ReadCursor(w, source, described);
    PageHonest(v, after, limit);
    PageWhole(v, after, limit);
    HonestSession(v.PageAt(after, limit), v, after);
    forall s | s in w'.producers ensures ProducerOk(w', s) {
      assert ProducerOk(w, s);
    }
    forall id | id in w'.flights ensures FlightOk(w', id) {
      if id != source.id {
        assert FlightOk(w, id);
      }
    }
  }

  lemma HonestSession(p: Page, v: ProducerView, after: nat)
    requires Honest(p, v, after)
    ensures p.session == v.session
  {
  }

  lemma LoseSound(w: World, id: string)
    requires Sound(w) && Enabled(w, Lose(id))
    ensures Sound(Next(w, Lose(id)))
  {
    hide Valid, Honest, Genuine, ProducerView.Valid, ProducerText;
    var w' := Next(w, Lose(id));
    forall s | s in w'.producers ensures ProducerOk(w', s) {
      assert ProducerOk(w, s);
    }
    forall other | other in w'.flights ensures FlightOk(w', other) {
      assert FlightOk(w, other);
    }
  }

  /** Committing an honest page stores only genuine snapshots and touches no other cursor. */
  lemma CommitEffect(db: Tables, f: Flight, v: ProducerView)
    requires Honest(f.page, v, f.after)
    ensures var db' := Apply(db, Submission(f.source, f.descriptor, f.page));
            && |db.rows| <= |db'.rows| && (forall i :: 0 <= i < |db.rows| ==> db'.rows[i] == db.rows[i])
            && (forall i :: |db.rows| <= i < |db'.rows| ==>
                  var s := db'.rows[i].snapshot; s.sequence < |v.log| && s == v.At(s.sequence))
  {
    hide Acceptable, ValidPage, AddRows;
    var page := f.page;
    var stream := StreamOf(f.source, page);
    var news := News(page, db.Cursor(stream));
    var from := page.next - |page.snapshots|;
    forall i | 0 <= i < |news| ensures news[i].sequence < |v.log| && news[i] == v.At(news[i].sequence) {
      var skip := Skipped(page, db.Cursor(stream));
      assert news[i] == page.snapshots[skip + i] == v.At(from + skip + i);
    }
    AddRowsPlaces(db, f.source, news);
    var db' := Apply(db, Submission(f.source, f.descriptor, f.page));
    forall i | |db.rows| <= i < |db'.rows|
      ensures var s := db'.rows[i].snapshot; s.sequence < |v.log| && s == v.At(s.sequence)
    {
      assert db'.rows[i] == Row(f.source.run, f.source.id, news[i - |db.rows|]);
    }
  }

  /** A commit stores rows only for the run its descriptor names, under the session that descriptor announced. */
  lemma CommitOwned(db: Tables, f: Flight, v: ProducerView)
    requires Honest(f.page, v, f.after)
    ensures var db' := Apply(db, Submission(f.source, f.descriptor, f.page));
            forall i :: |db.rows| <= i < |db'.rows| ==>
              && db'.rows[i].snapshot.session == f.page.session == f.descriptor.session
              && db'.rows[i].run == f.source.run == f.descriptor.run
  {
    hide ValidPage, AddRows, ValidDescriptor, ValidIdentifier, Continues;
    var page := f.page;
    var news := News(page, db.Cursor(StreamOf(f.source, page)));
    AddRowsPlaces(db, f.source, news);
    var db' := Apply(db, Submission(f.source, f.descriptor, f.page));
    forall i | |db.rows| <= i < |db'.rows|
      ensures db'.rows[i].snapshot.session == page.session && db'.rows[i].run == f.source.run
    {
      var k := Skipped(page, db.Cursor(StreamOf(f.source, page))) + i - |db.rows|;
      assert db'.rows[i] == Row(f.source.run, f.source.id, news[i - |db.rows|]);
      assert news[i - |db.rows|] == page.snapshots[k] == v.At(page.next - |page.snapshots| + k);
    }
  }

  /**
    A restart between the two requests, or a descriptor of another registration, is always caught:
    committing such a flight stores nothing.
   */
  lemma MismatchStoresNothing(w: World, id: string)
    requires Enabled(w, Commit(id))
    requires var f := w.flights[id];
             || f.descriptor.session != f.page.session || f.descriptor.run != f.source.run
             || f.descriptor.attempt != f.source.attempt || f.descriptor.role != f.source.role
    ensures var f := w.flights[id];
            !Acceptable(w.store, f.source, f.descriptor, f.page) && Next(w, Commit(id)).store == w.store
  {
    hide ValidPage, ValidDescriptor, Continues, Ingested;
  }

  /** Over every run, a stored snapshot lies under the run its session announced. */
  lemma StoredUnderItsRun(steps: seq<Step>, end: World, i: nat)
    requires Runs(INITIAL, steps, end) && i < |end.store.rows|
    ensures var row := end.store.rows[i];
            && row.snapshot.session in end.descriptors && end.descriptors[row.snapshot.session].run == row.run
            && end.descriptors[row.snapshot.session].session == row.snapshot.session
  {
    InitialSound();
    RunSound(INITIAL, steps, end);
    hide Honest, ProducerView.Valid, Valid, Charted, Headed, FlightOk, Lost, ProducerText;
    assert Owned(end.store.rows[i], end.descriptors) && Genuine(end.store.rows[i], end.producers);
    assert ProducerOk(end, end.store.rows[i].snapshot.session);
  }

  lemma CommitCursors(db: Tables, f: Flight, stream: Stream)
    requires stream.source != f.source.id
    ensures Apply(db, Submission(f.source, f.descriptor, f.page)).Cursor(stream) == db.Cursor(stream)
  {
    hide Acceptable, AddRows;
    AddRowsPlaces(db, f.source, News(f.page, db.Cursor(StreamOf(f.source, f.page))));
  }

  /** A commit records at most one gap, and only of snapshots the producer had evicted. */
  lemma CommitGaps(db: Tables, f: Flight, v: ProducerView)
    requires Honest(f.page, v, f.after)
    ensures var db' := Apply(db, Submission(f.source, f.descriptor, f.page));
            && |db.gaps| <= |db'.gaps| && (forall i :: 0 <= i < |db.gaps| ==> db'.gaps[i] == db.gaps[i])
            && (forall i :: |db.gaps| <= i < |db'.gaps| ==>
                  db'.gaps[i].stream.session == f.page.session && db'.gaps[i].oldest <= v.dropped)
  {
    hide Acceptable, ValidPage, AddRows;
    AddRowsPlaces(db, f.source, News(f.page, db.Cursor(StreamOf(f.source, f.page))));
  }

  lemma CommitSound(w: World, id: string)
    requires Sound(w) && Enabled(w, Commit(id))
    ensures Sound(Next(w, Commit(id)))
  {
    hide Valid, Honest, ProducerView.Valid, ProducerText, Apply;
    var w' := Next(w, Commit(id));
    var f := w.flights[id];
    assert FlightOk(w, id);
    var v := w.producers[f.page.session];
    assert ProducerOk(w, f.page.session);
    CommitEffect(w.store, f, v);
    CommitGaps(w.store, f, v);
    CommitOwned(w.store, f, v);
    forall i | 0 <= i < |w'.store.rows| ensures Owned(w'.store.rows[i], w'.descriptors) {
      if i < |w.store.rows| {
        assert Owned(w.store.rows[i], w.descriptors);
      }
    }
    ApplyValid(w.store, Submission(f.source, f.descriptor, f.page));
    forall s | s in w'.producers ensures ProducerOk(w', s) {
      assert ProducerOk(w, s);
    }
    forall i | 0 <= i < |w'.store.rows| ensures Genuine(w'.store.rows[i], w'.producers) {
      if i < |w.store.rows| {
        assert Genuine(w.store.rows[i], w.producers);
      } else {
        var s := w'.store.rows[i].snapshot;
        assert s == v.At(s.sequence);
      }
    }
    forall i | 0 <= i < |w'.store.gaps| ensures Lost(w'.store.gaps[i], w'.producers) {
      if i < |w.store.gaps| {
        assert Lost(w.store.gaps[i], w.producers);
      }
    }
    forall other | other in w'.flights ensures FlightOk(w', other) {
      assert FlightOk(w, other);
      CommitCursors(w.store, f, Stream(other, w.flights[other].descriptor.session));
    }
  }

  lemma ApplyValid(db: Tables, s: Submission)
    requires Valid(db) && Charted(db) && Headed(db)
    ensures Valid(Apply(db, s)) && Charted(Apply(db, s)) && Headed(Apply(db, s))
  {
    hide Valid, Acceptable, Ingested, Charted, HeadRight;
    IngestedDerived(db, s.source, s.page, ChartIndex.Reporter(s.source.run, s.source.id));
    forall reporter
      ensures HeadRight(Ingested(db, s.source, s.page), reporter)
    {
      IngestedDerived(db, s.source, s.page, reporter);
    }
    if Acceptable(db, s.source, s.descriptor, s.page) {
      IngestedValid(db, s.source, s.descriptor, s.page);
    }
  }

  /** Every step of the system keeps the invariant. */
  lemma StepSound(w: World, step: Step)
    requires Sound(w) && Enabled(w, step)
    ensures Sound(Next(w, step))
  {
    hide Sound, Enabled;
    match step
    case Start(d, limits) => StartSound(w, d, limits);
    case Capture(session, bodies) => CaptureSound(w, session, bodies);
    case Seal(session) =>
      EnabledSession(w, step, session);
      SealSound(w, session, false);
      assert w.producers[session].(sealed := true, released := w.producers[session].released)
             == w.producers[session].(sealed := true);
    case Release(session) =>
      EnabledSession(w, step, session);
      SealSound(w, session, true);
    case Pull(source, described, serving, limit) => PullSound(w, source, described, serving, limit);
    case Lose(id) => LoseSound(w, id);
    case Commit(id) => CommitSound(w, id);
  }

  lemma EnabledSession(w: World, step: Step, session: string)
    requires Enabled(w, step) && (step == Seal(session) || step == Release(session))
    ensures session in w.producers
  {
  }

  // ---------------------------------------------------------------- whole runs

  ghost predicate Runs(w: World, steps: seq<Step>, end: World)
    decreases |steps|
  {
    if steps == [] then end == w
    else Enabled(w, steps[0]) && Runs(Next(w, steps[0]), steps[1..], end)
  }

  /** The invariant holds after every run, whatever the interleaving. */
  lemma {:induction false} RunSound(w: World, steps: seq<Step>, end: World)
    requires Sound(w) && Runs(w, steps, end)
    ensures Sound(end)
    decreases |steps|
  {
    hide Sound, Enabled;
    if steps == [] {
    } else {
      StepSound(w, steps[0]);
      RunSound(Next(w, steps[0]), steps[1..], end);
    }
  }

  lemma InitialSound()
    ensures Sound(INITIAL)
  {
    EmptyValid();
  }

  /**
    End-to-end safety: over every run from nothing, whatever is stored for a stream at a sequence is
    exactly what that session captured at that sequence.
   */
  lemma EndToEndSafety(steps: seq<Step>, end: World, stream: Stream, n: nat)
    requires Runs(INITIAL, steps, end) && end.store.Has(stream, n)
    ensures var row := end.store.unique[Key(stream, n)];
            && row < |end.store.rows| && end.store.rows[row].source == stream.source
            && stream.session in end.producers && n < |end.producers[stream.session].log|
            && end.store.rows[row].snapshot == end.producers[stream.session].At(n)
  {
    InitialSound();
    RunSound(INITIAL, steps, end);
    hide Honest, ProducerView.Valid, Coverage, Charted, Headed;
    var row := end.store.unique[Key(stream, n)];
    assert KeyOf(end.store.rows[row]) == Key(stream, n);
    assert Genuine(end.store.rows[row], end.producers);
  }

  /**
    No false loss: over every run, whatever lies in a recorded gap was evicted by its producer, and
    everything else below a cursor is stored as captured.
   */
  lemma GapsAreLosses(steps: seq<Step>, end: World, stream: Stream, n: nat)
    requires Runs(INITIAL, steps, end) && n < end.store.Cursor(stream)
    ensures InGap(end.store, stream, n) <==> !end.store.Has(stream, n)
    ensures InGap(end.store, stream, n) ==>
              stream.session in end.producers && n < end.producers[stream.session].dropped
  {
    InitialSound();
    RunSound(INITIAL, steps, end);
    hide Honest, ProducerView.Valid, Genuine, Charted, Headed, UniqueOk, GapsApart, GapsBelow;
    assert Accounted(end.store, stream, n);
    if InGap(end.store, stream, n) {
      var i :| 0 <= i < |end.store.gaps| && end.store.gaps[i].stream == stream
               && end.store.gaps[i].expected <= n < end.store.gaps[i].oldest;
      assert Lost(end.store.gaps[i], end.producers);
    }
  }

  /** So a session that never evicted is stored without holes, as far as its cursor goes. */
  lemma NothingEvictedNothingLost(steps: seq<Step>, end: World, stream: Stream)
    requires Runs(INITIAL, steps, end)
    requires stream.session in end.producers ==> end.producers[stream.session].dropped == 0
    ensures AllStored(end.store, stream, end.store.Cursor(stream))
  {
    forall n | 0 <= n < end.store.Cursor(stream) ensures end.store.Has(stream, n) {
      GapsAreLosses(steps, end, stream, n);
    }
  }

  /** The registration a descriptor must belong to. */
  predicate Matches(source: Source, d: Descriptor) {
    ValidIdentifier(source.id) && d.run == source.run && d.attempt == source.attempt && d.role == source.role
  }

  /**
    Acceptance: the page a source holds under its lock is committed exactly when it came from a
    producer that had not released its history (or that had nothing left to serve), provided
    descriptor and page are of one session and match the registration.
   */
  lemma LockedPageAccepted(steps: seq<Step>, end: World, id: string)
    requires Runs(INITIAL, steps, end) && id in end.flights
    requires end.flights[id].descriptor.session == end.flights[id].page.session
    requires Matches(end.flights[id].source, end.flights[id].descriptor)
    ensures var f := end.flights[id];
            Acceptable(end.store, f.source, f.descriptor, f.page) <==> f.whole
  {
    InitialSound();
    RunSound(INITIAL, steps, end);
    SameSessionIdentified(end, id);
    hide ValidPage, Identified, Valid, Genuine;
    assert FlightOk(end, id);
    var f := end.flights[id];
    var v := end.producers[f.page.session];
    HonestContinues(f.page, v, f.after);
  }

  /** The smallest run that ends in a refusal: capture once, release, pull from the beginning. */
  ghost function ReleasedRun(d: Descriptor, limits: Limits, body: Body, source: Source): seq<Step> {
    [Start(d, limits), Capture(d.session, [body]), Release(d.session), Pull(source, d.session, d.session, 1)]
  }

  /** Refusal does happen: for any capturable body that run leads to a page the store rejects. */
  lemma ReleasedPageRefused(d: Descriptor, limits: Limits, body: Body, source: Source) returns (end: World)
    requires ProducerText(d) && ValidLimits(limits) && Matches(source, d)
    requires Capturable(ProducerView(d.session, limits, [], 0, false, false), [body])
    ensures Runs(INITIAL, ReleasedRun(d, limits, body, source), end)
    ensures source.id in end.flights && !end.flights[source.id].whole && end.flights[source.id].source == source
    ensures end.flights[source.id].descriptor == d && end.flights[source.id].page.session == d.session
    ensures !Acceptable(end.store, source, end.flights[source.id].descriptor, end.flights[source.id].page)
  {
    hide Acceptable, Capturable, ProducerText, Matches, ProducerView.Valid;
    var steps := ReleasedRun(d, limits, body, source);
    var started := Next(INITIAL, steps[0]);
    var captured := Next(started, steps[1]);
    var released := Next(captured, steps[2]);
    assert started.producers[d.session] == ProducerView(d.session, limits, [], 0, false, false);
    assert captured.producers[d.session].log == [body] && Shaped(captured.producers[d.session]);
    end := Next(released, steps[3]);
    assert Enabled(released, steps[3]);
    RunsStep(released, steps[3], [], end);
    RunsStep(captured, steps[2], [steps[3]], end);
    RunsStep(started, steps[1], [steps[2], steps[3]], end);
    RunsStep(INITIAL, steps[0], [steps[1], steps[2], steps[3]], end);
    LockedPageAccepted(steps, end, source.id);
  }

  lemma ShortText(c: char)
    requires 'a' <= c <= 'z'
    ensures ValidText([c]) && ValidIdentifier([c]) && Bytes([c]) == 1
  {
    assert c in [c] && [c][1..] == "";
  }

  lemma EmptyStateCapturable(limits: Limits, body: Body)
    requires limits == Limits(1, 1000) && body == Body(0, map[], Json.Object(map[]), Untracked, 0, 100)
    ensures Capturable(ProducerView("s", limits, [], 0, false, false), [body])
  {
    ShortText('s');
    assert Nodes(body.state) == 1 && Supported(body.state, 0);
    assert [body][..0] == [] && [body][1..] == [];
    assert Digits(0) == 1;
  }

  /** And such bodies exist: an empty state captured by a producer that holds one snapshot. */
  lemma RefusedExample() returns (steps: seq<Step>, end: World, id: string)
    ensures Runs(INITIAL, steps, end) && id in end.flights
    ensures var f := end.flights[id];
            Identified(f.source, f.descriptor, f.page) && !Acceptable(end.store, f.source, f.descriptor, f.page)
  {
    var d := Descriptor(PROTOCOL_VERSION, SCHEMA_VERSION, "s", "p", "e", "r", "a", "w");
    var limits := Limits(1, 1000);
    var source := Sources.Source("x", "r", "a", "w", Sources.Endpoint("http://localhost", true), None, None,
                                 Sources.Discovered, None, None, None, 1000, 1000);
    var body := Body(0, map[], Json.Object(map[]), Untracked, 0, 100);
    ShortText('s'); ShortText('p'); ShortText('e'); ShortText('r'); ShortText('a'); ShortText('w'); ShortText('x');
    EmptyStateCapturable(limits, body);
    end := ReleasedPageRefused(d, limits, body, source);
    steps, id := ReleasedRun(d, limits, body, source), source.id;
    InitialSound();
    RunSound(INITIAL, steps, end);
    SameSessionIdentified(end, id);
  }

  lemma RunsStep(w: World, step: Step, rest: seq<Step>, end: World)
    requires Enabled(w, step) && Runs(Next(w, step), rest, end)
    ensures Runs(w, [step] + rest, end)
  {
    hide Enabled, Next;
    assert ([step] + rest)[1..] == rest;
  }

  /** At its own cursor an honest page repeats nothing and continues, unless it is an empty jump. */
  lemma HonestContinues(p: Page, v: ProducerView, after: nat)
    requires Honest(p, v, after)
    ensures Skipped(p, after) == 0
    ensures Continues(p, after) <==> p.snapshots != [] || p.oldest <= after
  {
    hide ValidPage;
    if p.snapshots != [] {
      assert p.snapshots[0] == v.At(p.next - |p.snapshots|);
      assert p.snapshots[0..] == p.snapshots;
    }
  }

  /** Page and descriptor of one producer identify themselves to a matching registration. */
  lemma SameSessionIdentified(w: World, id: string)
    requires Sound(w) && id in w.flights && w.flights[id].descriptor.session == w.flights[id].page.session
    requires Matches(w.flights[id].source, w.flights[id].descriptor)
    ensures var f := w.flights[id]; Identified(f.source, f.descriptor, f.page)
  {
    hide ValidPage, Valid, Genuine, ProducerText, Matches, Identified, ProducerView.Valid;
    var f := w.flights[id];
    assert FlightOk(w, id);
    assert ProducerOk(w, f.descriptor.session);
    MatchIdentified(f.source, f.descriptor, f.page);
  }

  // ---------------------------------------------------------------- draining

  /** Everything stored for the stream is what the producer captured. */
  ghost predicate Trusted(db: Tables, v: ProducerView, source: Source) {
    && Valid(db) && db.Cursor(Stream(source.id, v.session)) <= |v.log|
    && forall i :: 0 <= i < |db.rows| && db.rows[i].source == source.id && db.rows[i].snapshot.session == v.session ==>
         db.rows[i].snapshot.sequence < |v.log| && db.rows[i].snapshot == v.At(db.rows[i].snapshot.sequence)
  }

  ghost predicate AllStored(db: Tables, stream: Stream, n: nat) {
    forall k :: 0 <= k < n ==> db.Has(stream, k)
  }

  /** Nothing was lost so far and nothing still owed has been evicted. */
  ghost predicate Lossless(db: Tables, v: ProducerView, stream: Stream) {
    v.dropped <= db.Cursor(stream) && AllStored(db, stream, db.Cursor(stream))
  }

  /** Every reachable world can be drained: the store never runs ahead of, nor misquotes, a producer. */
  lemma ReachableTrusted(steps: seq<Step>, end: World, session: string, source: Source)
    requires Runs(INITIAL, steps, end) && session in end.producers
    ensures end.producers[session].session == session && end.producers[session].Valid()
    ensures Trusted(end.store, end.producers[session], source)
  {
    InitialSound();
    RunSound(INITIAL, steps, end);
    hide Sound, ProducerText, ProducerView.Valid, Valid;
    SoundProducer(end, session);
    SoundRows(end, session);
    SoundCursor(end, Stream(source.id, session));
  }

  lemma SoundRows(w: World, session: string)
    requires Sound(w) && session in w.producers
    ensures Valid(w.store)
    ensures var v := w.producers[session];
            forall i :: 0 <= i < |w.store.rows| && w.store.rows[i].snapshot.session == session ==>
              w.store.rows[i].snapshot.sequence < |v.log|
                && w.store.rows[i].snapshot == v.At(w.store.rows[i].snapshot.sequence)
  {
    hide Valid, Charted, Headed, FlightOk, Lost, ProducerOk;
    forall i | 0 <= i < |w.store.rows| ensures Genuine(w.store.rows[i], w.producers) {
    }
  }

  lemma SoundCursor(w: World, stream: Stream)
    requires Sound(w) && stream.session in w.producers
    ensures w.store.Cursor(stream) <= |w.producers[stream.session].log|
  {
    hide Charted, Headed, FlightOk, Lost, ProducerOk, Accounted, GapsApart, GapsBelow;
    var db := w.store;
    if db.Cursor(stream) > 0 {
      assert db.Has(stream, db.Cursor(stream) - 1);
      var row := db.unique[Key(stream, db.Cursor(stream) - 1)];
      assert KeyOf(db.rows[row]) == Key(stream, db.Cursor(stream) - 1);
      assert Genuine(db.rows[row], w.producers);
    }
  }

  lemma PageAccepted(db: Tables, v: ProducerView, source: Source, d: Descriptor, limit: nat)
    requires v.Valid() && !v.released && Trusted(db, v, source) && 1 <= limit <= MAX_PAGE_SNAPSHOTS
    requires ProducerText(d) && Matches(source, d) && d.session == v.session
    ensures var page := v.PageAt(db.Cursor(Stream(source.id, v.session)), limit);
            Honest(page, v, db.Cursor(Stream(source.id, v.session))) && Acceptable(db, source, d, page)
  {
    hide ProducerView.PageAt, ProducerView.Valid, Valid, ValidPage, Identified, ProducerText, Matches;
    var c := db.Cursor(Stream(source.id, v.session));
    ValidBasics(v);
    var page := v.PageAt(c, limit);
    PageHonest(v, c, limit);
    PageWhole(v, c, limit);
    HonestContinues(page, v, c);
    MatchIdentified(source, d, page);
  }

  lemma MatchIdentified(source: Source, d: Descriptor, page: Page)
    requires ProducerText(d) && Matches(source, d) && ValidPage(page) && d.session == page.session
    ensures Identified(source, d, page)
  {
    hide ValidPage;
  }

  lemma AboveCursor(db: Tables, stream: Stream, n: nat)
    requires Valid(db) && n >= db.Cursor(stream)
    ensures !db.Has(stream, n)
  {
    AccountedAbove(db, stream, n);
  }

  /** One pull and commit moves the cursor forward and keeps losslessness exactly as it was. */
  lemma DrainStep(db: Tables, v: ProducerView, source: Source, d: Descriptor, limit: nat)
    requires v.Valid() && !v.released && Trusted(db, v, source) && 1 <= limit <= MAX_PAGE_SNAPSHOTS
    requires ProducerText(d) && Matches(source, d) && d.session == v.session
    requires db.Cursor(Stream(source.id, v.session)) < |v.log|
    ensures var stream := Stream(source.id, v.session);
            var db' := Ingested(db, source, v.PageAt(db.Cursor(stream), limit));
            && Trusted(db', v, source) && db.Cursor(stream) < db'.Cursor(stream)
            && (Lossless(db', v, stream) <==> Lossless(db, v, stream))
  {
    hide ProducerView.PageAt, ValidPage, Valid, ProducerView.Valid, Apply, Acceptable, Ingested;
    ValidBasics(v);
    var stream := Stream(source.id, v.session);
    var c := db.Cursor(stream);
    var page := v.PageAt(c, limit);
    PageAccepted(db, v, source, d, limit);
    PageProgress(v, c, limit);
    IngestedValid(db, source, d, page);
    CommitEffect(db, Flight(source, d, page, c, true), v);
    var db' := Ingested(db, source, page);
    assert db' == Apply(db, Submission(source, d, page)) by {
      ApplyAccepted(db, Submission(source, d, page));
    }
    DrainCursor(db, v, source, page);
    ServedOldest(v, c, limit);
    if v.dropped > c {
      AboveCursor(db, stream, c);
      assert !db'.Has(stream, c);
    } else {
      assert forall k :: 0 <= k < c ==> (db'.Has(stream, k) <==> db.Has(stream, k));
      assert forall k :: c <= k < db'.Cursor(stream) ==> db'.Has(stream, k);
    }
  }

  lemma ApplyAccepted(db: Tables, s: Submission)
    requires Acceptable(db, s.source, s.descriptor, s.page)
    ensures Apply(db, s) == Ingested(db, s.source, s.page)
  {
  }

  lemma ServedOldest(v: ProducerView, after: nat, limit: nat)
    requires v.dropped <= |v.log| && !v.released && after <= |v.log|
    ensures v.PageAt(after, limit).oldest == v.dropped
  {
  }

  lemma DrainCursor(db: Tables, v: ProducerView, source: Source, page: Page)
    requires Valid(db) && Honest(page, v, db.Cursor(Stream(source.id, v.session))) && page.snapshots != []
    ensures var stream := Stream(source.id, v.session);
            var c, db' := db.Cursor(stream), Ingested(db, source, page);
            && c < db'.Cursor(stream) == page.next <= |v.log|
            && forall k: nat :: db'.Has(stream, k) <==> db.Has(stream, k) || Max(c, page.oldest) <= k < page.next
  {
    hide ValidPage, AddRows, Coverage, UniqueOk;
    var stream := Stream(source.id, v.session);
    var c := db.Cursor(stream);
    HonestContinues(page, v, c);
    var news := News(page, c);
    assert news == page.snapshots;
    NewsConsecutive(page, c);
    AddRowsKeys(db, source, news, page.session, news[0].sequence);
    assert news[0] == v.At(page.next - |page.snapshots|);
    forall k: nat
      ensures Ingested(db, source, page).Has(stream, k)
         <==> db.Has(stream, k) || Max(c, page.oldest) <= k < page.next
    {
      assert Key(stream, k).sequence == k;
    }
  }

  /**
    Pull and commit until nothing is left. Against a sealed producer that keeps its history this
    ends with the cursor at the final sequence, and complete exactly when nothing had been lost
    before and nothing was evicted before it could be pulled.
   */
  method Drain(store: SnapshotStore, producer: SnapshotProducer, source: Source, d: Descriptor, limit: nat)
    requires producer.Valid() && producer.sealed && !producer.released
    requires ProducerText(d) && Matches(source, d) && d.session == producer.session
    requires Trusted(store.db, producer.View(), source) && 1 <= limit <= MAX_PAGE_SNAPSHOTS
    modifies store
    ensures Trusted(store.db, producer.View(), source)
    ensures store.db.Cursor(Stream(source.id, d.session)) == |producer.log|
    ensures AllStored(store.db, Stream(source.id, d.session), |producer.log|)
       <==> old(Lossless(store.db, producer.View(), Stream(source.id, d.session)))
  {
    hide Valid, ProducerView.Valid, ProducerView.PageAt, Acceptable, Ingested, Apply;
    var stream := Stream(source.id, d.session);
    ghost var v := producer.View();
    while store.db.Cursor(stream) < producer.next
      invariant producer.Valid() && producer.View() == v && Trusted(store.db, v, source)
      invariant Lossless(store.db, v, stream) <==> old(Lossless(store.db, producer.View(), stream))
      decreases |v.log| - store.db.Cursor(stream)
    {
      var page := producer.SelectHistory(store.db.Cursor(stream), limit);
      ghost var before := store.db;
      var sub := Submission(source, d, page.value);
      PageAccepted(before, v, source, d, limit);
      DrainStep(before, v, source, d, limit);
      var _ := store.IngestBatch([sub]);
      ApplyAccepted(before, sub);
      assert [sub][..0] == [];
      assert ApplyAll(before, [sub]) == Apply(before, sub);
    }
    ValidBasics(v);
  }
}
