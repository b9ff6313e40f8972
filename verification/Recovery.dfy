/** Opening the store: building the derived tables, and what an interrupted opening leaves behind. */
module Recovery {
  import opened Common
  import opened Protocol
  import opened ChartIndex
  import opened Indexer
  import opened StoreTables

  const INDEX_VERSION := 3

  /** What is on disk when the store is opened. */
  datatype Disk = Disk(rows: seq<Row>, hasHeads: bool, heads: map<Reporter, nat>, version: Option<nat>, chart: Index)

  // ---------------------------------------------------------------- heads

  /** The newest snapshot of the reporter that is not an event. */
  ghost predicate IsHead(rows: seq<Row>, reporter: Reporter, id: nat) {
    && 1 <= id <= |rows| && ReporterOf(rows[id - 1]) == reporter && !rows[id - 1].snapshot.IsEvent()
    && forall i :: id <= i < |rows| && ReporterOf(rows[i]) == reporter ==> rows[i].snapshot.IsEvent()
  }

  /** The newest snapshot of the reporter, event or not. */
  ghost predicate IsNewest(rows: seq<Row>, reporter: Reporter, id: nat) {
    && 1 <= id <= |rows| && ReporterOf(rows[id - 1]) == reporter
    && forall i :: id <= i < |rows| ==> ReporterOf(rows[i]) != reporter
  }

  /** Incremental heads are the newest non-event snapshots, and exist exactly for reporters with one. */
  lemma {:induction false} HeadsAreNewest(rows: seq<Row>, reporter: Reporter)
    ensures reporter in HeadsOf(rows) ==> IsHead(rows, reporter, HeadsOf(rows)[reporter])
    ensures reporter !in HeadsOf(rows) ==>
              forall i :: 0 <= i < |rows| && ReporterOf(rows[i]) == reporter ==> rows[i].snapshot.IsEvent()
  {
    if rows == [] {
    } else {
      var prefix := rows[..|rows| - 1];
      HeadsAreNewest(prefix, reporter);
      assert forall i :: 0 <= i < |prefix| ==> prefix[i] == rows[i];
    }
  }

  /** The group-by maximum a first opening inserts: the newest snapshot, events included. */
  function LastRows(rows: seq<Row>): map<Reporter, nat> {
    if rows == [] then map[] else LastRows(rows[..|rows| - 1])[ReporterOf(rows[|rows| - 1]) := |rows|]
  }

  lemma {:induction false} LastRowsAreNewest(rows: seq<Row>, reporter: Reporter)
    ensures reporter in LastRows(rows) ==> IsNewest(rows, reporter, LastRows(rows)[reporter])
    ensures reporter !in LastRows(rows) ==> forall i :: 0 <= i < |rows| ==> ReporterOf(rows[i]) != reporter
  {
    if rows == [] {
    } else {
      var prefix := rows[..|rows| - 1];
      LastRowsAreNewest(prefix, reporter);
      assert forall i :: 0 <= i < |prefix| ==> prefix[i] == rows[i];
    }
  }

  /** The same maximum over indexed observations only. */
  function ObservedHeads(rows: seq<Row>, observed: set<nat>): map<Reporter, nat> {
    if rows == [] then map[]
    else
      var prefix := ObservedHeads(rows[..|rows| - 1], observed);
      if |rows| in observed then prefix[ReporterOf(rows[|rows| - 1]) := |rows|] else prefix
  }

  lemma {:induction false} ObservedHeadsAreHeads(rows: seq<Row>, observed: set<nat>)
    requires forall i :: 0 <= i < |rows| ==> (i + 1 in observed <==> !rows[i].snapshot.IsEvent())
    ensures ObservedHeads(rows, observed) == HeadsOf(rows)
  {
    if rows == [] {
    } else {
      var prefix := rows[..|rows| - 1];
      assert forall i :: 0 <= i < |prefix| ==> prefix[i] == rows[i];
      ObservedHeadsAreHeads(prefix, observed);
    }
  }

  /** Entries point at snapshots of their own reporter. */
  ghost predicate Plausible(rows: seq<Row>, heads: map<Reporter, nat>) {
    forall reporter :: reporter in heads ==>
      1 <= heads[reporter] <= |rows| && ReporterOf(rows[heads[reporter] - 1]) == reporter
  }

  /** The heads that are observations. */
  function KeptHeads(heads: map<Reporter, nat>, observed: set<nat>): map<Reporter, nat> {
    map reporter | reporter in heads && heads[reporter] in observed :: heads[reporter]
  }

  /** Delete heads that are no observations, then insert the observed maximum of every reporter. */
  function RebuiltHeads(rows: seq<Row>, heads: map<Reporter, nat>, observed: set<nat>): map<Reporter, nat> {
    KeptHeads(heads, observed) + ObservedHeads(rows, observed)
  }

  lemma RebuiltHeadsAreHeads(rows: seq<Row>, heads: map<Reporter, nat>, chart: Index)
    requires Plausible(rows, heads) && chart == Build(rows)
    ensures RebuiltHeads(rows, heads, chart.observations.Keys) == HeadsOf(rows)
  {
    hide Build, HeadsOf, Tells;
    BuildFaithful(rows);
    var observed := chart.observations.Keys;
    ObservedHeadsAreHeads(rows, observed);
    forall reporter | reporter in heads && heads[reporter] in observed ensures reporter in HeadsOf(rows) {
      HeadsAreNewest(rows, reporter);
    }
  }

  // ---------------------------------------------------------------- opening

  /** The first transaction creates the tables; missing heads are filled with the newest snapshots. */
  function WithHeadTable(d: Disk): Disk {
    d.(hasHeads := true, heads := if d.hasHeads then d.heads else LastRows(d.rows))
  }

  /** The index is started anew because the stored version is another one. */
  predicate Restarts(d: Disk) {
    d.version != Some(INDEX_VERSION)
  }

  /** The opening reaches the statements that rebuild the heads. */
  predicate Rebuilds(d: Disk) {
    Restarts(d) || !d.hasHeads
  }

  ghost predicate Openable(d: Disk) {
    && (d.hasHeads ==> Plausible(d.rows, d.heads))
    && (d.version == Some(INDEX_VERSION) ==> d.chart.lastId <= |d.rows| && d.chart == Build(d.rows[..d.chart.lastId]))
  }

  /** The complete index, and heads rebuilt only when the index was started anew or none existed. */
  ghost function Opened(d: Disk): Disk {
    Disk(d.rows, true, if Rebuilds(d) then HeadsOf(d.rows) else d.heads,
         Some(INDEX_VERSION), Build(d.rows))
  }

  /**
    Open the store: the index always ends up as that of the whole table, from wherever an earlier
    rebuild stopped; the heads are rebuilt when the index was started anew or no heads existed.
   */
  method Open(d: Disk) returns (r: Disk)
    requires Openable(d)
    ensures r == Opened(d)
  {
    hide Build, HeadsOf, LastRows;
    r := WithHeadTable(d);
    var rebuilt := Restarts(d);
    var tables := new ChartTables();
    if !rebuilt {
      tables.index := d.chart;
    } else {
      BuildNothing(d.rows);
    }
    tables.Rebuild(d.rows);
    r := r.(version := Some(INDEX_VERSION), chart := tables.index);
    if rebuilt || !d.hasHeads {
      LastRowsPlausible(d.rows);
      RebuiltHeadsAreHeads(d.rows, r.heads, r.chart);
      r := r.(heads := RebuiltHeads(d.rows, r.heads, r.chart.observations.Keys));
    }
  }

  lemma BuildNothing(rows: seq<Row>)
    ensures Build(rows[..0]) == EMPTY
  {
  }

  lemma LastRowsPlausible(rows: seq<Row>)
    ensures Plausible(rows, LastRows(rows))
  {
    hide LastRows;
    forall reporter | reporter in LastRows(rows)
      ensures 1 <= LastRows(rows)[reporter] <= |rows| && ReporterOf(rows[LastRows(rows)[reporter] - 1]) == reporter
    {
      LastRowsAreNewest(rows, reporter);
    }
  }

  // ---------------------------------------------------------------- interrupted openings

  /** Where an opening may end: between any two of its commits, or after the last. */
  datatype Stop =
    | BeforeTables         // nothing committed
    | AfterTables          // head table created and filled
    | Indexing(k: nat)     // index started or resumed, `k` snapshots indexed
    | AfterDelete          // index complete, heads that are no observations deleted
    | Completed

  predicate Reachable(d: Disk, stop: Stop) {
    match stop
    case Indexing(k) => (if Restarts(d) then 0 else d.chart.lastId) <= k <= |d.rows|
    case AfterDelete => Rebuilds(d)
    case _ => true
  }

  /** What is on disk when the opening has stopped there. */
  ghost function Stopped(d: Disk, stop: Stop): Disk
    requires Reachable(d, stop)
  {
    match stop
    case BeforeTables => d
    case AfterTables => WithHeadTable(d)
    case Indexing(k) => WithHeadTable(d).(version := Some(INDEX_VERSION), chart := Build(d.rows[..k]))
    case AfterDelete =>
      var chart := Build(d.rows);
      Disk(d.rows, true, KeptHeads(WithHeadTable(d).heads, chart.observations.Keys), Some(INDEX_VERSION), chart)
    case Completed => Opened(d)
  }

  /** An opening that stopped anywhere can be taken up again. */
  lemma StoppedOpenable(d: Disk, stop: Stop)
    requires Openable(d) && Reachable(d, stop)
    ensures Openable(Stopped(d, stop)) && Stopped(d, stop).rows == d.rows
  {
    hide Build, LastRows, HeadsOf, Tells;
    LastRowsPlausible(d.rows);
    HeadsPlausible(d.rows);
    assert d.rows[..|d.rows|] == d.rows;
    BuildFaithful(d.rows);
    if stop.Indexing? {
      BuildFaithful(d.rows[..stop.k]);
    }
  }

  lemma HeadsPlausible(rows: seq<Row>)
    ensures Plausible(rows, HeadsOf(rows))
  {
    hide HeadsOf;
    forall reporter | reporter in HeadsOf(rows)
      ensures 1 <= HeadsOf(rows)[reporter] <= |rows| && ReporterOf(rows[HeadsOf(rows)[reporter] - 1]) == reporter
    {
      HeadsAreNewest(rows, reporter);
    }
  }

  /** Every reporter's newest snapshot is an observation. */
  predicate NewestAreObservations(rows: seq<Row>) {
    forall i :: 0 <= i < |rows| && NewestRow(rows, i) ==> !rows[i].snapshot.IsEvent()
  }

  /** A reporter whose newest snapshot is an event has no observation at all. */
  predicate EventsAlone(rows: seq<Row>) {
    forall i, j ::
      (0 <= i < |rows| && 0 <= j < |rows| && NewestRow(rows, i) && rows[i].snapshot.IsEvent()
       && ReporterOf(rows[j]) == ReporterOf(rows[i]))
      ==> rows[j].snapshot.IsEvent()
  }

  predicate NewestRow(rows: seq<Row>, i: nat)
    requires i < |rows|
  {
    forall j :: i < j < |rows| ==> ReporterOf(rows[j]) != ReporterOf(rows[i])
  }

  /** The stored head table is right; without one, the newest snapshots it is filled with are. */
  ghost predicate TableRight(d: Disk) {
    if d.hasHeads then d.heads == HeadsOf(d.rows) else NewestAreObservations(d.rows)
  }

  /** It is right for every reporter that has an observation; other entries will be deleted. */
  ghost predicate TableCovers(d: Disk) {
    if d.hasHeads then Covers(d.heads, HeadsOf(d.rows)) else EventsAlone(d.rows)
  }

  ghost predicate Covers(heads: map<Reporter, nat>, wanted: map<Reporter, nat>) {
    forall reporter :: reporter in wanted ==> reporter in heads && heads[reporter] == wanted[reporter]
  }

  /** When the heads survive a stop there. */
  ghost predicate Harmless(d: Disk, stop: Stop) {
    match stop
    case BeforeTables => Rebuilds(d) || TableRight(d)
    case AfterTables => Restarts(d) || TableRight(d)
    case Indexing(_) => TableRight(d)
    case AfterDelete => TableCovers(d)
    case Completed => Rebuilds(d) || TableRight(d)
  }

  lemma LastRowsRight(rows: seq<Row>)
    ensures LastRows(rows) == HeadsOf(rows) <==> NewestAreObservations(rows)
  {
    hide LastRows, HeadsOf;
    if NewestAreObservations(rows) {
      forall reporter
        ensures reporter in LastRows(rows) <==> reporter in HeadsOf(rows)
        ensures reporter in LastRows(rows) && reporter in HeadsOf(rows) ==>
                LastRows(rows)[reporter] == HeadsOf(rows)[reporter]
      {
        LastRowsAreNewest(rows, reporter);
        HeadsAreNewest(rows, reporter);
        if reporter in LastRows(rows) {
          assert NewestRow(rows, LastRows(rows)[reporter] - 1);
        }
      }
    } else {
      var i :| 0 <= i < |rows| && NewestRow(rows, i) && rows[i].snapshot.IsEvent();
      LastRowsAreNewest(rows, ReporterOf(rows[i]));
      HeadsAreNewest(rows, ReporterOf(rows[i]));
    }
  }

  lemma LastRowsCover(rows: seq<Row>)
    ensures Covers(LastRows(rows), HeadsOf(rows)) <==> EventsAlone(rows)
  {
    hide LastRows, HeadsOf, NewestRow, EventsAlone, Covers, IsHead, IsNewest;
    if EventsAlone(rows) {
      EventsAloneCover(rows);
    } else {
      CoverEventsAlone(rows);
    }
  }

  lemma EventsAloneCover(rows: seq<Row>)
    requires EventsAlone(rows)
    ensures Covers(LastRows(rows), HeadsOf(rows))
  {
    hide LastRows, HeadsOf;
    forall reporter | reporter in HeadsOf(rows)
      ensures reporter in LastRows(rows) && LastRows(rows)[reporter] == HeadsOf(rows)[reporter]
    {
      LastRowsAreNewest(rows, reporter);
      HeadsAreNewest(rows, reporter);
      assert NewestRow(rows, LastRows(rows)[reporter] - 1);
    }
  }

  lemma CoverEventsAlone(rows: seq<Row>)
    requires !EventsAlone(rows)
    ensures !Covers(LastRows(rows), HeadsOf(rows))
  {
    hide LastRows, HeadsOf;
    var i, j :| 0 <= i < |rows| && 0 <= j < |rows| && NewestRow(rows, i) && rows[i].snapshot.IsEvent()
                && ReporterOf(rows[j]) == ReporterOf(rows[i]) && !rows[j].snapshot.IsEvent();
    LastRowsAreNewest(rows, ReporterOf(rows[i]));
    HeadsAreNewest(rows, ReporterOf(rows[i]));
  }

  /** Deleting the heads that are no observations leaves the right ones exactly when all those were there. */
  lemma KeptHeadsRight(rows: seq<Row>, heads: map<Reporter, nat>)
    requires Plausible(rows, heads)
    ensures KeptHeads(heads, Build(rows).observations.Keys) == HeadsOf(rows) ==> Covers(heads, HeadsOf(rows))
    ensures Covers(heads, HeadsOf(rows)) ==> KeptHeads(heads, Build(rows).observations.Keys) == HeadsOf(rows)
  {
    hide Build, HeadsOf, Tells;
    BuildFaithful(rows);
    var kept := KeptHeads(heads, Build(rows).observations.Keys);
    if Covers(heads, HeadsOf(rows)) {
      forall reporter
        ensures reporter in kept <==> reporter in HeadsOf(rows)
        ensures reporter in kept && reporter in HeadsOf(rows) ==> kept[reporter] == HeadsOf(rows)[reporter]
      {
        HeadsAreNewest(rows, reporter);
      }
    }
  }

  /**
    The next opening has the right heads if and only if the stop was harmless. For a database that
    has to be upgraded this fails wherever the index was already restarted but the stored heads,
    or the newest snapshots put in their place, are not the newest observations.
   */
  lemma StoppedHeads(d: Disk, stop: Stop)
    requires Openable(d) && Reachable(d, stop)
    ensures Opened(Stopped(d, stop)).heads == HeadsOf(d.rows) <==> Harmless(d, stop)
  {
    hide LastRows, HeadsOf, Build, NewestAreObservations, EventsAlone, Covers, KeptHeads;
    LastRowsRight(d.rows);
    LastRowsCover(d.rows);
    LastRowsPlausible(d.rows);
    KeptHeadsRight(d.rows, WithHeadTable(d).heads);
  }

  // ---------------------------------------------------------------- openings stopped again and again

  ghost predicate AllReachable(d: Disk, stops: seq<Stop>)
    decreases |stops|
  {
    stops == [] || (Reachable(d, stops[0]) && AllReachable(Stopped(d, stops[0]), stops[1..]))
  }

  ghost function StoppedAll(d: Disk, stops: seq<Stop>): Disk
    requires AllReachable(d, stops)
    decreases |stops|
  {
    if stops == [] then d else StoppedAll(Stopped(d, stops[0]), stops[1..])
  }

  /** The first stop that left behind a head table and a current index: nothing touches the heads after it. */
  function Decisive(d: Disk, stops: seq<Stop>): Stop
    decreases |stops|
  {
    if stops == [] then BeforeTables
    else if stops[0].BeforeTables? then Decisive(d, stops[1..])
    else if stops[0].AfterTables? && Restarts(d) then
      var rest := Decisive(d, stops[1..]);
      if rest.BeforeTables? then AfterTables else rest
    else stops[0]
  }

  /** With a head table and a current index, no opening changes the heads, wherever it stops. */
  lemma {:induction false} SettledHeads(d: Disk, stops: seq<Stop>)
    requires Openable(d) && !Rebuilds(d) && AllReachable(d, stops)
    ensures StoppedAll(d, stops).heads == d.heads && !Rebuilds(StoppedAll(d, stops))
    decreases |stops|
  {
    hide Build, LastRows, HeadsOf, Openable;
    if stops == [] {
    } else {
      StoppedOpenable(d, stops[0]);
      SettledHeads(Stopped(d, stops[0]), stops[1..]);
    }
  }

  lemma TablesFirst(d: Disk, stop: Stop)
    requires Restarts(d)
    ensures Harmless(WithHeadTable(d), stop) <==> Harmless(d, stop)
  {
    hide LastRows, HeadsOf, NewestAreObservations, EventsAlone, Covers;
    LastRowsRight(d.rows);
    LastRowsCover(d.rows);
  }

  /**
    However often openings stop before one completes, the heads it ends with are the newest non-event
    snapshots if and only if the decisive stop was harmless.
   */
  lemma {:induction false} StoppedRunHeads(d: Disk, stops: seq<Stop>)
    requires Openable(d) && AllReachable(d, stops)
    ensures Opened(StoppedAll(d, stops)).heads == HeadsOf(d.rows) <==> Harmless(d, Decisive(d, stops))
    decreases |stops|
  {
    hide Build, LastRows, HeadsOf, Openable, TableRight, TableCovers;
    if stops == [] {
      StoppedHeads(d, BeforeTables);
    } else {
      var next := Stopped(d, stops[0]);
      StoppedOpenable(d, stops[0]);
      StoppedHeads(d, stops[0]);
      if stops[0].BeforeTables? {
        StoppedRunHeads(d, stops[1..]);
      } else if stops[0].AfterTables? && Restarts(d) {
        StoppedRunHeads(next, stops[1..]);
        SameDecisive(d, next, stops[1..]);
        TablesFirst(d, Decisive(d, stops[1..]));
      } else {
        SettledHeads(next, stops[1..]);
      }
    }
  }

  lemma {:induction false} SameDecisive(d: Disk, e: Disk, stops: seq<Stop>)
    requires Restarts(d) <==> Restarts(e)
    ensures Decisive(d, stops) == Decisive(e, stops)
    decreases |stops|
  {
    if stops == [] {
    } else {
      SameDecisive(d, e, stops[1..]);
    }
  }

  // ---------------------------------------------------------------- three databases that lose their heads

  function ExampleRow(state: Json.Value, sequence: nat, header: Header): Row {
    Row("run", "source", Snapshot("session", SCHEMA_VERSION, sequence, Body(0, map[], state, header, 0, 0)))
  }

  /** First opening, stopped while indexing: the head stays the event it was filled with. */
  lemma InterruptedHeadIsEvent(state: Json.Value)
    ensures var d := Disk([ExampleRow(state, 0, Event)], false, map[], None, EMPTY);
            && Openable(d) && Opened(d).heads == map[]
            && Opened(Stopped(d, Indexing(0))).heads == map[Reporter("run", "source") := 1]
  {
    var rows := [ExampleRow(state, 0, Event)];
    assert rows[..0] == [];
    assert LastRows(rows) == map[Reporter("run", "source") := 1];
    assert HeadsOf(rows) == map[];
  }

  /** Upgrade from index version 2, stopped once the new index exists: the stored event head stays. */
  lemma UpgradeHeadIsEvent(state: Json.Value)
    ensures var heads := map[Reporter("run", "source") := 1];
            var d := Disk([ExampleRow(state, 0, Event)], true, heads, Some(2), EMPTY);
            && Openable(d) && Opened(d).heads == map[] && Opened(Stopped(d, Indexing(0))).heads == heads
  {
    var rows := [ExampleRow(state, 0, Event)];
    assert rows[..0] == [];
    assert HeadsOf(rows) == map[];
  }

  /** Stopped between the two rebuild statements: the reporter has an observation and no head. */
  lemma DeletedHeadIsMissing(state: Json.Value)
    ensures var rows := [ExampleRow(state, 0, Observation), ExampleRow(state, 1, Event)];
            var d := Disk(rows, false, map[], None, EMPTY);
            && Openable(d) && Opened(d).heads == map[Reporter("run", "source") := 1]
            && Reporter("run", "source") !in Opened(Stopped(d, AfterDelete)).heads
  {
    hide Build;
    var rows := [ExampleRow(state, 0, Observation), ExampleRow(state, 1, Event)];
    var d := Disk(rows, false, map[], None, EMPTY);
    assert rows[..1] == [ExampleRow(state, 0, Observation)] && rows[..1][..0] == [];
    assert ReporterOf(rows[0]) == Reporter("run", "source") == ReporterOf(rows[1]);
    assert LastRows(rows[..1]) == map[Reporter("run", "source") := 1] == HeadsOf(rows[..1]);
    assert LastRows(rows) == map[Reporter("run", "source") := 2];
    assert HeadsOf(rows) == map[Reporter("run", "source") := 1];
    BuildFaithful(rows);
  }
}
