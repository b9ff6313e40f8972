/** Projection of numeric fields out of the index, answered only where the index is conclusive. */
module Query {
  import opened Common
  import opened Text
  import opened Json
  import opened Protocol
  import opened Discovery
  import opened ChartIndex
  import opened Sampling

  const MAX_QUERY_PATHS := 64
  const MAX_QUERY_POINTS := 10_000
  const MAX_OUTPUT_POINTS := 100_000

  datatype QueryError = InvalidRequest | UnknownField | IncompleteIndex | IncompleteCoverage | OutputBudget

  /** The selected observations of one reporter, as storage ids in plotting order. */
  datatype Group = Group(reporter: Reporter, ids: seq<nat>)

  datatype Series = Series(reporter: Reporter, path: string, ids: seq<nat>, values: seq<Option<real>>)

  // ---------------------------------------------------------------- what an answer must be

  ghost predicate Stored(g: Group, rows: seq<Row>) {
    forall i :: 0 <= i < |g.ids| ==>
      1 <= g.ids[i] <= |rows| && ReporterOf(rows[g.ids[i] - 1]) == g.reporter && !rows[g.ids[i] - 1].snapshot.IsEvent()
  }

  /** The plotted truth: a pointer lookup in the raw state of the k-th selected observation. */
  ghost function Truth(g: Group, rows: seq<Row>, path: string, k: nat): Option<real>
    requires Stored(g, rows) && k < |g.ids|
  {
    NumberAt(StateOf(rows, g.ids[k]), path)
  }

  /** Where the raw states have no number. */
  ghost function Absent(g: Group, rows: seq<Row>, path: string): nat -> bool
    requires Stored(g, rows)
  {
    (k: nat) => k < |g.ids| && Truth(g, rows, path, k).None?
  }

  /** The series is a sample of the group whose values are the raw ones and which bridges no gap. */
  ghost predicate Shows(s: Series, g: Group, rows: seq<Row>, maxPoints: nat, at: seq<nat>) {
    && Stored(g, rows) && s.reporter == g.reporter
    && |at| == |s.ids| == |s.values| == Min(|g.ids|, maxPoints)
    && Increasing(at) && (forall i :: 0 <= i < |at| ==> at[i] < |g.ids|)
    && (|at| > 0 ==> at[|at| - 1] == |g.ids| - 1)
    && (forall i :: 0 <= i < |at| ==> Placed(at, i, |g.ids|, Absent(g, rows, s.path)))
    && (forall i :: 0 <= i < |at| ==> s.ids[i] == g.ids[at[i]] && s.values[i] == Truth(g, rows, s.path, at[i]))
    && (forall i, k :: 0 <= i < |at| - 1 && at[i] < k < at[i + 1] && s.values[i].Some? && s.values[i + 1].Some? ==>
          Truth(g, rows, s.path, k).Some?)
  }

  ghost predicate Silent(g: Group, rows: seq<Row>, path: string)
    requires Stored(g, rows)
  {
    forall k :: 0 <= k < |g.ids| ==> Truth(g, rows, path, k) == None
  }

  ghost predicate Plots(s: Series, g: Group, rows: seq<Row>, maxPoints: nat, path: string) {
    s.path == path && exists at :: Shows(s, g, rows, maxPoints, at)
  }

  /** A reporter's field is either plotted truthfully or has no numeric observation at all. */
  ghost predicate Answered(series: seq<Series>, g: Group, rows: seq<Row>, maxPoints: nat, path: string)
    requires Stored(g, rows)
  {
    Silent(g, rows, path) || exists i :: 0 <= i < |series| && Plots(series[i], g, rows, maxPoints, path)
  }

  ghost predicate Traced(s: Series, groups: seq<Group>, rows: seq<Row>, maxPoints: nat) {
    exists i :: 0 <= i < |groups| && Plots(s, groups[i], rows, maxPoints, s.path)
  }

  // ---------------------------------------------------------------- one series

  /** Without exclusions over the range, the recorded value is the raw one at every point. */
  lemma ConclusiveIsTrue(index: Index, rows: seq<Row>, g: Group, path: string, k: nat)
    requires Faithful(index, rows) && Stored(g, rows) && ValidPointer(path) && k < |g.ids|
    requires IndexedBy(index, g.reporter, g.ids[k], path) || !Excluded(index.observations[g.ids[k]].exclusions, path)
    ensures Recorded(index, g.ids[k], path) == Truth(g, rows, path, k)
  {
    hide NumberAt, Excluded, ValidPointer;
    assert Tells(index, rows, g.ids[k], path);
  }

  method AnyExcluded(index: Index, ghost rows: seq<Row>, g: Group, path: string, first: Option<nat>) returns (any: bool)
    requires Faithful(index, rows) && Stored(g, rows)
    ensures any <==> exists k :: 0 <= k < |g.ids| && Inconclusive(index, g.ids[k], path, first)
  {
    hide Excluded, Tells, ValidPointer;
    for i := 0 to |g.ids|
      invariant forall k :: 0 <= k < i ==> !Inconclusive(index, g.ids[k], path, first)
    {
      if Inconclusive(index, g.ids[i], path, first) {
        return true;
      }
    }
    return false;
  }

  /** A skipped subtree covers the path and the field was not yet indexed at this observation. */
  predicate Inconclusive(index: Index, id: nat, path: string, first: Option<nat>) {
    && id in index.observations && Excluded(index.observations[id].exclusions, path)
    && (first.Some? ==> id < first.value && Recorded(index, id, path) == None)
  }

  function FirstIndexed(index: Index, reporter: Reporter, path: string): Option<nat> {
    if path in index.Known(reporter) then Some(index.Known(reporter)[path]) else None
  }

  /** The path lies under a skipped subtree of that observation and was not yet indexed then. */
  ghost predicate Unknowable(index: Index, g: Group, path: string, k: nat)
    requires k < |g.ids|
  {
    && g.ids[k] in index.observations && Excluded(index.observations[g.ids[k]].exclusions, path)
    && (path !in index.Known(g.reporter) || g.ids[k] < index.Known(g.reporter)[path])
  }

  /** A refusal is due to exactly such an observation. */
  lemma UnsettledMeans(index: Index, rows: seq<Row>, g: Group, path: string)
    requires Faithful(index, rows) && Stored(g, rows) && ValidPointer(path)
    ensures Unsettled(index, g, path) <==> exists k :: 0 <= k < |g.ids| && Unknowable(index, g, path, k)
  {
    hide Excluded, NumberAt, ValidPointer, Tells;
    forall k | 0 <= k < |g.ids|
      ensures Inconclusive(index, g.ids[k], path, FirstIndexed(index, g.reporter, path))
              <==> Unknowable(index, g, path, k)
    {
      if !IndexedBy(index, g.reporter, g.ids[k], path) {
        UnindexedIsUnrecorded(index, rows, g, path, k);
      }
    }
  }

  /** The index cannot tell what some selected observation holds at the path. */
  ghost predicate Unsettled(index: Index, g: Group, path: string) {
    exists k :: 0 <= k < |g.ids| && Inconclusive(index, g.ids[k], path, FirstIndexed(index, g.reporter, path))
  }

  method Project(index: Index, rows: seq<Row>, g: Group, path: string, maxPoints: nat)
    returns (r: Result<Option<Series>, QueryError>)
    requires Faithful(index, rows) && Stored(g, rows) && ValidPointer(path)
    ensures r.Ok? && r.value.Some? ==> Plots(r.value.value, g, rows, maxPoints, path)
    ensures r.Ok? && r.value.None? ==> Silent(g, rows, path)
    ensures r.Err? <==> Unsettled(index, g, path)
    ensures r.Err? <==> exists k :: 0 <= k < |g.ids| && Unknowable(index, g, path, k)
    ensures r.Err? ==> r.error == if path in index.Known(g.reporter) then IncompleteCoverage else IncompleteIndex
  {
    hide Excluded, NumberAt, ValidPointer, Tells, Unknowable;
    UnsettledMeans(index, rows, g, path);
    var known := index.Known(g.reporter);
    var first := FirstIndexed(index, g.reporter, path);
    var any := AnyExcluded(index, rows, g, path, first);
    if any {
      return Err(if first.None? then IncompleteIndex else IncompleteCoverage);
    }
    forall k | 0 <= k < |g.ids| ensures Recorded(index, g.ids[k], path) == Truth(g, rows, path, k) {
      if !IndexedBy(index, g.reporter, g.ids[k], path) {
        UnindexedIsUnrecorded(index, rows, g, path, k);
        assert !Inconclusive(index, g.ids[k], path, first);
      }
      ConclusiveIsTrue(index, rows, g, path, k);
    }
    if first.None? {
      forall k | 0 <= k < |g.ids| ensures Truth(g, rows, path, k) == None {
        UnindexedIsUnrecorded(index, rows, g, path, k);
      }
      return Ok(None);
    }
    var s := Sample(index, rows, g, path, maxPoints);
    return Ok(Some(s));
  }

  lemma UnindexedIsUnrecorded(index: Index, rows: seq<Row>, g: Group, path: string, k: nat)
    requires Faithful(index, rows) && Stored(g, rows) && ValidPointer(path) && k < |g.ids|
    requires !IndexedBy(index, g.reporter, g.ids[k], path)
    ensures Recorded(index, g.ids[k], path) == None
  {
    hide NumberAt, Excluded, ValidPointer;
    assert Tells(index, rows, g.ids[k], path);
  }

  method Sample(index: Index, ghost rows: seq<Row>, g: Group, path: string, maxPoints: nat) returns (s: Series)
    requires Stored(g, rows)
    requires forall k :: 0 <= k < |g.ids| ==> Recorded(index, g.ids[k], path) == Truth(g, rows, path, k)
    ensures Plots(s, g, rows, maxPoints, path)
  {
    hide Recorded, Truth, Stored, Shows, Placed, Unbridged, Even;
    var missing := (k: nat) => k < |g.ids| && Recorded(index, g.ids[k], path).None?;
    var at := SamplePositions(|g.ids|, Min(|g.ids|, maxPoints), missing);
    var ids: seq<nat>, values: seq<Option<real>> := [], [];
    for i := 0 to |at|
      invariant |ids| == |values| == i
      invariant forall j :: 0 <= j < i ==> ids[j] == g.ids[at[j]] && values[j] == Recorded(index, g.ids[at[j]], path)
    {
      ids := ids + [g.ids[at[i]]];
      values := values + [Recorded(index, g.ids[at[i]], path)];
    }
    s := Series(g.reporter, path, ids, values);
    SampleShows(index, rows, g, maxPoints, at, s, missing);
  }

  lemma SampleShows(index: Index, rows: seq<Row>, g: Group, maxPoints: nat, at: seq<nat>, s: Series,
                    missing: nat -> bool)
    requires Stored(g, rows) && s.reporter == g.reporter
    requires forall k :: 0 <= k < |g.ids| ==> Recorded(index, g.ids[k], s.path) == Truth(g, rows, s.path, k)
    requires forall k: nat :: missing(k) <==> k < |g.ids| && Recorded(index, g.ids[k], s.path).None?
    requires |at| == |s.ids| == |s.values| == Min(|g.ids|, maxPoints) && Increasing(at)
    requires (forall i :: 0 <= i < |at| ==> at[i] < |g.ids|) && (|at| > 0 ==> at[|at| - 1] == |g.ids| - 1)
    requires forall i :: 0 <= i < |at| ==> Placed(at, i, |g.ids|, missing)
    requires forall i :: 0 <= i < |at| - 1 ==> Unbridged(at, i, missing)
    requires forall i :: 0 <= i < |at| ==>
             s.ids[i] == g.ids[at[i]] && s.values[i] == Recorded(index, g.ids[at[i]], s.path)
    ensures Shows(s, g, rows, maxPoints, at)
  {
    hide Recorded, Truth, Stored, Placed, Unbridged;
    SampledGaps(index, rows, g, s.path, at, missing);
    SampledPlaces(index, rows, g, s.path, at, missing);
  }

  lemma SampledGaps(index: Index, rows: seq<Row>, g: Group, path: string, at: seq<nat>, missing: nat -> bool)
    requires Stored(g, rows)
    requires forall k :: 0 <= k < |g.ids| ==> Recorded(index, g.ids[k], path) == Truth(g, rows, path, k)
    requires forall k: nat :: missing(k) <==> k < |g.ids| && Recorded(index, g.ids[k], path).None?
    requires forall i :: 0 <= i < |at| ==> at[i] < |g.ids|
    requires forall i :: 0 <= i < |at| - 1 ==> Unbridged(at, i, missing)
    ensures forall i, k ::
              (0 <= i < |at| - 1 && at[i] < k < at[i + 1]
               && Truth(g, rows, path, at[i]).Some? && Truth(g, rows, path, at[i + 1]).Some?)
              ==> Truth(g, rows, path, k).Some?
  {
    hide Recorded, Truth, Stored;
    forall i, k | 0 <= i < |at| - 1 && at[i] < k < at[i + 1]
                  && Truth(g, rows, path, at[i]).Some? && Truth(g, rows, path, at[i + 1]).Some?
      ensures Truth(g, rows, path, k).Some?
    {
      assert Unbridged(at, i, missing);
      assert Recorded(index, g.ids[at[i]], path).Some? && Recorded(index, g.ids[at[i + 1]], path).Some?;
      assert !missing(k);
    }
  }

  lemma SampledPlaces(index: Index, rows: seq<Row>, g: Group, path: string, at: seq<nat>, missing: nat -> bool)
    requires Stored(g, rows)
    requires forall k :: 0 <= k < |g.ids| ==> Recorded(index, g.ids[k], path) == Truth(g, rows, path, k)
    requires forall k: nat :: missing(k) <==> k < |g.ids| && Recorded(index, g.ids[k], path).None?
    requires forall i :: 0 <= i < |at| ==> Placed(at, i, |g.ids|, missing)
    ensures forall i :: 0 <= i < |at| ==> Placed(at, i, |g.ids|, Absent(g, rows, path))
  {
    hide Placed, Recorded, Truth, Stored;
    forall i | 0 <= i < |at| ensures Placed(at, i, |g.ids|, Absent(g, rows, path)) {
      PlacedSame(at, i, |g.ids|, missing, Absent(g, rows, path));
    }
  }

  // ---------------------------------------------------------------- the whole request

  function SeriesBytes(s: Series): nat {
    2 + (JsonBytes(s.reporter.run) + 2) + 1 + (JsonBytes(s.reporter.source) + 2) + 1 + (JsonBytes(s.path) + 2) + 256
  }

  function PointBytes(ids: seq<nat>, rows: seq<Row>): nat {
    if ids == [] then 0
    else
      var first := if 1 <= ids[0] <= |rows| then JsonBytes(rows[ids[0] - 1].snapshot.session) + 2 + 128 else 0;
      first + PointBytes(ids[1..], rows)
  }

  function TotalPoints(series: seq<Series>): nat {
    if series == [] then 0 else TotalPoints(series[..|series| - 1]) + |series[|series| - 1].ids|
  }

  function TotalBytes(series: seq<Series>, rows: seq<Row>): nat {
    if series == [] then PAGE_ENVELOPE_RESERVE
    else
      var last := series[|series| - 1];
      TotalBytes(series[..|series| - 1], rows) + SeriesBytes(last) + PointBytes(last.ids, rows)
  }

  predicate OverBudget(series: seq<Series>, rows: seq<Row>) {
    TotalPoints(series) > MAX_OUTPUT_POINTS || TotalBytes(series, rows) > MAX_PAGE_BYTES
  }

  /** A reporter's field: which group and which path of the request. */
  datatype Place = Place(group: nat, path: nat)

  predicate Earlier(a: Place, b: Place) {
    a.group < b.group || (a.group == b.group && a.path < b.path)
  }

  /** The series are truthful answers for different places of the request, in order. */
  ghost predicate Charged(series: seq<Series>, places: seq<Place>, groups: seq<Group>, rows: seq<Row>, maxPoints: nat,
                          paths: seq<string>) {
    && |places| == |series|
    && (forall k :: 0 <= k < |series| ==> ChargedAt(series[k], places[k], groups, rows, maxPoints, paths))
    && (forall k, l :: 0 <= k < l < |places| ==> Earlier(places[k], places[l]))
  }

  ghost predicate ChargedAt(s: Series, place: Place, groups: seq<Group>, rows: seq<Row>, maxPoints: nat,
                            paths: seq<string>) {
    place.group < |groups| && place.path < |paths| && Plots(s, groups[place.group], rows, maxPoints, paths[place.path])
  }

  ghost predicate Before(places: seq<Place>, here: Place) {
    forall k :: 0 <= k < |places| ==> Earlier(places[k], here)
  }

  lemma ChargedAppend(series: seq<Series>, places: seq<Place>, groups: seq<Group>, rows: seq<Row>, maxPoints: nat,
                      paths: seq<string>,
                      s: Series, here: Place)
    requires Charged(series, places, groups, rows, maxPoints, paths) && Before(places, here)
    requires ChargedAt(s, here, groups, rows, maxPoints, paths)
    ensures Charged(series + [s], places + [here], groups, rows, maxPoints, paths)
    ensures Before(places + [here], here.(path := here.path + 1))
    ensures TotalPoints(series + [s]) == TotalPoints(series) + |s.ids|
    ensures TotalBytes(series + [s], rows) == TotalBytes(series, rows) + SeriesBytes(s) + PointBytes(s.ids, rows)
  {
    hide ChargedAt, SeriesBytes, PointBytes;
    assert (series + [s])[..|series|] == series;
  }

  predicate ValidRequest(paths: seq<string>, maxPoints: nat) {
    && 1 <= |paths| <= MAX_QUERY_PATHS && 1 <= maxPoints <= MAX_QUERY_POINTS
    && (forall i :: 0 <= i < |paths| ==> ValidPointer(paths[i]))
    && (forall i, j :: 0 <= i < j < |paths| ==> paths[i] != paths[j])
  }

  /** Some reporter in scope has the field. */
  predicate Heard(index: Index, reporters: set<Reporter>, path: string) {
    exists reporter :: reporter in reporters && path in index.Known(reporter)
  }

  lemma UnheardMeans(index: Index, reporters: set<Reporter>, paths: seq<string>)
    ensures Unheard(index, reporters, paths) <==> exists j :: 0 <= j < |paths| && !Heard(index, reporters, paths[j])
  {
    if Unheard(index, reporters, paths) {
      var p :| p in paths && forall reporter :: reporter in reporters ==> p !in index.Known(reporter);
      var j :| 0 <= j < |paths| && paths[j] == p;
      assert !Heard(index, reporters, paths[j]);
    }
    if j :| 0 <= j < |paths| && !Heard(index, reporters, paths[j]) {
      assert paths[j] in paths;
    }
  }

  /** Some requested path was never numeric for any reporter in scope. */
  predicate Unheard(index: Index, reporters: set<Reporter>, paths: seq<string>) {
    exists p :: p in paths && forall reporter :: reporter in reporters ==> p !in index.Known(reporter)
  }

  /**
    Whenever a query succeeds, every returned value is the finite number a pointer lookup finds in
    that stored snapshot, and null exactly when there is none; a field without a series has no
    numeric observation in the selection.
   */
  method QueryPage(index: Index, rows: seq<Row>, reporters: set<Reporter>, groups: seq<Group>, paths: seq<string>,
                   maxPoints: nat)
    returns (r: Result<seq<Series>, QueryError>, ghost shown: seq<Series>, ghost places: seq<Place>)
    requires index == Build(rows)
    requires forall i :: 0 <= i < |groups| ==> Stored(groups[i], rows)
    ensures r == Err(InvalidRequest) <==>
            !(&& 1 <= |paths| <= 64 && 1 <= maxPoints <= 10_000
              && (forall i :: 0 <= i < |paths| ==> ValidPointer(paths[i]))
              && forall i, j :: 0 <= i < j < |paths| ==> paths[i] != paths[j])
    ensures r == Err(UnknownField) ==> exists j :: 0 <= j < |paths| && !Heard(index, reporters, paths[j])
    ensures r.Ok? ==> forall j :: 0 <= j < |paths| ==> Heard(index, reporters, paths[j])
    ensures r == Err(UnknownField) <==> ValidRequest(paths, maxPoints) && Unheard(index, reporters, paths)
    ensures r.Ok? ==> forall i, j :: 0 <= i < |groups| && 0 <= j < |paths| ==> !Unsettled(index, groups[i], paths[j])
    ensures r.Err? && (r.error.IncompleteIndex? || r.error.IncompleteCoverage?) ==>
              exists i, j :: 0 <= i < |groups| && 0 <= j < |paths| && Unsettled(index, groups[i], paths[j])
    ensures r.Ok? ==> r.value == shown && !OverBudget(shown, rows)
    ensures r == Err(OutputBudget) ==> OverBudget(shown, rows)
    ensures r.Ok? || r == Err(OutputBudget) ==> Charged(shown, places, groups, rows, maxPoints, paths)
    ensures r.Ok? ==> forall i, j :: 0 <= i < |groups| && 0 <= j < |paths| ==>
                        Answered(r.value, groups[i], rows, maxPoints, paths[j])
    ensures r.Ok? ==> forall k :: 0 <= k < |r.value| ==>
                        Traced(r.value[k], groups, rows, maxPoints)
  {
    hide Build, ValidPointer, Plots, Silent, Faithful, Grounded, Stored, SeriesBytes, PointBytes, JsonBytes, Unheard,
         Heard,
         Unsettled, Charged, ChargedAt, Before, TotalPoints, TotalBytes;
    ChargedNothing(groups, rows, maxPoints, paths);
    shown, places := [], [];
    UnheardMeans(index, reporters, paths);
    if !ValidRequest(paths, maxPoints) {
      return Err(InvalidRequest), shown, places;
    }
    if Unheard(index, reporters, paths) {
      return Err(UnknownField), shown, places;
    }
    BuildFaithful(rows);
    var series: seq<Series> := [];
    var points, bytes := 0, PAGE_ENVELOPE_RESERVE;
    for i := 0 to |groups|
      invariant forall a, j :: 0 <= a < i && 0 <= j < |paths| ==> Answered(series, groups[a], rows, maxPoints, paths[j])
      invariant forall k :: 0 <= k < |series| ==> Traced(series[k], groups, rows, maxPoints)
      invariant forall a, j :: 0 <= a < i && 0 <= j < |paths| ==> !Unsettled(index, groups[a], paths[j])
      invariant Charged(series, places, groups, rows, maxPoints, paths) && Before(places, Place(i, 0))
      invariant points == TotalPoints(series) <= MAX_OUTPUT_POINTS
                && bytes == TotalBytes(series, rows) <= MAX_PAGE_BYTES
    {
      for j := 0 to |paths|
        invariant forall a, b :: 0 <= a < i && 0 <= b < |paths| ==>
                  Answered(series, groups[a], rows, maxPoints, paths[b])
        invariant forall b :: 0 <= b < j ==> Answered(series, groups[i], rows, maxPoints, paths[b])
        invariant forall k :: 0 <= k < |series| ==> Traced(series[k], groups, rows, maxPoints)
        invariant forall a, b :: 0 <= a < i && 0 <= b < |paths| ==> !Unsettled(index, groups[a], paths[b])
        invariant forall b :: 0 <= b < j ==> !Unsettled(index, groups[i], paths[b])
        invariant Charged(series, places, groups, rows, maxPoints, paths) && Before(places, Place(i, j))
        invariant points == TotalPoints(series) <= MAX_OUTPUT_POINTS
                  && bytes == TotalBytes(series, rows) <= MAX_PAGE_BYTES
      {
        var one := Project(index, rows, groups[i], paths[j], maxPoints);
        if one.Err? {
          return Err(one.error), series, places;
        }
        if one.value.Some? {
          var s := one.value.value;
          PlacePlotted(s, groups, rows, maxPoints, paths, Place(i, j));
          ChargedAppend(series, places, groups, rows, maxPoints, paths, s, Place(i, j));
          places := places + [Place(i, j)];
          points := points + |s.ids|;
          bytes := bytes + SeriesBytes(s) + PointBytes(s.ids, rows);
          if points > MAX_OUTPUT_POINTS || bytes > MAX_PAGE_BYTES {
            return Err(OutputBudget), series + [s], places;
          }
          AnsweredGrows(series, s, groups, rows, maxPoints);
          series := series + [s];
          PlotsPath(s, groups[i], rows, maxPoints, paths[j]);
          assert Plots(series[|series| - 1], groups[i], rows, maxPoints, paths[j]);
          assert Traced(s, groups, rows, maxPoints);
        } else {
          BeforeNext(places, Place(i, j));
        }
      }
      BeforeNextGroup(places, i, |paths|);
    }
    return Ok(series), series, places;
  }

  lemma ChargedNothing(groups: seq<Group>, rows: seq<Row>, maxPoints: nat, paths: seq<string>)
    ensures Charged([], [], groups, rows, maxPoints, paths) && Before([], Place(0, 0))
    ensures TotalPoints([]) == 0 && TotalBytes([], rows) == PAGE_ENVELOPE_RESERVE
  {
  }

  lemma PlacePlotted(s: Series, groups: seq<Group>, rows: seq<Row>, maxPoints: nat, paths: seq<string>, here: Place)
    requires here.group < |groups| && here.path < |paths|
             && Plots(s, groups[here.group], rows, maxPoints, paths[here.path])
    ensures ChargedAt(s, here, groups, rows, maxPoints, paths)
  {
  }

  lemma BeforeNext(places: seq<Place>, here: Place)
    requires Before(places, here)
    ensures Before(places, here.(path := here.path + 1))
  {
  }

  lemma BeforeNextGroup(places: seq<Place>, group: nat, path: nat)
    requires Before(places, Place(group, path))
    ensures Before(places, Place(group + 1, 0))
  {
  }

  lemma PlotsPath(s: Series, g: Group, rows: seq<Row>, maxPoints: nat, path: string)
    requires Plots(s, g, rows, maxPoints, path)
    ensures s.path == path
  {
  }

  lemma AnsweredGrows(series: seq<Series>, s: Series, groups: seq<Group>, rows: seq<Row>, maxPoints: nat)
    requires forall i :: 0 <= i < |groups| ==> Stored(groups[i], rows)
    ensures forall a, p :: 0 <= a < |groups| && Answered(series, groups[a], rows, maxPoints, p) ==>
              Answered(series + [s], groups[a], rows, maxPoints, p)
  {
    hide Plots, Silent;
    forall a, p | 0 <= a < |groups| && Answered(series, groups[a], rows, maxPoints, p)
      ensures Answered(series + [s], groups[a], rows, maxPoints, p)
    {
      if !Silent(groups[a], rows, p) {
        var i :| 0 <= i < |series| && Plots(series[i], groups[a], rows, maxPoints, p);
        assert (series + [s])[i] == series[i];
      }
    }
  }
}
