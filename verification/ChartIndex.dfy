/**
  The chart index over stored snapshots: per reporter the fields ever admitted with the snapshot
  that first had them, per observation the recorded values and the skipped subtrees. `Insert`
  specifies one snapshot's transaction; `Build` is the index of a whole table.
 */
module ChartIndex {
  import opened Common
  import opened Text
  import opened Json
  import opened Protocol
  import opened Discovery

  const MAX_EXCLUSION_BYTES := 16 * 1024

  datatype Reporter = Reporter(run: string, source: string)

  datatype Observed = Observed(exclusions: set<string>, values: map<string, real>)

  /** `fields[reporter][path]` is the id of the snapshot at which the path was admitted. */
  datatype Index = Index(lastId: nat, fields: map<Reporter, map<string, nat>>, observations: map<nat, Observed>) {
    function Known(reporter: Reporter): map<string, nat> {
      if reporter in fields then fields[reporter] else map[]
    }
  }

  const EMPTY := Index(0, map[], map[])

  function ReporterOf(row: Row): Reporter {
    Reporter(row.run, row.source)
  }

  // ---------------------------------------------------------------- one snapshot

  datatype Admission = Admission(known: map<string, nat>, exclusions: set<string>)

  /** Admit discovered paths in order until the reporter's field limit, excluding the rest. */
  function Admit(a: Admission, paths: seq<string>, id: nat): Admission
    decreases |paths|
  {
    if paths == [] then a
    else if paths[0] in a.known then Admit(a, paths[1..], id)
    else if |a.known| == MAX_SOURCE_FIELDS then Admit(a.(exclusions := a.exclusions + {paths[0]}), paths[1..], id)
    else Admit(a.(known := a.known[paths[0] := id]), paths[1..], id)
  }

  /** Length of the exclusions as a JSON array of strings. */
  function ExclusionBytes(paths: seq<string>): nat {
    if paths == [] then 2
    else JsonBytes(paths[0]) + 2 + (if |paths| == 1 then 0 else 1) + ExclusionBytes(paths[1..])
  }

  /** An oversized list is replaced by the root, which excludes everything. */
  ghost function StoredExclusions(exclusions: set<string>): set<string> {
    if ExclusionBytes(SortedKeys(exclusions)) > MAX_EXCLUSION_BYTES then {""} else exclusions
  }

  ghost function Admitted(known: map<string, nat>, state: Value, id: nat): Admission {
    var found := Discover("", state, NOTHING);
    Admit(Admission(known, found.exclusions), SortedKeys(found.fields), id)
  }

  function ValuesAt(known: set<string>, state: Value): map<string, real> {
    map p | p in known && NumberAt(state, p).Some? :: NumberAt(state, p).value
  }

  ghost function Insert(index: Index, id: nat, row: Row): Index {
    if row.snapshot.IsEvent() then index.(lastId := id)
    else
      var state := row.snapshot.body.state;
      var a := Admitted(index.Known(ReporterOf(row)), state, id);
      Index(id, index.fields[ReporterOf(row) := a.known],
            index.observations[id := Observed(StoredExclusions(a.exclusions), ValuesAt(a.known.Keys, state))])
  }

  ghost function Build(rows: seq<Row>): Index {
    if rows == [] then EMPTY else Insert(Build(rows[..|rows| - 1]), |rows|, rows[|rows| - 1])
  }

  lemma {:induction false} BuildAppend(rows: seq<Row>, row: Row)
    ensures Build(rows + [row]) == Insert(Build(rows), |rows| + 1, row)
  {
    hide Insert;
    assert (rows + [row])[..|rows|] == rows;
  }

  // ---------------------------------------------------------------- what admission keeps

  lemma AdmitKeeps(a: Admission, paths: seq<string>, id: nat)
    ensures var r := Admit(a, paths, id);
            && a.exclusions <= r.exclusions
            && (forall p :: p in a.known ==> p in r.known && r.known[p] == a.known[p])
            && (forall p :: p in r.known && p !in a.known ==> r.known[p] == id && p in paths)
            && (forall p :: p in paths ==> p in r.known || p in r.exclusions)
    decreases |paths|
  {
    if paths == [] {
    } else {
      var next := if paths[0] in a.known then a
                  else if |a.known| == MAX_SOURCE_FIELDS then a.(exclusions := a.exclusions + {paths[0]})
                  else a.(known := a.known[paths[0] := id]);
      AdmitKeeps(next, paths[1..], id);
    }
  }

  lemma RootExcludesAll(path: string)
    requires PathShape(path)
    ensures Excluded({""}, path)
  {
    assert "" in {""} && "" <= path;
  }

  /** A finite number at an unadmitted path is covered by the recorded exclusions. */
  lemma UnadmittedIsExcluded(known: map<string, nat>, state: Value, id: nat, path: string)
    requires ValidPointer(path) && NumberAt(state, path).Some?
    requires path !in Admitted(known, state, id).known
    ensures Excluded(StoredExclusions(Admitted(known, state, id).exclusions), path)
  {
    hide Discover, Admit, NumberAt, ValidEscapes, ExclusionBytes;
    var found := Discover("", state, NOTHING);
    var a := Admission(known, found.exclusions);
    var r := Admit(a, SortedKeys(found.fields), id);
    AdmitKeeps(a, SortedKeys(found.fields), id);
    DiscoverComplete("", state, NOTHING, path);
    assert "" + path == path;
    if path in r.exclusions {
      assert path <= path;
    }
    assert Excluded(r.exclusions, path);
    RootExcludesAll(path);
  }

  /** A newly admitted path holds a finite number in the admitting snapshot. */
  lemma AdmittedIsNumeric(known: map<string, nat>, state: Value, id: nat, path: string)
    requires path in Admitted(known, state, id).known && path !in known
    ensures Admitted(known, state, id).known[path] == id && ValidPointer(path) && NumberAt(state, path).Some?
  {
    hide Discover, Admit, NumberAt, ValidEscapes;
    var found := Discover("", state, NOTHING);
    AdmitKeeps(Admission(known, found.exclusions), SortedKeys(found.fields), id);
    assert path in found.fields;
    DiscoverSound("", state, NOTHING, path);
    assert path[0..] == path;
  }

  // ---------------------------------------------------------------- the index against the raw states

  function StateOf(rows: seq<Row>, id: nat): Value
    requires 1 <= id <= |rows|
  {
    rows[id - 1].snapshot.body.state
  }

  function Recorded(index: Index, id: nat, path: string): Option<real> {
    if id in index.observations && path in index.observations[id].values
    then Some(index.observations[id].values[path])
    else None
  }

  /** The path was known to the reporter when snapshot `id` was indexed. */
  predicate IndexedBy(index: Index, reporter: Reporter, id: nat, path: string) {
    path in index.Known(reporter) && index.Known(reporter)[path] <= id
  }

  /** Indexed paths record exactly the raw number; a number missed by the index is marked excluded. */
  ghost predicate Tells(index: Index, rows: seq<Row>, id: nat, path: string)
    requires 1 <= id <= |rows| && id in index.observations
  {
    var truth := NumberAt(StateOf(rows, id), path);
    if IndexedBy(index, ReporterOf(rows[id - 1]), id, path) then Recorded(index, id, path) == truth
    else Recorded(index, id, path) == None && (truth.Some? ==> Excluded(index.observations[id].exclusions, path))
  }

  ghost predicate Faithful(index: Index, rows: seq<Row>) {
    && index.lastId == |rows|
    && (forall id :: id in index.observations <==> 1 <= id <= |rows| && !rows[id - 1].snapshot.IsEvent())
    && (forall id, path :: id in index.observations && ValidPointer(path) ==> Tells(index, rows, id, path))
  }

  /** Every field was first admitted by a snapshot of its reporter that has a number there. */
  ghost predicate Grounded(index: Index, rows: seq<Row>) {
    forall reporter, path :: path in index.Known(reporter) ==>
      FirstSeen(index.Known(reporter)[path], reporter, path, rows)
  }

  ghost predicate FirstSeen(id: nat, reporter: Reporter, path: string, rows: seq<Row>) {
    && 1 <= id <= |rows| && ReporterOf(rows[id - 1]) == reporter && !rows[id - 1].snapshot.IsEvent()
    && ValidPointer(path) && NumberAt(StateOf(rows, id), path).Some?
  }

  lemma NewObservationTells(index: Index, rows: seq<Row>, row: Row, path: string)
    requires Grounded(index, rows) && !row.snapshot.IsEvent() && ValidPointer(path)
    ensures Tells(Insert(index, |rows| + 1, row), rows + [row], |rows| + 1, path)
  {
    hide NumberAt, Admitted, StoredExclusions, Excluded, ValidPointer;
    var id, state := |rows| + 1, row.snapshot.body.state;
    var known := index.Known(ReporterOf(row));
    var a := Admitted(known, state, id);
    if path in a.known {
      if path !in known {
        AdmittedIsNumeric(known, state, id, path);
      } else {
        AdmittedExtends(known, state, id, path);
        assert FirstSeen(known[path], ReporterOf(row), path, rows);
      }
    } else if NumberAt(state, path).Some? {
      UnadmittedIsExcluded(known, state, id, path);
    }
  }

  lemma AdmittedExtends(known: map<string, nat>, state: Value, id: nat, path: string)
    requires path in known
    ensures path in Admitted(known, state, id).known && Admitted(known, state, id).known[path] == known[path]
  {
    hide Discover;
    var found := Discover("", state, NOTHING);
    AdmitKeeps(Admission(known, found.exclusions), SortedKeys(found.fields), id);
  }

  /** Later snapshots never change what the index says about an earlier one. */
  lemma OldObservationTells(index: Index, rows: seq<Row>, row: Row, id: nat, path: string)
    requires Faithful(index, rows) && Grounded(index, rows)
    requires id in index.observations && ValidPointer(path)
    ensures var next := Insert(index, |rows| + 1, row);
            id in next.observations && Tells(next, rows + [row], id, path)
  {
    hide NumberAt, Admitted, StoredExclusions, Excluded, ValidPointer, ValuesAt, Grounded;
    assert Tells(index, rows, id, path);
    var reporter := ReporterOf(rows[id - 1]);
    assert (rows + [row])[id - 1] == rows[id - 1];
    if !row.snapshot.IsEvent() && reporter == ReporterOf(row) {
      var known := index.Known(reporter);
      if path in known {
        AdmittedExtends(known, row.snapshot.body.state, |rows| + 1, path);
      } else if path in Admitted(known, row.snapshot.body.state, |rows| + 1).known {
        AdmittedIsNumeric(known, row.snapshot.body.state, |rows| + 1, path);
      }
    }
  }

  lemma InsertGrounded(index: Index, rows: seq<Row>, row: Row)
    requires Grounded(index, rows)
    ensures Grounded(Insert(index, |rows| + 1, row), rows + [row])
  {
    hide NumberAt, Admitted, StoredExclusions, ValidPointer;
    var next := Insert(index, |rows| + 1, row);
    forall reporter, path | path in next.Known(reporter)
      ensures FirstSeen(next.Known(reporter)[path], reporter, path, rows + [row])
    {
      var known := index.Known(reporter);
      if path in known {
        var first := known[path];
        assert FirstSeen(first, reporter, path, rows);
        assert (rows + [row])[first - 1] == rows[first - 1];
        if !row.snapshot.IsEvent() && reporter == ReporterOf(row) {
          AdmittedExtends(known, row.snapshot.body.state, |rows| + 1, path);
        }
      } else {
        AdmittedIsNumeric(known, row.snapshot.body.state, |rows| + 1, path);
      }
    }
  }

  lemma InsertFaithful(index: Index, rows: seq<Row>, row: Row)
    requires Faithful(index, rows) && Grounded(index, rows)
    ensures Faithful(Insert(index, |rows| + 1, row), rows + [row])
  {
    hide Tells, ValidPointer, Admitted, StoredExclusions;
    var next := Insert(index, |rows| + 1, row);
    forall id, path | id in next.observations && ValidPointer(path) ensures Tells(next, rows + [row], id, path) {
      if id in index.observations {
        OldObservationTells(index, rows, row, id, path);
      } else {
        NewObservationTells(index, rows, row, path);
      }
    }
  }

  /** For every table of snapshots the index built over it tells the truth about every pointer. */
  lemma {:induction false} BuildFaithful(rows: seq<Row>)
    ensures Faithful(Build(rows), rows) && Grounded(Build(rows), rows)
  {
    hide Tells, Insert, FirstSeen, ValidPointer;
    if rows == [] {
    } else {
      var prefix, row := rows[..|rows| - 1], rows[|rows| - 1];
      BuildFaithful(prefix);
      InsertFaithful(Build(prefix), prefix, row);
      InsertGrounded(Build(prefix), prefix, row);
      assert rows == prefix + [row];
    }
  }

  // ---------------------------------------------------------------- within the caps everything is indexed

  lemma {:induction false} AdmitWithRoom(a: Admission, paths: seq<string>, id: nat)
    requires |a.known| + |paths| <= MAX_SOURCE_FIELDS
    ensures Admit(a, paths, id).exclusions == a.exclusions
    decreases |paths|
  {
    if paths == [] {
    } else if paths[0] in a.known {
      AdmitWithRoom(a, paths[1..], id);
    } else {
      AdmitWithRoom(a.(known := a.known[paths[0] := id]), paths[1..], id);
    }
  }

  /** A snapshot within all caps is indexed completely: nothing is excluded and every finite number has a field. */
  lemma ModestIndexed(index: Index, id: nat, row: Row, path: string)
    requires !row.snapshot.IsEvent()
    requires var state := row.snapshot.body.state;
             && Modest("", state) && Size(state) <= MAX_DISCOVERY_NODES
             && |index.Known(ReporterOf(row))| + Numerals(state) <= MAX_SOURCE_FIELDS
    ensures var next := Insert(index, id, row);
            && id in next.observations && next.observations[id].exclusions == {}
            && (ValidPointer(path) && NumberAt(row.snapshot.body.state, path).Some? ==>
                path in next.Known(ReporterOf(row)))
  {
    hide Discover, NumberAt, ValidEscapes, Modest, Size, Numerals, ValuesAt;
    var state, known := row.snapshot.body.state, index.Known(ReporterOf(row));
    var found := Discover("", state, NOTHING);
    ModestFullyDiscovered(state, path);
    var paths := SortedKeys(found.fields);
    AdmitWithRoom(Admission(known, found.exclusions), paths, id);
    AdmitKeeps(Admission(known, found.exclusions), paths, id);
    assert SortedKeys({}) == [];
  }
}
