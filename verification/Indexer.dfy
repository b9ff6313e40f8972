/** The loops that maintain and read the chart index. */
module Indexer {
  import opened Common
  import opened Text
  import opened Json
  import opened Protocol
  import opened Discovery
  import opened ChartIndex

  const REBUILD_ROWS := 64

  class ChartTables {
    var index: Index

    constructor ()
      ensures index == EMPTY
    {
      index := EMPTY;
    }

    /** One snapshot's projection, inside the caller's transaction. */
    method InsertSnapshot(id: nat, row: Row)
      modifies this
      ensures index == Insert(old(index), id, row)
    {
      hide Discover, Admit, ExclusionBytes;
      if row.snapshot.IsEvent() {
        index := index.(lastId := id);
        return;
      }
      var state, reporter := row.snapshot.body.state, ReporterOf(row);
      var a := AdmitDiscovered(index.Known(reporter), state, id);
      var values := CollectValues(a.known.Keys, state);
      var exclusions := EncodeExclusions(a.exclusions);
      index := Index(id, index.fields[reporter := a.known], index.observations[id := Observed(exclusions, values)]);
    }

    /**
      Index the snapshots after `lastId` in bounded chunks. Whatever the chunk boundaries and
      wherever an earlier rebuild stopped, the result is the index of the whole table.
     */
    method Rebuild(rows: seq<Row>)
      requires index.lastId <= |rows| && index == Build(rows[..index.lastId])
      modifies this
      ensures index == Build(rows)
    {
      assert index.lastId == |rows| ==> rows[..index.lastId] == rows;
      while true
        invariant index.lastId <= |rows| && index == Build(rows[..index.lastId])
        decreases |rows| - index.lastId
      {
        var count := RebuildChunk(rows);
        if count == 0 {
          break;
        }
      }
      assert rows[..|rows|] == rows;
    }

    /** One transaction: at most 64 rows and one page of bytes, but never none while rows remain. */
    method RebuildChunk(rows: seq<Row>) returns (count: nat)
      requires index.lastId <= |rows| && index == Build(rows[..index.lastId])
      modifies this
      ensures index.lastId <= |rows| && index == Build(rows[..index.lastId])
      ensures index.lastId == old(index.lastId) + count
      ensures count == 0 ==> index.lastId == |rows|
      ensures count <= REBUILD_ROWS
      ensures count > 1 ==> RawBytes(rows[old(index.lastId)..index.lastId]) <= MAX_PAGE_BYTES
      ensures count < REBUILD_ROWS && index.lastId < |rows| ==>
                var bytes := RawBytes(rows[old(index.lastId)..index.lastId]);
                bytes >= MAX_PAGE_BYTES || bytes + rows[index.lastId].snapshot.Encoded() > MAX_PAGE_BYTES
    {
      hide Insert, Build, RawBytes, Snapshot.Encoded;
      count := 0;
      var bytes := 0;
      ghost var start := index.lastId;
      NoRawBytes(rows, start);
      while count < REBUILD_ROWS && index.lastId < |rows|
        invariant count <= REBUILD_ROWS && index.lastId == old(index.lastId) + count <= |rows|
        invariant index == Build(rows[..index.lastId])
        invariant bytes == RawBytes(rows[start..index.lastId]) && (count > 0 ==> bytes < MAX_PAGE_BYTES)
        decreases REBUILD_ROWS - count
      {
        var row := rows[index.lastId];
        var raw := row.snapshot.Encoded();
        if count > 0 && bytes + raw > MAX_PAGE_BYTES {
          break;
        }
        BuildAppend(rows[..index.lastId], row);
        assert rows[..index.lastId + 1] == rows[..index.lastId] + [row];
        InsertAdvances(index, index.lastId + 1, row);
        InsertSnapshot(index.lastId + 1, row);
        count := count + 1;
        bytes := bytes + raw;
        RawBytesAppend(rows, start, index.lastId);
        if bytes >= MAX_PAGE_BYTES {
          break;
        }
      }
    }
  }

  function RawBytes(rows: seq<Row>): nat {
    if rows == [] then 0 else RawBytes(rows[..|rows| - 1]) + rows[|rows| - 1].snapshot.Encoded()
  }

  lemma NoRawBytes(rows: seq<Row>, at: nat)
    requires at <= |rows|
    ensures RawBytes(rows[at..at]) == 0
  {
  }

  lemma RawBytesAppend(rows: seq<Row>, from: nat, to: nat)
    requires from < to <= |rows|
    ensures RawBytes(rows[from..to]) == RawBytes(rows[from..to - 1]) + rows[to - 1].snapshot.Encoded()
  {
    assert rows[from..to][..to - from - 1] == rows[from..to - 1];
  }

  lemma InsertAdvances(index: Index, id: nat, row: Row)
    ensures Insert(index, id, row).lastId == id
  {
  }

  method AdmitDiscovered(known: map<string, nat>, state: Value, id: nat) returns (a: Admission)
    ensures a == Admitted(known, state, id)
  {
    hide Discover, DiscoverMembers;
    var walker := new Walker();
    walker.Visit("", state);
    var paths := WalkOrder(walker.fields);
    a := Admission(known, walker.exclusions);
    ghost var start := a;
    assert paths[0..] == paths;
    for i := 0 to |paths|
      invariant Admit(a, paths[i..], id) == Admit(start, paths, id)
    {
      assert paths[i..][0] == paths[i] && paths[i..][1..] == paths[i + 1..];
      if paths[i] !in a.known {
        if |a.known| == MAX_SOURCE_FIELDS {
          a := a.(exclusions := a.exclusions + {paths[i]});
        } else {
          a := a.(known := a.known[paths[i] := id]);
        }
      }
    }
  }

  /** Every known path is looked up again, so a value can never carry forward. */
  method CollectValues(known: set<string>, state: Value) returns (values: map<string, real>)
    ensures values == ValuesAt(known, state)
  {
    hide NumberAt;
    values := map[];
    var left := known;
    while left != {}
      invariant left <= known && values == ValuesAt(known - left, state)
    {
      var path :| path in left;
      var number := NumberAt(state, path);
      if number.Some? {
        values := values[path := number.value];
      }
      left := left - {path};
    }
    assert known - {} == known;
  }

  method EncodeExclusions(exclusions: set<string>) returns (stored: set<string>)
    ensures stored == StoredExclusions(exclusions)
  {
    var paths := WalkOrder(exclusions);
    stored := if ExclusionBytes(paths) > MAX_EXCLUSION_BYTES then {""} else exclusions;
  }
}
