/** External multi-pass merge sort of trace events by timestamp, stable in arrival order. */
module TraceSort {
  import opened Common
  import opened TraceCodec

  const CHUNK_BYTES := 8 * 1024 * 1024
  const MERGE_FAN_IN := 8
  const RECORD_SIZE := 40

  // ---------------------------------------------------------------- sorted lists

  predicate Sorted(rs: seq<Record>) {
    forall i, j :: 0 <= i < j < |rs| ==> AtMost(rs[i], rs[j])
  }

  predicate AllValid(rs: seq<Record>) {
    forall i :: 0 <= i < |rs| ==> ValidRecord(rs[i])
  }

  lemma AtMostTransitive(a: Record, b: Record, c: Record)
    requires AtMost(a, b) && AtMost(b, c)
    ensures AtMost(a, c)
  {
  }

  lemma AtMostTotal(a: Record, b: Record)
    ensures AtMost(a, b) || AtMost(b, a)
  {
  }

  function Insert(r: Record, rs: seq<Record>): seq<Record> {
    if rs == [] || AtMost(r, rs[0]) then [r] + rs else [rs[0]] + Insert(r, rs[1..])
  }

  /** The in-memory sort of a chunk. */
  function Sort(rs: seq<Record>): seq<Record> {
    if rs == [] then [] else Insert(rs[0], Sort(rs[1..]))
  }

  lemma {:induction false} InsertKeeps(r: Record, rs: seq<Record>)
    requires Sorted(rs)
    ensures Sorted(Insert(r, rs)) && multiset(Insert(r, rs)) == multiset{r} + multiset(rs)
    ensures |Insert(r, rs)| == |rs| + 1
  {
    hide AtMost;
    if rs != [] && !AtMost(r, rs[0]) {
      var rest := Insert(r, rs[1..]);
      InsertKeeps(r, rs[1..]);
      assert rs == [rs[0]] + rs[1..];
      forall i | 0 <= i < |rest| ensures AtMost(rs[0], rest[i]) {
        assert rest[i] in multiset(rest);
        if rest[i] == r {
          AtMostTotal(r, rs[0]);
        } else {
          assert rest[i] in multiset(rs[1..]);
        }
      }
      SortedCons(rs[0], rest);
    } else {
      forall i | 0 <= i < |rs| ensures AtMost(r, rs[i]) {
        if i > 0 {
          AtMostTransitive(r, rs[0], rs[i]);
        }
      }
      SortedCons(r, rs);
    }
  }

  lemma SortedCons(r: Record, rs: seq<Record>)
    requires Sorted(rs) && forall i :: 0 <= i < |rs| ==> AtMost(r, rs[i])
    ensures Sorted([r] + rs) && multiset([r] + rs) == multiset{r} + multiset(rs)
  {
    hide AtMost;
  }

  lemma {:induction false} SortSorts(rs: seq<Record>)
    ensures Sorted(Sort(rs)) && multiset(Sort(rs)) == multiset(rs)
  {
    hide AtMost;
    if rs == [] {
    } else {
      SortSorts(rs[1..]);
      InsertKeeps(rs[0], Sort(rs[1..]));
      assert rs == [rs[0]] + rs[1..];
    }
  }

  lemma AtMostAntisymmetric(a: Record, b: Record)
    requires AtMost(a, b) && AtMost(b, a)
    ensures a.ordinal == b.ordinal
  {
  }

  /** An ordinal belongs to one record only. */
  predicate SameOrdinalSame(rs: seq<Record>) {
    forall i, j :: 0 <= i < |rs| && 0 <= j < |rs| && rs[i].ordinal == rs[j].ordinal ==> rs[i] == rs[j]
  }

  lemma SameFirst(a: seq<Record>, b: seq<Record>)
    requires Sorted(a) && Sorted(b) && multiset(a) == multiset(b) && SameOrdinalSame(a) && a != []
    ensures b != [] && a[0] == b[0]
  {
    hide AtMost, Sorted;
    assert a[0] in multiset(b);
    FirstIsLeast(b, a[0]);
    assert b[0] in multiset(a);
    FirstIsLeast(a, b[0]);
    AtMostAntisymmetric(a[0], b[0]);
    var i :| 0 <= i < |a| && a[i] == b[0];
  }

  lemma TailBag(rs: seq<Record>)
    requires rs != []
    ensures multiset(rs[1..]) == multiset(rs) - multiset{rs[0]}
  {
    assert rs == [rs[0]] + rs[1..];
  }

  /** With distinct ordinals there is only one sorted arrangement: the external sort has no choice. */
  lemma {:induction false} SortedUnique(a: seq<Record>, b: seq<Record>)
    requires Sorted(a) && Sorted(b) && multiset(a) == multiset(b) && SameOrdinalSame(a)
    ensures a == b
    decreases |a|
  {
    hide AtMost;
    if a != [] {
      SameFirst(a, b);
      TailBag(a);
      TailBag(b);
      SortedUnique(a[1..], b[1..]);
      assert a == [a[0]] + a[1..] && b == [b[0]] + b[1..];
    } else {
      assert |multiset(b)| == 0;
    }
  }

  lemma FirstIsLeast(rs: seq<Record>, r: Record)
    requires Sorted(rs) && r in multiset(rs)
    ensures rs != [] && AtMost(rs[0], r)
  {
    var i :| 0 <= i < |rs| && rs[i] == r;
  }

  // ---------------------------------------------------------------- merging runs

  ghost function Bag(lists: seq<seq<Record>>): multiset<Record> {
    if lists == [] then multiset{} else Bag(lists[..|lists| - 1]) + multiset(lists[|lists| - 1])
  }

  lemma {:induction false} BagAdvance(lists: seq<seq<Record>>, i: nat)
    requires i < |lists| && lists[i] != []
    ensures Bag(lists[i := lists[i][1..]]) + multiset{lists[i][0]} == Bag(lists)
  {
    var n := |lists| - 1;
    var next := lists[i := lists[i][1..]];
    assert lists[i] == [lists[i][0]] + lists[i][1..];
    if i == n {
      assert next[..n] == lists[..n];
    } else {
      assert next[..n] == lists[..n][i := lists[..n][i][1..]];
      BagAdvance(lists[..n], i);
    }
  }

  lemma {:induction false} BagEmpty(lists: seq<seq<Record>>)
    requires forall i :: 0 <= i < |lists| ==> lists[i] == []
    ensures Bag(lists) == multiset{}
  {
    if lists == [] {
    } else {
      BagEmpty(lists[..|lists| - 1]);
    }
  }

  lemma {:induction false} BagAppend(a: seq<seq<Record>>, b: seq<seq<Record>>)
    ensures Bag(a + b) == Bag(a) + Bag(b)
  {
    if b == [] {
      assert a + b == a;
    } else {
      var ab := a + b;
      assert ab[..|ab| - 1] == a + b[..|b| - 1];
      BagAppend(a, b[..|b| - 1]);
    }
  }

  /** A run file: the records of a sorted list, one after another. */
  ghost predicate RunOf(bytes: seq<Byte>, list: seq<Record>) {
    bytes == WriteAll(list) && Sorted(list) && AllValid(list)
  }

  ghost predicate RunsOf(files: seq<seq<Byte>>, lists: seq<seq<Record>>) {
    |files| == |lists| && forall i :: 0 <= i < |files| ==> RunOf(files[i], lists[i])
  }

  /** Each reader has handed its next record to the heap and stands behind it. */
  ghost predicate Loaded(heads: seq<Option<Record>>, readers: seq<seq<Byte>>, lists: seq<seq<Record>>) {
    && |heads| == |readers| == |lists|
    && forall i :: 0 <= i < |lists| ==> Slot(heads[i], readers[i], lists[i])
  }

  ghost predicate Slot(head: Option<Record>, reader: seq<Byte>, list: seq<Record>) {
    && Sorted(list) && AllValid(list)
    && head == (if list == [] then None else Some(list[0]))
    && reader == WriteAll(if list == [] then [] else list[1..])
  }

  method ReadNext(reader: seq<Byte>, ghost list: seq<Record>) returns (head: Option<Record>, rest: seq<Byte>, ok: bool)
    requires RunOf(reader, list)
    ensures ok && Slot(head, rest, list)
  {
    hide Read, Sorted;
    ReadRun(list);
    var reading := Read(reader);
    if reading.Err? {
      return None, reader, false;
    }
    match reading.value
    case EndOfRun => return None, [], true;
    case Got(record, more) => return Some(record), more, true;
  }

  /** The smallest head; the heap holds at most one record per reader. */
  method PopLeast(heads: seq<Option<Record>>) returns (at: Option<nat>)
    ensures at.None? <==> forall i :: 0 <= i < |heads| ==> heads[i] == None
    ensures at.Some? ==> at.value < |heads| && heads[at.value].Some?
    ensures at.Some? ==> forall i :: 0 <= i < |heads| && heads[i].Some? ==>
            AtMost(heads[at.value].value, heads[i].value)
  {
    hide AtMost;
    at := None;
    for i := 0 to |heads|
      invariant at.None? <==> forall j :: 0 <= j < i ==> heads[j] == None
      invariant at.Some? ==> at.value < i && heads[at.value].Some?
      invariant at.Some? ==> forall j :: 0 <= j < i && heads[j].Some? ==> AtMost(heads[at.value].value, heads[j].value)
    {
      if heads[i].Some? {
        AtMostSelf(heads[i].value);
        if at.None? {
          at := Some(i);
        } else {
          AtMostTotal(heads[at.value].value, heads[i].value);
          if !AtMost(heads[at.value].value, heads[i].value) {
            forall j | 0 <= j < i && heads[j].Some? ensures AtMost(heads[i].value, heads[j].value) {
              AtMostTransitive(heads[i].value, heads[at.value].value, heads[j].value);
            }
            at := Some(i);
          }
        }
      }
    }
  }

  lemma AtMostSelf(r: Record)
    ensures AtMost(r, r)
  {
  }

  /** Everything written so far precedes everything still to come. */
  ghost predicate Precedes(out: seq<Record>, lists: seq<seq<Record>>) {
    out != [] ==> forall i :: 0 <= i < |lists| && lists[i] != [] ==> AtMost(out[|out| - 1], lists[i][0])
  }

  method Open(files: seq<seq<Byte>>, ghost lists: seq<seq<Record>>)
    returns (heads: seq<Option<Record>>, readers: seq<seq<Byte>>)
    requires RunsOf(files, lists)
    ensures Loaded(heads, readers, lists)
  {
    hide Sorted, Slot;
    heads, readers := [], [];
    for i := 0 to |files|
      invariant |heads| == |readers| == i
      invariant forall j :: 0 <= j < i ==> Slot(heads[j], readers[j], lists[j])
    {
      var head, rest, ok := ReadNext(files[i], lists[i]);
      heads, readers := heads + [head], readers + [rest];
    }
  }

  /** k-way merge: the output run is the sorted arrangement of all input records. */
  method Merge(files: seq<seq<Byte>>, ghost lists: seq<seq<Record>>)
    returns (output: seq<Byte>, ghost merged: seq<Record>)
    requires RunsOf(files, lists)
    ensures RunOf(output, merged) && multiset(merged) == Bag(lists)
  {
    hide Slot, AtMost, RunOf, Write;
    var heads, readers := Open(files, lists);
    ghost var left := lists;
    output, merged := [], [];
    MergeStarts(merged, left);
    while true
      invariant Loaded(heads, readers, left) && RunOf(output, merged) && Precedes(merged, left)
      invariant multiset(merged) + Bag(left) == Bag(lists)
      decreases |Bag(left)|
    {
      var at := PopLeast(heads);
      if at.None? {
        AllDrained(heads, readers, left);
        break;
      }
      var i := at.value;
      var record := heads[i].value;
      SlotHead(heads[i], readers[i], left[i]);
      MergeStep(heads, readers, left, i, output, merged);
      BagAdvance(left, i);
      output := output + Write(record);
      merged := merged + [record];
      SlotRest(heads[i], readers[i], left[i]);
      var head, rest, ok := ReadNext(readers[i], left[i][1..]);
      heads, readers, left := heads[i := head], readers[i := rest], left[i := left[i][1..]];
    }
  }

  lemma MergeStarts(merged: seq<Record>, left: seq<seq<Record>>)
    requires merged == []
    ensures RunOf([], merged) && Precedes(merged, left) && multiset(merged) + Bag(left) == Bag(left)
  {
  }

  lemma AllDrained(heads: seq<Option<Record>>, readers: seq<seq<Byte>>, lists: seq<seq<Record>>)
    requires Loaded(heads, readers, lists) && forall i :: 0 <= i < |heads| ==> heads[i] == None
    ensures Bag(lists) == multiset{}
  {
    forall i | 0 <= i < |lists| ensures lists[i] == [] {
      assert Slot(heads[i], readers[i], lists[i]);
    }
    BagEmpty(lists);
  }

  lemma SlotHead(head: Option<Record>, reader: seq<Byte>, list: seq<Record>)
    requires Slot(head, reader, list) && head.Some?
    ensures list != [] && list[0] == head.value && ValidRecord(head.value)
  {
  }

  lemma SlotRest(head: Option<Record>, reader: seq<Byte>, list: seq<Record>)
    requires Slot(head, reader, list) && head.Some?
    ensures RunOf(reader, list[1..])
  {
  }

  /** Writing the least head extends the run and still precedes the rest. */
  lemma MergeStep(heads: seq<Option<Record>>, readers: seq<seq<Byte>>, lists: seq<seq<Record>>, at: nat,
                  output: seq<Byte>, merged: seq<Record>)
    requires Loaded(heads, readers, lists) && at < |lists| && heads[at].Some?
    requires forall i :: 0 <= i < |heads| && heads[i].Some? ==> AtMost(heads[at].value, heads[i].value)
    requires RunOf(output, merged) && Precedes(merged, lists)
    ensures lists[at] != []
    ensures RunOf(output + Write(lists[at][0]), merged + [lists[at][0]])
    ensures Precedes(merged + [lists[at][0]], lists[at := lists[at][1..]])
  {
    hide Write, AtMost;
    assert Slot(heads[at], readers[at], lists[at]);
    var r := lists[at][0];
    var out := merged + [r];
    WriteAllAppend(merged, r);
    forall i | 0 <= i < |merged| ensures AtMost(merged[i], r) {
      var last := merged[|merged| - 1];
      assert AtMost(last, lists[at][0]);
      if i < |merged| - 1 {
        AtMostTransitive(merged[i], last, r);
      }
    }
    var next := lists[at := lists[at][1..]];
    forall i | 0 <= i < |next| && next[i] != [] ensures AtMost(r, next[i][0]) {
      if i != at {
        assert Slot(heads[i], readers[i], lists[i]);
      } else {
        assert next[i][0] == lists[at][1];
      }
    }
  }

  // ---------------------------------------------------------------- the spool

  function ChunkBytes(rs: seq<Record>): nat {
    if rs == [] then 0 else ChunkBytes(rs[..|rs| - 1]) + |rs[|rs| - 1].payload| + RECORD_SIZE
  }

  lemma ChunkBytesAppend(rs: seq<Record>, r: Record)
    ensures ChunkBytes(rs + [r]) == ChunkBytes(rs) + |r.payload| + RECORD_SIZE
  {
    assert (rs + [r])[..|rs|] == rs;
  }

  /** Arrivals carry their position as ordinal. */
  predicate Numbered(rs: seq<Record>) {
    forall i :: 0 <= i < |rs| ==> rs[i].ordinal == i
  }

  function Payloads(rs: seq<Record>): (p: seq<seq<Byte>>)
    ensures |p| == |rs| && forall i :: 0 <= i < |rs| ==> p[i] == rs[i].payload
  {
    if rs == [] then [] else [rs[0].payload] + Payloads(rs[1..])
  }

  class SortedTrace {
    var chunk: seq<Record>
    var chunkBytes: nat
    /** The run files of the current pass. */
    var runs: seq<seq<Byte>>
    var count: nat

    ghost var lists: seq<seq<Record>>
    /** Every accepted event in arrival order. */
    ghost var pushed: seq<Record>

    ghost predicate Valid()
      reads this
    {
      && AllValid(pushed) && Numbered(pushed) && count == |pushed| <= TWO_64
      && AllValid(chunk) && chunkBytes == ChunkBytes(chunk)
      && RunsOf(runs, lists) && Bag(lists) + multiset(chunk) == multiset(pushed)
    }

    constructor ()
      ensures Valid() && pushed == [] && chunkBytes == 0
    {
      chunk, chunkBytes, runs, count := [], 0, [], 0;
      lists, pushed := [], [];
    }

    /** Sort the chunk and spool it as the next run. */
    method FlushRun()
      requires Valid()
      modifies this`chunk, this`chunkBytes, this`runs, this`lists
      ensures Valid() && chunk == [] && chunkBytes == 0
    {
      hide Numbered, Sorted, AtMost, Sort, WriteAll, ValidRecord;
      if chunk == [] {
        return;
      }
      var sorted := Sort(chunk);
      SortSorts(chunk);
      SortedValid(chunk, sorted);
      BagAppend(lists, [sorted]);
      assert [sorted][..0] == [];
      runs := runs + [WriteAll(sorted)];
      lists := lists + [sorted];
      chunk, chunkBytes := [], 0;
    }

    /** Accept an event unless it is oversized or has no finite timestamp; memory stays bounded. */
    method Push(bits: nat, payload: seq<Byte>) returns (ok: bool)
      requires Valid() && bits < TWO_64 && chunkBytes < CHUNK_BYTES
      modifies this
      ensures Valid() && chunkBytes < CHUNK_BYTES
      ensures ok <==> |payload| <= PAGE_BYTES && Finite(bits) && old(count) + 1 < TWO_64
      ensures pushed == if ok then old(pushed) + [Record(bits, old(count), payload)] else old(pushed)
    {
      hide Valid, Finite;
      if |payload| > PAGE_BYTES || !Finite(bits) {
        return false;
      }
      if chunkBytes + (|payload| + RECORD_SIZE) > CHUNK_BYTES && chunk != [] {
        FlushRun();
      }
      if count + 1 >= TWO_64 {
        return false;
      }
      Append(Record(bits, count, payload));
      if chunkBytes >= CHUNK_BYTES {
        FlushRun();
      }
      return true;
    }

    method Append(record: Record)
      requires Valid() && ValidRecord(record) && record.ordinal == count && count + 1 < TWO_64
      modifies this`chunk, this`chunkBytes, this`count, this`pushed
      ensures Valid() && pushed == old(pushed) + [record] && count == old(count) + 1
      ensures chunkBytes == old(chunkBytes) + |record.payload| + RECORD_SIZE
    {
      hide ValidRecord, RunsOf, Bag, AllValid, Numbered;
      Pushed(pushed, chunk, record);
      ChunkBytesAppend(chunk, record);
      chunk := chunk + [record];
      pushed := pushed + [record];
      chunkBytes := chunkBytes + (|record.payload| + RECORD_SIZE);
      count := count + 1;
    }

    /**
      Merge runs eight at a time until one is left and read it back: the events come out exactly as
      an in-memory stable sort of all pushed events by timestamp would give them.
     */
    method WriteTrace() returns (events: seq<seq<Byte>>, ghost order: seq<nat>)
      requires Valid()
      modifies this
      ensures events == Payloads(Sort(pushed)) && pushed == old(pushed)
      ensures |events| == |pushed| && Permutation(order, |pushed|)
      ensures forall i :: 0 <= i < |order| ==> events[i] == pushed[order[i]].payload
      ensures forall i, j :: 0 <= i < j < |order| ==> InTimeOrder(pushed, order[i], order[j])
    {
      hide Sorted, AtMost, Sort, WriteAll, ValidRecord, Numbered, AllValid, RunOf, Bag;
      FlushRun();
      ghost var all := pushed;
      while |runs| > 1
        invariant RunsOf(runs, lists) && Bag(lists) == multiset(all) && pushed == all
        decreases |runs|
      {
        MergePass();
      }
      OneRunLeft(runs, lists);
      ghost var final := if |lists| == 0 then [] else lists[0];
      if |runs| > 0 {
        events := ReadEvents(runs[0], final);
      } else {
        events := [];
      }
      OnlySort(all, final);
      order := ArrivalOrder(all);
    }

    /** One pass: consecutive groups of at most eight runs become one run each. */
    method MergePass()
      requires RunsOf(runs, lists) && |runs| > 1
      modifies this`runs, this`lists
      ensures RunsOf(runs, lists) && Bag(lists) == old(Bag(lists)) && |runs| < old(|runs|)
    {
      hide RunOf, Bag;
      var next: seq<seq<Byte>> := [];
      ghost var merged: seq<seq<Record>> := [];
      var start := 0;
      BagStart(lists, merged);
      while start < |runs|
        invariant runs == old(runs) && lists == old(lists)
        invariant 0 <= start <= |runs| && RunsOf(next, merged) && Bag(merged) == Bag(lists[..start])
        invariant |next| * MERGE_FAN_IN < start + MERGE_FAN_IN
        invariant start < |runs| ==> |next| * MERGE_FAN_IN == start
        decreases |runs| - start
      {
        var end := Min(start + MERGE_FAN_IN, |runs|);
        ghost var group: seq<Record>;
        var file;
        assert RunsOf(runs[start..end], lists[start..end]);
        file, group := Merge(runs[start..end], lists[start..end]);
        BagGroup(lists, start, end, merged, group);
        next := next + [file];
        merged := merged + [group];
        start := end;
      }
      assert lists[..|runs|] == lists;
      runs, lists := next, merged;
    }
  }

  lemma Pushed(pushed: seq<Record>, chunk: seq<Record>, record: Record)
    requires AllValid(pushed) && Numbered(pushed) && AllValid(chunk) && ValidRecord(record)
             && record.ordinal == |pushed|
    ensures AllValid(pushed + [record]) && Numbered(pushed + [record]) && AllValid(chunk + [record])
  {
    hide ValidRecord;
  }

  lemma SortedValid(chunk: seq<Record>, sorted: seq<Record>)
    requires AllValid(chunk) && multiset(chunk) == multiset(sorted)
    ensures AllValid(sorted)
  {
    hide ValidRecord;
    forall i | 0 <= i < |sorted| ensures ValidRecord(sorted[i]) {
      assert sorted[i] in multiset(sorted);
      assert sorted[i] in multiset(chunk);
    }
  }

  lemma BagStart(lists: seq<seq<Record>>, none: seq<seq<Record>>)
    requires none == []
    ensures Bag(none) == Bag(lists[..0]) && RunsOf([], none)
  {
  }

  lemma BagGroup(lists: seq<seq<Record>>, start: nat, end: nat, merged: seq<seq<Record>>, group: seq<Record>)
    requires start <= end <= |lists| && Bag(merged) == Bag(lists[..start]) && multiset(group) == Bag(lists[start..end])
    ensures Bag(merged + [group]) == Bag(lists[..end])
  {
    assert lists[..end] == lists[..start] + lists[start..end];
    BagAppend(lists[..start], lists[start..end]);
    assert (merged + [group])[..|merged|] == merged;
  }

  lemma OneRunLeft(runs: seq<seq<Byte>>, lists: seq<seq<Record>>)
    requires RunsOf(runs, lists) && |lists| <= 1
    ensures var final := if |lists| == 0 then [] else lists[0]; Bag(lists) == multiset(final) && Sorted(final)
  {
    if |lists| == 1 {
      assert lists[..0] == [];
      assert RunOf(runs[0], lists[0]);
    }
  }

  /** The final run in order, payload by payload. */
  method ReadEvents(run: seq<Byte>, ghost list: seq<Record>) returns (events: seq<seq<Byte>>)
    requires RunOf(run, list)
    ensures events == Payloads(list)
  {
    hide Sorted, ValidRecord, Read, WriteAll;
    var input := run;
    ghost var done := 0;
    events := [];
    while true
      invariant done <= |list| && |events| == done && input == WriteAll(list[done..])
      invariant forall i :: 0 <= i < done ==> events[i] == list[i].payload
      decreases |list| - done
    {
      ReadRun(list[done..]);
      var reading := Read(input);
      if reading.Err? || reading.value.EndOfRun? {
        break;
      }
      assert list[done..][1..] == list[done + 1..];
      events := events + [reading.value.record.payload];
      input := reading.value.rest;
      done := done + 1;
    }
  }

  /** Every arrival once. */
  ghost predicate Permutation(order: seq<nat>, n: nat) {
    && |order| == n
    && (forall i :: 0 <= i < n ==> order[i] < n)
    && (forall i, j :: 0 <= i < j < n ==> order[i] != order[j])
  }

  /** Arrival `a` may be written before arrival `b`: an earlier number, zeros by sign, equal patterns by arrival. */
  ghost predicate InTimeOrder(pushed: seq<Record>, a: nat, b: nat) {
    && a < |pushed| && b < |pushed|
    && Number(pushed[a].bits) <= Number(pushed[b].bits)
    && (Number(pushed[a].bits) == Number(pushed[b].bits) && pushed[a].bits != pushed[b].bits ==>
          Negative(pushed[a].bits) && !Negative(pushed[b].bits))
    && (pushed[a].bits == pushed[b].bits ==> a < b)
  }

  /** The arrival numbers in sorted order: a permutation in which time never runs backwards. */
  lemma ArrivalOrder(pushed: seq<Record>) returns (order: seq<nat>)
    requires Numbered(pushed) && AllValid(pushed)
    ensures Permutation(order, |pushed|) && |Payloads(Sort(pushed))| == |pushed|
    ensures forall i :: 0 <= i < |order| ==> Payloads(Sort(pushed))[i] == pushed[order[i]].payload
    ensures forall i, j :: 0 <= i < j < |order| ==> InTimeOrder(pushed, order[i], order[j])
  {
    var sorted := Sort(pushed);
    SortSorts(pushed);
    SameSize(pushed, sorted);
    hide Sort, AtMost, AllValid, InTimeOrder;
    order := seq(|sorted|, i requires 0 <= i < |sorted| => sorted[i].ordinal);
    forall i | 0 <= i < |sorted| ensures order[i] < |pushed| && pushed[order[i]] == sorted[i] {
      ArrivalAt(pushed, sorted, i);
    }
    forall i, j | 0 <= i < j < |sorted| ensures order[i] != order[j] {
      ArrivalsDiffer(pushed, sorted, i, j);
    }
    forall i, j | 0 <= i < j < |sorted| ensures InTimeOrder(pushed, order[i], order[j]) {
      TimeOrder(pushed, order[i], order[j]);
    }
  }

  lemma ArrivalAt(pushed: seq<Record>, sorted: seq<Record>, i: nat)
    requires Numbered(pushed) && multiset(sorted) == multiset(pushed) && i < |sorted|
    ensures sorted[i].ordinal < |pushed| && pushed[sorted[i].ordinal] == sorted[i]
  {
    assert sorted[i] in multiset(sorted);
    var k :| 0 <= k < |pushed| && pushed[k] == sorted[i];
  }

  lemma ArrivalsDiffer(pushed: seq<Record>, sorted: seq<Record>, i: nat, j: nat)
    requires Numbered(pushed) && multiset(sorted) == multiset(pushed) && i < j < |sorted|
    ensures sorted[i].ordinal != sorted[j].ordinal
  {
    ArrivalAt(pushed, sorted, i);
    ArrivalAt(pushed, sorted, j);
    if sorted[i] == sorted[j] {
      TwiceInBag(sorted, i, j);
      OnceInBag(pushed, sorted[i]);
    }
  }

  lemma SameSize(a: seq<Record>, b: seq<Record>)
    requires multiset(a) == multiset(b)
    ensures |a| == |b|
  {
    assert |multiset(a)| == |a| && |multiset(b)| == |b|;
  }

  lemma TimeOrder(pushed: seq<Record>, a: nat, b: nat)
    requires Numbered(pushed) && AllValid(pushed) && a < |pushed| && b < |pushed| && a != b
    requires AtMost(pushed[a], pushed[b])
    ensures InTimeOrder(pushed, a, b)
  {
    hide Number, Finite;
    assert ValidRecord(pushed[a]) && ValidRecord(pushed[b]);
    OrderIsNumeric(pushed[a].bits, pushed[b].bits);
  }

  lemma TwiceInBag(rs: seq<Record>, i: nat, j: nat)
    requires i < j < |rs| && rs[i] == rs[j]
    ensures multiset(rs)[rs[i]] >= 2
  {
    assert rs == rs[..j] + [rs[j]] + rs[j + 1..];
    assert rs[..j][i] in multiset(rs[..j]);
  }

  lemma {:induction false} OnceInBag(rs: seq<Record>, r: Record)
    requires forall i, j :: 0 <= i < j < |rs| ==> rs[i].ordinal != rs[j].ordinal
    ensures multiset(rs)[r] <= 1
  {
    if rs == [] {
    } else {
      var n := |rs| - 1;
      OnceInBag(rs[..n], r);
      assert rs == rs[..n] + [rs[n]];
    }
  }

  lemma OnlySort(pushed: seq<Record>, final: seq<Record>)
    requires Numbered(pushed) && Sorted(final) && multiset(final) == multiset(pushed)
    ensures final == Sort(pushed)
  {
    hide AtMost, Sort, Sorted;
    SortSorts(pushed);
    forall i, j | 0 <= i < |final| && 0 <= j < |final| && final[i].ordinal == final[j].ordinal
      ensures final[i] == final[j]
    {
      assert final[i] in multiset(pushed) && final[j] in multiset(pushed);
      var a :| 0 <= a < |pushed| && pushed[a] == final[i];
      var b :| 0 <= b < |pushed| && pushed[b] == final[j];
    }
    SortedUnique(final, Sort(pushed));
  }
}
