/** The bounded in-memory history of committed steps, with patches of one step merged into one entry. */
module TrackerHistory {
  import opened Common
  import opened Json

  type Metrics = map<string, Value>

  datatype CommittedStep<E, S> = CommittedStep(step: int, observed: int, metrics: Metrics, summary: Metrics,
                                               alerts: seq<E>, spans: seq<S>)

  datatype Entry<E, S> = Entry(record: CommittedStep<E, S>, bytes: nat)

  datatype History<E, S> = History(entries: seq<Entry<E, S>>, bytes: nat, evicted: nat)

  datatype HistoryLimits = HistoryLimits(steps: nat, bytes: nat)

  predicate ValidLimits(limits: HistoryLimits) {
    1 <= limits.steps <= 1_000_000 && 1 <= limits.bytes <= 1024 * 1024 * 1024
  }

  function Total<E, S>(entries: seq<Entry<E, S>>): nat {
    if entries == [] then 0 else entries[0].bytes + Total(entries[1..])
  }

  lemma TotalAppend<E, S>(a: seq<Entry<E, S>>, b: seq<Entry<E, S>>)
    ensures Total(a + b) == Total(a) + Total(b)
  {
    if a == [] {
      assert a + b == b;
    } else {
      assert (a + b)[1..] == a[1..] + b;
    }
  }

  /** Position of the first entry for the step, or the length when there is none. */
  function Find<E, S>(entries: seq<Entry<E, S>>, step: int): (i: nat)
    ensures i <= |entries|
    ensures i < |entries| ==> entries[i].record.step == step
    ensures forall j :: 0 <= j < i ==> entries[j].record.step != step
  {
    if entries == [] || entries[0].record.step == step then 0 else 1 + Find(entries[1..], step)
  }

  predicate FirstOf<E, S>(entries: seq<Entry<E, S>>, step: int, i: int) {
    0 <= i < |entries| && entries[i].record.step == step && forall j :: 0 <= j < i ==> entries[j].record.step != step
  }

  lemma FindFirst<E, S>(entries: seq<Entry<E, S>>, step: int, i: int)
    ensures FirstOf(entries, step, i) ==> Find(entries, step) == i
    ensures (forall i :: 0 <= i < |entries| ==> entries[i].record.step != step) ==> Find(entries, step) == |entries|
  {
    hide Find;
  }

  /** A later commit of the same step patches the earlier record. */
  function Patched<E, S>(entries: seq<Entry<E, S>>, record: CommittedStep<E, S>): (r: CommittedStep<E, S>)
    ensures r.step == record.step && r.summary == record.summary
  {
    var i := Find(entries, record.step);
    if i == |entries| then record
    else
      var old_ := entries[i].record;
      CommittedStep(old_.step, Max(old_.observed, record.observed), old_.metrics + record.metrics, record.summary,
                    old_.alerts + record.alerts, old_.spans + record.spans)
  }

  /** The newest entry of a step: the record itself, or everything it adds to the step's earlier record. */
  lemma PatchedMeans<E, S>(entries: seq<Entry<E, S>>, record: CommittedStep<E, S>)
    ensures (forall i :: 0 <= i < |entries| ==> entries[i].record.step != record.step) ==>
            Patched(entries, record) == record
    ensures forall i :: FirstOf(entries, record.step, i) ==>
              var earlier := entries[i].record;
              Patched(entries, record)
              == CommittedStep(record.step, Max(earlier.observed, record.observed), earlier.metrics + record.metrics,
                               record.summary, earlier.alerts + record.alerts, earlier.spans + record.spans)
  {
    hide Find;
    forall i | FirstOf(entries, record.step, i) ensures Find(entries, record.step) == i {
      FindFirst(entries, record.step, i);
    }
    FindFirst(entries, record.step, 0);
  }

  function Without<E, S>(entries: seq<Entry<E, S>>, step: int): seq<Entry<E, S>> {
    var i := Find(entries, step);
    if i == |entries| then entries else RemoveAt(entries, i)
  }

  /** Byte count is the sum of the entries and both budgets hold. */
  ghost predicate Bounded<E, S>(h: History<E, S>, limits: HistoryLimits) {
    h.bytes == Total(h.entries) && h.bytes <= limits.bytes && |h.entries| <= limits.steps
  }

  ghost predicate Overfull<E, S>(entries: seq<Entry<E, S>>, limits: HistoryLimits) {
    |entries| > limits.steps || Total(entries) > limits.bytes
  }

  /** How many entries to evict: the least number that ends within both budgets. */
  ghost function TrimPoint<E, S>(all: seq<Entry<E, S>>, limits: HistoryLimits): (k: nat)
    ensures k <= |all|
  {
    if all == [] || !Overfull(all, limits) then 0 else 1 + TrimPoint(all[1..], limits)
  }

  lemma {:induction false} TrimPointIs<E, S>(all: seq<Entry<E, S>>, limits: HistoryLimits, k: nat)
    requires k <= |all| && (all[k..] == [] || !Overfull(all[k..], limits))
    requires forall j :: 0 <= j < k ==> Overfull(all[j..], limits)
    ensures TrimPoint(all, limits) == k
    decreases k
  {
    hide Overfull;
    assert all[0..] == all;
    if k == 0 {
    } else {
      assert all[1..][k - 1..] == all[k..];
      forall j | 0 <= j < k - 1 ensures Overfull(all[1..][j..], limits) {
        assert all[1..][j..] == all[j + 1..];
      }
      TrimPointIs(all[1..], limits, k - 1);
    }
  }

  /** The record patched into the entries or appended, before anything is evicted. */
  function WithRecord<E, S>(entries: seq<Entry<E, S>>, record: CommittedStep<E, S>,
                            size: CommittedStep<E, S> -> nat): seq<Entry<E, S>> {
    var merged := Patched(entries, record);
    Without(entries, record.step) + [Entry(merged, size(merged))]
  }

  ghost function Merged<E, S>(h: History<E, S>, record: CommittedStep<E, S>, limits: HistoryLimits,
                              size: CommittedStep<E, S> -> nat): History<E, S> {
    var all := WithRecord(h.entries, record, size);
    var k := TrimPoint(all, limits);
    History(all[k..], Total(all[k..]), h.evicted + k)
  }

  /**
    Merge a commit: patch or append the record at the end, then evict from the front only while over
    budget. The newest entry always survives; only an oversized record is refused.
   */
  method Merge<E, S>(h: History<E, S>, record: CommittedStep<E, S>, limits: HistoryLimits,
                     size: CommittedStep<E, S> -> nat)
    returns (r: Option<History<E, S>>)
    requires ValidLimits(limits) && h.bytes == Total(h.entries)
    ensures r.Some? <==> size(Patched(h.entries, record)) <= limits.bytes
    ensures r.Some? ==>
              var all := WithRecord(h.entries, record, size);
              var k := r.value.evicted - h.evicted;
              && 0 <= k < |all| && r.value.entries == all[k..] && Bounded(r.value, limits)
              && forall j :: 0 <= j < k ==> Overfull(all[j..], limits)
    ensures r.Some? ==> r.value == Merged(h, record, limits, size)
  {
    var merged := Patched(h.entries, record);
    var bytes := size(merged);
    if bytes > limits.bytes {
      return None;
    }
    var entries, total := Unlink(h.entries, h.bytes, record.step);
    hide Total, Find, Patched, Without, Overfull, TrimPoint;
    TotalAppend(entries, [Entry(merged, bytes)]);
    OneTotal(Entry(merged, bytes));
    total := total + bytes;
    entries := entries + [Entry(merged, bytes)];
    var k, left := Trim(entries, total, limits);
    TrimPointIs(entries, limits, k);
    WithinBudgets(entries[k..], limits);
    return Some(History(entries[k..], left, h.evicted + k));
  }

  /** Take out the entry of the step, if there is one. */
  method Unlink<E, S>(entries: seq<Entry<E, S>>, bytes: nat, step: int) returns (rest: seq<Entry<E, S>>, total: nat)
    requires bytes == Total(entries)
    ensures rest == Without(entries, step) && total == Total(rest)
  {
    hide Total, Find;
    rest, total := entries, bytes;
    var at := Find(entries, step);
    if at < |entries| {
      RemoveTotal(entries, at);
      total := total - entries[at].bytes;
      rest := RemoveAt(entries, at);
    }
  }

  lemma WithinBudgets<E, S>(entries: seq<Entry<E, S>>, limits: HistoryLimits)
    ensures !Overfull(entries, limits) <==> |entries| <= limits.steps && Total(entries) <= limits.bytes
  {
  }

  lemma OneTotal<E, S>(e: Entry<E, S>)
    ensures Total([e]) == e.bytes
  {
  }

  /** Pop entries from the front while either budget is exceeded. */
  method Trim<E, S>(all: seq<Entry<E, S>>, sum: nat, limits: HistoryLimits) returns (k: nat, total: nat)
    requires ValidLimits(limits) && all != [] && sum == Total(all) && all[|all| - 1].bytes <= limits.bytes
    ensures k < |all| && total == Total(all[k..])
    ensures !Overfull(all[k..], limits) && forall j :: 0 <= j < k ==> Overfull(all[j..], limits)
  {
    var entries := all;
    k, total := 0, sum;
    while |entries| > limits.steps || total > limits.bytes
      invariant k < |all| && entries == all[k..] && total == Total(entries)
      invariant forall j :: 0 <= j < k ==> Overfull(all[j..], limits)
      decreases |entries|
    {
      SingleTotal(all, all[|all| - 1].bytes);
      total := total - entries[0].bytes;
      entries := entries[1..];
      k := k + 1;
    }
  }

  lemma TotalCons<E, S>(e: Entry<E, S>, rest: seq<Entry<E, S>>)
    ensures Total([e] + rest) == e.bytes + Total(rest)
  {
    assert ([e] + rest)[1..] == rest;
  }

  lemma RemoveTotal<E, S>(entries: seq<Entry<E, S>>, i: nat)
    requires i < |entries|
    ensures Total(entries) == Total(RemoveAt(entries, i)) + entries[i].bytes
  {
    hide Total;
    var front, back := entries[..i], entries[i + 1..];
    assert entries == front + ([entries[i]] + back);
    TotalAppend(front, [entries[i]] + back);
    TotalCons(entries[i], back);
    TotalAppend(front, back);
  }

  lemma SingleTotal<E, S>(all: seq<Entry<E, S>>, bytes: nat)
    requires all != [] && all[|all| - 1].bytes == bytes
    ensures Total(all[|all| - 1..]) == bytes
  {
    assert all[|all| - 1..][1..] == [];
  }
}
