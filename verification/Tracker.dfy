/**
  The step tracker: every call prepares a copy of its state and a batch of records, captures the
  batch in the producer, and only then installs the copy.
 */
module Tracker {
  import opened Common
  import opened Text
  import opened Protocol
  import ProducerLog
  import opened Producer
  import opened TrackerHistory

  const MAX_STEP := 0x7fff_ffff_ffff_ffff

  datatype StepPolicy = Monotonic | Allow

  datatype Status = Running | Finished | Failed

  datatype TrackerError = Refused | AlreadyFinished | CaptureFailed(error: ProducerError)

  /** `alerts` is the state of the alert engine, which is not part of this model. */
  datatype TrackerState<A, E, S> = TrackerState(
    status: Status, next: int, open: Option<int>, openMetrics: Metrics, openSpans: seq<S>, last: Option<int>,
    summary: Metrics, history: History<E, S>, commits: nat, alerts: A, finished: bool)

  /** What a commit or event writes; `kind` decides whether it counts as an observation. */
  datatype Record<E, S> = Record(kind: Header, step: int, observed: int, metrics: Metrics, summary: Metrics,
                                 alerts: seq<E>, spans: seq<S>, status: Status, commit: nat)

  /** Options and everything the tracker calls but does not define. */
  datatype Env<!A, !E, !S> = Env(
    limits: HistoryLimits, policy: StepPolicy,
    prepareStep: (A, int, int, Metrics) -> (A, seq<E>),
    prepareTick: (A, int, int) -> (A, seq<E>),
    fits: TrackerState<A, E, S> -> bool,
    size: CommittedStep<E, S> -> nat,
    encode: Record<E, S> -> Body,
    spanMetrics: (Metrics, S) -> Metrics)

  /** One committed observation. */
  datatype Commit = Commit(step: int, metrics: Metrics)

  datatype Batch<A, E, S> = Batch(next: TrackerState<A, E, S>, events: seq<Body>, alerts: seq<E>, commits: seq<Commit>)

  datatype LogResult = LogResult(accepted: bool, step: Option<int>, committed: nat)

  // ---------------------------------------------------------------- what the committed steps amount to

  /** Right-biased overlay of all committed metrics. */
  function Overlay(commits: seq<Commit>): Metrics {
    if commits == [] then map[] else Overlay(commits[..|commits| - 1]) + commits[|commits| - 1].metrics
  }

  /** The same overlay restricted to one step. */
  function StepOverlay(commits: seq<Commit>, step: int): Metrics {
    if commits == [] then map[]
    else
      var last, before := commits[|commits| - 1], StepOverlay(commits[..|commits| - 1], step);
      if last.step == step then before + last.metrics else before
  }

  function StepsOf(commits: seq<Commit>): set<int> {
    set i | 0 <= i < |commits| :: commits[i].step
  }

  lemma CommitAppend(commits: seq<Commit>, c: Commit)
    ensures Overlay(commits + [c]) == Overlay(commits) + c.metrics
    ensures StepsOf(commits + [c]) == StepsOf(commits) + {c.step}
    ensures forall s :: StepOverlay(commits + [c], s)
                     == if s == c.step then StepOverlay(commits, s) + c.metrics else StepOverlay(commits, s)
  {
    var all := commits + [c];
    assert all[..|commits|] == commits;
    forall s | s in StepsOf(commits) + {c.step} ensures s in StepsOf(all) {
      if s in StepsOf(commits) {
        var i :| 0 <= i < |commits| && commits[i].step == s;
        assert all[i].step == s;
      } else {
        assert all[|commits|].step == s;
      }
    }
    forall s | s in StepsOf(all) ensures s in StepsOf(commits) + {c.step} {
      var i :| 0 <= i < |all| && all[i].step == s;
      if i < |commits| {
        assert commits[i].step == s;
      }
    }
  }

  lemma StepOverlayUnseen(commits: seq<Commit>, step: int)
    requires step !in StepsOf(commits)
    ensures StepOverlay(commits, step) == map[]
  {
    if commits == [] {
    } else {
      var init := commits[..|commits| - 1];
      assert commits[|commits| - 1].step in StepsOf(commits);
      forall s | s in StepsOf(init) ensures s in StepsOf(commits) {
        var i :| 0 <= i < |init| && init[i].step == s;
        assert commits[i].step == s;
      }
      StepOverlayUnseen(init, step);
    }
  }

  // ---------------------------------------------------------------- invariants

  ghost predicate Increasing<E, S>(entries: seq<Entry<E, S>>) {
    forall i, j :: 0 <= i < j < |entries| ==> entries[i].record.step < entries[j].record.step
  }

  /** Summary, latest step and history agree with the committed steps; the newest is never evicted. */
  ghost predicate Agrees<A, E, S>(st: TrackerState<A, E, S>, limits: HistoryLimits, commits: seq<Commit>) {
    && Bounded(st.history, limits)
    && st.summary == Overlay(commits)
    && (forall s :: s in StepsOf(commits) ==> s < st.next)
    && (commits == [] ==> st.last == None && st.next == 0 && st.history == History([], 0, 0))
    && (commits != [] ==> Newest(st, commits[|commits| - 1].step))
  }

  ghost predicate Newest<A, E, S>(st: TrackerState<A, E, S>, step: int) {
    && st.last == Some(step) && st.history.entries != []
    && st.history.entries[|st.history.entries| - 1].record.step == step
    && st.history.entries[|st.history.entries| - 1].record.summary == st.summary
  }

  /** Monotonic policy: increasing steps, one entry per distinct step, nothing counted twice. */
  ghost predicate Monotone<A, E, S>(st: TrackerState<A, E, S>, commits: seq<Commit>) {
    && (st.last.Some? ==> st.next == st.last.value + 1)
    && (st.open.Some? ==> st.open.value >= st.next || st.last == Some(st.open.value))
    && Increasing(st.history.entries)
    && st.history.evicted + |st.history.entries| == |StepsOf(commits)|
    && (forall i :: 0 <= i < |st.history.entries| ==> Faithful(st.history.entries[i], commits))
    && Recent(st.history.entries, commits)
  }

  /** The retained steps are the largest ones: whatever is missing lies below the oldest entry. */
  ghost predicate Recent<E, S>(entries: seq<Entry<E, S>>, commits: seq<Commit>) {
    forall s :: s in StepsOf(commits) ==> Retained(entries, s) || (entries != [] && s < entries[0].record.step)
  }

  ghost predicate Retained<E, S>(entries: seq<Entry<E, S>>, step: int) {
    exists i :: 0 <= i < |entries| && entries[i].record.step == step
  }

  ghost predicate Faithful<E, S>(e: Entry<E, S>, commits: seq<Commit>) {
    e.record.step in StepsOf(commits) && e.record.metrics == StepOverlay(commits, e.record.step)
  }

  ghost predicate Inv<A, E, S>(env: Env<A, E, S>, st: TrackerState<A, E, S>, commits: seq<Commit>) {
    Agrees(st, env.limits, commits) && (env.policy == Monotonic ==> Monotone(st, commits))
  }

  // ---------------------------------------------------------------- steps

  function ResolveStep<A, E, S>(st: TrackerState<A, E, S>, requested: Option<int>): int {
    if requested.Some? then requested.value else if st.open.Some? then st.open.value else st.next
  }

  datatype StepDecision = Keep | CommitOpen | Reject

  function Decide<A, E, S>(st: TrackerState<A, E, S>, target: int, policy: StepPolicy): StepDecision {
    if st.open.Some? then
      if target > st.open.value || (target < st.open.value && policy == Allow) then CommitOpen
      else if target < st.open.value then Reject
      else Keep
    else if target < st.next && policy == Monotonic && st.last != Some(target) then Reject
    else Keep
  }

  function EventStep<A, E, S>(st: TrackerState<A, E, S>): int {
    if st.open.Some? then st.open.value else if st.last.Some? then st.last.value else st.next
  }

  predicate ValidStep(step: Option<int>) {
    step.Some? ==> 0 <= step.value < MAX_STEP
  }

  predicate ValidMetricName(name: string) {
    Named(name) && '\0' !in name && Bytes(name) <= 4096 && name != "_step" && name != "_time"
  }

  predicate ValidNames(metrics: Metrics) {
    forall name :: name in metrics ==> ValidMetricName(name)
  }

  // ---------------------------------------------------------------- committing a step

  lemma WithoutLast<E, S>(entries: seq<Entry<E, S>>, step: int)
    requires Increasing(entries)
    requires entries != [] ==> step >= entries[|entries| - 1].record.step
    ensures var n := |entries|;
            if n > 0 && entries[n - 1].record.step == step
            then Find(entries, step) == n - 1 && Without(entries, step) == entries[..n - 1]
            else Find(entries, step) == n && Without(entries, step) == entries
  {
    hide Find;
    var i := Find(entries, step);
    if i < |entries| - 1 {
      assert entries[i].record.step < entries[|entries| - 1].record.step;
    }
  }

  /** Entries are increasing and each tells its step's overlay. */
  ghost predicate Told<E, S>(entries: seq<Entry<E, S>>, commits: seq<Commit>) {
    Increasing(entries) && Recent(entries, commits) && forall i :: 0 <= i < |entries| ==> Faithful(entries[i], commits)
  }

  lemma ToldNew<E, S>(entries: seq<Entry<E, S>>, commits: seq<Commit>, c: Commit, e: Entry<E, S>)
    requires Told(entries, commits) && (forall s :: s in StepsOf(commits) ==> s < c.step)
    requires e.record.step == c.step && e.record.metrics == c.metrics
    ensures Told(entries + [e], commits + [c]) && |StepsOf(commits + [c])| == |StepsOf(commits)| + 1
  {
    hide Overlay, StepOverlay, StepsOf;
    CommitAppend(commits, c);
    assert c.step !in StepsOf(commits);
    StepOverlayUnseen(commits, c.step);
    var all := entries + [e];
    forall i | 0 <= i < |all| ensures Faithful(all[i], commits + [c]) {
      if i < |entries| {
        assert Faithful(entries[i], commits);
      }
    }
    forall i, j | 0 <= i < j < |all| ensures all[i].record.step < all[j].record.step {
      assert Faithful(entries[i], commits);
    }
    RecentKept(entries, all, commits, c);
  }

  /** Replacing or appending the newest entry leaves no hole. */
  lemma RecentKept<E, S>(entries: seq<Entry<E, S>>, all: seq<Entry<E, S>>, commits: seq<Commit>, c: Commit)
    requires Recent(entries, commits) && all != [] && |entries| <= |all| && all[|all| - 1].record.step == c.step
    requires forall i :: 0 <= i < |entries| ==> all[i].record.step == entries[i].record.step
    ensures Recent(all, commits + [c])
  {
    hide Overlay, StepOverlay, StepsOf;
    CommitAppend(commits, c);
    forall s | s in StepsOf(commits + [c]) ensures Retained(all, s) || s < all[0].record.step {
      if s in StepsOf(commits) && Retained(entries, s) {
        var i :| 0 <= i < |entries| && entries[i].record.step == s;
        assert all[i].record.step == s;
      } else if s == c.step {
        assert all[|all| - 1].record.step == s;
      }
    }
  }

  lemma ToldPatch<E, S>(entries: seq<Entry<E, S>>, commits: seq<Commit>, c: Commit, e: Entry<E, S>)
    requires Told(entries, commits) && entries != [] && entries[|entries| - 1].record.step == c.step
    requires e.record.step == c.step && e.record.metrics == entries[|entries| - 1].record.metrics + c.metrics
    ensures Told(entries[..|entries| - 1] + [e], commits + [c]) && StepsOf(commits + [c]) == StepsOf(commits)
  {
    hide Overlay, StepOverlay, StepsOf;
    CommitAppend(commits, c);
    var n := |entries|;
    assert Faithful(entries[n - 1], commits);
    var all := entries[..n - 1] + [e];
    forall i | 0 <= i < |all| ensures Faithful(all[i], commits + [c]) {
      if i < n - 1 {
        assert all[i] == entries[i] && Faithful(entries[i], commits);
        assert entries[i].record.step < entries[n - 1].record.step;
      }
    }
    RecentKept(entries, all, commits, c);
  }

  lemma ToldSuffix<E, S>(all: seq<Entry<E, S>>, commits: seq<Commit>, k: nat)
    requires Told(all, commits) && k < |all|
    ensures Told(all[k..], commits)
  {
    hide Faithful;
    var rest := all[k..];
    forall i | 0 <= i < |rest| ensures Faithful(rest[i], commits) {
      assert rest[i] == all[k + i];
    }
    forall s | s in StepsOf(commits) ensures Retained(rest, s) || s < rest[0].record.step {
      if Retained(all, s) {
        var i :| 0 <= i < |all| && all[i].record.step == s;
        if i < k {
          assert all[i].record.step < all[k].record.step;
        } else {
          assert rest[i - k] == all[i];
        }
      } else if k > 0 {
        assert all[0].record.step < all[k].record.step;
      }
    }
  }

  /** Merging the next monotonic step keeps history increasing, faithful and counted exactly once. */
  lemma MergeMonotone<A, E, S>(st: TrackerState<A, E, S>, after: TrackerState<A, E, S>, limits: HistoryLimits,
                               commits: seq<Commit>, c: Commit, record: CommittedStep<E, S>, size: nat, k: nat)
    requires Agrees(st, limits, commits) && Monotone(st, commits)
    requires c.step >= st.next || st.last == Some(c.step)
    requires record.step == c.step && record.metrics == c.metrics
    requires var all := Without(st.history.entries, c.step) + [Entry(Patched(st.history.entries, record), size)];
             k < |all| && after.history.entries == all[k..] && after.history.evicted == st.history.evicted + k
    requires after.last == Some(c.step) && after.next == Max(st.next, c.step + 1) && after.open == None
    ensures Monotone(after, commits + [c])
  {
    hide Find, Overlay, StepOverlay, StepsOf, Bounded, Faithful, Increasing, Recent;
    var entries := st.history.entries;
    assert Told(entries, commits);
    var e := Entry(Patched(entries, record), size);
    var all := Without(entries, c.step) + [e];
    LastStep(st, limits, commits);
    WithoutLast(entries, c.step);
    if st.last == Some(c.step) {
      ToldPatch(entries, commits, c, e);
    } else {
      ToldNew(entries, commits, c, e);
    }
    ToldSuffix(all, commits + [c], k);
  }

  lemma LastStep<A, E, S>(st: TrackerState<A, E, S>, limits: HistoryLimits, commits: seq<Commit>)
    requires Agrees(st, limits, commits)
    ensures st.last.Some? <==> st.history.entries != []
    ensures st.last.Some? ==> st.history.entries[|st.history.entries| - 1].record.step == st.last.value < st.next
  {
    if commits != [] {
      assert commits[|commits| - 1].step in StepsOf(commits);
    }
  }

  lemma MergeAgrees<A, E, S>(st: TrackerState<A, E, S>, after: TrackerState<A, E, S>, limits: HistoryLimits,
                             commits: seq<Commit>, c: Commit)
    requires Agrees(st, limits, commits) && Bounded(after.history, limits)
    requires after.summary == st.summary + c.metrics && after.last == Some(c.step)
             && after.next == Max(st.next, c.step + 1)
    requires Newest(after, c.step)
    ensures Agrees(after, limits, commits + [c])
  {
    hide StepOverlay, StepsOf, Bounded;
    CommitAppend(commits, c);
  }

  // ---------------------------------------------------------------- preparing a batch on a copy

  /** The copy extends the installed state by the batch's commits, one record each. */
  ghost predicate Prepared<A, E, S>(env: Env<A, E, S>, st: TrackerState<A, E, S>, commits: seq<Commit>,
                                    b: Batch<A, E, S>) {
    && Inv(env, b.next, commits + b.commits)
    && b.next.commits == st.commits + |b.events| && |b.commits| <= |b.events|
  }

  /** The record of committing the open step of a state. */
  function StepRecord<A, E, S>(env: Env<A, E, S>, st: TrackerState<A, E, S>, observed: int): Record<E, S>
    requires st.open.Some?
  {
    var summary := st.summary + st.openMetrics;
    var alerts := env.prepareStep(st.alerts, st.open.value, observed, st.openMetrics).1;
    Record(Observation, st.open.value, observed, st.openMetrics, summary, alerts, st.openSpans, st.status,
           st.commits + 1)
  }

  /** The record of committing the open step, if there is one. */
  function OpenRecords<A, E, S>(env: Env<A, E, S>, st: TrackerState<A, E, S>, observed: int): seq<Record<E, S>> {
    if st.open.Some? then [StepRecord(env, st, observed)] else []
  }

  /** The same commit as the history keeps it. */
  function HistoryRecord<A, E, S>(env: Env<A, E, S>, st: TrackerState<A, E, S>, observed: int): CommittedStep<E, S>
    requires st.open.Some?
  {
    var r := StepRecord(env, st, observed);
    CommittedStep(r.step, observed, r.metrics, r.summary, r.alerts, r.spans)
  }

  /** The state after committing the open step, if there is one. */
  ghost function Closed<A, E, S>(env: Env<A, E, S>, st: TrackerState<A, E, S>, observed: int): TrackerState<A, E, S> {
    if st.open.None? then st
    else
      var step := st.open.value;
      st.(open := None, openMetrics := map[], openSpans := [], summary := st.summary + st.openMetrics,
          alerts := env.prepareStep(st.alerts, step, observed, st.openMetrics).0,
          commits := st.commits + 1, next := Max(st.next, step + 1), last := Some(step),
          history := Merged(st.history, HistoryRecord(env, st, observed), env.limits, env.size))
  }

  /** Committing succeeds: the step cursor can advance, the record fits the history, the state its budgets. */
  ghost predicate Closes<A, E, S>(env: Env<A, E, S>, st: TrackerState<A, E, S>, observed: int) {
    st.open.Some? ==>
      && st.open.value + 1 <= MAX_STEP
      && env.size(Patched(st.history.entries, HistoryRecord(env, st, observed))) <= env.limits.bytes
      && env.fits(Closed(env, st, observed))
  }

  function EventRecord<A, E, S>(st: TrackerState<A, E, S>, observed: int, alerts: seq<E>): Record<E, S> {
    Record(Event, EventStep(st), observed, map[], st.summary, alerts, [], st.status, st.commits + 1)
  }

  /** A tick that raises alerts writes them as one event. */
  function TickRecords<A, E, S>(st: TrackerState<A, E, S>, observed: int, alerts: seq<E>): seq<Record<E, S>> {
    if alerts == [] then [] else [EventRecord(st, observed, alerts)]
  }

  function Ticked<A, E, S>(st: TrackerState<A, E, S>, engine: A, alerts: seq<E>): TrackerState<A, E, S> {
    st.(alerts := engine, commits := st.commits + if alerts == [] then 0 else 1)
  }

  function Bodies<A, E, S>(env: Env<A, E, S>, records: seq<Record<E, S>>): (bodies: seq<Body>)
    ensures |bodies| == |records|
  {
    if records == [] then [] else Bodies(env, records[..|records| - 1]) + [env.encode(records[|records| - 1])]
  }

  function Raised<E, S>(records: seq<Record<E, S>>): seq<E> {
    if records == [] then [] else Raised(records[..|records| - 1]) + records[|records| - 1].alerts
  }

  /** The batch after these records, with the commits they stand for. */
  ghost predicate Extended<A, E, S>(env: Env<A, E, S>, b: Batch<A, E, S>, r: Batch<A, E, S>,
                                    records: seq<Record<E, S>>) {
    r.events == b.events + Bodies(env, records) && r.alerts == b.alerts + Raised(records)
  }

  lemma RecordPush<A, E, S>(env: Env<A, E, S>, records: seq<Record<E, S>>, record: Record<E, S>)
    ensures Bodies(env, records + [record]) == Bodies(env, records) + [env.encode(record)]
    ensures Raised(records + [record]) == Raised(records) + record.alerts
  {
    assert (records + [record])[..|records|] == records;
  }

  lemma ExtendedOne<A, E, S>(env: Env<A, E, S>, b: Batch<A, E, S>, r: Batch<A, E, S>, record: Record<E, S>)
    requires r.events == b.events + [env.encode(record)] && r.alerts == b.alerts + record.alerts
    ensures Extended(env, b, r, [record])
  {
    RecordPush(env, [], record);
    assert [] + [record] == [record];
  }

  lemma ExtendedThen<A, E, S>(env: Env<A, E, S>, a: Batch<A, E, S>, b: Batch<A, E, S>, c: Batch<A, E, S>,
                              first: seq<Record<E, S>>, second: seq<Record<E, S>>)
    requires Extended(env, a, b, first) && Extended(env, b, c, second) && |second| <= 1
    ensures Extended(env, a, c, first + second)
  {
    if second == [] {
      assert first + second == first;
    } else {
      assert second == [] + [second[0]];
      RecordPush(env, [], second[0]);
      RecordPush(env, first, second[0]);
      assert Raised<E, S>([]) == [] && Bodies(env, []) == [];
      hide Bodies, Raised;
    }
  }

  /** Commit the open step, if any, on the copy: one observation, one history entry, new summary. */
  method PrepareCommit<A, E, S>(env: Env<A, E, S>, ghost st: TrackerState<A, E, S>, ghost commits: seq<Commit>,
                                b: Batch<A, E, S>, observed: int)
    returns (r: Option<Batch<A, E, S>>)
    requires ValidLimits(env.limits) && Prepared(env, st, commits, b)
    ensures b.next.open.None? ==> r == Some(b)
    ensures r.Some? ==> Prepared(env, st, commits, r.value)
    ensures r.Some? <==> Closes(env, b.next, observed)
    ensures r.Some? ==> r.value.next == Closed(env, b.next, observed)
    ensures r.Some? ==> r.value.commits == b.commits + OpenCommit(b.next)
    ensures r.Some? ==> Extended(env, b, r.value, OpenRecords(env, b.next, observed))
  {
    hide Agrees, Monotone, Overlay;
    if b.next.open.None? {
      return Some(b);
    }
    var cur := b.next;
    var step, metrics, spans := cur.open.value, cur.openMetrics, cur.openSpans;
    var (engine, alerts) := env.prepareStep(cur.alerts, step, observed, metrics);
    if step + 1 > MAX_STEP {
      return None;
    }
    var next := cur.(open := None, openMetrics := map[], openSpans := [], summary := cur.summary + metrics,
                     alerts := engine,
                     commits := cur.commits + 1, next := Max(cur.next, step + 1), last := Some(step));
    var record := CommittedStep(step, observed, metrics, next.summary, alerts, spans);
    var event := env.encode(Record(Observation, step, observed, metrics, next.summary, alerts, spans, next.status,
                                   next.commits));
    InvBounded(env, cur, commits + b.commits);
    var merged := Merge(cur.history, record, env.limits, env.size);
    if merged.None? {
      return None;
    }
    next := next.(history := merged.value);
    if !env.fits(next) {
      return None;
    }
    var c := Commit(step, metrics);
    CommitKeeps(env, cur, next, commits + b.commits, c, record, merged.value.evicted - cur.history.evicted);
    assert commits + b.commits + [c] == commits + (b.commits + [c]);
    r := Some(Batch(next, b.events + [event], b.alerts + alerts, b.commits + [c]));
    ExtendedOne(env, b, r.value, StepRecord(env, cur, observed));
  }

  lemma InvBounded<A, E, S>(env: Env<A, E, S>, st: TrackerState<A, E, S>, commits: seq<Commit>)
    requires Inv(env, st, commits)
    ensures st.history.bytes == Total(st.history.entries)
  {
  }

  lemma CommitKeeps<A, E, S>(env: Env<A, E, S>, st: TrackerState<A, E, S>, after: TrackerState<A, E, S>,
                             commits: seq<Commit>, c: Commit, record: CommittedStep<E, S>, k: int)
    requires Inv(env, st, commits) && st.open == Some(c.step) && Bounded(after.history, env.limits)
    requires record.step == c.step && record.metrics == c.metrics && record.summary == after.summary
    requires var all := WithRecord(st.history.entries, record, env.size);
             0 <= k < |all| && after.history.entries == all[k..] && after.history.evicted == st.history.evicted + k
    requires after.last == Some(c.step) && after.next == Max(st.next, c.step + 1) && after.open == None
    requires after.summary == st.summary + c.metrics
    ensures Inv(env, after, commits + [c])
  {
    hide Agrees, Monotone, Without, Find, Bounded;
    var merged := Patched(st.history.entries, record);
    var all := WithRecord(st.history.entries, record, env.size);
    assert after.history.entries[|after.history.entries| - 1] == all[|all| - 1];
    MergeAgrees(st, after, env.limits, commits, c);
    if env.policy == Monotonic {
      OpenStepMonotone(st, commits);
      MergeMonotone(st, after, env.limits, commits, c, record, env.size(merged), k);
    }
  }

  lemma OpenStepMonotone<A, E, S>(st: TrackerState<A, E, S>, commits: seq<Commit>)
    requires Monotone(st, commits) && st.open.Some?
    ensures st.open.value >= st.next || st.last == Some(st.open.value)
  {
  }

  /** Append a non-observation record (an alert, an artifact, the final status). */
  method PrepareEvent<A, E, S>(env: Env<A, E, S>, ghost st: TrackerState<A, E, S>, ghost commits: seq<Commit>,
                               b: Batch<A, E, S>, observed: int, alerts: seq<E>)
    returns (r: Batch<A, E, S>)
    requires Prepared(env, st, commits, b)
    ensures Prepared(env, st, commits, r)
    ensures r.next == b.next.(commits := b.next.commits + 1) && r.commits == b.commits
    ensures Extended(env, b, r, [EventRecord(b.next, observed, alerts)])
  {
    hide Overlay;
    var next := b.next.(commits := b.next.commits + 1);
    var event := env.encode(Record(Event, EventStep(b.next), observed, map[], next.summary, alerts, [], next.status,
                                   next.commits));
    r := b.(next := next, events := b.events + [event], alerts := b.alerts + alerts);
    ExtendedOne(env, b, r, EventRecord(b.next, observed, alerts));
  }

  /** Which steps are taken, and what is left behind, without the decision in between. */
  lemma DecisionMeans<A, E, S>(env: Env<A, E, S>, st: TrackerState<A, E, S>, target: int, metrics: Metrics, now: bool,
                               observed: int)
    ensures Decide(st, target, env.policy) != Reject <==>
              env.policy == Allow
              || if st.open.Some? then target >= st.open.value else target >= st.next || st.last == Some(target)
    ensures var made := LogCommits(env, st, target, metrics, now, observed);
            Decide(st, target, env.policy) != Reject ==>
              && (st.open.Some? && target != st.open.value ==>
                    |made| > 0 && made[0] == Commit(st.open.value, st.openMetrics))
              && (st.open.None? || target == st.open.value ==>
                    made == if now then [Commit(target, st.openMetrics + metrics)] else [])
  {
    hide Merged;
  }

  lemma LeavingMeans<A, E, S>(env: Env<A, E, S>, st: TrackerState<A, E, S>, target: int)
    ensures Decide(st, target, env.policy) != Reject ==>
              LeftCommits(env, st, target)
              == if st.open.Some? && target != st.open.value then [Commit(st.open.value, st.openMetrics)] else []
  {
  }

  lemma OpenKeeps<A, E, S>(env: Env<A, E, S>, st: TrackerState<A, E, S>, commits: seq<Commit>, target: int)
    requires Inv(env, st, commits) && (env.policy == Monotonic ==> target >= st.next || st.last == Some(target))
    ensures Inv(env, st.(open := Some(target)), commits)
  {
    hide Overlay, Increasing, Faithful, Bounded, StepsOf, Recent;
  }

  /** Decide what a target step means: keep it, commit the open step first, or refuse. */
  method SelectStep<A, E, S>(env: Env<A, E, S>, ghost st: TrackerState<A, E, S>, ghost commits: seq<Commit>,
                             b: Batch<A, E, S>, target: int, observed: int)
    returns (r: Option<Batch<A, E, S>>, rejected: bool)
    requires ValidLimits(env.limits) && Prepared(env, st, commits, b)
    ensures rejected <==> Decide(b.next, target, env.policy) == Reject
    ensures rejected ==> r == Some(b)
    ensures r.Some? ==> Prepared(env, st, commits, r.value)
    ensures r.Some? && !rejected ==> Prepared(env, st, commits, r.value.(next := r.value.next.(open := Some(target))))
    ensures r.Some? <==> Arrives(env, b.next, target, observed)
    ensures r.Some? ==> r.value.next == Arrived(env, b.next, target, observed)
    ensures r.Some? ==> r.value.commits == b.commits + LeftCommits(env, b.next, target)
    ensures r.Some? ==> Extended(env, b, r.value, LeftRecords(env, b.next, target, observed))
  {
    hide Overlay, Increasing, Faithful, Bounded, Newest, StepsOf;
    r, rejected := Some(b), false;
    match Decide(b.next, target, env.policy)
    case Keep =>
      OpenKeeps(env, b.next, commits + b.commits, target);
    case CommitOpen =>
      r := PrepareCommit(env, st, commits, b, observed);
      if r.Some? {
        OpenKeeps(env, r.value.next, commits + r.value.commits, target);
      }
    case Reject => rejected := true;
  }

  function OpenCommit<A, E, S>(st: TrackerState<A, E, S>): seq<Commit> {
    if st.open.Some? then [Commit(st.open.value, st.openMetrics)] else []
  }

  /** The state at the target step: an open step left behind is committed first. */
  ghost function Arrived<A, E, S>(env: Env<A, E, S>, st: TrackerState<A, E, S>, target: int,
                                  observed: int): TrackerState<A, E, S> {
    if Decide(st, target, env.policy) == CommitOpen then Closed(env, st, observed) else st
  }

  ghost predicate Arrives<A, E, S>(env: Env<A, E, S>, st: TrackerState<A, E, S>, target: int, observed: int) {
    Decide(st, target, env.policy) == CommitOpen ==> Closes(env, st, observed)
  }

  /** A span joins the target step. */
  function Spanned<A, E, S>(env: Env<A, E, S>, at: TrackerState<A, E, S>, target: int, span: S): TrackerState<A, E, S> {
    at.(open := Some(target), openMetrics := env.spanMetrics(at.openMetrics, span), openSpans := at.openSpans + [span])
  }

  function LeftRecords<A, E, S>(env: Env<A, E, S>, st: TrackerState<A, E, S>, target: int,
                                observed: int): seq<Record<E, S>> {
    if Decide(st, target, env.policy) == CommitOpen then OpenRecords(env, st, observed) else []
  }

  function LeftCommits<A, E, S>(env: Env<A, E, S>, st: TrackerState<A, E, S>, target: int): seq<Commit> {
    if Decide(st, target, env.policy) == CommitOpen then OpenCommit(st) else []
  }

  /** The target step with the new metrics in it, still open. */
  ghost function Staged<A, E, S>(env: Env<A, E, S>, st: TrackerState<A, E, S>, target: int, metrics: Metrics,
                                 observed: int): TrackerState<A, E, S> {
    var at := Arrived(env, st, target, observed);
    at.(open := Some(target), openMetrics := at.openMetrics + metrics)
  }

  /** The state after a log call. */
  ghost function Logged<A, E, S>(env: Env<A, E, S>, st: TrackerState<A, E, S>, target: int, metrics: Metrics, now: bool,
                                 observed: int): TrackerState<A, E, S> {
    var staged := Staged(env, st, target, metrics, observed);
    if now then Closed(env, staged, observed) else staged
  }

  /** What a log call writes: an open step left behind, then the target itself if asked to. */
  ghost function LogRecords<A, E, S>(env: Env<A, E, S>, st: TrackerState<A, E, S>, target: int, metrics: Metrics,
                                     now: bool, observed: int): seq<Record<E, S>> {
    LeftRecords(env, st, target, observed)
    + if now then OpenRecords(env, Staged(env, st, target, metrics, observed), observed) else []
  }

  ghost function LogCommits<A, E, S>(env: Env<A, E, S>, st: TrackerState<A, E, S>, target: int, metrics: Metrics,
                                     now: bool, observed: int): seq<Commit> {
    LeftCommits(env, st, target)
    + if now then OpenCommit(Staged(env, st, target, metrics, observed)) else []
  }

  /** Nothing stands in the way of preparing the call, a refused step included. */
  ghost predicate LogPrepares<A, E, S>(env: Env<A, E, S>, st: TrackerState<A, E, S>, target: int, metrics: Metrics,
                                       now: bool, observed: int) {
    && Arrives(env, st, target, observed)
    && (now && Decide(st, target, env.policy) != Reject ==>
        Closes(env, Staged(env, st, target, metrics, observed), observed))
  }

  function CommitsNow(commit: Option<bool>, step: Option<int>): bool {
    if commit.Some? then commit.value else step.None?
  }

  /** The closure of a log call, on the copy. */
  method PrepareLog<A, E, S>(env: Env<A, E, S>, ghost st: TrackerState<A, E, S>, ghost commits: seq<Commit>,
                             b: Batch<A, E, S>, target: int, metrics: Metrics, now: bool, observed: int)
    returns (r: Option<Batch<A, E, S>>, rejected: bool)
    requires ValidLimits(env.limits) && Prepared(env, st, commits, b)
    ensures rejected <==> Decide(b.next, target, env.policy) == Reject
    ensures rejected ==> r == Some(b)
    ensures r.Some? <==> LogPrepares(env, b.next, target, metrics, now, observed)
    ensures r.Some? ==> Prepared(env, st, commits, r.value)
    ensures r.Some? && !rejected ==>
              && r.value.next == Logged(env, b.next, target, metrics, now, observed)
              && r.value.commits == b.commits + LogCommits(env, b.next, target, metrics, now, observed)
              && Extended(env, b, r.value, LogRecords(env, b.next, target, metrics, now, observed))
  {
    hide Prepared, Decide, Extended, LeftRecords, LeftCommits, Arrived, Arrives, Closed, Closes;
    r, rejected := SelectStep(env, st, commits, b, target, observed);
    if r.None? || rejected {
      return;
    }
    var c := r.value;
    var staged := c.(next := c.next.(open := Some(target), openMetrics := c.next.openMetrics + metrics));
    OpenMetricsIrrelevant(env, st, commits, c, target, staged.next.openMetrics, staged.next.openSpans);
    r := Some(staged);
    if now {
      r := PrepareCommit(env, st, commits, staged, observed);
    }
    if r.Some? {
      LogExtends(env, b, c, staged, r.value, target, metrics, now, observed);
    }
  }

  lemma LogExtends<A, E, S>(env: Env<A, E, S>, b: Batch<A, E, S>, c: Batch<A, E, S>, staged: Batch<A, E, S>,
                            r: Batch<A, E, S>, target: int, metrics: Metrics, now: bool, observed: int)
    requires Extended(env, b, c, LeftRecords(env, b.next, target, observed))
    requires staged.events == c.events && staged.alerts == c.alerts
    requires staged.next == Staged(env, b.next, target, metrics, observed)
    requires if now then Extended(env, staged, r, OpenRecords(env, staged.next, observed)) else r == staged
    ensures Extended(env, b, r, LogRecords(env, b.next, target, metrics, now, observed))
  {
    hide Decide, LeftRecords, Staged;
    var late := if now then OpenRecords(env, Staged(env, b.next, target, metrics, observed), observed) else [];
    assert Extended(env, c, r, late);
    ExtendedThen(env, b, c, r, LeftRecords(env, b.next, target, observed), late);
  }

  /** A prepared state is installed when it is within its budgets and the producer takes its records. */
  ghost predicate Writable<A, E, S>(env: Env<A, E, S>, producer: ProducerLog.ProducerView, next: TrackerState<A, E, S>,
                                    events: seq<Body>) {
    env.fits(next) && (events == [] || Capturable(producer, events))
  }

  lemma FromNothing<A, E, S>(env: Env<A, E, S>, b: Batch<A, E, S>, r: Batch<A, E, S>, records: seq<Record<E, S>>)
    requires Extended(env, b, r, records) && b.events == [] && b.alerts == []
    ensures r.events == Bodies(env, records) && r.alerts == Raised(records)
  {
  }

  // ---------------------------------------------------------------- the tracker

  class Tracker<A, E, S> {
    const env: Env<A, E, S>
    const producer: SnapshotProducer

    var state: TrackerState<A, E, S>

    /** Alerts handed to the delivery queue, in commit order. */
    var queued: seq<E>

    /** Every observation committed so far. */
    ghost var commits: seq<Commit>

    /** With a producer of its own: commits and captured records stay in lockstep. */
    ghost predicate Valid()
      reads this, producer
    {
      && producer.Valid() && !producer.released
      && ValidLimits(env.limits) && Inv(env, state, commits)
      && state.commits == |producer.log| && (state.finished <==> producer.sealed)
    }

    constructor (env: Env<A, E, S>, producer: SnapshotProducer, alerts: A)
      requires ValidLimits(env.limits)
      requires producer.Valid() && producer.log == [] && !producer.sealed && !producer.released
      ensures Valid() && this.env == env && this.producer == producer && commits == [] && queued == []
    {
      this.env, this.producer := env, producer;
      state := TrackerState(Running, 0, None, map[], [], None, map[], History([], 0, 0), 0, alerts, false);
      commits, queued := [], [];
    }

    /** This call wrote exactly these records and raised exactly their alerts. */
    twostate predicate Wrote(new records: seq<Record<E, S>>)
      reads this, producer
    {
      producer.log == old(producer.log) + Bodies(env, records) && queued == old(queued) + Raised(records)
    }

    /** Capture the prepared records, then install the prepared state: all of it or nothing. */
    method Install(b: Batch<A, E, S>, step: Option<int>) returns (r: Result<LogResult, TrackerError>)
      requires Valid() && !state.finished && Prepared(env, state, commits, b)
      modifies this, producer
      ensures Valid()
      ensures r.Err? ==> unchanged(this) && unchanged(producer)
      ensures r.Ok? ==> state == b.next && commits == old(commits) + b.commits
      ensures r.Ok? ==> producer.log == old(producer.log) + b.events && queued == old(queued) + b.alerts
      ensures r.Ok? ==> r.value == LogResult(true, step, |b.events|)
      ensures b == old(Copy()) ==> unchanged(this) && unchanged(producer)
      ensures r.Ok? <==> Writable(env, old(producer.View()), b.next, b.events)
      ensures !env.fits(b.next) ==> r == Err(Refused)
    {
      hide Inv, SnapshotProducer.Mirrors, Capturable;
      if !env.fits(b.next) {
        return Err(Refused);
      }
      if b.events != [] {
        var captured := producer.CaptureBatch(b.events);
        if captured.Err? {
          return Err(CaptureFailed(captured.error));
        }
      }
      assert b == Copy() ==> commits + b.commits == commits && queued + b.alerts == queued;
      state := b.next;
      commits := commits + b.commits;
      if state.finished {
        var _ := producer.Seal();
      }
      queued := queued + b.alerts;
      return Ok(LogResult(true, step, |b.events|));
    }

    function Copy(): Batch<A, E, S>
      reads this`state
    {
      Batch(state, [], [], [])
    }

    lemma CopyPrepared()
      requires Valid()
      ensures Prepared(env, state, commits, Copy())
    {
      assert commits + [] == commits;
    }

    /** Add metrics to a step, committing an older open step first and this one if asked to. */
    method Log(metrics: Metrics, step: Option<int>, commit: Option<bool>, observed: int)
      returns (r: Result<LogResult, TrackerError>)
      requires Valid()
      modifies this, producer
      ensures Valid()
      ensures r.Err? || !r.value.accepted ==> unchanged(this) && unchanged(producer)
      ensures r.Ok? ==> (r.value.accepted <==> Decide(old(state), ResolveStep(old(state), step), env.policy) != Reject)
      ensures var target, now := ResolveStep(old(state), step), CommitsNow(commit, step);
              r.Ok? <==>
                && ValidStep(step) && ValidNames(metrics) && !old(state.finished)
                && LogPrepares(env, old(state), target, metrics, now, observed)
                && if Decide(old(state), target, env.policy) == Reject then env.fits(old(state))
                   else Writable(env, old(producer.View()), Logged(env, old(state), target, metrics, now, observed),
                                 Bodies(env, LogRecords(env, old(state), target, metrics, now, observed)))
      ensures r.Ok? ==>
                var target := if step.Some? then step.value
                              else if old(state.open).Some? then old(state.open).value else old(state.next);
                && r.value.step == Some(target)
                && (r.value.accepted <==>
                      env.policy == Allow
                      || if old(state.open).Some? then target >= old(state.open).value
                         else target >= old(state.next) || old(state.last) == Some(target))
                && (r.value.accepted && old(state.open).Some? && target != old(state.open).value ==>
                      |commits| > |old(commits)|
                      && commits[|old(commits)|] == Commit(old(state.open).value, old(state.openMetrics)))
                && (r.value.accepted && (old(state.open).None? || target == old(state.open).value) ==>
                      commits == old(commits)
                              + if commit == Some(true) || (commit == None && step == None)
                                then [Commit(target, old(state.openMetrics) + metrics)] else [])
      ensures r.Ok? && r.value.accepted ==>
                var target, now := ResolveStep(old(state), step), CommitsNow(commit, step);
                && Wrote(LogRecords(env, old(state), target, metrics, now, observed))
                && r.value == LogResult(true, Some(target),
                                        |LogRecords(env, old(state), target, metrics, now, observed)|)
                && commits == old(commits) + LogCommits(env, old(state), target, metrics, now, observed)
                && state == Logged(env, old(state), target, metrics, now, observed)
    {
      hide Prepared, Inv, SnapshotProducer.Mirrors, Decide, LogCommits, LogRecords, LogPrepares, Logged, Bodies, Raised,
           ValidNames, Capturable;
      if !ValidStep(step) || !ValidNames(metrics) {
        return Err(Refused);
      }
      if state.finished {
        return Err(AlreadyFinished);
      }
      CopyPrepared();
      var target := ResolveStep(state, step);
      DecisionMeans(env, state, target, metrics, CommitsNow(commit, step), observed);
      var prepared, rejected := PrepareLog(env, state, commits, Copy(), target, metrics, CommitsNow(commit, step),
                                           observed);
      if prepared.None? {
        return Err(Refused);
      }
      if !rejected {
        FromNothing(env, Copy(), prepared.value,
                    LogRecords(env, state, target, metrics, CommitsNow(commit, step), observed));
      }
      r := Install(prepared.value, Some(target));
      if rejected && r.Ok? {
        r := Ok(LogResult(false, Some(target), 0));
      }
    }

    /** A timing span adds to the target step without committing it. */
    method RecordSpan(span: S, valid: bool, end: int, step: Option<int>) returns (r: Result<LogResult, TrackerError>)
      requires Valid()
      modifies this, producer
      ensures Valid()
      ensures r.Err? || !r.value.accepted ==> unchanged(this) && unchanged(producer)
      ensures r.Ok? ==> (r.value.accepted <==> Decide(old(state), ResolveStep(old(state), step), env.policy) != Reject)
      ensures var target := ResolveStep(old(state), step);
              r.Ok? <==>
                && valid && ValidStep(step) && !old(state.finished) && Arrives(env, old(state), target, end)
                && if Decide(old(state), target, env.policy) == Reject then env.fits(old(state))
                   else Writable(env, old(producer.View()),
                                 Spanned(env, Arrived(env, old(state), target, end), target, span),
                                 Bodies(env, LeftRecords(env, old(state), target, end)))
      ensures r.Ok? ==>
                var target := if step.Some? then step.value
                              else if old(state.open).Some? then old(state.open).value else old(state.next);
                && r.value.step == Some(target)
                && (r.value.accepted <==>
                      env.policy == Allow
                      || if old(state.open).Some? then target >= old(state.open).value
                         else target >= old(state.next) || old(state.last) == Some(target))
                && (r.value.accepted ==>
                      commits == old(commits)
                              + if old(state.open).Some? && target != old(state.open).value
                                then [Commit(old(state.open).value, old(state.openMetrics))] else [])
      ensures r.Ok? && r.value.accepted ==>
                var target := ResolveStep(old(state), step);
                var at := Arrived(env, old(state), target, end);
                && Wrote(LeftRecords(env, old(state), target, end))
                && r.value == LogResult(true, Some(target), |LeftRecords(env, old(state), target, end)|)
                && commits == old(commits) + LeftCommits(env, old(state), target)
                && state == Spanned(env, at, target, span)
    {
      hide Prepared, Inv, SnapshotProducer.Mirrors, Decide, LeftRecords, LeftCommits, Bodies, Raised, Arrived, Arrives,
           Capturable;
      if !valid || !ValidStep(step) {
        return Err(Refused);
      }
      if state.finished {
        return Err(AlreadyFinished);
      }
      var target := ResolveStep(state, step);
      DecisionMeans(env, state, target, map[], false, end);
      LeavingMeans(env, state, target);
      CopyPrepared();
      var selected, rejected := SelectStep(env, state, commits, Copy(), target, end);
      if selected.None? {
        return Err(Refused);
      }
      var b := selected.value;
      if rejected {
        r := Install(b, Some(target));
        return if r.Ok? then Ok(LogResult(false, Some(target), 0)) else r;
      }
      b := b.(next := Spanned(env, b.next, target, span));
      OpenMetricsIrrelevant(env, state, commits, selected.value, target, b.next.openMetrics, b.next.openSpans);
      ArrivedActive(env, state, target, end);
      FromNothing(env, Copy(), b, LeftRecords(env, state, target, end));
      r := Install(b, Some(target));
    }

    /** Commit the open step, if there is one. */
    method Flush(observed: int) returns (r: Result<LogResult, TrackerError>)
      requires Valid()
      modifies this, producer
      ensures Valid()
      ensures r.Err? ==> unchanged(this) && unchanged(producer)
      ensures r.Ok? ==> Wrote(OpenRecords(env, old(state), observed)) && commits == old(commits + OpenCommit(state))
      ensures r.Ok? ==> state == Closed(env, old(state), observed)
      ensures r.Ok? <==> !old(state.finished) && Closes(env, old(state), observed)
                         && Writable(env, old(producer.View()), Closed(env, old(state), observed),
                                     Bodies(env, OpenRecords(env, old(state), observed)))
    {
      hide Prepared, Inv, SnapshotProducer.Mirrors, Bodies, Raised, OpenRecords, Closed, Closes, Capturable;
      ClosedActive(env, state, observed);
      if state.finished {
        return Err(AlreadyFinished);
      }
      CopyPrepared();
      var committed := PrepareCommit(env, state, commits, Copy(), observed);
      if committed.None? {
        return Err(Refused);
      }
      FromNothing(env, Copy(), committed.value, OpenRecords(env, state, observed));
      r := Install(committed.value, committed.value.next.last);
    }

    /** Evaluate time-based alerts; only raised alerts are recorded. */
    method TickAlerts(observed: int) returns (r: Result<LogResult, TrackerError>)
      requires Valid()
      modifies this, producer
      ensures Valid()
      ensures r.Err? ==> unchanged(this) && unchanged(producer)
      ensures r.Ok? ==>
                var (engine, alerts) := env.prepareTick(old(state.alerts), EventStep(old(state)), observed);
                && Wrote(TickRecords(old(state), observed, alerts))
                && commits == old(commits)
                && state == Ticked(old(state), engine, alerts)
      ensures var (engine, alerts) := env.prepareTick(old(state.alerts), EventStep(old(state)), observed);
              r.Ok? <==> !old(state.finished)
                         && Writable(env, old(producer.View()), Ticked(old(state), engine, alerts),
                                     Bodies(env, TickRecords(old(state), observed, alerts)))
    {
      hide Inv, SnapshotProducer.Mirrors, Capturable;
      if state.finished {
        return Err(AlreadyFinished);
      }
      CopyPrepared();
      var (engine, alerts) := env.prepareTick(state.alerts, EventStep(state), observed);
      var b := Copy().(next := state.(alerts := engine));
      AlertsIrrelevant(env, state, commits + [], engine);
      if alerts != [] {
        ghost var copy := b;
        b := PrepareEvent(env, state, commits, b, observed, alerts);
        FromNothing(env, copy, b, TickRecords(state, observed, alerts));
      }
      assert commits + b.commits == commits;
      r := Install(b, Some(EventStep(state)));
    }

    /** Commit what is open, record the final status, and seal the producer. */
    method Finish(observed: int, failed: bool) returns (r: Result<LogResult, TrackerError>)
      requires Valid()
      modifies this, producer
      ensures Valid()
      ensures r.Err? ==> unchanged(this) && unchanged(producer)
      ensures r.Ok? ==> state.finished && producer.sealed
      ensures r.Ok? && !old(state.finished) ==> state.status == if failed then Failed else Status.Finished
      ensures old(state.finished) ==> r.Ok? && unchanged(this) && unchanged(producer)
      ensures r.Ok? && !old(state.finished) ==>
                && Wrote(FinishRecords(env, old(state), observed, failed))
                && commits == old(commits + OpenCommit(state))
                && state == Final(env, old(state), observed, failed)
      ensures r.Ok? <==> old(state.finished)
                         || (Closes(env, old(state), observed)
                             && Writable(env, old(producer.View()), Final(env, old(state), observed, failed),
                                         Bodies(env, FinishRecords(env, old(state), observed, failed))))
    {
      hide Prepared, Inv, SnapshotProducer.Mirrors, Extended, FinishRecords, Bodies, Raised, Closed, Closes, Capturable;
      if state.finished {
        return Ok(LogResult(true, state.last, 0));
      }
      CopyPrepared();
      var committed := PrepareCommit(env, state, commits, Copy(), observed);
      if committed.None? {
        return Err(Refused);
      }
      var b := committed.value;
      StatusIrrelevant(env, state, commits, b, if failed then Failed else Status.Finished, false);
      b := b.(next := b.next.(status := if failed then Failed else Status.Finished));
      b := PrepareEvent(env, state, commits, b, observed, []);
      FinishExtends(env, Copy(), committed.value, b, observed, failed);
      FromNothing(env, Copy(), b, FinishRecords(env, state, observed, failed));
      StatusIrrelevant(env, state, commits, b, b.next.status, true);
      b := b.(next := b.next.(finished := true));
      r := Install(b, b.next.last);
    }
  }

  /** The state the final event describes. */
  ghost function Ended<A, E, S>(env: Env<A, E, S>, st: TrackerState<A, E, S>, observed: int,
                                failed: bool): TrackerState<A, E, S> {
    Closed(env, st, observed).(status := if failed then Failed else Status.Finished)
  }

  /** The state after the final event. */
  ghost function Final<A, E, S>(env: Env<A, E, S>, st: TrackerState<A, E, S>, observed: int,
                                failed: bool): TrackerState<A, E, S> {
    var ended := Ended(env, st, observed, failed);
    ended.(commits := ended.commits + 1, finished := true)
  }

  ghost function FinishRecords<A, E, S>(env: Env<A, E, S>, st: TrackerState<A, E, S>, observed: int,
                                        failed: bool): seq<Record<E, S>> {
    OpenRecords(env, st, observed) + [EventRecord(Ended(env, st, observed, failed), observed, [])]
  }

  lemma FinishExtends<A, E, S>(env: Env<A, E, S>, a: Batch<A, E, S>, b: Batch<A, E, S>, c: Batch<A, E, S>,
                               observed: int, failed: bool)
    requires Extended(env, a, b, OpenRecords(env, a.next, observed))
    requires b.next == Closed(env, a.next, observed)
    requires var ending := b.next.(status := if failed then Failed else Status.Finished);
             Extended(env, b.(next := ending), c, [EventRecord(ending, observed, [])])
    ensures Extended(env, a, c, FinishRecords(env, a.next, observed, failed))
  {
    hide Closed, OpenRecords;
    ExtendedThen(env, a, b, c, OpenRecords(env, a.next, observed),
                 [EventRecord(Ended(env, a.next, observed, failed), observed, [])]);
  }

  lemma ClosedActive<A, E, S>(env: Env<A, E, S>, st: TrackerState<A, E, S>, observed: int)
    ensures Closed(env, st, observed).finished == st.finished
  {
  }

  lemma ArrivedActive<A, E, S>(env: Env<A, E, S>, st: TrackerState<A, E, S>, target: int, observed: int)
    ensures Arrived(env, st, target, observed).finished == st.finished
  {
  }

  lemma OpenMetricsIrrelevant<A, E, S>(env: Env<A, E, S>, st: TrackerState<A, E, S>, commits: seq<Commit>,
                                       b: Batch<A, E, S>, target: int, metrics: Metrics, spans: seq<S>)
    requires Prepared(env, st, commits, b.(next := b.next.(open := Some(target))))
    ensures Prepared(env, st, commits,
                     b.(next := b.next.(open := Some(target), openMetrics := metrics, openSpans := spans)))
  {
    hide Overlay, Increasing, Faithful, Bounded, StepsOf, Recent;
  }

  lemma AlertsIrrelevant<A, E, S>(env: Env<A, E, S>, st: TrackerState<A, E, S>, commits: seq<Commit>, engine: A)
    requires Inv(env, st, commits)
    ensures Inv(env, st.(alerts := engine), commits)
  {
    hide Overlay, Increasing, Faithful, Bounded, StepsOf, Recent;
  }

  lemma StatusIrrelevant<A, E, S>(env: Env<A, E, S>, st: TrackerState<A, E, S>, commits: seq<Commit>, b: Batch<A, E, S>,
                                  status: Status, finished: bool)
    requires Prepared(env, st, commits, b)
    ensures Prepared(env, st, commits, b.(next := b.next.(status := status)))
    ensures Prepared(env, st, commits, b.(next := b.next.(finished := finished)))
  {
    hide Overlay, Increasing, Faithful, Bounded, StepsOf, Recent;
  }
}
