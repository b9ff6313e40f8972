/**
  What any sequence of tracker calls amounts to. `After` is the effect the tracker's methods promise;
  the law speaks only of what was logged, what was written and what is still open.
 */
module TrackerRuns {
  import opened Common
  import opened Protocol
  import opened TrackerHistory
  import opened Tracker

  datatype Call<S> =
    | DoLog(metrics: Metrics, requested: Option<int>, commit: Option<bool>, observed: int)
    | DoSpan(span: S, requested: Option<int>, end: int)
    | DoFlush(observed: int)
    | DoTick(observed: int)
    | DoFinish(observed: int, failed: bool)

  /** Beside the state: records written, commits, and per accepted call the metrics and spans handed in. */
  datatype Tally<A, E, S> = Tally(state: TrackerState<A, E, S>, written: seq<Record<E, S>>, commits: seq<Commit>,
                                  given: seq<Commit>, spans: seq<S>)

  function Start<A, E, S>(alerts: A): Tally<A, E, S> {
    Tally(TrackerState(Running, 0, None, map[], [], None, map[], History([], 0, 0), 0, alerts, false), [], [], [], [])
  }

  /** The step a call is about: the requested one, else the open one, else the next. */
  function Target<A, E, S>(st: TrackerState<A, E, S>, requested: Option<int>): int {
    match requested
    case Some(step) => step
    case None => if st.open.Some? then st.open.value else st.next
  }

  /** Monotonic trackers take no step below the open one, nor, without one, a new step below the next. */
  predicate Accepts<A, E, S>(st: TrackerState<A, E, S>, target: int, policy: StepPolicy) {
    policy == Allow
    || if st.open.Some? then target >= st.open.value else target >= st.next || st.last == Some(target)
  }

  /** A metrics call commits when told to, and by default when it names no step. */
  predicate Commits(commit: Option<bool>, requested: Option<int>) {
    commit == Some(true) || (commit == None && requested == None)
  }

  /** These are the tracker's own choices. */
  lemma SameChoices<A, E, S>(st: TrackerState<A, E, S>, requested: Option<int>, commit: Option<bool>, target: int,
                             policy: StepPolicy)
    ensures Target(st, requested) == ResolveStep(st, requested)
    ensures Accepts(st, target, policy) <==> Decide(st, target, policy) != Reject
    ensures Commits(commit, requested) <==> CommitsNow(commit, requested)
  {
  }

  ghost function After<A, E, S>(env: Env<A, E, S>, t: Tally<A, E, S>, call: Call<S>): Tally<A, E, S> {
    var st := t.state;
    if st.finished then t
    else
      match call
      case DoLog(metrics, requested, commit, observed) =>
        var target, now := Target(st, requested), Commits(commit, requested);
        if !Accepts(st, target, env.policy) then t
        else Tally(Logged(env, st, target, metrics, now, observed),
                   t.written + LogRecords(env, st, target, metrics, now, observed),
                   t.commits + LogCommits(env, st, target, metrics, now, observed),
                   t.given + [Commit(target, metrics)], t.spans)
      case DoSpan(span, requested, end) =>
        var target := Target(st, requested);
        if !Accepts(st, target, env.policy) then t
        else
          var at := Arrived(env, st, target, end);
          Tally(Spanned(env, at, target, span), t.written + LeftRecords(env, st, target, end),
                t.commits + LeftCommits(env, st, target),
                t.given + [Commit(target, env.spanMetrics(at.openMetrics, span))], t.spans + [span])
      case DoFlush(observed) =>
        t.(state := Closed(env, st, observed), written := t.written + OpenRecords(env, st, observed),
           commits := t.commits + OpenCommit(st))
      case DoTick(observed) =>
        var (engine, alerts) := env.prepareTick(st.alerts, EventStep(st), observed);
        t.(state := Ticked(st, engine, alerts), written := t.written + TickRecords(st, observed, alerts))
      case DoFinish(observed, failed) =>
        t.(state := Final(env, st, observed, failed), written := t.written + FinishRecords(env, st, observed, failed),
           commits := t.commits + OpenCommit(st))
  }

  ghost function AfterAll<A, E, S>(env: Env<A, E, S>, t: Tally<A, E, S>, calls: seq<Call<S>>): Tally<A, E, S> {
    if calls == [] then t else After(env, AfterAll(env, t, calls[..|calls| - 1]), calls[|calls| - 1])
  }

  // ---------------------------------------------------------------- the law

  /** The commits a journal of records stands for. */
  function CommitsOf<E, S>(written: seq<Record<E, S>>): seq<Commit> {
    if written == [] then []
    else
      var last := written[|written| - 1];
      CommitsOf(written[..|written| - 1]) + if last.kind.Observation? then [Commit(last.step, last.metrics)] else []
  }

  function SpansOf<E, S>(written: seq<Record<E, S>>): seq<S> {
    if written == [] then [] else SpansOf(written[..|written| - 1]) + written[|written| - 1].spans
  }

  /** Record `i` is numbered i + 1 and carries the summary of everything committed up to it; events carry no data. */
  ghost predicate Entered<E, S>(written: seq<Record<E, S>>, i: nat)
    requires i < |written|
  {
    && written[i].commit == i + 1
    && written[i].summary == Overlay(CommitsOf(written[..i + 1]))
    && (written[i].kind.Observation? || written[i].kind.Event?)
    && (written[i].kind.Event? ==> written[i].metrics == map[] && written[i].spans == [])
  }

  /** The metrics of the step while it is open. */
  function OpenAt<A, E, S>(st: TrackerState<A, E, S>, step: int): Metrics {
    if st.open == Some(step) then st.openMetrics else map[]
  }

  ghost predicate Law<A, E, S>(t: Tally<A, E, S>) {
    && (forall step :: StepOverlay(t.given, step) == StepOverlay(t.commits, step) + OpenAt(t.state, step))
    && t.state.summary == Overlay(t.commits)
    && (t.state.open.None? ==> t.state.openMetrics == map[] && t.state.openSpans == [])
    && CommitsOf(t.written) == t.commits && t.state.commits == |t.written|
    && (forall i :: 0 <= i < |t.written| ==> Entered(t.written, i))
    && SpansOf(t.written) + t.state.openSpans == t.spans
  }

  /** A span's timing only adds entries to the open metrics or replaces them. */
  ghost predicate SpansAccumulate<A, E, S(!new)>(env: Env<A, E, S>) {
    forall metrics: Metrics, span: S :: metrics.Keys <= env.spanMetrics(metrics, span).Keys
  }

  // ---------------------------------------------------------------- one record more

  ghost predicate Journal<E, S>(written: seq<Record<E, S>>, commits: seq<Commit>) {
    CommitsOf(written) == commits && forall i :: 0 <= i < |written| ==> Entered(written, i)
  }

  lemma JournalPush<E, S>(written: seq<Record<E, S>>, commits: seq<Commit>, r: Record<E, S>)
    requires Journal(written, commits) && r.commit == |written| + 1
    requires || (r.kind.Observation? && r.summary == Overlay(commits + [Commit(r.step, r.metrics)]))
             || (r.kind.Event? && r.summary == Overlay(commits) && r.metrics == map[] && r.spans == [])
    ensures Journal(written + [r], commits + if r.kind.Observation? then [Commit(r.step, r.metrics)] else [])
    ensures SpansOf(written + [r]) == SpansOf(written) + r.spans
  {
    hide Overlay;
    var all := written + [r];
    assert all[..|written|] == written && all[..|all|] == all;
    forall i | 0 <= i < |all| ensures Entered(all, i) {
      if i < |written| {
        assert Entered(written, i) && all[..i + 1] == written[..i + 1];
      } else {
        assert all[..i + 1] == all && commits + [] == commits;
      }
    }
  }

  lemma ClosedLaw<A, E, S>(env: Env<A, E, S>, t: Tally<A, E, S>, observed: int)
    requires Law(t)
    ensures Law(t.(state := Closed(env, t.state, observed), written := t.written + OpenRecords(env, t.state, observed),
                   commits := t.commits + OpenCommit(t.state)))
  {
    hide Overlay, StepOverlay, StepsOf, Merged, SpansOf, CommitsOf, Entered;
    var st := t.state;
    if st.open.None? {
      assert t.written + [] == t.written && t.commits + [] == t.commits;
    } else {
      var c, r := Commit(st.open.value, st.openMetrics), StepRecord(env, st, observed);
      CommitAppend(t.commits, c);
      JournalPush(t.written, t.commits, r);
    }
  }

  lemma GivenAppend(given: seq<Commit>, c: Commit)
    ensures forall s :: StepOverlay(given + [c], s)
                     == if s == c.step then StepOverlay(given, s) + c.metrics else StepOverlay(given, s)
  {
    CommitAppend(given, c);
  }

  /** Metrics join a step that is open already or opened now. */
  lemma StagedLaw<A, E, S>(t: Tally<A, E, S>, target: int, metrics: Metrics)
    requires Law(t) && (t.state.open.None? || t.state.open == Some(target))
    ensures Law(t.(state := t.state.(open := Some(target), openMetrics := t.state.openMetrics + metrics),
                   given := t.given + [Commit(target, metrics)]))
  {
    hide Overlay, StepOverlay, SpansOf, CommitsOf, Entered;
    GivenAppend(t.given, Commit(target, metrics));
  }

  lemma SpannedLaw<A, E, S(!new)>(env: Env<A, E, S>, t: Tally<A, E, S>, target: int, span: S)
    requires Law(t) && (t.state.open.None? || t.state.open == Some(target)) && SpansAccumulate(env)
    ensures Law(t.(state := Spanned(env, t.state, target, span),
                   given := t.given + [Commit(target, env.spanMetrics(t.state.openMetrics, span))],
                   spans := t.spans + [span]))
  {
    hide Overlay, StepOverlay, SpansOf, CommitsOf, Entered;
    var m := env.spanMetrics(t.state.openMetrics, span);
    GivenAppend(t.given, Commit(target, m));
    assert t.state.openMetrics.Keys <= m.Keys;
    assert t.state.openMetrics + m == m;
  }

  /** Leaving an open step for another commits it; otherwise the target is open or nothing is. */
  lemma ArrivedLaw<A, E, S>(env: Env<A, E, S>, t: Tally<A, E, S>, target: int, observed: int)
    requires Law(t) && Accepts(t.state, target, env.policy)
    ensures var at := Arrived(env, t.state, target, observed);
            && Law(t.(state := at, written := t.written + LeftRecords(env, t.state, target, observed),
                      commits := t.commits + LeftCommits(env, t.state, target)))
            && (at.open.None? || at.open == Some(target))
  {
    hide Law;
    if Decide(t.state, target, env.policy) == CommitOpen {
      ClosedLaw(env, t, observed);
    } else {
      assert t.written + [] == t.written && t.commits + [] == t.commits;
    }
  }

  lemma EventLaw<A, E, S>(t: Tally<A, E, S>, next: TrackerState<A, E, S>, r: Record<E, S>)
    requires Law(t) && r.kind.Event? && r.commit == t.state.commits + 1 && r.summary == t.state.summary
    requires r.metrics == map[] && r.spans == [] && next.commits == t.state.commits + 1
    requires next.open == t.state.open && next.openMetrics == t.state.openMetrics
    requires next.openSpans == t.state.openSpans && next.summary == t.state.summary
    ensures Law(t.(state := next, written := t.written + [r]))
  {
    hide Overlay, StepOverlay, SpansOf, CommitsOf, Entered;
    JournalPush(t.written, t.commits, r);
    assert t.commits + [] == t.commits && SpansOf(t.written) + [] == SpansOf(t.written);
  }

  // ---------------------------------------------------------------- calls and runs

  lemma LogLaw<A, E, S>(env: Env<A, E, S>, t: Tally<A, E, S>, target: int, metrics: Metrics, now: bool, observed: int)
    requires Law(t) && Accepts(t.state, target, env.policy)
    ensures Law(Tally(Logged(env, t.state, target, metrics, now, observed),
                      t.written + LogRecords(env, t.state, target, metrics, now, observed),
                      t.commits + LogCommits(env, t.state, target, metrics, now, observed),
                      t.given + [Commit(target, metrics)], t.spans))
  {
    hide Law, Arrived, LeftRecords, LeftCommits, Closed, OpenRecords, OpenCommit, Accepts;
    ArrivedLaw(env, t, target, observed);
    var left, gone := LeftRecords(env, t.state, target, observed), LeftCommits(env, t.state, target);
    var arrived := t.(state := Arrived(env, t.state, target, observed), written := t.written + left,
                      commits := t.commits + gone);
    StagedLaw(arrived, target, metrics);
    var staged := arrived.(state := Staged(env, t.state, target, metrics, observed),
                           given := t.given + [Commit(target, metrics)]);
    if now {
      ClosedLaw(env, staged, observed);
      var late, last := OpenRecords(env, staged.state, observed), OpenCommit(staged.state);
      assert (t.written + left) + late == t.written + (left + late);
      assert (t.commits + gone) + last == t.commits + (gone + last);
    } else {
      assert left + [] == left && gone + [] == gone;
    }
  }

  lemma FinishLaw<A, E, S>(env: Env<A, E, S>, t: Tally<A, E, S>, observed: int, failed: bool)
    requires Law(t)
    ensures Law(t.(state := Final(env, t.state, observed, failed),
                   written := t.written + FinishRecords(env, t.state, observed, failed),
                   commits := t.commits + OpenCommit(t.state)))
  {
    hide Law, Closed, OpenRecords, OpenCommit;
    var ended := Ended(env, t.state, observed, failed);
    var open, event := OpenRecords(env, t.state, observed), EventRecord(ended, observed, []);
    ClosedLaw(env, t, observed);
    var closed := t.(state := Closed(env, t.state, observed), written := t.written + open,
                     commits := t.commits + OpenCommit(t.state));
    EventLaw(closed, Final(env, t.state, observed, failed), event);
    assert (t.written + open) + [event] == t.written + (open + [event]);
  }

  lemma TickLaw<A, E, S>(env: Env<A, E, S>, t: Tally<A, E, S>, engine: A, observed: int, alerts: seq<E>)
    requires Law(t)
    ensures Law(t.(state := Ticked(t.state, engine, alerts), written := t.written
                   + TickRecords(t.state, observed, alerts)))
  {
    if alerts == [] {
      hide Overlay, StepOverlay, SpansOf, CommitsOf, Entered;
      assert t.written + [] == t.written;
    } else {
      EventLaw(t, Ticked(t.state, engine, alerts), EventRecord(t.state, observed, alerts));
    }
  }

  lemma CallLaw<A, E, S(!new)>(env: Env<A, E, S>, t: Tally<A, E, S>, call: Call<S>)
    requires Law(t) && SpansAccumulate(env)
    ensures Law(After(env, t, call))
  {
    hide Law, Accepts, Arrived, LeftRecords, LeftCommits, Spanned, Logged, LogRecords, LogCommits, Closed, Final,
         FinishRecords, Ticked, TickRecords, SpansAccumulate;
    var st := t.state;
    if !st.finished {
      match call
      case DoLog(metrics, requested, commit, observed) =>
        if Accepts(st, Target(st, requested), env.policy) {
          LogLaw(env, t, Target(st, requested), metrics, Commits(commit, requested), observed);
        }
      case DoSpan(span, requested, end) =>
        var target := Target(st, requested);
        if Accepts(st, target, env.policy) {
          ArrivedLaw(env, t, target, end);
          SpannedLaw(env, t.(state := Arrived(env, st, target, end), written := t.written
                             + LeftRecords(env, st, target, end),
                             commits := t.commits + LeftCommits(env, st, target)), target, span);
        }
      case DoFlush(observed) => ClosedLaw(env, t, observed);
      case DoTick(observed) =>
        var (engine, alerts) := env.prepareTick(st.alerts, EventStep(st), observed);
        TickLaw(env, t, engine, observed, alerts);
      case DoFinish(observed, failed) => FinishLaw(env, t, observed, failed);
    }
  }

  /**
    Over any calls: for every step, what was logged is what was committed overlaid with what is still
    open; the summary overlays all commits; the records are a numbered journal of exactly the commits,
    each with the summary at its time; and every span is written once, in order, or still open.
   */
  lemma {:induction false} RunLaw<A, E, S(!new)>(env: Env<A, E, S>, alerts: A, calls: seq<Call<S>>)
    requires SpansAccumulate(env)
    ensures Law(AfterAll(env, Start(alerts), calls))
  {
    hide Law, After, SpansAccumulate;
    if calls == [] {
      StartLaw<A, E, S>(alerts);
    } else {
      RunLaw(env, alerts, calls[..|calls| - 1]);
      CallLaw(env, AfterAll(env, Start(alerts), calls[..|calls| - 1]), calls[|calls| - 1]);
    }
  }

  lemma StartLaw<A, E, S>(alerts: A)
    ensures Law<A, E, S>(Start(alerts))
  {
  }
}
