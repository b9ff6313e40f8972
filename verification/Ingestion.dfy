/** Grouped durable writes: one worker collects queued pages, commits them together, then replies. */
module Ingestion {
  import opened Common
  import opened Protocol
  import opened StoreTables
  import opened Store
  import Sources

  const MAX_BATCH_PAGES := 64
  const MAX_BATCH_RECORDS := 1024
  const MAX_BATCH_BYTES := MAX_PAGE_BYTES + 256 * 1024
  const QUEUED_BYTES := 2 * MAX_BATCH_BYTES

  datatype Pending = Pending(sub: Submission, bytes: nat)

  datatype ReplyError = PageError(error: IngestError) | GroupFailed

  // ---------------------------------------------------------------- durability of a page

  /** Every snapshot of the page is stored, for this source and run, exactly as sent. */
  predicate Durable(db: Tables, s: Submission) {
    StoredPage(db, s.source, s.page)
  }

  /** Later submissions neither move nor alter a stored snapshot. */
  lemma {:induction false} RunKeeps(db: Tables, subs: seq<Submission>)
    ensures KeepsRows(db, ApplyAll(db, subs))
  {
    hide Acceptable, Ingested;
    if subs == [] {
    } else {
      var before, last := ApplyAll(db, subs[..|subs| - 1]), subs[|subs| - 1];
      RunKeeps(db, subs[..|subs| - 1]);
      IngestedKeeps(before, last.source, last.page);
    }
  }

  lemma DurableKept(db: Tables, later: Tables, s: Submission)
    requires UniqueOk(db) && UniqueOk(later) && KeepsRows(db, later) && Durable(db, s)
    ensures Durable(later, s)
  {
    hide StoredAs, UniqueOk, KeepsRows;
    forall i | 0 <= i < |s.page.snapshots| ensures StoredAs(later, s.source, s.page.snapshots[i]) {
      StoredKept(db, later, s.source, s.page.snapshots[i]);
    }
  }

  /** Accepting a page makes all of it durable, repeated part included. */
  lemma AcceptedIsDurable(db: Tables, s: Submission)
    requires Valid(db) && Acceptable(db, s.source, s.descriptor, s.page)
    ensures Durable(Ingested(db, s.source, s.page), s)
  {
    AcceptedIsStored(db, s.source, s.descriptor, s.page);
  }

  /**
    Retrying a page that was committed, at any later time, is accepted again, stores nothing and
    changes nothing.
   */
  lemma RetryChangesNothing(db: Tables, s: Submission, between: seq<Submission>)
    requires Valid(db) && Acceptable(db, s.source, s.descriptor, s.page)
    ensures var later := ApplyAll(Ingested(db, s.source, s.page), between);
            && Acceptable(later, s.source, s.descriptor, s.page) && Ingested(later, s.source, s.page) == later
            && News(s.page, later.Cursor(StreamOf(s.source, s.page))) == []
  {
    var first := Ingested(db, s.source, s.page);
    var later := ApplyAll(first, between);
    IngestedValid(db, s.source, s.descriptor, s.page);
    RunValid(first, between);
    AcceptedIsDurable(db, s);
    RunKeeps(first, between);
    DurableKept(first, later, s);
    CursorReached(db, s);
    CursorsGrow(first, between, StreamOf(s.source, s.page));
    hide Valid, ApplyAll, Durable, Ingested;
    StoredAgain(later, s);
  }

  /** A page that is stored and lies below the cursor is accepted without effect. */
  lemma StoredAgain(db: Tables, s: Submission)
    requires Valid(db) && Identified(s.source, s.descriptor, s.page) && Durable(db, s)
    requires s.page.next <= db.Cursor(StreamOf(s.source, s.page))
    ensures Acceptable(db, s.source, s.descriptor, s.page) && Ingested(db, s.source, s.page) == db
    ensures News(s.page, db.Cursor(StreamOf(s.source, s.page))) == []
  {
    hide UniqueOk, Coverage, Repeats, StoredAs, AddRows, ValidPage;
    PageEnds(s.page);
    forall i | 0 <= i < |s.page.snapshots| ensures Repeats(db, s.source, s.page.snapshots[i]) {
      RepeatsIsStored(db, s.source, s.page.snapshots[i]);
    }
  }

  lemma ValidUnique(db: Tables)
    requires Valid(db)
    ensures UniqueOk(db)
  {
  }

  lemma PageEnds(page: Page)
    requires ValidPage(page)
    ensures page.snapshots != [] ==> page.snapshots[0].sequence + |page.snapshots| == page.next
  {
  }

  lemma CursorReached(db: Tables, s: Submission)
    requires Acceptable(db, s.source, s.descriptor, s.page)
    ensures s.page.next <= Ingested(db, s.source, s.page).Cursor(StreamOf(s.source, s.page))
  {
    hide ValidPage, AddRows;
  }

  lemma {:induction false} CursorsGrow(db: Tables, subs: seq<Submission>, stream: Stream)
    ensures db.Cursor(stream) <= ApplyAll(db, subs).Cursor(stream)
  {
    hide Acceptable, AddRows;
    if subs == [] {
    } else {
      var before, last := ApplyAll(db, subs[..|subs| - 1]), subs[|subs| - 1];
      CursorsGrow(db, subs[..|subs| - 1], stream);
      AddRowsPlaces(before, last.source, News(last.page, before.Cursor(StreamOf(last.source, last.page))));
    }
  }

  // ---------------------------------------------------------------- grouping

  function Records(batch: seq<Pending>): nat {
    if batch == [] then 0 else Records(batch[..|batch| - 1]) + |batch[|batch| - 1].sub.page.snapshots|
  }

  function Weight(batch: seq<Pending>): nat {
    if batch == [] then 0 else Weight(batch[..|batch| - 1]) + batch[|batch| - 1].bytes
  }

  /** What `commit` lets into the queue. */
  predicate Queueable(p: Pending) {
    p.bytes <= MAX_BATCH_BYTES
  }

  predicate AllQueueable(pages: seq<Pending>) {
    forall i :: 0 <= i < |pages| ==> Queueable(pages[i])
  }

  /** A page that is let in holds its bytes of the queue budget until it is answered. */
  datatype Admission = Refused | Waits | Queued(held: seq<Pending>)

  /**
    Offer a page and its descriptor, together `bytes` long, while `held` pages are unanswered. Too
    large a page is refused; any other waits for budget, and never when nothing is held.
   */
  method Submit(held: seq<Pending>, sub: Submission, bytes: nat) returns (a: Admission)
    requires AllQueueable(held) && Weight(held) <= QUEUED_BYTES
    ensures a.Refused? <==> bytes > MAX_BATCH_BYTES
    ensures a.Waits? <==> bytes <= MAX_BATCH_BYTES && Weight(held) + bytes > QUEUED_BYTES
    ensures a.Waits? ==> held != []
    ensures a.Queued? ==>
            a.held == held + [Pending(sub, bytes)] && AllQueueable(a.held) && Weight(a.held) <= QUEUED_BYTES
  {
    if bytes > MAX_BATCH_BYTES {
      return Refused;
    }
    var permits := QUEUED_BYTES - Weight(held);
    GroupGrows(held, Pending(sub, bytes));
    if bytes > permits {
      return Waits;
    }
    return Queued(held + [Pending(sub, bytes)]);
  }

  /** A group never outgrows its budgets; only its first page may hold more records than a group. */
  predicate WithinGroup(batch: seq<Pending>) {
    && 1 <= |batch| <= MAX_BATCH_PAGES && Weight(batch) <= MAX_BATCH_BYTES
    && (|batch| > 1 ==> Records(batch) <= MAX_BATCH_RECORDS)
  }

  function Waiting(deferred: Option<Pending>, queue: seq<Pending>): seq<Pending> {
    if deferred.Some? then [deferred.value] + queue else queue
  }

  lemma GroupGrows(batch: seq<Pending>, next: Pending)
    ensures Weight(batch + [next]) == Weight(batch) + next.bytes
    ensures Records(batch + [next]) == Records(batch) + |next.sub.page.snapshots|
    ensures batch == [] ==> [] + [next] == [next] && Weight(batch) == Records(batch) == 0
  {
    assert (batch + [next])[..|batch|] == batch;
  }

  lemma Shift(batch: seq<Pending>, rest: seq<Pending>)
    requires rest != []
    ensures batch + [rest[0]] + rest[1..] == batch + rest == batch + ([rest[0]] + rest[1..])
  {
    assert rest == [rest[0]] + rest[1..];
  }

  /** Take what is ready after the first page; the page that does not fit opens the next group. */
  method Collect(first: Pending, queue: seq<Pending>)
    returns (batch: seq<Pending>, deferred: Option<Pending>, rest: seq<Pending>)
    requires Queueable(first)
    ensures batch + Waiting(deferred, rest) == [first] + queue
    ensures WithinGroup(batch)
    ensures deferred.Some? ==>
              Weight(batch) + deferred.value.bytes > MAX_BATCH_BYTES
              || Records(batch) + |deferred.value.sub.page.snapshots| > MAX_BATCH_RECORDS
  {
    hide Weight, Records;
    var bytes, records := first.bytes, |first.sub.page.snapshots|;
    batch, deferred, rest := [first], None, queue;
    GroupGrows([], first);
    while |batch| < MAX_BATCH_PAGES
      invariant batch + rest == [first] + queue && deferred == None
      invariant WithinGroup(batch) && bytes == Weight(batch) && records == Records(batch)
      decreases MAX_BATCH_PAGES - |batch|
    {
      var ready: bool := *;
      if rest == [] || !ready {
        break;
      }
      var next := rest[0];
      Shift(batch, rest);
      rest := rest[1..];
      if bytes + next.bytes > MAX_BATCH_BYTES || records + |next.sub.page.snapshots| > MAX_BATCH_RECORDS {
        deferred := Some(next);
        break;
      }
      bytes := bytes + next.bytes;
      records := records + |next.sub.page.snapshots|;
      GroupGrows(batch, next);
      batch := batch + [next];
    }
  }

  // ---------------------------------------------------------------- the worker

  function Subs(batch: seq<Pending>): (s: seq<Submission>)
    ensures |s| == |batch| && forall i :: 0 <= i < |batch| ==> s[i] == batch[i].sub
  {
    if batch == [] then [] else [batch[0].sub] + Subs(batch[1..])
  }

  lemma SubsAppend(a: seq<Pending>, b: seq<Pending>)
    ensures Subs(a + b) == Subs(a) + Subs(b)
  {
  }

  class Ingestor {
    const store: SnapshotStore
    /** Source metadata is committed there after the snapshots. */
    const repository: Sources.Repository

    constructor (store: SnapshotStore, repository: Sources.Repository)
      ensures this.store == store && this.repository == repository
    {
      this.store, this.repository := store, repository;
    }

    /**
      Write one group. Either transaction may fail as a whole: `committed` tells whether the
      snapshots were committed, `acked` whether the source metadata was as well. Ok is replied
      exactly to the acceptable pages of a group with both.
     */
    method Write(batch: seq<Pending>, now: int)
      returns (replies: seq<Result<nat, ReplyError>>, committed: bool, ghost acked: bool)
      requires Valid(store.db)
      modifies store, repository
      ensures Valid(store.db)
      ensures store.db == if committed then ApplyAll(old(store.db), Subs(batch)) else old(store.db)
      ensures GroupReplies(old(store.db), batch, committed, acked, replies)
      ensures repository.data == if committed && acked
                                 then Sources.SucceededAll(old(repository.data),
                                                           Successes(old(store.db), Subs(batch)), now)
                                 else old(repository.data)
      ensures forall i :: 0 <= i < |batch| && replies[i].Ok? ==> Durable(store.db, batch[i].sub)
    {
      hide Valid, Durable, ApplyAll, PageOk, PageNews, Subs, Successes;
      var snapshotsFail: bool, metadataFails: bool := *, *;
      if snapshotsFail {
        replies := Fail(|batch|);
        return replies, false, false;
      }
      ghost var before := store.db;
      var results := store.IngestBatch(Subs(batch));
      if metadataFails {
        replies := Fail(|batch|);
        return replies, true, false;
      }
      var successful := Successful(before, batch, results);
      repository.UpdateSourceSuccessBatch(successful, now);
      replies := Reply(before, batch, results);
      return replies, true, true;
    }

    /**
      Serve a whole queue. Groups partition the arrivals in order, so the committed pages are the
      arrivals minus whole failed groups, applied one by one. Every group is answered as `Write`
      answers it in the state the groups before it left, and an Ok page stays durable.
     */
    method Run(arrivals: seq<Pending>)
      returns (replies: seq<Result<nat, ReplyError>>, ghost groups: seq<seq<Pending>>, ghost kept: seq<bool>,
               ghost acked: seq<bool>)
      requires Valid(store.db) && AllQueueable(arrivals)
      modifies store, repository
      ensures Valid(store.db) && |replies| == |arrivals| && |kept| == |acked| == |groups|
      ensures Flatten(groups) == arrivals && forall g :: g in groups ==> WithinGroup(g)
      ensures store.db == ApplyAll(old(store.db), Subs(Flatten(Kept(groups, kept))))
      ensures forall g :: 0 <= g < |groups| ==> Answered(old(store.db), groups, kept, acked, replies, g)
      ensures forall i :: 0 <= i < |arrivals| && replies[i].Ok? ==> Durable(store.db, arrivals[i].sub)
    {
      hide Valid, Acked, ApplyAll, WithinGroup, Subs, Flatten, Kept, GroupReplies, Answered;
      replies, groups, kept, acked := [], [], [], [];
      var deferred: Option<Pending>, queue := None, arrivals;
      RunStarts(store.db, arrivals);
      while deferred.Some? || queue != []
        invariant Valid(store.db) && |kept| == |acked| == |groups| && AllQueueable(Waiting(deferred, queue))
        invariant Flatten(groups) + Waiting(deferred, queue) == arrivals
        invariant forall g :: g in groups ==> WithinGroup(g)
        invariant store.db == ApplyAll(old(store.db), Subs(Flatten(Kept(groups, kept))))
        invariant |replies| == |Flatten(groups)| && Acked(store.db, replies, Flatten(groups))
        invariant forall g :: 0 <= g < |groups| ==> Answered(old(store.db), groups, kept, acked, replies, g)
        decreases |Waiting(deferred, queue)|
      {
        ghost var before, waiting, ack := store.db, Waiting(deferred, queue), false;
        var batch, group, committed;
        batch, deferred, queue, group, committed, ack := Serve(deferred, queue);
        FlattenAppend(groups, batch);
        KeptAppend(old(store.db), groups, kept, batch, committed);
        AckedAppend(before, store.db, committed, replies, Flatten(groups), group, batch);
        AnsweredAppend(old(store.db), groups, kept, acked, replies, batch, committed, ack, group);
        Regroup(Flatten(groups), waiting, batch, Waiting(deferred, queue));
        groups, kept, acked, replies := groups + [batch], kept + [committed], acked + [ack], replies + group;
      }
      RunEnds(store.db, deferred, queue, groups, arrivals, replies);
    }

    /** One turn of the worker: collect a group and write it. */
    method Serve(held: Option<Pending>, ready: seq<Pending>)
      returns (batch: seq<Pending>, deferred: Option<Pending>, queue: seq<Pending>,
               replies: seq<Result<nat, ReplyError>>, committed: bool, ghost acked: bool)
      requires Valid(store.db) && Waiting(held, ready) != [] && AllQueueable(Waiting(held, ready))
      modifies store, repository
      ensures Valid(store.db) && WithinGroup(batch) && batch != []
      ensures batch + Waiting(deferred, queue) == Waiting(held, ready) && AllQueueable(Waiting(deferred, queue))
      ensures store.db == if committed then ApplyAll(old(store.db), Subs(batch)) else old(store.db)
      ensures |replies| == |batch| && Acked(store.db, replies, batch)
              && GroupReplies(old(store.db), batch, committed, acked, replies)
    {
      hide Valid, Durable, ApplyAll, Subs, Replied, Weight, Records;
      var waiting := Waiting(held, ready);
      batch, deferred, queue := Collect(waiting[0], waiting[1..]);
      assert waiting == [waiting[0]] + waiting[1..];
      assert forall i :: 0 <= i < |Waiting(deferred, queue)| ==> Waiting(deferred, queue)[i] == waiting[|batch| + i];
      var now: int := *;
      replies, committed, acked := Write(batch, now);
    }
  }

  // ---------------------------------------------------------------- what is replied

  /** The reply to the i-th page of a group. */
  ghost predicate Replied(db: Tables, subs: seq<Submission>, i: nat, both: bool, reply: Result<nat, ReplyError>)
    requires i < |subs|
  {
    && (reply.Ok? <==> both && PageOk(db, subs, i))
    && (reply.Ok? ==> reply.value == PageNews(db, subs, i))
    && (reply == Err(GroupFailed) <==> !both)
  }

  ghost predicate GroupReplies(db: Tables, batch: seq<Pending>, committed: bool, acked: bool,
                               replies: seq<Result<nat, ReplyError>>) {
    && |replies| == |batch|
    && forall i :: 0 <= i < |batch| ==> Replied(db, Subs(batch), i, committed && acked, replies[i])
  }

  /** The sources a group updates: those of its accepted pages, in order. */
  ghost function Successes(db: Tables, subs: seq<Submission>): seq<Sources.Scraped> {
    if subs == [] then []
    else
      var n := |subs| - 1;
      Successes(db, subs[..n])
      + if PageOk(db, subs, n) then [Sources.Scraped(subs[n].source.id, subs[n].descriptor)] else []
  }

  lemma NoSuccesses(db: Tables)
    ensures Successes(db, []) == []
  {
  }

  lemma SuccessesStep(db: Tables, subs: seq<Submission>, i: nat)
    requires i < |subs|
    ensures Successes(db, subs[..i + 1])
         == Successes(db, subs[..i])
            + if PageOk(db, subs, i) then [Sources.Scraped(subs[i].source.id, subs[i].descriptor)] else []
  {
    hide Acceptable, ApplyAll;
    assert subs[..i + 1][..i] == subs[..i];
  }

  /** What `IngestBatch` answered. */
  ghost predicate Results(db: Tables, subs: seq<Submission>, results: seq<Result<nat, IngestError>>) {
    && |results| == |subs|
    && forall i :: 0 <= i < |subs| ==>
         (results[i].Ok? <==> PageOk(db, subs, i)) && (results[i].Ok? ==> results[i].value == PageNews(db, subs, i))
  }

  method Successful(ghost db: Tables, batch: seq<Pending>, results: seq<Result<nat, IngestError>>)
    returns (successful: seq<Sources.Scraped>)
    requires Results(db, Subs(batch), results)
    ensures successful == Successes(db, Subs(batch))
  {
    hide PageOk, PageNews, Subs, Successes;
    ghost var subs := Subs(batch);
    NoSuccesses(db);
    successful := [];
    for i := 0 to |batch|
      invariant successful == Successes(db, subs[..i])
    {
      SuccessesStep(db, subs, i);
      if results[i].Ok? {
        successful := successful + [Sources.Scraped(batch[i].sub.source.id, batch[i].sub.descriptor)];
      }
    }
    assert subs[..|subs|] == subs;
  }

  method Reply(ghost db: Tables, batch: seq<Pending>, results: seq<Result<nat, IngestError>>)
    returns (replies: seq<Result<nat, ReplyError>>)
    requires Valid(db) && Results(db, Subs(batch), results)
    ensures GroupReplies(db, batch, true, true, replies)
    ensures forall i :: 0 <= i < |batch| && replies[i].Ok? ==> Durable(ApplyAll(db, Subs(batch)), batch[i].sub)
  {
    hide Valid, Durable, ApplyAll, PageOk, PageNews, Subs;
    replies := [];
    for i := 0 to |batch|
      invariant |replies| == i
      invariant forall j :: 0 <= j < i ==> Replied(db, Subs(batch), j, true, replies[j])
      invariant forall j :: 0 <= j < i && replies[j].Ok? ==> Durable(ApplyAll(db, Subs(batch)), batch[j].sub)
    {
      match results[i]
      case Ok(accepted) =>
        SuccessDurable(db, Subs(batch), i);
        replies := replies + [Ok(accepted)];
      case Err(error) =>
        replies := replies + [Err(PageError(error))];
    }
  }

  /** Group `g` was answered from the tables the kept groups before it left. */
  ghost predicate Answered(db: Tables, groups: seq<seq<Pending>>, kept: seq<bool>, acked: seq<bool>,
                           replies: seq<Result<nat, ReplyError>>, g: nat)
    requires g < |groups| == |kept| == |acked|
  {
    var from := |Flatten(groups[..g])|;
    && from + |groups[g]| <= |replies|
    && GroupReplies(ApplyAll(db, Subs(Flatten(Kept(groups[..g], kept[..g])))), groups[g], kept[g], acked[g],
                    replies[from..from + |groups[g]|])
  }

  lemma AnsweredAppend(db: Tables, groups: seq<seq<Pending>>, kept: seq<bool>, acked: seq<bool>,
                       replies: seq<Result<nat, ReplyError>>,
                       batch: seq<Pending>, committed: bool, ack: bool, group: seq<Result<nat, ReplyError>>)
    requires |groups| == |kept| == |acked| && |replies| == |Flatten(groups)|
    requires forall g :: 0 <= g < |groups| ==> Answered(db, groups, kept, acked, replies, g)
    requires GroupReplies(ApplyAll(db, Subs(Flatten(Kept(groups, kept)))), batch, committed, ack, group)
    ensures forall g :: 0 <= g <= |groups| ==>
            Answered(db, groups + [batch], kept + [committed], acked + [ack], replies + group, g)
  {
    hide ApplyAll, Subs, Flatten, Kept, Replied;
    var gs, ks, rs := groups + [batch], kept + [committed], replies + group;
    forall g | 0 <= g <= |groups| ensures Answered(db, gs, ks, acked + [ack], rs, g) {
      assert gs[..g] == groups[..g] && ks[..g] == kept[..g];
      var from := |Flatten(groups[..g])|;
      if g < |groups| {
        assert Answered(db, groups, kept, acked, replies, g);
        assert rs[from..from + |gs[g]|] == replies[from..from + |gs[g]|];
      } else {
        assert groups[..g] == groups && kept[..g] == kept;
        assert rs[from..from + |batch|] == group;
      }
    }
  }

  /** One reply per page so far, and every Ok is backed by the store. */
  ghost predicate Acked(db: Tables, replies: seq<Result<nat, ReplyError>>, pages: seq<Pending>) {
    |replies| == |pages| && forall i :: 0 <= i < |pages| && replies[i].Ok? ==> Durable(db, pages[i].sub)
  }

  lemma AckedAppend(before: Tables, after: Tables, committed: bool, replies: seq<Result<nat, ReplyError>>,
                    pages: seq<Pending>,
                    group: seq<Result<nat, ReplyError>>, batch: seq<Pending>)
    requires Valid(before) && Valid(after) && after == if committed then ApplyAll(before, Subs(batch)) else before
    requires Acked(before, replies, pages) && Acked(after, group, batch)
    ensures Acked(after, replies + group, pages + batch)
  {
    hide Valid, Durable, ApplyAll, Subs;
    StillDurable(before, batch, committed, after);
    forall i | 0 <= i < |pages + batch| && (replies + group)[i].Ok? ensures Durable(after, (pages + batch)[i].sub) {
      if i < |pages| {
        assert Durable(before, pages[i].sub);
      } else {
        assert Durable(after, batch[i - |pages|].sub);
      }
    }
  }

  lemma Regroup(done: seq<Pending>, waiting: seq<Pending>, batch: seq<Pending>, rest: seq<Pending>)
    requires batch + rest == waiting && batch != []
    ensures done + waiting == (done + batch) + rest && |rest| < |waiting|
  {
  }

  lemma RunStarts(db: Tables, arrivals: seq<Pending>)
    ensures Flatten([]) == [] && Flatten([]) + Waiting(None, arrivals) == arrivals
    ensures db == ApplyAll(db, Subs(Flatten(Kept([], [])))) && Acked(db, [], Flatten([]))
  {
  }

  lemma RunEnds(db: Tables, deferred: Option<Pending>, queue: seq<Pending>, groups: seq<seq<Pending>>,
                arrivals: seq<Pending>,
                replies: seq<Result<nat, ReplyError>>)
    requires deferred.None? && queue == [] && Flatten(groups) + Waiting(deferred, queue) == arrivals
    requires Acked(db, replies, Flatten(groups))
    ensures Flatten(groups) == arrivals && |replies| == |arrivals|
    ensures forall i :: 0 <= i < |arrivals| && replies[i].Ok? ==> Durable(db, arrivals[i].sub)
  {
    hide Durable;
    assert Flatten(groups) + [] == Flatten(groups);
  }

  method Fail(n: nat) returns (replies: seq<Result<nat, ReplyError>>)
    ensures |replies| == n && forall i :: 0 <= i < n ==> replies[i] == Err(GroupFailed)
  {
    replies := [];
    for i := 0 to n
      invariant |replies| == i && forall j :: 0 <= j < i ==> replies[j] == Err(GroupFailed)
    {
      replies := replies + [Err(GroupFailed)];
    }
  }

  function Flatten(groups: seq<seq<Pending>>): seq<Pending> {
    if groups == [] then [] else Flatten(groups[..|groups| - 1]) + groups[|groups| - 1]
  }

  function Kept(groups: seq<seq<Pending>>, kept: seq<bool>): seq<seq<Pending>>
    requires |kept| == |groups|
  {
    if groups == [] then []
    else Kept(groups[..|groups| - 1], kept[..|kept| - 1]) + if kept[|kept| - 1] then [groups[|groups| - 1]] else []
  }

  lemma FlattenAppend(groups: seq<seq<Pending>>, g: seq<Pending>)
    ensures Flatten(groups + [g]) == Flatten(groups) + g
  {
    assert (groups + [g])[..|groups|] == groups;
  }

  lemma KeptAppend(db: Tables, groups: seq<seq<Pending>>, kept: seq<bool>, g: seq<Pending>, k: bool)
    requires |kept| == |groups|
    ensures ApplyAll(db, Subs(Flatten(Kept(groups + [g], kept + [k]))))
         == var before := ApplyAll(db, Subs(Flatten(Kept(groups, kept))));
            if k then ApplyAll(before, Subs(g)) else before
  {
    hide ApplyAll, Subs;
    assert (groups + [g])[..|groups|] == groups && (kept + [k])[..|kept|] == kept;
    var ks := Kept(groups, kept);
    if k {
      FlattenAppend(ks, g);
      SubsAppend(Flatten(ks), g);
      ApplyAllAppend(db, Subs(Flatten(ks)), Subs(g));
    } else {
      assert Kept(groups + [g], kept + [k]) == ks;
    }
  }

  /** A page that succeeded inside its group is durable once the whole group is applied. */
  lemma SuccessDurable(db: Tables, subs: seq<Submission>, i: nat)
    requires Valid(db) && i < |subs|
    requires PageOk(db, subs, i)
    ensures Durable(ApplyAll(db, subs), subs[i])
  {
    hide Valid, Acceptable, Ingested, Durable, UniqueOk, KeepsRows;
    var before := ApplyAll(db, subs[..i]);
    RunValid(db, subs[..i]);
    AcceptedIsDurable(before, subs[i]);
    var after := ApplyAll(db, subs[..i + 1]);
    assert subs[..i + 1][..i] == subs[..i];
    assert after == Ingested(before, subs[i].source, subs[i].page);
    RunValid(db, subs[..i + 1]);
    RunValid(db, subs);
    assert subs == subs[..i + 1] + subs[i + 1..];
    ApplyAllAppend(db, subs[..i + 1], subs[i + 1..]);
    RunKeeps(after, subs[i + 1..]);
    ValidUnique(after);
    ValidUnique(ApplyAll(db, subs));
    DurableKept(after, ApplyAll(db, subs), subs[i]);
  }

  lemma StillDurable(before: Tables, batch: seq<Pending>, committed: bool, after: Tables)
    requires Valid(before) && Valid(after)
    requires after == if committed then ApplyAll(before, Subs(batch)) else before
    ensures forall s :: Durable(before, s) ==> Durable(after, s)
  {
    hide Valid, Durable, ApplyAll, UniqueOk, KeepsRows;
    ValidUnique(before);
    ValidUnique(after);
    RunKeeps(before, Subs(batch));
    if committed {
      forall s | Durable(before, s) ensures Durable(after, s) {
        DurableKept(before, after, s);
      }
    }
  }
}
