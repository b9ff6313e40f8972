/** The scrape scheduler: one loop owns the known sources, a heap of due times and the running tasks. */
module Scheduler {
  import opened Common
  import opened Sources
  import Text

  datatype Entry = Entry(due: int, id: string)

  datatype Plan = Plan(sources: map<string, Source>, schedule: seq<Entry>, scheduled: set<string>, tasks: seq<Source>)

  const EMPTY := Plan(map[], [], {}, [])

  predicate Scrapable(source: Source) {
    !Retired(source.state) && source.endpoint.http
  }

  function Delay(source: Source, hasData: bool): nat {
    if hasData then 1 else source.interval
  }

  // ---------------------------------------------------------------- the heap

  predicate Sooner(a: Entry, b: Entry) {
    a.due < b.due || (a.due == b.due && Text.Less(a.id, b.id))
  }

  /** The position of the entry a pop removes. */
  function Earliest(schedule: seq<Entry>): (k: nat)
    requires schedule != []
    ensures k < |schedule|
  {
    if |schedule| == 1 then 0
    else
      var n := |schedule| - 1;
      var k := Earliest(schedule[..n]);
      if Sooner(schedule[n], schedule[k]) then n else k
  }

  lemma SoonerTransitive(a: Entry, b: Entry, c: Entry)
    requires Sooner(a, b) && Sooner(b, c)
    ensures Sooner(a, c)
  {
    if a.due == b.due == c.due {
      Text.LessTransitive(a.id, b.id, c.id);
    }
  }

  lemma SoonerStrict(a: Entry, b: Entry)
    ensures !(Sooner(a, b) && Sooner(b, a))
  {
    Text.LessTotal(a.id, b.id);
  }

  /** A pop takes the least entry: earliest due, smallest id among equals. */
  lemma {:induction false} EarliestIsLeast(schedule: seq<Entry>, j: nat)
    requires j < |schedule|
    ensures !Sooner(schedule[j], schedule[Earliest(schedule)])
  {
    hide Sooner;
    var n := |schedule| - 1;
    if |schedule| > 1 {
      var k := Earliest(schedule[..n]);
      if j < n {
        EarliestIsLeast(schedule[..n], j);
        if Sooner(schedule[n], schedule[k]) && Sooner(schedule[j], schedule[n]) {
          SoonerTransitive(schedule[j], schedule[n], schedule[k]);
        }
      } else {
        SoonerStrict(schedule[n], schedule[n]);
      }
    } else {
      SoonerStrict(schedule[0], schedule[0]);
    }
  }

  lemma NothingDueSooner(schedule: seq<Entry>)
    requires schedule != []
    ensures forall e :: e in schedule ==>
            schedule[Earliest(schedule)].due <= e.due && !Sooner(e, schedule[Earliest(schedule)])
  {
    hide Earliest;
    forall j | 0 <= j < |schedule|
      ensures schedule[Earliest(schedule)].due <= schedule[j].due && !Sooner(schedule[j], schedule[Earliest(schedule)])
    {
      EarliestIsLeast(schedule, j);
    }
  }

  lemma RemoveAtMembers<T>(xs: seq<T>, k: nat, x: T)
    requires k < |xs| && x in xs
    ensures x == xs[k] || x in RemoveAt(xs, k)
  {
    assert xs == xs[..k] + [xs[k]] + xs[k + 1..];
  }

  // ---------------------------------------------------------------- steps

  function Push(p: Plan, id: string, due: int): Plan {
    p.(scheduled := p.scheduled + {id}, schedule := p.schedule + [Entry(due, id)])
  }

  /** One listed source during a refresh. */
  function Noted(p: Plan, source: Source, now: int): Plan {
    if !Scrapable(source) then p.(sources := p.sources - {source.id})
    else
      var pushed := if source.id !in p.sources && source.id !in p.scheduled then Push(p, source.id, now) else p;
      pushed.(sources := pushed.sources[source.id := source])
  }

  function Refreshed(p: Plan, listing: seq<Source>, now: int): Plan {
    if listing == [] then p
    else Noted(Refreshed(p, listing[..|listing| - 1], now), listing[|listing| - 1], now)
  }

  /** A finished task hands its source back to the heap. */
  function Joined(p: Plan, k: nat, hasData: bool, now: int): Plan
    requires k < |p.tasks|
  {
    Push(p.(tasks := RemoveAt(p.tasks, k)), p.tasks[k].id, now + Delay(p.tasks[k], hasData))
  }

  /** Popping an entry starts a task only for a source that is still known. */
  function Popped(p: Plan, k: nat): Plan
    requires k < |p.schedule|
  {
    var id := p.schedule[k].id;
    p.(schedule := RemoveAt(p.schedule, k),
       scheduled := p.scheduled - {id},
       tasks := p.tasks + if id in p.sources then [p.sources[id]] else [])
  }

  predicate CanLaunch(p: Plan, now: int, limit: nat) {
    |p.tasks| < limit && p.schedule != [] && p.schedule[Earliest(p.schedule)].due <= now
  }

  function Launched(p: Plan, now: int, limit: nat): Plan
    decreases |p.schedule|
  {
    if CanLaunch(p, now, limit) then Launched(Popped(p, Earliest(p.schedule)), now, limit) else p
  }

  class Scraper {
    const limit: nat
    var sources: map<string, Source>
    var schedule: seq<Entry>
    var scheduled: set<string>
    var tasks: seq<Source>

    ghost function State(): Plan
      reads this
    {
      Plan(sources, schedule, scheduled, tasks)
    }

    constructor (maximumConcurrency: nat)
      ensures State() == EMPTY && limit == Max(maximumConcurrency, 1)
    {
      limit := Max(maximumConcurrency, 1);
      sources, schedule, scheduled, tasks := map[], [], {}, [];
    }

    method RefreshSchedule(listed: Option<seq<Source>>, now: int)
      modifies this
      ensures State() == if listed.Some? then Refreshed(old(State()), listed.value, now) else old(State())
    {
      hide Scrapable;
      if listed.None? {
        return;
      }
      var listing := listed.value;
      for i := 0 to |listing|
        invariant State() == Refreshed(old(State()), listing[..i], now)
      {
        assert listing[..i + 1][..i] == listing[..i];
        var source := listing[i];
        if !Scrapable(source) {
          sources := sources - {source.id};
        } else {
          if source.id !in sources && source.id !in scheduled {
            scheduled := scheduled + {source.id};
            schedule := schedule + [Entry(now, source.id)];
          }
          sources := sources[source.id := source];
        }
      }
      assert listing[..|listing|] == listing;
    }

    /** A finished task leaves the tasks and becomes one heap entry, due after its delay; nothing else moves. */
    method Join(k: nat, hasData: bool, now: int)
      requires k < |tasks|
      modifies this
      ensures sources == old(sources)
      ensures schedule
           == old(schedule) + [Entry(now + (if hasData then 1 else old(tasks)[k].interval), old(tasks)[k].id)]
      ensures forall id :: id in scheduled <==> id in old(scheduled) || id == old(tasks)[k].id
      ensures multiset(tasks) + multiset{old(tasks)[k]} == multiset(old(tasks))
      ensures forall id :: Places(State(), id) == Places(old(State()), id)
      ensures State() == Joined(old(State()), k, hasData, now)
    {
      hide Places;
      var source := tasks[k];
      assert tasks == tasks[..k] + [source] + tasks[k + 1..];
      tasks := RemoveAt(tasks, k);
      scheduled := scheduled + {source.id};
      schedule := schedule + [Entry(now + Delay(source, hasData), source.id)];
      forall id ensures Places(State(), id) == Places(old(State()), id) {
        JoinMoves(old(State()), k, hasData, now, id);
      }
    }

    method LaunchDue(now: int)
      modifies this
      ensures State() == Launched(old(State()), now, limit)
    {
      while |tasks| < limit && schedule != [] && schedule[Earliest(schedule)].due <= now
        invariant Launched(State(), now, limit) == Launched(old(State()), now, limit)
        decreases |schedule|
      {
        ghost var before := State();
        var k := Earliest(schedule);
        var id := schedule[k].id;
        schedule := RemoveAt(schedule, k);
        scheduled := scheduled - {id};
        if id in sources {
          tasks := tasks + [sources[id]];
        }
        assert State() == Popped(before, k);
      }
    }
  }

  // ---------------------------------------------------------------- places

  function Ids(schedule: seq<Entry>): seq<string> {
    seq(|schedule|, i requires 0 <= i < |schedule| => schedule[i].id)
  }

  function Running(tasks: seq<Source>): seq<string> {
    seq(|tasks|, i requires 0 <= i < |tasks| => tasks[i].id)
  }

  function Count(ids: seq<string>, id: string): nat {
    multiset(ids)[id]
  }

  /** How often a source is queued or in flight. */
  function Places(p: Plan, id: string): nat {
    Count(Ids(p.schedule), id) + Count(Running(p.tasks), id)
  }

  /** A source the scheduler may not know: it is retired or has no HTTP endpoint. */
  predicate Barred(g: Registry, id: string) {
    id in g.sources && !Scrapable(g.sources[id])
  }

  ghost predicate Consistent(p: Plan, g: Registry, limit: nat) {
    && |p.tasks| <= limit
    && (forall id :: id in p.scheduled <==> Count(Ids(p.schedule), id) > 0)
    && (forall id :: Places(p, id) <= 1)
    && (forall id :: id in p.sources ==> Places(p, id) == 1 && p.sources[id].id == id && id in g.sources)
    && (forall id :: Places(p, id) > 0 ==> id in p.sources || Barred(g, id))
  }

  lemma CountPush(ids: seq<string>, x: string, id: string)
    ensures Count(ids + [x], id) == Count(ids, id) + if x == id then 1 else 0
  {
  }

  lemma CountRemoveAt(ids: seq<string>, k: nat, id: string)
    requires k < |ids|
    ensures Count(ids, id) == Count(RemoveAt(ids, k), id) + if ids[k] == id then 1 else 0
  {
    assert ids == ids[..k] + [ids[k]] + ids[k + 1..];
  }

  lemma PushPlaces(p: Plan, x: string, due: int, id: string)
    ensures Count(Ids(Push(p, x, due).schedule), id) == Count(Ids(p.schedule), id) + if x == id then 1 else 0
  {
    assert Ids(p.schedule + [Entry(due, x)]) == Ids(p.schedule) + [x];
    CountPush(Ids(p.schedule), x, id);
  }

  lemma JoinPlaces(p: Plan, k: nat, hasData: bool, now: int, id: string)
    requires k < |p.tasks|
    ensures var q, one := Joined(p, k, hasData, now), if p.tasks[k].id == id then 1 else 0;
            && Count(Ids(q.schedule), id) == Count(Ids(p.schedule), id) + one
            && Count(Running(q.tasks), id) == Count(Running(p.tasks), id) - one
  {
    hide Count;
    PushPlaces(p.(tasks := RemoveAt(p.tasks, k)), p.tasks[k].id, now + Delay(p.tasks[k], hasData), id);
    assert Running(RemoveAt(p.tasks, k)) == RemoveAt(Running(p.tasks), k);
    CountRemoveAt(Running(p.tasks), k, id);
  }

  lemma JoinMoves(p: Plan, k: nat, hasData: bool, now: int, id: string)
    requires k < |p.tasks|
    ensures Places(Joined(p, k, hasData, now), id) == Places(p, id)
  {
    hide Count;
    JoinPlaces(p, k, hasData, now, id);
  }

  lemma PopPlaces(p: Plan, k: nat, id: string)
    requires k < |p.schedule|
    requires forall x :: x in p.sources ==> p.sources[x].id == x
    ensures var q, one := Popped(p, k), if p.schedule[k].id == id then 1 else 0;
            && Count(Ids(q.schedule), id) == Count(Ids(p.schedule), id) - one
            && Count(Running(q.tasks), id) == Count(Running(p.tasks), id) + if id in p.sources then one else 0
  {
    var x := p.schedule[k].id;
    assert Ids(RemoveAt(p.schedule, k)) == RemoveAt(Ids(p.schedule), k);
    CountRemoveAt(Ids(p.schedule), k, id);
    if x in p.sources {
      assert Running(p.tasks + [p.sources[x]]) == Running(p.tasks) + [x];
      CountPush(Running(p.tasks), x, id);
    } else {
      assert p.tasks + [] == p.tasks;
    }
  }

  // ---------------------------------------------------------------- every step keeps the plan consistent

  lemma NoteKeeps(p: Plan, g: Registry, limit: nat, source: Source, now: int)
    requires Consistent(p, g, limit) && source.id in g.sources && g.sources[source.id] == source
    ensures Consistent(Noted(p, source, now), g, limit)
  {
    hide Count, Scrapable, Ids, Running;
    var q := Noted(p, source, now);
    forall id
      ensures Count(Ids(Push(p, source.id, now).schedule), id)
           == Count(Ids(p.schedule), id) + if source.id == id then 1 else 0
    {
      PushPlaces(p, source.id, now, id);
    }
    assert forall id :: id != source.id ==> Places(q, id) == Places(p, id);
    if Scrapable(source) && source.id !in p.sources && source.id !in p.scheduled {
      assert Places(p, source.id) == 0 && Places(q, source.id) == 1;
    } else {
      assert q.schedule == p.schedule;
      assert forall id :: Places(q, id) == Places(p, id);
    }
  }

  lemma JoinKeeps(p: Plan, g: Registry, limit: nat, k: nat, hasData: bool, now: int)
    requires Consistent(p, g, limit) && k < |p.tasks|
    ensures Consistent(Joined(p, k, hasData, now), g, limit)
  {
    hide Count, Scrapable, Ids, Running;
    var q, x := Joined(p, k, hasData, now), p.tasks[k].id;
    JoinPlaces(p, k, hasData, now, x);
    forall id
      ensures Places(q, id) == Places(p, id)
      ensures id != x ==> Count(Ids(q.schedule), id) == Count(Ids(p.schedule), id)
    {
      JoinPlaces(p, k, hasData, now, id);
    }
  }

  lemma PopKeeps(p: Plan, g: Registry, limit: nat, k: nat)
    requires Consistent(p, g, limit) && k < |p.schedule| && |p.tasks| < limit
    ensures Consistent(Popped(p, k), g, limit)
  {
    hide Count, Scrapable, Ids, Running;
    var q, x := Popped(p, k), p.schedule[k].id;
    PopPlaces(p, k, x);
    forall id
      ensures Places(q, id) == Places(p, id) - if id == x && x !in p.sources then 1 else 0
      ensures id != x ==> Count(Ids(q.schedule), id) == Count(Ids(p.schedule), id)
    {
      PopPlaces(p, k, id);
    }
  }

  /** Launching stops only at the limit or when nothing is due, and takes entries in order of due time. */
  lemma {:induction false} LaunchKeeps(p: Plan, g: Registry, limit: nat, now: int)
    requires Consistent(p, g, limit)
    ensures var q := Launched(p, now, limit);
            && Consistent(q, g, limit)
            && q.sources == p.sources && p.tasks <= q.tasks
            && (|q.tasks| == limit || forall e :: e in q.schedule ==> now < e.due)
    decreases |p.schedule|
  {
    hide Count, Places, Consistent;
    if CanLaunch(p, now, limit) {
      var k := Earliest(p.schedule);
      PopKeeps(p, g, limit, k);
      LaunchKeeps(Popped(p, k), g, limit, now);
    } else {
      AtMostLimit(p, g, limit);
      if p.schedule != [] {
        NothingDueSooner(p.schedule);
      }
    }
  }

  lemma AtMostLimit(p: Plan, g: Registry, limit: nat)
    requires Consistent(p, g, limit)
    ensures |p.tasks| <= limit
  {
  }

  /** No entry left behind comes before an entry taken. */
  lemma {:induction false} LaunchEarliestFirst(p: Plan, now: int, limit: nat, left: Entry, taken: Entry)
    requires var q := Launched(p, now, limit);
             left in q.schedule && taken in p.schedule && taken !in q.schedule
    ensures !Sooner(left, taken) && left in p.schedule
    decreases |p.schedule|
  {
    hide Sooner;
    if CanLaunch(p, now, limit) {
      NothingDueSooner(p.schedule);
      var k := Earliest(p.schedule);
      var next := Popped(p, k);
      if taken in next.schedule {
        LaunchEarliestFirst(next, now, limit, left, taken);
      } else {
        RemoveAtMembers(p.schedule, k, taken);
        LaunchLeaves(next, now, limit, left);
      }
    }
  }

  lemma {:induction false} LaunchLeaves(p: Plan, now: int, limit: nat, left: Entry)
    requires left in Launched(p, now, limit).schedule
    ensures left in p.schedule
    decreases |p.schedule|
  {
    if CanLaunch(p, now, limit) {
      LaunchLeaves(Popped(p, Earliest(p.schedule)), now, limit, left);
    }
  }

  /**
    A scraped source comes up again 1 ms after a page with data and one interval after any other: the
    next launch from then on starts it, unless the limit is used up.
   */
  lemma RescrapedWhenDue(p: Plan, g: Registry, limit: nat, k: nat, hasData: bool, now: int, later: int)
    requires Consistent(p, g, limit) && k < |p.tasks| && p.tasks[k].id in p.sources
    requires later >= now + if hasData then 1 else p.tasks[k].interval
    ensures var q := Launched(Joined(p, k, hasData, now), later, limit);
            |q.tasks| == limit || Count(Running(q.tasks), p.tasks[k].id) == 1
  {
    hide Launched, Consistent, Count, Places, Running, Ids, RemoveAt;
    var j, id := Joined(p, k, hasData, now), p.tasks[k].id;
    JoinKeeps(p, g, limit, k, hasData, now);
    LaunchKeeps(j, g, limit, later);
    var q := Launched(j, later, limit);
    if |q.tasks| != limit {
      EntryLaunched(j, q, g, limit, later, Entry(now + Delay(p.tasks[k], hasData), id));
    }
  }

  /** A due entry of a known source is in flight once nothing due is left. */
  lemma EntryLaunched(p: Plan, q: Plan, g: Registry, limit: nat, now: int, entry: Entry)
    requires Consistent(p, g, limit) && Consistent(q, g, limit) && q == Launched(p, now, limit)
    requires entry in p.schedule && entry.due <= now && entry.id in q.sources
    requires forall e :: e in q.schedule ==> now < e.due
    ensures Count(Running(q.tasks), entry.id) == 1
  {
    if Count(Ids(q.schedule), entry.id) > 0 {
      assert entry.id in Ids(q.schedule);
      var i :| 0 <= i < |q.schedule| && Ids(q.schedule)[i] == entry.id;
      LaunchLeaves(p, now, limit, q.schedule[i]);
      SameEntry(p, g, limit, entry, q.schedule[i]);
    }
  }

  lemma SameEntry(p: Plan, g: Registry, limit: nat, a: Entry, b: Entry)
    requires Consistent(p, g, limit) && a in p.schedule && b in p.schedule && a.id == b.id
    ensures a == b
  {
    var i :| 0 <= i < |p.schedule| && p.schedule[i] == a;
    var j :| 0 <= j < |p.schedule| && p.schedule[j] == b;
    assert Places(p, a.id) <= 1;
    if i < j {
      TwiceCounts(Ids(p.schedule), i, j);
    } else if j < i {
      TwiceCounts(Ids(p.schedule), j, i);
    }
  }

  lemma TwiceCounts(ids: seq<string>, i: nat, j: nat)
    requires i < j < |ids| && ids[i] == ids[j]
    ensures Count(ids, ids[i]) >= 2
  {
    CountRemoveAt(ids, i, ids[i]);
    assert RemoveAt(ids, i)[j - 1] == ids[j];
  }

  /** The whole table, each row once, in any order. */
  ghost predicate Lists(listing: seq<Source>, g: Registry) {
    && (forall i :: 0 <= i < |listing| ==> listing[i].id in g.sources && g.sources[listing[i].id] == listing[i])
    && (forall id :: id in g.sources ==> g.sources[id] in listing)
  }

  lemma {:induction false} RefreshKeeps(p: Plan, g: Registry, limit: nat, listing: seq<Source>, now: int)
    requires Consistent(p, g, limit)
    requires forall i :: 0 <= i < |listing| ==> listing[i].id in g.sources && g.sources[listing[i].id] == listing[i]
    ensures var q := Refreshed(p, listing, now);
            && Consistent(q, g, limit)
            && q.tasks == p.tasks
            && (forall id :: id in q.sources && id !in p.sources ==> !Barred(g, id))
            && (forall source :: source in listing ==>
                  if Scrapable(source) then source.id in q.sources && q.sources[source.id] == source
                  else source.id !in q.sources)
  {
    hide Count, Places, Consistent, Scrapable;
    if listing == [] {
    } else {
      var n := |listing| - 1;
      RefreshKeeps(p, g, limit, listing[..n], now);
      var r := Refreshed(p, listing[..n], now);
      NoteKeeps(r, g, limit, listing[n], now);
      forall source | source in listing
        ensures var q := Refreshed(p, listing, now);
                if Scrapable(source) then source.id in q.sources && q.sources[source.id] == source
                else source.id !in q.sources
      {
        if source != listing[n] {
          assert source in listing[..n];
          assert source.id != listing[n].id;
        }
      }
    }
  }

  lemma ScrapableMeans(source: Source)
    ensures Scrapable(source) <==> source.state in {Discovered, Active, Stale} && source.endpoint.http
    ensures !Scrapable(source) <==> source.state in {Draining, Ended, Lost} || !source.endpoint.http
  {
  }

  lemma {:induction false} RefreshUnlisted(p: Plan, listing: seq<Source>, now: int, id: string)
    requires forall i :: 0 <= i < |listing| ==> listing[i].id != id
    ensures id in Refreshed(p, listing, now).sources <==> id in p.sources
  {
    hide Scrapable;
    if listing == [] {
    } else {
      RefreshUnlisted(p, listing[..|listing| - 1], now, id);
    }
  }

  /** A scrapable source the scheduler did not know is queued at once. */
  lemma {:induction false} RefreshQueues(p: Plan, g: Registry, limit: nat, listing: seq<Source>, now: int,
                                         source: Source)
    requires Consistent(p, g, limit) && source in listing && Scrapable(source) && source.id !in p.sources
    requires forall i :: 0 <= i < |listing| ==> listing[i].id in g.sources && g.sources[listing[i].id] == listing[i]
    ensures Entry(now, source.id) in Refreshed(p, listing, now).schedule
  {
    hide Count, Scrapable, Ids, Running, Places, Consistent;
    var n := |listing| - 1;
    var prefix := listing[..n];
    var r := Refreshed(p, prefix, now);
    if source in prefix {
      RefreshQueues(p, g, limit, prefix, now, source);
    } else {
      assert listing == prefix + [listing[n]];
      assert source == listing[n];
      forall i | 0 <= i < n ensures prefix[i].id != source.id {
        assert prefix[i] == listing[i];
      }
      RefreshUnlisted(p, prefix, now, source.id);
      RefreshKeeps(p, g, limit, prefix, now);
      Unscheduled(r, g, limit, source);
    }
  }

  lemma Unscheduled(p: Plan, g: Registry, limit: nat, source: Source)
    requires Consistent(p, g, limit) && source.id !in p.sources && source.id in g.sources
    requires g.sources[source.id] == source && Scrapable(source)
    ensures source.id !in p.scheduled
  {
    hide Count, Scrapable, Ids, Running;
    assert Places(p, source.id) == 0;
  }

  /** And the next launch starts it, unless the limit is used up. */
  lemma NewSourceLaunched(p: Plan, g: Registry, limit: nat, listing: seq<Source>, now: int, later: int, source: Source)
    requires Consistent(p, g, limit) && Lists(listing, g) && Keyed(g) && source in listing && now <= later
    requires source.state in {Discovered, Active, Stale} && source.endpoint.http && source.id !in p.sources
    ensures var q := Launched(Refreshed(p, listing, now), later, limit);
            |q.tasks| == limit || Count(Running(q.tasks), source.id) == 1
  {
    hide Launched, Consistent, Count, Running, Ids, RemoveAt, Refreshed;
    ScrapableMeans(source);
    RefreshQueues(p, g, limit, listing, now, source);
    RefreshKeeps(p, g, limit, listing, now);
    var r := Refreshed(p, listing, now);
    LaunchKeeps(r, g, limit, later);
    var q := Launched(r, later, limit);
    if |q.tasks| != limit {
      EntryLaunched(r, q, g, limit, later, Entry(now, source.id));
    }
  }

  /** A refresh leaves the scheduler knowing exactly the scrapable sources, as registered now. */
  lemma RefreshExact(p: Plan, g: Registry, limit: nat, listing: seq<Source>, now: int)
    requires Consistent(p, g, limit) && Lists(listing, g) && Keyed(g)
    ensures var q := Refreshed(p, listing, now);
            q.sources == map id | id in g.sources && g.sources[id].state in {Discovered, Active, Stale}
                                  && g.sources[id].endpoint.http :: g.sources[id]
  {
    hide Count, Places, Scrapable, Refreshed;
    RefreshKeeps(p, g, limit, listing, now);
    var q := Refreshed(p, listing, now);
    forall id | id in g.sources
      ensures Scrapable(g.sources[id])
         <==> g.sources[id].state in {Discovered, Active, Stale} && g.sources[id].endpoint.http
    {
      ScrapableMeans(g.sources[id]);
    }
    forall id
      ensures id in q.sources <==> id in g.sources && Scrapable(g.sources[id])
      ensures id in q.sources ==> q.sources[id] == g.sources[id]
    {
      if id in g.sources {
        assert g.sources[id] in listing;
      }
    }
  }

  lemma BarredStays(g: Registry, h: Registry, id: string)
    requires Onward(g, h) && Barred(g, id)
    ensures Barred(h, id)
  {
  }

  lemma ChangeKeeps(p: Plan, g: Registry, h: Registry, limit: nat)
    requires Consistent(p, g, limit) && Onward(g, h)
    ensures Consistent(p, h, limit)
  {
    hide Count, Places, Barred;
    forall id | Barred(g, id)
      ensures Barred(h, id)
    {
      BarredStays(g, h, id);
    }
  }

  // ---------------------------------------------------------------- whole runs

  /** A listing the repository returned, and the registry it was read from. */
  datatype Listing = Listing(rows: seq<Source>, from: Registry)

  /**
    Reading the table and applying what was read are two steps: the registry may change in between.
    `seen` is the registry of the listing applied last.
   */
  datatype World = World(plan: Plan, registry: Registry, seen: Registry, inHand: Option<Listing>)

  datatype Event =
    | Change(update: Update)
    | List(rows: seq<Source>)
    | Refresh(refreshed: int)
    | Finish(task: nat, hasData: bool, finished: int)
    | Launch(launched: int)

  ghost predicate Enabled(w: World, e: Event) {
    match e
    case List(rows) => Lists(rows, w.registry)
    case Refresh(_) => w.inHand.Some?
    case Finish(task, _, _) => task < |w.plan.tasks|
    case _ => true
  }

  ghost function Step(w: World, e: Event, limit: nat): World
    requires Enabled(w, e)
  {
    match e
    case Change(u) => w.(registry := Updated(w.registry, u))
    case List(rows) => w.(inHand := Some(Listing(rows, w.registry)))
    case Refresh(now) =>
      w.(plan := Refreshed(w.plan, w.inHand.value.rows, now), seen := w.inHand.value.from, inHand := None)
    case Finish(task, hasData, now) => w.(plan := Joined(w.plan, task, hasData, now))
    case Launch(now) => w.(plan := Launched(w.plan, now, limit))
  }

  /** The plan agrees with the listing applied last; a listing in hand is newer, the registry newer still. */
  ghost predicate Sound(w: World, limit: nat) {
    && Consistent(w.plan, w.seen, limit)
    && Keyed(w.registry) && Onward(w.seen, w.registry)
    && (w.inHand.Some? ==> InHandOk(w.inHand.value, w.seen, w.registry))
  }

  ghost predicate InHandOk(l: Listing, seen: Registry, registry: Registry) {
    Lists(l.rows, l.from) && Keyed(l.from) && Onward(seen, l.from) && Onward(l.from, registry)
  }

  lemma StepSound(w: World, e: Event, limit: nat)
    requires Sound(w, limit) && Enabled(w, e)
    ensures Sound(Step(w, e, limit), limit)
    ensures Onward(w.registry, Step(w, e, limit).registry) && Onward(w.seen, Step(w, e, limit).seen)
  {
    hide Consistent, Refreshed, Joined, Launched, Updated, Onward, Keyed, Lists;
    OnwardSelf(w.registry);
    OnwardSelf(w.seen);
    match e
    case Change(u) =>
      UpdateOnward(w.registry, u);
      OnwardTransitive(w.seen, w.registry, Updated(w.registry, u));
      if w.inHand.Some? {
        OnwardTransitive(w.inHand.value.from, w.registry, Updated(w.registry, u));
      }
    case List(rows) =>
    case Refresh(now) =>
      var l := w.inHand.value;
      ChangeKeeps(w.plan, w.seen, l.from, limit);
      ListsRows(l.rows, l.from);
      RefreshKeeps(w.plan, l.from, limit, l.rows, now);
    case Finish(task, hasData, now) =>
      JoinKeeps(w.plan, w.seen, limit, task, hasData, now);
    case Launch(now) =>
      LaunchKeeps(w.plan, w.seen, limit, now);
  }

  lemma ListsRows(rows: seq<Source>, g: Registry)
    requires Lists(rows, g)
    ensures forall i :: 0 <= i < |rows| ==> rows[i].id in g.sources && g.sources[rows[i].id] == rows[i]
  {
  }

  ghost predicate Run(ws: seq<World>, events: seq<Event>, limit: nat) {
    && |ws| == |events| + 1
    && ws[0].plan == EMPTY && ws[0].seen == NO_REGISTRY && ws[0].inHand == None && Keyed(ws[0].registry)
    && forall i :: 0 <= i < |events| ==> Enabled(ws[i], events[i]) && ws[i + 1] == Step(ws[i], events[i], limit)
  }

  lemma {:induction false} RunSound(ws: seq<World>, events: seq<Event>, limit: nat, i: nat)
    requires Run(ws, events, limit) && i < |ws|
    ensures Sound(ws[i], limit)
  {
    hide Enabled, Step;
    if i == 0 {
    } else {
      RunSound(ws, events, limit, i - 1);
      StepSound(ws[i - 1], events[i - 1], limit);
    }
  }

  /** In every run each known source is queued or in flight exactly once, and the limit holds. */
  lemma ExactlyOnePlace(ws: seq<World>, events: seq<Event>, limit: nat, i: nat, id: string)
    requires Run(ws, events, limit) && i < |ws|
    ensures var p := ws[i].plan;
            && |p.tasks| <= limit
            && Places(p, id) <= 1
            && (id in p.sources ==> Places(p, id) == 1)
            && (id in p.scheduled <==> id in Ids(p.schedule))
  {
    RunSound(ws, events, limit, i);
  }

  /** The listing applied last dropped it, or kept it out, because it may not be scraped. */
  predicate Departed(w: World, id: string) {
    Barred(w.seen, id) && id !in w.plan.sources
  }

  /** Applying a listing in which a source is barred makes it depart, whatever changed since it was read. */
  lemma RefreshDeparts(w: World, now: int, limit: nat, id: string)
    requires Sound(w, limit) && w.inHand.Some? && Barred(w.inHand.value.from, id)
    ensures Departed(Step(w, Refresh(now), limit), id)
  {
    hide Count, Places, Scrapable, Refreshed, Consistent, Onward;
    var l := w.inHand.value;
    ChangeKeeps(w.plan, w.seen, l.from, limit);
    RefreshExact(w.plan, l.from, limit, l.rows, now);
    ScrapableMeans(l.from.sources[id]);
  }

  lemma StepDeparted(w: World, e: Event, limit: nat, id: string)
    requires Sound(w, limit) && Enabled(w, e) && Departed(w, id)
    ensures var v := Step(w, e, limit);
            && Departed(v, id) && Places(v.plan, id) <= Places(w.plan, id)
            && Count(Running(v.plan.tasks), id) <= Count(Running(w.plan.tasks), id)
  {
    hide Consistent, Count, Barred, Onward, Lists;
    var p := w.plan;
    match e
    case Refresh(now) =>
      var l := w.inHand.value;
      BarredStays(w.seen, l.from, id);
      ListsRows(l.rows, l.from);
      RefreshDeparted(p, l.from, l.rows, now, id);
    case Finish(task, hasData, now) =>
      JoinPlaces(p, task, hasData, now, id);
    case Launch(now) =>
      KnownById(p, w.seen, limit);
      LaunchDeparted(p, now, limit, id);
    case _ =>
  }

  lemma KnownById(p: Plan, g: Registry, limit: nat)
    requires Consistent(p, g, limit)
    ensures forall x :: x in p.sources ==> p.sources[x].id == x
  {
  }

  lemma {:induction false} RefreshDeparted(p: Plan, g: Registry, listing: seq<Source>, now: int, id: string)
    requires forall i :: 0 <= i < |listing| ==> listing[i].id in g.sources && g.sources[listing[i].id] == listing[i]
    requires Barred(g, id) && id !in p.sources
    ensures var q := Refreshed(p, listing, now);
            id !in q.sources && q.tasks == p.tasks && Count(Ids(q.schedule), id) == Count(Ids(p.schedule), id)
  {
    hide Count, Ids, Scrapable;
    if listing == [] {
    } else {
      var n := |listing| - 1;
      RefreshDeparted(p, g, listing[..n], now, id);
      PushPlaces(Refreshed(p, listing[..n], now), listing[n].id, now, id);
    }
  }

  lemma {:induction false} LaunchDeparted(p: Plan, now: int, limit: nat, id: string)
    requires id !in p.sources && forall x :: x in p.sources ==> p.sources[x].id == x
    ensures var q := Launched(p, now, limit);
            && q.sources == p.sources
            && Count(Ids(q.schedule), id) <= Count(Ids(p.schedule), id)
            && Count(Running(q.tasks), id) == Count(Running(p.tasks), id)
    decreases |p.schedule|
  {
    hide Count, Ids, Running;
    if CanLaunch(p, now, limit) {
      var k := Earliest(p.schedule);
      PopPlaces(p, k, id);
      LaunchDeparted(Popped(p, k), now, limit, id);
    }
  }

  /**
    A source that left for draining, ended or lost never comes back: it is never known again, no new
    scrape of it starts, and once it is out of the heap and the tasks it stays out.
   */
  lemma {:induction false} NeverReenters(ws: seq<World>, events: seq<Event>, limit: nat, i: nat, j: nat, id: string)
    requires Run(ws, events, limit) && i <= j < |ws| && Departed(ws[i], id)
    ensures Departed(ws[j], id)
    ensures Count(Running(ws[j].plan.tasks), id) <= Count(Running(ws[i].plan.tasks), id)
    ensures Places(ws[j].plan, id) <= Places(ws[i].plan, id)
    decreases j
  {
    hide Enabled, Step, Places, Departed, Sound;
    if i < j {
      NeverReenters(ws, events, limit, i, j - 1, id);
      RunSound(ws, events, limit, j - 1);
      StepDeparted(ws[j - 1], events[j - 1], limit, id);
    }
  }

  lemma {:induction false} RegistryBars(ws: seq<World>, events: seq<Event>, limit: nat, i: nat, j: nat, id: string)
    requires Run(ws, events, limit) && i <= j < |ws| && Barred(ws[i].registry, id)
    ensures Barred(ws[j].registry, id)
    decreases j
  {
    hide Enabled, Step, Sound, Barred, Onward;
    if i < j {
      RegistryBars(ws, events, limit, i, j - 1, id);
      RunSound(ws, events, limit, j - 1);
      StepSound(ws[j - 1], events[j - 1], limit);
      BarredStays(ws[j - 1].registry, ws[j].registry, id);
    }
  }

  lemma {:induction false} ListingBars(ws: seq<World>, events: seq<Event>, limit: nat, i: nat, read: nat, j: nat,
                                       id: string)
    requires Run(ws, events, limit) && i <= read < j < |ws| && events[read].List?
    requires Barred(ws[i].registry, id) && ws[j].inHand.Some?
    ensures Barred(ws[j].inHand.value.from, id)
    decreases j
  {
    hide Barred, Updated, Refreshed, Joined, Launched, Lists;
    assert ws[j] == Step(ws[j - 1], events[j - 1], limit);
    if events[j - 1].List? {
      RegistryBars(ws, events, limit, i, j - 1, id);
    } else {
      ListingBars(ws, events, limit, i, read, j - 1, id);
    }
  }

  /**
    Once the registry retires a source, the first listing read after that takes it out for good: from
    the moment it is applied the source is never known or launched again, whatever else happens.
   */
  lemma RetiredLeavesForGood(ws: seq<World>, events: seq<Event>, limit: nat, i: nat, read: nat, applied: nat, j: nat,
                             id: string)
    requires Run(ws, events, limit) && i <= read < applied < j < |ws|
    requires id in ws[i].registry.sources
             && (ws[i].registry.sources[id].state in {Draining, Ended, Lost}
                 || !ws[i].registry.sources[id].endpoint.http)
    requires events[read].List? && events[applied].Refresh?
    ensures id !in ws[j].plan.sources
    ensures Count(Running(ws[j].plan.tasks), id) <= Count(Running(ws[applied].plan.tasks), id)
  {
    ScrapableMeans(ws[i].registry.sources[id]);
    assert Barred(ws[i].registry, id);
    hide Sound, Barred, Refreshed, Launched, Joined, Updated, Count, Running;
    assert Enabled(ws[applied], events[applied]) && ws[applied + 1] == Step(ws[applied], events[applied], limit);
    ListingBars(ws, events, limit, i, read, applied, id);
    RunSound(ws, events, limit, applied);
    RefreshDeparts(ws[applied], events[applied].refreshed, limit, id);
    RefreshTasks(ws[applied].plan, ws[applied].inHand.value.rows, events[applied].refreshed);
    NeverReenters(ws, events, limit, applied + 1, j, id);
  }

  lemma {:induction false} RefreshTasks(p: Plan, listing: seq<Source>, now: int)
    ensures Refreshed(p, listing, now).tasks == p.tasks
  {
    if listing == [] {
    } else {
      RefreshTasks(p, listing[..|listing| - 1], now);
    }
  }
}
