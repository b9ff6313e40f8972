/** Runs and their registered sources: the status updates of the engine's repository. */
module Sources {
  import opened Common
  import Protocol

  datatype RunStatus = Created | Running | Finished | Failed | Cancelled

  datatype SourceState = Discovered | Active | Stale | Draining | Ended | Lost

  /** `http` says whether the address parses as an absolute HTTP(S) URL with a host. */
  datatype Endpoint = Endpoint(address: string, http: bool)

  datatype Source = Source(id: string, run: string, attempt: string, role: string, endpoint: Endpoint,
                           node: Option<string>, rank: Option<int>, state: SourceState, session: Option<string>,
                           lastSuccess: Option<int>, lastError: Option<string>, interval: nat, timeout: nat)

  /** What a configured run must agree on when it is named again. */
  datatype RunIdentity = RunIdentity(project: string, experiment: string, name: string, config: string)

  datatype Run = Run(identity: RunIdentity, status: RunStatus, updated: int)

  /** The descriptor last announced by a source, and when it last changed. */
  datatype Described = Described(descriptor: Protocol.Descriptor, updated: int)

  datatype Registry = Registry(runs: map<string, Run>, sources: map<string, Source>,
                               descriptors: map<string, Described>)

  const NO_REGISTRY := Registry(map[], map[], map[])

  datatype UpdateError = UnknownRun | UnknownSource | InvalidTransition | DuplicateId | ConflictingRun

  predicate Terminal(status: RunStatus) {
    status.Finished? || status.Failed? || status.Cancelled?
  }

  predicate Final(state: SourceState) {
    state.Ended? || state.Lost?
  }

  predicate Retired(state: SourceState) {
    state.Draining? || Final(state)
  }

  // ---------------------------------------------------------------- updates

  predicate ValidRunTransition(current: RunStatus, target: RunStatus) {
    current == target || (current.Created? && !target.Created?) || (current.Running? && Terminal(target))
  }

  predicate ValidSourceTransition(current: SourceState, target: SourceState) {
    current == target || (!Retired(current) && Retired(target)) || (current.Draining? && Final(target))
  }

  function EndSources(sources: map<string, Source>, run: string, state: SourceState): map<string, Source> {
    map id | id in sources ::
      if sources[id].run == run && !Final(sources[id].state) then sources[id].(state := state) else sources[id]
  }

  function WithRunStatus(g: Registry, run: string, target: RunStatus, now: int): Registry
    requires run in g.runs
  {
    if g.runs[run].status == target then g
    else
      var runs := g.runs[run := g.runs[run].(status := target, updated := now)];
      match target
      case Finished => g.(runs := runs, sources := EndSources(g.sources, run, Ended))
      case Cancelled => g.(runs := runs, sources := EndSources(g.sources, run, Ended))
      case Failed => g.(runs := runs, sources := EndSources(g.sources, run, Lost))
      case Created => g.(runs := runs)
      case Running => g.(runs := runs)
  }

  /** The guard shared by the success and failure updates: neither the source nor its run is over. */
  predicate Scraping(g: Registry, id: string) {
    && id in g.sources && !Retired(g.sources[id].state)
    && g.sources[id].run in g.runs && !Terminal(g.runs[g.sources[id].run].status)
  }

  function WithState(g: Registry, id: string, state: SourceState): Registry
    requires id in g.sources
  {
    g.(sources := g.sources[id := g.sources[id].(state := state)])
  }

  /** A source answered with this descriptor. */
  datatype Scraped = Scraped(id: string, descriptor: Protocol.Descriptor)

  /** First statement: the source row, if it is still being scraped. */
  function Activated(g: Registry, s: Scraped, now: int): Registry {
    if Scraping(g, s.id)
    then g.(sources := g.sources[s.id := g.sources[s.id].(state := Active, session := Some(s.descriptor.session),
                                                         lastSuccess := Some(now), lastError := None)])
    else g
  }

  /** Second statement: the descriptor, rewritten only when it changed. */
  function Announced(g: Registry, s: Scraped, now: int): Registry {
    if s.id in g.descriptors && g.descriptors[s.id].descriptor == s.descriptor then g
    else g.(descriptors := g.descriptors[s.id := Described(s.descriptor, now)])
  }

  /** Third statement: a run whose source answers has started. */
  function Started(g: Registry, id: string, now: int): Registry {
    if id in g.sources && g.sources[id].run in g.runs && g.runs[g.sources[id].run].status.Created?
    then
      var run := g.sources[id].run;
      g.(runs := g.runs[run := g.runs[run].(status := Running, updated := now)])
    else g
  }

  function Succeeded(g: Registry, s: Scraped, now: int): Registry {
    Started(Announced(Activated(g, s, now), s, now), s.id, now)
  }

  function SucceededAll(g: Registry, scraped: seq<Scraped>, now: int): Registry {
    if scraped == [] then g else Succeeded(SucceededAll(g, scraped[..|scraped| - 1], now), scraped[|scraped| - 1], now)
  }

  predicate SameEndpoint(a: Source, b: Source) {
    a.run == b.run && a.endpoint == b.endpoint
  }

  /** A second registration of a run's endpoint refreshes its settings, not its identity or progress. */
  function Reconfigured(stored: Source, given: Source): Source {
    stored.(attempt := given.attempt, role := given.role, node := given.node, rank := given.rank,
            interval := given.interval, timeout := given.timeout)
  }

  function Registered(g: Registry, source: Source): Registry {
    if exists id :: id in g.sources && SameEndpoint(g.sources[id], source)
    then g.(sources := map id | id in g.sources ::
              if SameEndpoint(g.sources[id], source) then Reconfigured(g.sources[id], source) else g.sources[id])
    else g.(sources := g.sources[source.id := source])
  }

  // ---------------------------------------------------------------- what every update keeps

  datatype Update =
    | NewRun(run: string, identity: RunIdentity, created: int)
    | RunUpdate(run: string, status: RunStatus, changed: int)
    | Control(id: string, state: SourceState)
    | Register(source: Source)
    | Success(scraped: seq<Scraped>, succeeded: int)
    | Failure(id: string, error: string)

  /** Another source already has this id. */
  predicate Taken(g: Registry, source: Source) {
    source.id in g.sources && forall id :: id in g.sources ==> !SameEndpoint(g.sources[id], source)
  }

  /** The registry after one update; a refused update changes nothing. */
  function Updated(g: Registry, u: Update): Registry {
    match u
    case NewRun(run, identity, now) =>
      if run in g.runs then g else g.(runs := g.runs[run := Run(identity, Created, now)])
    case RunUpdate(run, status, now) =>
      if run in g.runs && ValidRunTransition(g.runs[run].status, status) then WithRunStatus(g, run, status, now) else g
    case Control(id, state) =>
      if id in g.sources && ValidSourceTransition(g.sources[id].state, state) then WithState(g, id, state) else g
    case Register(source) => if source.run !in g.runs || Taken(g, source) then g else Registered(g, source)
    case Success(scraped, now) => SucceededAll(g, scraped, now)
    case Failure(id, error) =>
      if Scraping(g, id) then g.(sources := g.sources[id := g.sources[id].(state := Stale, lastError := Some(error))])
      else g
  }

  /** Ended and lost are final, draining only ends, and nothing is discovered again. */
  predicate Forward(a: SourceState, b: SourceState) {
    (Final(a) ==> b == a) && (Retired(a) ==> Retired(b)) && (b.Discovered? ==> a.Discovered?)
  }

  predicate RunForward(a: RunStatus, b: RunStatus) {
    (Terminal(a) ==> b == a) && (b.Created? ==> a.Created?)
  }

  ghost predicate Onward(g: Registry, h: Registry) {
    && (forall run :: run in g.runs ==> run in h.runs && RunForward(g.runs[run].status, h.runs[run].status))
    && (forall id :: id in g.sources ==>
          id in h.sources && SameEndpoint(g.sources[id], h.sources[id])
            && Forward(g.sources[id].state, h.sources[id].state))
  }

  ghost predicate Keyed(g: Registry) {
    forall id :: id in g.sources ==> g.sources[id].id == id
  }

  /** A run has each endpoint once. */
  ghost predicate OnePerEndpoint(g: Registry) {
    forall a, b :: a in g.sources && b in g.sources && SameEndpoint(g.sources[a], g.sources[b]) ==> a == b
  }

  lemma OnwardTransitive(f: Registry, g: Registry, h: Registry)
    requires Onward(f, g) && Onward(g, h)
    ensures Onward(f, h)
  {
  }

  lemma OnwardSelf(g: Registry)
    ensures Onward(g, g)
  {
  }

  lemma StartedOnward(g: Registry, id: string, now: int)
    ensures Onward(g, Started(g, id, now))
    ensures Keyed(g) ==> Keyed(Started(g, id, now))
  {
  }

  lemma ActivatedOnward(g: Registry, s: Scraped, now: int)
    ensures Onward(g, Activated(g, s, now)) && Onward(g, Announced(Activated(g, s, now), s, now))
    ensures Keyed(g) ==> Keyed(Announced(Activated(g, s, now), s, now))
  {
  }

  lemma SuccessOnward(g: Registry, s: Scraped, now: int)
    ensures Onward(g, Succeeded(g, s, now))
    ensures Keyed(g) ==> Keyed(Succeeded(g, s, now))
  {
    hide Onward, Keyed, Started, Announced, Activated;
    var announced := Announced(Activated(g, s, now), s, now);
    ActivatedOnward(g, s, now);
    StartedOnward(announced, s.id, now);
    OnwardTransitive(g, announced, Succeeded(g, s, now));
  }

  lemma {:induction false} BatchOnward(g: Registry, scraped: seq<Scraped>, now: int)
    ensures Onward(g, SucceededAll(g, scraped, now))
    ensures Keyed(g) ==> Keyed(SucceededAll(g, scraped, now))
  {
    hide Onward, Keyed, Succeeded;
    if scraped == [] {
      OnwardSelf(g);
    } else {
      var n := |scraped| - 1;
      BatchOnward(g, scraped[..n], now);
      SuccessOnward(SucceededAll(g, scraped[..n], now), scraped[n], now);
      OnwardTransitive(g, SucceededAll(g, scraped[..n], now), SucceededAll(g, scraped, now));
    }
  }

  lemma RunOnward(g: Registry, run: string, status: RunStatus, now: int)
    requires run in g.runs && ValidRunTransition(g.runs[run].status, status)
    ensures Onward(g, WithRunStatus(g, run, status, now))
    ensures Keyed(g) ==> Keyed(WithRunStatus(g, run, status, now))
  {
  }

  lemma RegisterOnward(g: Registry, source: Source)
    requires !Taken(g, source)
    ensures Onward(g, Registered(g, source))
    ensures Keyed(g) ==> Keyed(Registered(g, source))
  {
  }

  /** After a registration the run has the endpoint, and only where it had it before or at the new id. */
  lemma RegisteredRow(g: Registry, source: Source)
    ensures var h := Registered(g, source);
            && (exists id :: id in h.sources && SameEndpoint(h.sources[id], source))
            && (forall id :: id in g.sources && SameEndpoint(g.sources[id], source) ==>
                  id in h.sources && h.sources[id] == Reconfigured(g.sources[id], source))
            && (forall id :: id in h.sources && SameEndpoint(h.sources[id], source) ==>
                  (id in g.sources && SameEndpoint(g.sources[id], source)) || h.sources[id] == source)
  {
    var h := Registered(g, source);
    if exists id :: id in g.sources && SameEndpoint(g.sources[id], source) {
      var id :| id in g.sources && SameEndpoint(g.sources[id], source);
      assert id in h.sources && SameEndpoint(h.sources[id], source);
    } else {
      assert source.id in h.sources && SameEndpoint(h.sources[source.id], source);
    }
  }

  lemma RowOnward(g: Registry, id: string, row: Source)
    requires id in g.sources && SameEndpoint(g.sources[id], row) && Forward(g.sources[id].state, row.state)
    requires row.id == g.sources[id].id
    ensures Onward(g, g.(sources := g.sources[id := row]))
    ensures Keyed(g) ==> Keyed(g.(sources := g.sources[id := row]))
  {
  }

  /** No update deletes a row, moves an endpoint, or lets a retired source or finished run back. */
  lemma UpdateOnward(g: Registry, u: Update)
    ensures Onward(g, Updated(g, u))
    ensures Keyed(g) ==> Keyed(Updated(g, u))
  {
    hide WithRunStatus, Registered, SucceededAll, Taken;
    match u
    case NewRun(_, _, _) =>
    case RunUpdate(run, status, now) =>
      if run in g.runs && ValidRunTransition(g.runs[run].status, status) {
        RunOnward(g, run, status, now);
      }
    case Control(id, state) =>
      if id in g.sources && ValidSourceTransition(g.sources[id].state, state) {
        RowOnward(g, id, g.sources[id].(state := state));
      }
    case Register(source) =>
      if !Taken(g, source) {
        RegisterOnward(g, source);
      }
    case Success(scraped, now) =>
      BatchOnward(g, scraped, now);
    case Failure(id, error) =>
      if Scraping(g, id) {
        RowOnward(g, id, g.sources[id].(state := Stale, lastError := Some(error)));
      }
  }

  lemma SameRowsOnePer(g: Registry, h: Registry)
    requires Onward(g, h) && h.sources.Keys <= g.sources.Keys && OnePerEndpoint(g)
    ensures OnePerEndpoint(h)
  {
    forall a, b | a in h.sources && b in h.sources && SameEndpoint(h.sources[a], h.sources[b])
      ensures a == b
    {
      assert a in g.sources && b in g.sources;
      assert SameEndpoint(g.sources[a], g.sources[b]);
    }
  }

  lemma {:induction false} BatchKeys(g: Registry, scraped: seq<Scraped>, now: int)
    ensures SucceededAll(g, scraped, now).sources.Keys == g.sources.Keys
  {
    if scraped == [] {
    } else {
      BatchKeys(g, scraped[..|scraped| - 1], now);
    }
  }

  lemma RegisterOnePer(g: Registry, source: Source)
    requires OnePerEndpoint(g)
    ensures OnePerEndpoint(Registered(g, source))
  {
  }

  /** No update gives a run the same endpoint twice. */
  lemma UpdateOnePerEndpoint(g: Registry, u: Update)
    requires OnePerEndpoint(g)
    ensures OnePerEndpoint(Updated(g, u))
  {
    hide OnePerEndpoint, Onward, Registered, SucceededAll, Taken;
    match u
    case Register(source) =>
      if source.run in g.runs && !Taken(g, source) {
        RegisterOnePer(g, source);
      }
    case Success(scraped, now) =>
      BatchKeys(g, scraped, now);
      UpdateOnward(g, u);
      SameRowsOnePer(g, Updated(g, u));
    case _ =>
      UpdateOnward(g, u);
      SameRowsOnePer(g, Updated(g, u));
  }

  // ---------------------------------------------------------------- what the transitions and the scrape updates mean

  /** How far a run or a source has come: only ever forward, by any number of stages. */
  function RunStage(status: RunStatus): nat {
    match status
    case Created => 0
    case Running => 1
    case Finished => 2
    case Failed => 2
    case Cancelled => 2
  }

  function SourceStage(state: SourceState): nat {
    match state
    case Discovered => 0
    case Active => 0
    case Stale => 0
    case Draining => 1
    case Ended => 2
    case Lost => 2
  }

  lemma TransitionsAdvance(a: RunStatus, b: RunStatus, c: SourceState, d: SourceState)
    ensures ValidRunTransition(a, b) <==> a == b || RunStage(a) < RunStage(b)
    ensures ValidSourceTransition(c, d) <==> c == d || SourceStage(c) < SourceStage(d)
  {
  }

  /** The row of a source that answered: active, with the session it announced, the time, and no error. */
  predicate Answering(row: Source, session: string, now: int) {
    row.state == Active && row.session == Some(session) && row.lastSuccess == Some(now) && row.lastError == None
  }

  /** Neither draining, ended nor lost, and its run neither finished, failed nor cancelled. */
  predicate Live(g: Registry, id: string) {
    && id in g.sources && g.sources[id].state in {Discovered, Active, Stale}
    && g.sources[id].run in g.runs && g.runs[g.sources[id].run].status in {Created, Running}
  }

  predicate HasStarted(g: Registry, run: string) {
    run in g.runs && g.runs[run].status == Running
  }

  predicate NotNamed(scraped: seq<Scraped>, id: string) {
    forall i :: 0 <= i < |scraped| ==> scraped[i].id != id
  }

  /** The descriptor of the last entry that names the source. */
  function LastNamed(scraped: seq<Scraped>, id: string): Protocol.Descriptor
    requires !NotNamed(scraped, id)
  {
    var n := |scraped| - 1;
    if scraped[n].id == id then scraped[n].descriptor else LastNamed(scraped[..n], id)
  }

  lemma SuccessRow(g: Registry, s: Scraped, now: int, id: string)
    requires id in g.sources
    ensures var h := Succeeded(g, s, now);
            && id in h.sources && h.sources[id].run == g.sources[id].run && (Live(g, id) <==> Live(h, id))
            && (!Live(g, id) || s.id != id ==> h.sources[id] == g.sources[id])
            && (Live(g, id) && s.id == id ==> Answering(h.sources[id], s.descriptor.session, now))
  {
  }

  lemma SuccessRun(g: Registry, s: Scraped, now: int, id: string)
    requires id in g.sources
    ensures var h := Succeeded(g, s, now);
            && (Live(g, id) && s.id == id ==> HasStarted(h, g.sources[id].run))
            && (HasStarted(g, g.sources[id].run) ==> HasStarted(h, g.sources[id].run))
  {
  }

  lemma SuccessDescriptor(g: Registry, s: Scraped, now: int, id: string)
    ensures var h := Succeeded(g, s, now);
            && (s.id != id && id in g.descriptors ==> id in h.descriptors && h.descriptors[id] == g.descriptors[id])
            && (s.id == id ==> id in h.descriptors && h.descriptors[id].descriptor == s.descriptor)
  {
  }

  /**
    A batch of successful scrapes: each live source named in it ends up answering with the session of
    its last descriptor, and its run has started; a source not named, or not live, keeps its row.
   */
  lemma {:induction false} BatchAnswers(g: Registry, scraped: seq<Scraped>, now: int, id: string)
    requires id in g.sources
    ensures var h := SucceededAll(g, scraped, now);
            && id in h.sources && h.sources[id].run == g.sources[id].run && (Live(g, id) <==> Live(h, id))
            && (!Live(g, id) || NotNamed(scraped, id) ==> h.sources[id] == g.sources[id])
            && (Live(g, id) && !NotNamed(scraped, id) ==>
                  Answering(h.sources[id], LastNamed(scraped, id).session, now) && HasStarted(h, g.sources[id].run))
            && (HasStarted(g, g.sources[id].run) ==> HasStarted(h, g.sources[id].run))
  {
    hide Live, Answering, HasStarted, Succeeded;
    if scraped == [] {
    } else {
      var n := |scraped| - 1;
      var before := SucceededAll(g, scraped[..n], now);
      BatchAnswers(g, scraped[..n], now, id);
      SuccessRow(before, scraped[n], now, id);
      SuccessRun(before, scraped[n], now, id);
      NamedLast(scraped, id);
    }
  }

  lemma NamedLast(scraped: seq<Scraped>, id: string)
    requires scraped != []
    ensures var n := |scraped| - 1;
            NotNamed(scraped, id) <==> NotNamed(scraped[..n], id) && scraped[n].id != id
  {
    var n := |scraped| - 1;
    assert scraped == scraped[..n] + [scraped[n]];
  }

  /** And the last descriptor of every source named is stored; the others stay as they were. */
  lemma {:induction false} BatchDescribes(g: Registry, scraped: seq<Scraped>, now: int, id: string)
    ensures var h := SucceededAll(g, scraped, now);
            && (NotNamed(scraped, id) && id in g.descriptors ==>
                id in h.descriptors && h.descriptors[id] == g.descriptors[id])
            && (!NotNamed(scraped, id) ==>
                id in h.descriptors && h.descriptors[id].descriptor == LastNamed(scraped, id))
  {
    hide Succeeded;
    if scraped == [] {
    } else {
      var n := |scraped| - 1;
      BatchDescribes(g, scraped[..n], now, id);
      SuccessDescriptor(SucceededAll(g, scraped[..n], now), scraped[n], now, id);
      NamedLast(scraped, id);
    }
  }

  // ---------------------------------------------------------------- whole runs of updates

  function UpdatedAll(g: Registry, updates: seq<Update>): Registry {
    if updates == [] then g else Updated(UpdatedAll(g, updates[..|updates| - 1]), updates[|updates| - 1])
  }

  lemma {:induction false} UpdatesOnward(g: Registry, updates: seq<Update>)
    ensures Onward(g, UpdatedAll(g, updates))
    ensures Keyed(g) ==> Keyed(UpdatedAll(g, updates))
    ensures OnePerEndpoint(g) ==> OnePerEndpoint(UpdatedAll(g, updates))
  {
    hide Onward, Keyed, Updated, OnePerEndpoint;
    if updates == [] {
      OnwardSelf(g);
    } else {
      var n := |updates| - 1;
      UpdatesOnward(g, updates[..n]);
      UpdateOnward(UpdatedAll(g, updates[..n]), updates[n]);
      if OnePerEndpoint(g) {
        UpdateOnePerEndpoint(UpdatedAll(g, updates[..n]), updates[n]);
      }
      OnwardTransitive(g, UpdatedAll(g, updates[..n]), UpdatedAll(g, updates));
    }
  }

  /** Ending a run is for good: whatever follows, the run keeps its status and each of its sources its final state. */
  lemma RunEndsForGood(g: Registry, run: string, status: RunStatus, now: int, later: seq<Update>, id: string)
    requires run in g.runs && !Terminal(g.runs[run].status) && Terminal(status)
    requires id in g.sources && g.sources[id].run == run
    ensures var h := UpdatedAll(Updated(g, RunUpdate(run, status, now)), later);
            && run in h.runs && h.runs[run].status == status
            && id in h.sources && h.sources[id].run == run
            && h.sources[id].state == (if Final(g.sources[id].state) then g.sources[id].state
                                       else if status.Failed? then Lost else Ended)
  {
    hide UpdatedAll, Scraping, SucceededAll, Registered;
    var ended := Updated(g, RunUpdate(run, status, now));
    assert ended.runs[run].status == status && Final(ended.sources[id].state);
    UpdatesOnward(ended, later);
  }

  // ---------------------------------------------------------------- the repository

  class Repository {
    var data: Registry

    constructor ()
      ensures data == NO_REGISTRY
    {
      data := NO_REGISTRY;
    }

    /** A configured run is created once; naming it again must agree with what is stored. */
    method EnsureRun(run: string, identity: RunIdentity, now: int) returns (r: Result<Run, UpdateError>)
      modifies this
      ensures r.Err? <==> run in old(data.runs) && old(data.runs)[run].identity != identity
      ensures r.Err? ==> r.error == ConflictingRun && data == old(data)
      ensures r.Ok? ==> run in data.runs && r.value == data.runs[run] && r.value.identity == identity
      ensures r.Ok? ==> r.value == if run in old(data.runs) then old(data.runs)[run] else Run(identity, Created, now)
      ensures r.Ok? ==> data == Updated(old(data), NewRun(run, identity, now))
      ensures Onward(old(data), data)
    {
      UpdateOnward(data, NewRun(run, identity, now));
      OnwardSelf(data);
      if run in data.runs {
        if data.runs[run].identity != identity {
          return Err(ConflictingRun);
        }
      } else {
        data := data.(runs := data.runs[run := Run(identity, Created, now)]);
      }
      return Ok(data.runs[run]);
    }

    method UpdateRunStatus(run: string, target: RunStatus, now: int) returns (r: Result<RunStatus, UpdateError>)
      modifies this
      ensures data == Updated(old(data), RunUpdate(run, target, now)) && Onward(old(data), data)
      ensures r.Ok? <==> run in old(data.runs) && ValidRunTransition(old(data.runs)[run].status, target)
      ensures r.Ok? ==> r.value == target == data.runs[run].status
      ensures r.Err? ==> data == old(data)
      ensures r.Err? ==> r.error == if run in old(data.runs) then InvalidTransition else UnknownRun
    {
      hide Onward;
      UpdateOnward(data, RunUpdate(run, target, now));
      if run !in data.runs {
        return Err(UnknownRun);
      }
      var current := data.runs[run].status;
      if !ValidRunTransition(current, target) {
        return Err(InvalidTransition);
      }
      if current != target {
        data := data.(runs := data.runs[run := data.runs[run].(status := target, updated := now)]);
        if Terminal(target) {
          var state := if target.Failed? then Lost else Ended;
          data := data.(sources := EndSources(data.sources, run, state));
        }
      }
      return Ok(data.runs[run].status);
    }

    method UpdateSourceState(id: string, target: SourceState) returns (r: Result<Source, UpdateError>)
      modifies this
      ensures data == Updated(old(data), Control(id, target)) && Onward(old(data), data)
      ensures r.Ok? <==> id in old(data.sources) && ValidSourceTransition(old(data.sources)[id].state, target)
      ensures r.Ok? ==> r.value == data.sources[id] == old(data.sources)[id].(state := target)
      ensures r.Err? ==> data == old(data)
      ensures r.Err? ==> r.error == if id in old(data.sources) then InvalidTransition else UnknownSource
    {
      hide Onward;
      UpdateOnward(data, Control(id, target));
      if id !in data.sources {
        return Err(UnknownSource);
      }
      var current := data.sources[id];
      if !ValidSourceTransition(current.state, target) {
        return Err(InvalidTransition);
      }
      if current.state != target {
        data := data.(sources := data.sources[id := current.(state := target)]);
      }
      assert data.sources == old(data.sources)[id := current.(state := target)];
      return Ok(data.sources[id]);
    }

    /** Answers with the stored row: the new one, or the one this run already has for the endpoint. */
    method RegisterSource(source: Source) returns (r: Result<Source, UpdateError>)
      modifies this
      ensures data == Updated(old(data), Register(source)) && Onward(old(data), data)
      ensures r.Err? ==> data == old(data)
      ensures r.Err? <==> source.run !in old(data.runs) || Taken(old(data), source)
      ensures r.Ok? ==> exists id :: id in data.sources && r.value == data.sources[id] && SameEndpoint(r.value, source)
      ensures r.Ok? && (forall id :: id in old(data.sources) ==> !SameEndpoint(old(data.sources)[id], source)) ==>
              r.value == source
      ensures r.Ok? && OnePerEndpoint(old(data)) ==>
                forall id :: id in old(data.sources) && SameEndpoint(old(data.sources)[id], source) ==>
                  r.value == old(data.sources)[id].(attempt := source.attempt, role := source.role, node := source.node,
                                                    rank := source.rank, interval := source.interval,
                                                    timeout := source.timeout)
      ensures r.Ok? ==> forall id :: id in old(data.sources) && !SameEndpoint(old(data.sources)[id], source) ==>
                data.sources[id] == old(data.sources)[id]
    {
      hide Onward;
      UpdateOnward(data, Register(source));
      if source.run !in data.runs {
        return Err(UnknownRun);
      }
      if Taken(data, source) {
        return Err(DuplicateId);
      }
      RegisteredRow(data, source);
      data := Registered(data, source);
      var id :| id in data.sources && SameEndpoint(data.sources[id], source);
      return Ok(data.sources[id]);
    }

    method UpdateSourceSuccessBatch(scraped: seq<Scraped>, now: int)
      modifies this
      ensures data == SucceededAll(old(data), scraped, now) && Onward(old(data), data)
    {
      hide Onward;
      UpdateOnward(data, Success(scraped, now));
      var transaction := data;
      for i := 0 to |scraped|
        invariant transaction == SucceededAll(data, scraped[..i], now) && data == old(data)
      {
        assert scraped[..i + 1][..i] == scraped[..i];
        var s := scraped[i];
        if Scraping(transaction, s.id) {
          var row := transaction.sources[s.id].(state := Active, session := Some(s.descriptor.session),
                                                lastSuccess := Some(now), lastError := None);
          transaction := transaction.(sources := transaction.sources[s.id := row]);
        }
        if s.id !in transaction.descriptors || transaction.descriptors[s.id].descriptor != s.descriptor {
          transaction := transaction.(descriptors := transaction.descriptors[s.id := Described(s.descriptor, now)]);
        }
        transaction := Started(transaction, s.id, now);
      }
      assert scraped[..|scraped|] == scraped;
      data := transaction;
    }

    /** A failed scrape marks the source stale if it is still being scraped, and touches nothing else. */
    method UpdateSourceFailure(id: string, error: string)
      modifies this
      ensures data.runs == old(data.runs) && data.descriptors == old(data.descriptors)
              && data.sources.Keys == old(data.sources).Keys
      ensures forall other :: other in old(data.sources) && other != id ==>
              data.sources[other] == old(data.sources)[other]
      ensures id in old(data.sources) ==>
                var before, after := old(data.sources)[id], data.sources[id];
                && (after == before || after == before.(state := Stale, lastError := Some(error)))
                && (Retired(before.state) ==> after == before)
                && (before.run in old(data.runs) ==>
                      (after == before.(state := Stale, lastError := Some(error))
                       || Retired(before.state) || Terminal(old(data.runs)[before.run].status)))
      ensures id in old(data.sources) ==>
                data.sources[id] == if old(Live(data, id))
                  then old(data.sources)[id].(state := Stale, lastError := Some(error))
                                    else old(data.sources)[id]
      ensures data == Updated(old(data), Failure(id, error)) && Onward(old(data), data)
    {
      hide Onward;
      UpdateOnward(data, Failure(id, error));
      if Scraping(data, id) {
        data := data.(sources := data.sources[id := data.sources[id].(state := Stale, lastError := Some(error))]);
      }
    }
  }
}
