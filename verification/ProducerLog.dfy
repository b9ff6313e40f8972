/**
  What a producer is, independent of its buffer: an append-only log of observations, how much of
  its front has been evicted, and which pages it serves. The class in `Producer` refines this.
 */
module ProducerLog {
  import opened Common
  import opened Text
  import opened Protocol

  const MAX_BATCH_SNAPSHOTS := 256
  const MAX_BUFFER_SNAPSHOTS := 1_000_000
  const MAX_BUFFER_BYTES := 1024 * 1024 * 1024
  const MAX_TEXT_BYTES := 256
  const ENVELOPE_RESERVE := 1024

  datatype Limits = Limits(maxSnapshots: nat, maxBytes: nat)

  predicate ValidLimits(limits: Limits) {
    1 <= limits.maxSnapshots <= MAX_BUFFER_SNAPSHOTS && 1 <= limits.maxBytes <= MAX_BUFFER_BYTES
  }

  predicate ValidText(text: string) {
    Named(text) && Bytes(text) <= MAX_TEXT_BYTES
  }

  /** Retained-memory charge of one observation. */
  function Cost(session: string, body: Body): nat {
    512 + Bytes(session) + body.accounted
  }

  function CostOf(session: string, bodies: seq<Body>): nat {
    if bodies == [] then 0 else Cost(session, bodies[0]) + CostOf(session, bodies[1..])
  }

  lemma CostAppend(session: string, bodies: seq<Body>, body: Body)
    ensures CostOf(session, bodies + [body]) == CostOf(session, bodies) + Cost(session, body)
  {
    if bodies != [] {
      assert (bodies + [body])[1..] == bodies[1..] + [body];
    }
  }

  /** One plus the position of the last observation that is not a tracker event; 0 without one. */
  function Observations(log: seq<Body>): (n: nat)
    ensures n <= |log|
    ensures n > 0 ==> !log[n - 1].header.Event?
    ensures forall i :: n <= i < |log| ==> log[i].header.Event?
  {
    if log == [] then 0
    else if log[|log| - 1].header.Event? then Observations(log[..|log| - 1])
    else |log|
  }

  function LatestCost(session: string, log: seq<Body>): nat {
    var n := Observations(log);
    if n == 0 then 0 else Cost(session, log[n - 1])
  }

  datatype ProducerView = ProducerView(session: string, limits: Limits, log: seq<Body>, dropped: nat, sealed: bool,
                                       released: bool) {

    function At(k: nat): Snapshot
      requires k < |log|
    {
      Snapshot(session, SCHEMA_VERSION, k, log[k])
    }

    /** The latest observation is charged separately once its own entry has been evicted. */
    function Pinned(d: nat): nat {
      if Observations(log) <= d then LatestCost(session, log) else 0
    }

    function Retained(d: nat): nat
      requires d <= |log|
    {
      CostOf(session, log[d..])
    }

    /** With `d` entries evicted there is room for one more. */
    predicate Fits(d: nat, body: Body)
      requires d <= |log|
    {
      && |log| - d < limits.maxSnapshots
      && Retained(d) + Cost(session, body) + (if body.header.Event? then Pinned(d) else 0) <= limits.maxBytes
    }

    /** The pre-check of a batch member: it fits once everything else is gone. */
    predicate Room(body: Body) {
      Cost(session, body) + (if body.header.Event? then LatestCost(session, log) else 0) <= limits.maxBytes
    }

    /** Evict from the front only as far as needed. */
    ghost function LeastDrop(d: nat, body: Body): (r: nat)
      requires d <= |log| && ValidLimits(limits) && Room(body)
      ensures d <= r <= |log| && Fits(r, body)
      ensures forall e :: d <= e < r ==> !Fits(e, body)
      decreases |log| - d
    {
      if d == |log| || Fits(d, body) then d else LeastDrop(d + 1, body)
    }

    ghost function Append(body: Body): ProducerView
      requires dropped <= |log| && ValidLimits(limits) && Room(body)
    {
      this.(log := log + [body], dropped := LeastDrop(dropped, body))
    }

    ghost predicate AllRoom(bodies: seq<Body>)
      decreases |bodies|
    {
      bodies == [] || (Room(bodies[0]) && this.(log := log + [bodies[0]]).AllRoom(bodies[1..]))
    }

    ghost function AppendAll(bodies: seq<Body>): (v: ProducerView)
      requires dropped <= |log| && ValidLimits(limits) && AllRoom(bodies)
      ensures v.log == log + bodies && v.session == session && v.limits == limits
      ensures v.sealed == sealed && v.released == released && dropped <= v.dropped <= |v.log|
      decreases |bodies|
    {
      if bodies == [] then
        assert log + bodies == log;
        this
      else
        AllRoomIgnoresDropped(this.(log := log + [bodies[0]]), Append(bodies[0]).dropped, bodies[1..]);
        assert log + [bodies[0]] + bodies[1..] == log + bodies;
        Append(bodies[0]).AppendAll(bodies[1..])
    }

    // -------------------------------------------------------------- served pages

    /** `oldest_sequence`: the first retained entry, or the next sequence when nothing is. */
    function Oldest(): nat {
      if released then |log| else dropped
    }

    ghost function Range(from: nat, to: nat): (r: seq<Snapshot>)
      requires from <= to <= |log|
      ensures |r| == to - from && forall i :: 0 <= i < to - from ==> r[i] == At(from + i)
    {
      seq(to - from, i requires 0 <= i < to - from => At(from + i))
    }

    /** How many of the candidates the wire budget admits, taken greedily from the front. */
    ghost function Admitted(from: nat, to: nat, used: nat): (n: nat)
      requires from <= to <= |log|
      ensures n <= to - from
      decreases |log| - from
    {
      if from == to || used + At(from).Encoded() + 1 > MAX_PAGE_BYTES then 0
      else 1 + Admitted(from + 1, to, used + At(from).Encoded() + 1)
    }

    ghost function PageAt(after: nat, limit: nat): Page
      requires after <= |log| && dropped <= |log|
    {
      var start := Max(after, Oldest());
      var count := Admitted(start, Min(start + limit, |log|), ENVELOPE_RESERVE + 6 * Bytes(session));
      Page(PROTOCOL_VERSION, session, Oldest(), start + count,
           if after < Oldest() then Some(Oldest()) else None, Range(start, start + count))
    }

    // -------------------------------------------------------------- invariant

    predicate WithinBudget()
      requires dropped <= |log|
    {
      |log| - dropped <= limits.maxSnapshots && Retained(dropped) + Pinned(dropped) <= limits.maxBytes
    }

    /** Captured observations stay valid snapshots under the sequence they were assigned. */
    ghost predicate Valid() {
      && ValidText(session) && ValidLimits(limits)
      && dropped <= |log| <= MAX_SEQUENCE
      && (released ==> sealed)
      && (!released ==> WithinBudget() && (log != [] ==> dropped < |log|))
      && (forall k :: 0 <= k < |log| ==> ValidSnapshot(At(k)))
    }
  }

  lemma AllRoomIgnoresDropped(v: ProducerView, d: nat, bodies: seq<Body>)
    requires v.AllRoom(bodies)
    ensures v.(dropped := d).AllRoom(bodies)
    decreases |bodies|
  {
    if bodies == [] {
    } else {
      AllRoomIgnoresDropped(v.(log := v.log + [bodies[0]]), d, bodies[1..]);
      assert v.(log := v.log + [bodies[0]]).(dropped := d) == v.(dropped := d).(log := v.log + [bodies[0]]);
    }
  }

  lemma SnapshotBytesFront(s: seq<Snapshot>)
    requires s != []
    ensures SnapshotBytes(s) == s[0].Encoded() + 1 + SnapshotBytes(s[1..])
  {
    if |s| > 1 {
      var init := s[..|s| - 1];
      SnapshotBytesFront(init);
      assert init[1..] == s[1..][..|s| - 2];
    }
  }

  /** The admitted prefix stays within the wire budget. */
  lemma AdmittedFits(v: ProducerView, from: nat, to: nat, used: nat)
    requires from <= to <= |v.log| && used <= MAX_PAGE_BYTES
    ensures used + SnapshotBytes(v.Range(from, from + v.Admitted(from, to, used))) <= MAX_PAGE_BYTES
    decreases |v.log| - from
  {
    var n := v.Admitted(from, to, used);
    if n == 0 {
    } else {
      var r := v.Range(from, from + n);
      SnapshotBytesFront(r);
      assert r[1..] == v.Range(from + 1, from + n);
      AdmittedFits(v, from + 1, to, used + v.At(from).Encoded() + 1);
    }
  }

  // ---------------------------------------------------------------- eviction

  /** The eviction loop ends: an admitted member fits at the latest in an empty buffer. */
  lemma RoomFitsEmpty(v: ProducerView, body: Body)
    requires ValidLimits(v.limits) && v.Room(body)
    ensures v.Fits(|v.log|, body)
  {
    assert v.log[|v.log|..] == [];
  }

  lemma ObservationsAppend(log: seq<Body>, body: Body)
    ensures Observations(log + [body]) == if body.header.Event? then Observations(log) else |log| + 1
  {
    assert (log + [body])[..|log|] == log;
  }

  lemma LatestCostAppend(session: string, log: seq<Body>, body: Body)
    ensures LatestCost(session, log + [body])
         == if body.header.Event? then LatestCost(session, log) else Cost(session, body)
  {
    hide Observations, Cost;
    ObservationsAppend(log, body);
  }

  /** Capturing keeps count and byte budgets, the pinned latest observation included. */
  lemma AppendKeepsBudget(v: ProducerView, body: Body)
    requires v.dropped <= |v.log| && ValidLimits(v.limits) && v.Room(body)
    ensures v.Append(body).WithinBudget()
  {
    hide CostOf, Observations, Cost;
    var w := v.Append(body);
    var d := w.dropped;
    assert w.log[d..] == v.log[d..] + [body];
    CostAppend(v.session, v.log[d..], body);
    ObservationsAppend(v.log, body);
    assert v.Fits(d, body);
  }

  /**
    No needless eviction: whenever an append evicts, keeping one entry more would have broken the
    count limit or the byte limit, the latter with the evicted latest observation charged for events.
   */
  lemma EvictionNeeded(v: ProducerView, body: Body)
    requires v.dropped <= |v.log| && ValidLimits(v.limits) && v.Room(body)
    ensures var d := v.Append(body).dropped;
            d > v.dropped ==>
              var pinned := if body.header.Event? && Observations(v.log) < d then LatestCost(v.session, v.log) else 0;
              || |v.log| - (d - 1) >= v.limits.maxSnapshots
              || CostOf(v.session, v.log[d - 1..]) + 512 + Bytes(v.session) + body.accounted
                + pinned > v.limits.maxBytes
  {
    hide CostOf, Observations;
    var d := v.Append(body).dropped;
    if d > v.dropped {
      assert !v.Fits(d - 1, body);
    }
  }

  /** A batch that fits beside everything retained, with the pinned charge, evicts nothing. */
  lemma {:induction false} RoomyBatchEvictsNothing(v: ProducerView, bodies: seq<Body>)
    requires v.dropped <= |v.log| && ValidLimits(v.limits) && v.AllRoom(bodies)
    requires |v.log| - v.dropped + |bodies| <= v.limits.maxSnapshots
    requires CostOf(v.session, v.log[v.dropped..]) + CostOf(v.session, bodies)
             + (if Observations(v.log) <= v.dropped then LatestCost(v.session, v.log) else 0) <= v.limits.maxBytes
    ensures v.AppendAll(bodies).dropped == v.dropped
    decreases |bodies|
  {
    hide Observations, LatestCost;
    if bodies == [] {
    } else {
      var body, w := bodies[0], v.Append(bodies[0]);
      assert v.Fits(v.dropped, body);
      assert w.log[w.dropped..] == v.log[v.dropped..] + [body];
      CostAppend(v.session, v.log[v.dropped..], body);
      ObservationsAppend(v.log, body);
      LatestCostAppend(v.session, v.log, body);
      AllRoomIgnoresDropped(v.(log := v.log + [body]), w.dropped, bodies[1..]);
      RoomyBatchEvictsNothing(w, bodies[1..]);
    }
  }

  /** The pre-check of a batch, member by member. */
  lemma {:induction false} AllRoomMeans(v: ProducerView, bodies: seq<Body>)
    ensures v.AllRoom(bodies) <==> forall i :: 0 <= i < |bodies| ==> RoomAt(v, bodies, i)
    decreases |bodies|
  {
    hide LatestCost;
    if bodies == [] {
    } else {
      var w := v.(log := v.log + [bodies[0]]);
      AllRoomMeans(w, bodies[1..]);
      assert v.log + bodies[..0] == v.log;
      forall i | 0 < i < |bodies|
        ensures RoomAt(v, bodies, i) <==> RoomAt(w, bodies[1..], i - 1)
      {
        assert v.log + bodies[..i] == w.log + bodies[1..][..i - 1];
      }
      if forall i :: 0 <= i < |bodies| ==> RoomAt(v, bodies, i) {
        assert RoomAt(v, bodies, 0);
        forall i | 0 <= i < |bodies[1..]| ensures RoomAt(w, bodies[1..], i) {
          assert RoomAt(v, bodies, i + 1);
        }
      }
    }
  }

  /** The member alone is within the byte limit; an event together with the observation that is latest before it. */
  predicate RoomAt(v: ProducerView, bodies: seq<Body>, i: nat)
    requires i < |bodies|
  {
    512 + Bytes(v.session) + bodies[i].accounted
    + (if bodies[i].header.Event? then LatestCost(v.session, v.log + bodies[..i]) else 0) <= v.limits.maxBytes
  }

  lemma {:induction false} AdmittedMaximal(v: ProducerView, from: nat, to: nat, used: nat)
    requires from <= to <= |v.log|
    ensures var n := v.Admitted(from, to, used);
            from + n < to ==>
              used + SnapshotBytes(v.Range(from, from + n)) + v.At(from + n).Encoded() + 1 > MAX_PAGE_BYTES
    decreases |v.log| - from
  {
    hide Snapshot.Encoded;
    var n := v.Admitted(from, to, used);
    if n == 0 {
    } else {
      AdmittedMaximal(v, from + 1, to, used + v.At(from).Encoded() + 1);
      var r := v.Range(from, from + n);
      SnapshotBytesFront(r);
      assert r[1..] == v.Range(from + 1, from + n);
    }
  }

  /** A page ends early only at its limit or where the next snapshot would break the byte budget. */
  lemma PageMaximal(v: ProducerView, after: nat, limit: nat)
    requires v.dropped <= |v.log| && after <= |v.log|
    ensures var p := v.PageAt(after, limit);
            p.next < |v.log| ==>
              || |p.snapshots| == limit
              || ENVELOPE_RESERVE + 6 * Bytes(v.session) + SnapshotBytes(p.snapshots) + v.At(p.next).Encoded() + 1
                 > MAX_PAGE_BYTES
  {
    hide ProducerView.Admitted, Bytes, SnapshotBytes, Snapshot.Encoded;
    var start := Max(after, v.Oldest());
    AdmittedMaximal(v, start, Min(start + limit, |v.log|), ENVELOPE_RESERVE + 6 * Bytes(v.session));
  }

  /** The last observation that is no event, if its own entry was evicted, still takes its bytes. */
  function PinnedCharge(v: ProducerView): nat {
    var n := Observations(v.log);
    if 0 < n <= v.dropped then 512 + Bytes(v.session) + v.log[n - 1].accounted else 0
  }

  /** Both budgets, with every retained entry and the pinned observation charged. */
  lemma BudgetMeans(v: ProducerView)
    requires v.Valid() && !v.released
    ensures |v.log| - v.dropped <= v.limits.maxSnapshots
    ensures CostOf(v.session, v.log[v.dropped..]) + PinnedCharge(v) <= v.limits.maxBytes
  {
    hide ValidSnapshot, CostOf;
  }

  lemma ValidBasics(v: ProducerView)
    requires v.Valid()
    ensures ValidLimits(v.limits) && v.dropped <= |v.log| <= MAX_SEQUENCE && ValidText(v.session)
    ensures v.released ==> v.sealed
  {
  }

  lemma AppendValid(v: ProducerView, body: Body)
    requires v.Valid() && !v.released && v.Room(body) && |v.log| < MAX_SEQUENCE
    requires ValidSnapshot(Snapshot(v.session, SCHEMA_VERSION, |v.log|, body))
    ensures v.Append(body).Valid()
  {
    hide ValidSnapshot, CostOf, Observations, ProducerView.Fits;
    AppendKeepsBudget(v, body);
    var w := v.Append(body);
    forall k | 0 <= k < |w.log| ensures ValidSnapshot(w.At(k)) {
      if k < |v.log| {
        assert w.At(k) == v.At(k);
      }
    }
  }
}
