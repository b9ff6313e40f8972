/** The bounded snapshot buffer with its counters, refining the log of `ProducerLog`. */
module Producer {
  import opened Common
  import opened Text
  import opened Protocol
  import opened ProducerLog

  datatype ProducerError = InvalidInput | Sealed | SequenceExhausted | SnapshotUnavailable

  datatype Receipt = Receipt(first: nat, next: nat, accepted: nat, dropped: nat)

  datatype Stats = Stats(bufferedSnapshots: nat, bufferedBytes: nat, dropped: nat, oldest: nat, next: nat, sealed: bool)

  datatype Buffered = Buffered(snapshot: Snapshot, bytes: nat)

  // ---------------------------------------------------------------- batch validation

  /** What a captured observation must meet before it is assigned a sequence. */
  ghost predicate ValidBody(session: string, limits: Limits, body: Body) {
    && (forall name :: name in body.axes ==> ValidText(name))
    && ValidSnapshot(Snapshot(session, SCHEMA_VERSION, 0, body))
    && Cost(session, body) <= limits.maxBytes
  }

  function BatchBytes(bodies: seq<Body>): nat {
    if bodies == [] then 2 else BatchBytes(bodies[..|bodies| - 1]) + bodies[|bodies| - 1].encoded + 1
  }

  lemma BatchBytesMonotone(bodies: seq<Body>, n: nat)
    requires n <= |bodies|
    ensures BatchBytes(bodies[..n]) <= BatchBytes(bodies)
  {
    if n == |bodies| {
      assert bodies[..n] == bodies;
    } else {
      BatchBytesMonotone(bodies[..|bodies| - 1], n);
      assert bodies[..|bodies| - 1][..n] == bodies[..n];
    }
  }

  ghost predicate ValidBatch(session: string, limits: Limits, bodies: seq<Body>) {
    && 1 <= |bodies| <= MAX_BATCH_SNAPSHOTS
    && (forall i :: 0 <= i < |bodies| ==> ValidBody(session, limits, bodies[i]))
    && BatchBytes(bodies) <= MAX_PAGE_BYTES
  }

  method ValidateBody(session: string, limits: Limits, body: Body) returns (ok: bool)
    ensures ok <==> ValidBody(session, limits, body)
  {
    ok := ValidateSnapshot(Snapshot(session, SCHEMA_VERSION, 0, body));
    ok := ok && (forall name :: name in body.axes ==> ValidText(name)) && Cost(session, body) <= limits.maxBytes;
  }

  method ValidateBatch(session: string, limits: Limits, bodies: seq<Body>) returns (ok: bool)
    ensures ok <==> ValidBatch(session, limits, bodies)
  {
    hide ValidBody;
    if !(1 <= |bodies| <= MAX_BATCH_SNAPSHOTS) {
      return false;
    }
    var bytes := 2;
    for i := 0 to |bodies|
      invariant bytes == BatchBytes(bodies[..i])
      invariant i > 0 ==> bytes <= MAX_PAGE_BYTES
      invariant forall j :: 0 <= j < i ==> ValidBody(session, limits, bodies[j])
    {
      ok := ValidateBody(session, limits, bodies[i]);
      if !ok {
        return false;
      }
      bytes := bytes + bodies[i].encoded + 1;
      assert bodies[..i + 1][..i] == bodies[..i];
      if bytes > MAX_PAGE_BYTES {
        BatchBytesMonotone(bodies, i + 1);
        return false;
      }
    }
    assert bodies[..|bodies|] == bodies;
    return true;
  }

  /** Assigning sequence `k` only adds digits; everything else was checked at sequence 0. */
  lemma AssignedStaysValid(session: string, limits: Limits, body: Body, k: nat)
    requires ValidBody(session, limits, body) && k < MAX_SEQUENCE
    requires body.encoded + Digits(k) - 1 <= MAX_SNAPSHOT_BYTES
    ensures ValidSnapshot(Snapshot(session, SCHEMA_VERSION, k, body))
  {
  }

  /** Exactly when a batch is captured. */
  ghost predicate Capturable(v: ProducerView, bodies: seq<Body>) {
    && !v.sealed
    && ValidBatch(v.session, v.limits, bodies)
    && |v.log| + |bodies| <= MAX_SEQUENCE
    && (forall i :: 0 <= i < |bodies| ==> bodies[i].encoded + Digits(|v.log| + i) - 1 <= MAX_SNAPSHOT_BYTES)
    && v.AllRoom(bodies)
  }

  /** What the documentation asks of a batch, member by member. */
  ghost predicate WithinLimits(v: ProducerView, bodies: seq<Body>) {
    && !v.sealed && 1 <= |bodies| <= MAX_BATCH_SNAPSHOTS && BatchBytes(bodies) <= MAX_PAGE_BYTES
    && |v.log| + |bodies| <= MAX_SEQUENCE
    && forall i :: 0 <= i < |bodies| ==> MemberWithinLimits(v, bodies, i)
  }

  ghost predicate MemberWithinLimits(v: ProducerView, bodies: seq<Body>, i: nat)
    requires i < |bodies|
  {
    && (forall name :: name in bodies[i].axes ==> ValidText(name))
    && ValidSnapshot(Snapshot(v.session, SCHEMA_VERSION, 0, bodies[i]))
    && bodies[i].encoded + Digits(|v.log| + i) - 1 <= MAX_SNAPSHOT_BYTES
    && 512 + Bytes(v.session) + bodies[i].accounted <= v.limits.maxBytes
    && RoomAt(v, bodies, i)
  }

  lemma CapturableMeans(v: ProducerView, bodies: seq<Body>)
    ensures Capturable(v, bodies) <==> WithinLimits(v, bodies)
  {
    AllRoomMeans(v, bodies);
    forall i | 0 <= i < |bodies|
      ensures MemberWithinLimits(v, bodies, i)
         <==> ValidBody(v.session, v.limits, bodies[i])
              && bodies[i].encoded + Digits(|v.log| + i) - 1 <= MAX_SNAPSHOT_BYTES && RoomAt(v, bodies, i)
    {
      hide ValidSnapshot, ValidText, RoomAt;
    }
    hide ValidBody, RoomAt, MemberWithinLimits, ProducerView.AllRoom;
    if Capturable(v, bodies) {
      forall i | 0 <= i < |bodies| ensures MemberWithinLimits(v, bodies, i) {
        assert ValidBody(v.session, v.limits, bodies[i]);
      }
    }
    if WithinLimits(v, bodies) {
      forall i | 0 <= i < |bodies|
        ensures ValidBody(v.session, v.limits, bodies[i]) && RoomAt(v, bodies, i)
        ensures bodies[i].encoded + Digits(|v.log| + i) - 1 <= MAX_SNAPSHOT_BYTES
      {
        assert MemberWithinLimits(v, bodies, i);
      }
    }
  }

  /** Capturing keeps a producer valid: budgets, and validity under the assigned sequences. */
  lemma {:induction false} CaptureValid(v: ProducerView, bodies: seq<Body>)
    requires v.Valid() && !v.released && v.AllRoom(bodies) && |v.log| + |bodies| <= MAX_SEQUENCE
    requires forall i :: 0 <= i < |bodies| ==>
               ValidBody(v.session, v.limits, bodies[i])
                 && bodies[i].encoded + Digits(|v.log| + i) - 1 <= MAX_SNAPSHOT_BYTES
    ensures v.AppendAll(bodies).Valid()
    decreases |bodies|
  {
    hide ValidSnapshot, ValidBody, ProducerView.Valid, ProducerView.Room, ProducerView.LeastDrop, Digits;
    ValidBasics(v);
    if bodies == [] {
    } else {
      AssignedStaysValid(v.session, v.limits, bodies[0], |v.log|);
      AppendValid(v, bodies[0]);
      var w := v.Append(bodies[0]);
      AllRoomIgnoresDropped(v.(log := v.log + [bodies[0]]), w.dropped, bodies[1..]);
      forall i | 0 <= i < |bodies| - 1
        ensures ValidBody(w.session, w.limits, bodies[1..][i])
                && bodies[1..][i].encoded + Digits(|w.log| + i) - 1 <= MAX_SNAPSHOT_BYTES
      {
        assert bodies[1..][i] == bodies[i + 1] && |w.log| + i == |v.log| + (i + 1);
      }
      CaptureValid(w, bodies[1..]);
    }
  }

  function Entry(session: string, log: seq<Body>, k: nat): Buffered
    requires k < |log|
  {
    Buffered(Snapshot(session, SCHEMA_VERSION, k, log[k]), Cost(session, log[k]))
  }

  function LatestEntry(session: string, log: seq<Body>): Option<Buffered> {
    if Observations(log) == 0 then None else Some(Entry(session, log, Observations(log) - 1))
  }

  ghost predicate Keeps(session: string, log: seq<Body>, dropped: nat, kept: seq<Buffered>, bytes: nat) {
    && dropped + |kept| == |log|
    && (forall i :: 0 <= i < |kept| ==> kept[i] == Entry(session, log, dropped + i))
    && bytes == CostOf(session, log[dropped..])
  }

  lemma KeepsPush(session: string, log: seq<Body>, dropped: nat, kept: seq<Buffered>, bytes: nat, body: Body)
    requires Keeps(session, log, dropped, kept, bytes)
    ensures Keeps(session, log + [body], dropped, kept + [Entry(session, log + [body], |log|)],
                  bytes + Cost(session, body))
  {
    hide CostOf, Cost;
    CostAppend(session, log[dropped..], body);
    assert (log + [body])[dropped..] == log[dropped..] + [body];
  }

  lemma LatestPush(session: string, log: seq<Body>, body: Body)
    ensures LatestEntry(session, log + [body])
         == if body.header.Event? then LatestEntry(session, log) else Some(Entry(session, log + [body], |log|))
  {
    ObservationsAppend(log, body);
  }

  class SnapshotProducer {
    const session: string
    const limits: Limits

    var snapshots: seq<Buffered>
    var bufferedBytes: nat
    var dropped: nat
    var next: nat
    var sealed: bool
    var latest: Option<Buffered>

    /** Everything ever captured, in sequence order. */
    ghost var log: seq<Body>
    ghost var released: bool

    ghost function View(): ProducerView
      reads this
    {
      ProducerView(session, limits, log, dropped, sealed, released)
    }

    /** The entries kept are the log from `dropped` on, and their charge is the byte counter. */
    ghost predicate Holds()
      reads this
    {
      Keeps(session, log, dropped, snapshots, bufferedBytes)
    }

    ghost predicate Pins()
      reads this`latest, this`log
    {
      latest == LatestEntry(session, log)
    }

    /** The buffer is the part of the log that was not evicted, and the counters agree with it. */
    ghost predicate Mirrors()
      reads this
    {
      && View().Valid()
      && (released ==> snapshots == [] && bufferedBytes == 0 && latest == None)
      && (!released ==> Holds() && Pins())
    }

    ghost predicate Valid()
      reads this
    {
      Mirrors() && next == |log|
    }

    constructor (session: string, limits: Limits)
      requires ValidText(session) && ValidLimits(limits)
      ensures Valid() && View() == ProducerView(session, limits, [], 0, false, false)
    {
      this.session, this.limits := session, limits;
      snapshots, bufferedBytes, dropped, next, sealed, latest := [], 0, 0, 0, false, None;
      log, released := [], false;
    }

    function PinnedBytes(): nat
      reads this
    {
      if latest.None? then 0
      else if snapshots == [] || latest.value.snapshot.sequence < snapshots[0].snapshot.sequence then latest.value.bytes
      else 0
    }

    function OldestSequence(): nat
      reads this
    {
      if snapshots == [] then next else snapshots[0].snapshot.sequence
    }

    lemma PinnedMirrors()
      requires Holds() && Pins()
      ensures PinnedBytes() == View().Pinned(dropped)
    {
    }

    predicate Crowded(body: Body)
      reads this
    {
      |snapshots| >= limits.maxSnapshots
      || bufferedBytes + Cost(session, body) + (if body.header.Event? then PinnedBytes() else 0) > limits.maxBytes
    }

    lemma CrowdedMirrors(body: Body)
      requires Holds() && Pins() && ValidLimits(limits) && View().Room(body)
      ensures Crowded(body) <==> !View().Fits(dropped, body)
      ensures Crowded(body) ==> snapshots != []
    {
      PinnedMirrors();
      RoomFitsEmpty(View(), body);
    }

    lemma FitsIgnoresDropped(v: ProducerView, d: nat, e: nat, body: Body)
      requires d <= |v.log|
      ensures v.(dropped := e).Fits(d, body) == v.Fits(d, body) && v.(dropped := e).Room(body) == v.Room(body)
    {
    }

    /** Evict, oldest first, until the new entry fits; stops at the latest with an empty buffer. */
    method Evict(body: Body)
      requires Holds() && Pins() && ValidLimits(limits) && View().Room(body)
      modifies this`snapshots, this`bufferedBytes, this`dropped
      ensures Holds()
      ensures dropped == old(View().LeastDrop(dropped, body))
    {
      hide Pins, Crowded, ProducerView.Fits, ProducerView.Room, CostOf;
      ghost var before := View();
      while Crowded(body)
        invariant before.dropped <= dropped && Holds() && Pins()
        invariant View() == before.(dropped := dropped) && View().Room(body)
        invariant forall e :: before.dropped <= e < dropped ==> !before.Fits(e, body)
        decreases |snapshots|
      {
        CrowdedMirrors(body);
        FitsIgnoresDropped(before, dropped, dropped, body);
        DropFront();
        FitsIgnoresDropped(before, dropped, dropped, body);
      }
      CrowdedMirrors(body);
      FitsIgnoresDropped(before, dropped, dropped, body);
    }

    method DropFront()
      requires Holds() && snapshots != []
      modifies this`snapshots, this`bufferedBytes, this`dropped
      ensures Holds() && dropped == old(dropped) + 1 && snapshots == old(snapshots[1..])
    {
      assert log[dropped..] == [log[dropped]] + log[dropped + 1..];
      assert snapshots[0] == Entry(session, log, dropped);
      bufferedBytes := bufferedBytes - snapshots[0].bytes;
      snapshots := snapshots[1..];
      dropped := dropped + 1;
    }

    /** Make room, append the entry, and pin it unless it is an event. */
    method Store(sequence: nat, body: Body)
      requires Mirrors() && !released && sequence == |log| < MAX_SEQUENCE
      requires View().Room(body) && ValidSnapshot(Snapshot(session, SCHEMA_VERSION, sequence, body))
      modifies this`snapshots, this`bufferedBytes, this`dropped, this`latest, this`log
      ensures Mirrors()
      ensures View() == old(View()).Append(body)
    {
      hide ValidSnapshot, Holds, Pins, ProducerView.Room, ProducerView.Valid;
      AppendValid(View(), body);
      ValidBasics(View());
      Evict(body);
      PushBack(sequence, body);
    }

    method PushBack(sequence: nat, body: Body)
      requires Holds() && Pins() && sequence == |log|
      modifies this`snapshots, this`bufferedBytes, this`latest, this`log
      ensures Holds() && Pins() && log == old(log) + [body]
    {
      hide Keeps, LatestEntry, Cost;
      var entry := Buffered(Snapshot(session, SCHEMA_VERSION, sequence, body), Cost(session, body));
      if !body.header.Event? {
        latest := Some(entry);
      }
      bufferedBytes := bufferedBytes + entry.bytes;
      snapshots := snapshots + [entry];
      log := log + [body];
      KeepsPush(session, old(log), dropped, old(snapshots), old(bufferedBytes), body);
      LatestPush(session, old(log), body);
    }

    // -------------------------------------------------------------- capture

    ghost predicate Accepts(bodies: seq<Body>)
      reads this
    {
      Capturable(View(), bodies)
    }

    method CheckWidths(bodies: seq<Body>) returns (ok: bool)
      ensures ok <==> forall i :: 0 <= i < |bodies| ==> bodies[i].encoded + Digits(next + i) - 1 <= MAX_SNAPSHOT_BYTES
    {
      for i := 0 to |bodies|
        invariant forall j :: 0 <= j < i ==> bodies[j].encoded + Digits(next + j) - 1 <= MAX_SNAPSHOT_BYTES
      {
        if bodies[i].encoded + Digits(next + i) - 1 > MAX_SNAPSHOT_BYTES {
          return false;
        }
      }
      return true;
    }

    lemma LatestMirrors()
      requires Mirrors() && !released
      ensures (if latest.None? then 0 else latest.value.bytes) == LatestCost(session, log)
    {
      hide Cost, Keeps, ProducerView.Valid;
    }

    lemma AllRoomStep(v: ProducerView, bodies: seq<Body>, i: nat)
      requires i < |bodies|
      ensures v.AllRoom(bodies[i..]) <==> v.Room(bodies[i]) && v.(log := v.log + [bodies[i]]).AllRoom(bodies[i + 1..])
    {
      hide ProducerView.Room;
      assert bodies[i..][1..] == bodies[i + 1..];
    }

    lemma RoomCharge(v: ProducerView, body: Body)
      ensures v.Room(body) <==>
              Cost(v.session, body) + (if body.header.Event? then LatestCost(v.session, v.log) else 0)
              <= v.limits.maxBytes
    {
    }

    lemma NoRoomNeeded(v: ProducerView, bodies: seq<Body>)
      ensures v.AllRoom(bodies[|bodies|..]) && bodies[0..] == bodies && v.log + bodies[..0] == v.log
    {
    }

    /** The pre-check carries the charge of the observation each member would be pinned against. */
    method CheckRoom(bodies: seq<Body>) returns (ok: bool)
      requires Mirrors() && !released
      requires forall i :: 0 <= i < |bodies| ==> Cost(session, bodies[i]) <= limits.maxBytes
      ensures ok <==> View().AllRoom(bodies)
    {
      hide Cost, LatestCost, ProducerView.Valid, ProducerView.Room, ProducerView.AllRoom, Mirrors;
      LatestMirrors();
      var latestBytes := if latest.None? then 0 else latest.value.bytes;
      ghost var v := View();
      NoRoomNeeded(v, bodies);
      for i := 0 to |bodies|
        invariant v == View().(log := log + bodies[..i])
        invariant latestBytes == LatestCost(session, v.log)
        invariant v.AllRoom(bodies[i..]) <==> View().AllRoom(bodies)
      {
        var body := bodies[i];
        AllRoomStep(v, bodies, i);
        RoomCharge(v, body);
        LatestCostAppend(session, v.log, body);
        assert v.log + [body] == log + bodies[..i + 1];
        if body.header.Event? {
          if latestBytes + Cost(session, body) > limits.maxBytes {
            return false;
          }
        } else {
          latestBytes := Cost(session, body);
        }
        v := v.(log := v.log + [body]);
      }
      NoRoomNeeded(v, bodies);
      return true;
    }

    /**
      All or nothing: the batch is validated before any sequence is assigned or entry evicted;
      on success every member is in the log, in order, under consecutive sequences.
     */
    method CaptureBatch(bodies: seq<Body>) returns (r: Result<Receipt, ProducerError>)
      requires Valid()
      modifies this
      ensures Valid()
      ensures r.Ok? <==> old(Accepts(bodies))
      ensures r.Ok? ==> View() == old(View()).AppendAll(bodies)
      ensures r.Ok? ==> r.value == Receipt(old(next), next, |bodies|, dropped)
      ensures r.Err? ==> unchanged(this)
      ensures r.Ok? && old(|snapshots|) + |bodies| <= limits.maxSnapshots
              && old(bufferedBytes + PinnedBytes()) + CostOf(session, bodies) <= limits.maxBytes
              ==> dropped == old(dropped)
      ensures r.Ok? <==> old(WithinLimits(View(), bodies))
      ensures r == Err(Sealed) <==> old(sealed)
      ensures r == Err(SequenceExhausted) <==>
              old(!sealed && ValidBatch(session, limits, bodies) && |log| + |bodies| > MAX_SEQUENCE)
    {
      hide ValidBatch, ProducerView.AllRoom, ProducerView.AppendAll, ProducerView.Valid, RoomAt, WithinLimits, CostOf;
      CapturableMeans(View(), bodies);
      if sealed {
        return Err(Sealed);
      }
      BatchCosts(bodies);
      ValidBasics(View());
      var ok := ValidateBatch(session, limits, bodies);
      if !ok {
        return Err(InvalidInput);
      }
      var first := next;
      if first + |bodies| > MAX_SEQUENCE {
        return Err(SequenceExhausted);
      }
      ok := CheckWidths(bodies);
      if !ok {
        return Err(InvalidInput);
      }
      ok := CheckRoom(bodies);
      if !ok {
        return Err(InvalidInput);
      }
      RoomyCapture(bodies);
      StoreAll(bodies);
      next := first + |bodies|;
      return Ok(Receipt(first, next, |bodies|, dropped));
    }

    lemma RoomyCapture(bodies: seq<Body>)
      requires Mirrors() && !released && View().AllRoom(bodies)
      ensures |snapshots| + |bodies| <= limits.maxSnapshots
              && bufferedBytes + PinnedBytes() + CostOf(session, bodies) <= limits.maxBytes
              ==> View().AppendAll(bodies).dropped == dropped
    {
      hide ValidSnapshot, CostOf, ProducerView.AllRoom, ProducerView.AppendAll;
      PinnedMirrors();
      if |snapshots| + |bodies| <= limits.maxSnapshots
        && bufferedBytes + PinnedBytes() + CostOf(session, bodies) <= limits.maxBytes {
        RoomyBatchEvictsNothing(View(), bodies);
      }
    }

    method StoreAll(bodies: seq<Body>)
      requires Valid() && !released && Accepts(bodies)
      modifies this`snapshots, this`bufferedBytes, this`dropped, this`latest, this`log
      ensures Mirrors()
      ensures View() == old(View()).AppendAll(bodies)
    {
      hide ValidSnapshot, ValidBatch, ValidBody;
      ghost var before := View();
      assert bodies[0..] == bodies;
      for i := 0 to |bodies|
        invariant Mirrors() && |log| == |before.log| + i
        invariant View().session == session && View().limits == limits && !released
        invariant View().AllRoom(bodies[i..])
        invariant View().AppendAll(bodies[i..]) == before.AppendAll(bodies)
      {
        assert bodies[i..][0] == bodies[i] && bodies[i..][1..] == bodies[i + 1..];
        BatchMemberValid(bodies, i, |log|);
        ghost var v := View();
        AllRoomIgnoresDropped(v.(log := v.log + [bodies[i]]), v.Append(bodies[i]).dropped, bodies[i + 1..]);
        Store(next + i, bodies[i]);
      }
    }

    lemma BatchCosts(bodies: seq<Body>)
      ensures ValidBatch(session, limits, bodies) ==> forall i :: 0 <= i < |bodies| ==>
              Cost(session, bodies[i]) <= limits.maxBytes
    {
      forall i | ValidBatch(session, limits, bodies) && 0 <= i < |bodies|
        ensures Cost(session, bodies[i]) <= limits.maxBytes
      {
        assert ValidBody(session, limits, bodies[i]);
      }
    }

    lemma BatchMemberValid(bodies: seq<Body>, i: nat, k: nat)
      requires ValidBatch(session, limits, bodies) && i < |bodies| && k < MAX_SEQUENCE
      requires bodies[i].encoded + Digits(k) - 1 <= MAX_SNAPSHOT_BYTES
      ensures ValidSnapshot(Snapshot(session, SCHEMA_VERSION, k, bodies[i]))
    {
      AssignedStaysValid(session, limits, bodies[i], k);
    }
  
    // -------------------------------------------------------------- reads, sealing, release

    /** The page of the retained history after a cursor, cut to the limit and the wire budget. */
    method SelectHistory(after: nat, limit: nat) returns (r: Result<Page, ProducerError>)
      requires Valid()
      ensures r.Ok? <==> 1 <= limit <= MAX_PAGE_SNAPSHOTS && after <= |log|
      ensures r.Ok? ==> r.value == View().PageAt(after, limit)
      ensures r.Ok? && r.value.next < |log| ==>
                || |r.value.snapshots| == limit
                || ENVELOPE_RESERVE + 6 * Bytes(session) + SnapshotBytes(r.value.snapshots)
                   + View().At(r.value.next).Encoded() + 1 > MAX_PAGE_BYTES
      ensures r.Err? ==> r.error == InvalidInput
    {
      if !(1 <= limit <= MAX_PAGE_SNAPSHOTS) || after > next {
        return Err(InvalidInput);
      }
      ValidBasics(View());
      PageMaximal(View(), after, limit);
      hide Valid, ProducerView.PageAt;
      var page := BuildPage(after, limit);
      return Ok(page);
    }

    method BuildPage(after: nat, limit: nat) returns (page: Page)
      requires Valid() && after <= |log|
      ensures page == View().PageAt(after, limit)
    {
      hide ValidSnapshot, ProducerView.Valid, Mirrors, ProducerView.Admitted, Bytes;
      var oldest, start, selected := SkipTo(after, limit);
      var snapshots := FitPage(selected, start, Min(start + limit, |log|));
      var next := if snapshots != [] then snapshots[|snapshots| - 1].sequence + 1 else start;
      page := Page(PROTOCOL_VERSION, session, oldest, next, if after < oldest then Some(oldest) else None, snapshots);
    }

    /** Entries from the cursor on, or from the oldest retained one when the cursor has expired. */
    method SkipTo(after: nat, limit: nat) returns (oldest: nat, start: nat, selected: seq<Buffered>)
      requires Valid() && after <= |log|
      ensures dropped <= |log| && oldest == View().Oldest() && start == Max(after, oldest)
      ensures start <= |log| && |selected| == Min(start + limit, |log|) - start
      ensures forall i :: 0 <= i < |selected| ==> selected[i].snapshot == View().At(start + i)
    {
      hide ValidSnapshot, CostOf, Observations, ProducerView.WithinBudget;
      oldest := OldestSequence();
      start := Max(after, oldest);
      var skip := Min(if after > oldest then after - oldest else 0, |snapshots|);
      selected := snapshots[skip..Min(skip + limit, |snapshots|)];
      forall i | 0 <= i < |selected|
        ensures selected[i].snapshot == View().At(start + i)
      {
        assert selected[i] == snapshots[skip + i] == Entry(session, log, dropped + skip + i);
      }
    }

    method FitPage(selected: seq<Buffered>, ghost start: nat, ghost to: nat) returns (page: seq<Snapshot>)
      requires start <= to <= |log| && |selected| == to - start
      requires forall i :: 0 <= i < |selected| ==> selected[i].snapshot == View().At(start + i)
      ensures page == View().Range(start, start + View().Admitted(start, to, ENVELOPE_RESERVE + 6 * Bytes(session)))
    {
      hide Digits, Snapshot.Encoded, CostOf;
      var bytes: nat := ENVELOPE_RESERVE + Bytes(session) * 6;
      page := [];
      ghost var v := View();
      while |page| < |selected|
        invariant |page| <= |selected| && forall i :: 0 <= i < |page| ==> page[i] == v.At(start + i)
        invariant |page| + v.Admitted(start + |page|, to, bytes)
                  == v.Admitted(start, to, ENVELOPE_RESERVE + 6 * Bytes(session))
        decreases |selected| - |page|
      {
        var length := selected[|page|].snapshot.Encoded() + 1;
        if bytes + length > MAX_PAGE_BYTES {
          break;
        }
        bytes := bytes + length;
        page := page + [selected[|page|].snapshot];
      }
    }

    /** The last observation that is not an event, even after its own entry was evicted. */
    method Latest() returns (r: Result<Snapshot, ProducerError>)
      requires Valid()
      ensures r == if released || Observations(log) == 0 then Err(SnapshotUnavailable)
                   else Ok(View().At(Observations(log) - 1))
    {
      hide ProducerView.Valid, Cost, CostOf, Holds, ValidSnapshot;
      return if latest.None? then Err(SnapshotUnavailable) else Ok(latest.value.snapshot);
    }

    /** Reported usage stays within both budgets, and evictions account for everything not retained. */
    method ReadStats() returns (s: Stats)
      requires Valid()
      ensures s.bufferedSnapshots <= limits.maxSnapshots && s.bufferedBytes <= limits.maxBytes
      ensures !released ==> s.bufferedBytes == CostOf(session, log[dropped..]) + PinnedCharge(View())
      ensures !released ==> s.dropped + s.bufferedSnapshots == s.next && s.oldest == s.dropped
      ensures s.next == |log| && s.sealed == sealed && s.oldest == View().Oldest()
    {
      hide ValidSnapshot;
      if !released {
        PinnedMirrors();
      }
      return Stats(|snapshots|, bufferedBytes + PinnedBytes(), dropped, OldestSequence(), next, sealed);
    }

    method Seal() returns (final: nat)
      requires Valid()
      modifies this`sealed
      ensures Valid() && final == |log| && View() == old(View()).(sealed := true)
    {
      hide ValidSnapshot;
      sealed := true;
      assert forall k :: 0 <= k < |log| ==> View().At(k) == old(View()).At(k);
      return next;
    }

    method SealAndReleaseHistory() returns (final: nat)
      requires Valid()
      modifies this
      ensures Valid() && final == |log| && View() == old(View()).(sealed := true, released := true)
    {
      hide ValidSnapshot;
      sealed := true;
      bufferedBytes := 0;
      latest := None;
      snapshots := [];
      released := true;
      assert forall k :: 0 <= k < |log| ==> View().At(k) == old(View()).At(k);
      return next;
    }
  }
}
