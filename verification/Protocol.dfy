/**
  The versioned snapshot pull protocol: what travels between a producer and the store, and the
  validation every page and snapshot passes before anything is persisted.
 */
module Protocol {
  import opened Common
  import opened Text
  import opened Json
  import opened StateTree

  const PROTOCOL_VERSION := 1
  const SCHEMA_VERSION := 1
  const MAX_SNAPSHOT_BYTES := 4 * 1024 * 1024
  const MAX_PAGE_SNAPSHOTS := 256
  const MAX_AXES := 64
  const MAX_IDENTIFIER_BYTES := 4096
  const MAX_SEQUENCE := 0x7fff_ffff_ffff_ffff

  /**
    One observation apart from its identity. `encoded` is the length of its JSON text at sequence
    0, `accounted` the retained-memory estimate of its axes and state, `header` what the tracker
    header of the state says. They are measurements of `axes` and `state` the code takes; nothing
    here depends on how they are computed.
   */
  datatype Body = Body(observed: int, axes: map<string, int>, state: Value,
                       header: Header, accounted: nat, encoded: nat)

  datatype Header = Untracked | Observation | Event | Malformed

  datatype Snapshot = Snapshot(session: string, schema: nat, sequence: nat, body: Body) {
    predicate IsEvent() {
      body.header.Event?
    }

    /** JSON length: the sequence is the only field whose width changes on assignment. */
    function Encoded(): nat {
      body.encoded + Digits(sequence) - 1
    }
  }

  datatype Descriptor = Descriptor(version: nat, schema: nat, session: string, project: string,
                                   experiment: string, run: string, attempt: string, role: string)

  datatype Page = Page(version: nat, session: string, oldest: nat, next: nat,
                       droppedBefore: Option<nat>, snapshots: seq<Snapshot>)

  /** A persisted snapshot; its storage id is its position plus one. */
  datatype Row = Row(run: string, source: string, snapshot: Snapshot)

  // ---------------------------------------------------------------- snapshots and pages

  predicate ValidIdentifier(text: string) {
    Named(text) && Bytes(text) <= MAX_IDENTIFIER_BYTES
  }

  predicate ValidDescriptor(d: Descriptor) {
    && d.version == PROTOCOL_VERSION && d.schema == SCHEMA_VERSION
    && ValidIdentifier(d.session) && ValidIdentifier(d.project) && ValidIdentifier(d.experiment)
    && ValidIdentifier(d.run) && ValidIdentifier(d.attempt) && ValidIdentifier(d.role)
  }

  ghost predicate ValidSnapshot(s: Snapshot) {
    && !s.body.header.Malformed?
    && ValidIdentifier(s.session)
    && s.schema == SCHEMA_VERSION && s.body.state.Object?
    && s.sequence < MAX_SEQUENCE
    && |s.body.axes| <= MAX_AXES
    && Nodes(s.body.state) <= MAX_NODES && Supported(s.body.state, 0)
    && s.Encoded() <= MAX_SNAPSHOT_BYTES
  }

  method ValidateSnapshot(s: Snapshot) returns (ok: bool)
    ensures ok <==> ValidSnapshot(s)
  {
    ok := ValidateState(s.body.state);
    ok := ok && !s.body.header.Malformed? && ValidIdentifier(s.session)
          && s.schema == SCHEMA_VERSION && s.body.state.Object?
          && s.sequence < MAX_SEQUENCE && |s.body.axes| <= MAX_AXES
          && s.Encoded() <= MAX_SNAPSHOT_BYTES;
  }

  function SnapshotBytes(snapshots: seq<Snapshot>): nat {
    if snapshots == [] then 0
    else SnapshotBytes(snapshots[..|snapshots| - 1]) + snapshots[|snapshots| - 1].Encoded() + 1
  }

  /** Length of a page's JSON text: fixed punctuation, the session, four numbers and the snapshots. */
  function PageBytes(p: Page): nat {
    113 + JsonBytes(p.session) + Digits(p.version) + Digits(p.oldest) + Digits(p.next)
    + (if p.droppedBefore.Some? then Digits(p.droppedBefore.value) else 4)
    + if p.snapshots == [] then 0 else SnapshotBytes(p.snapshots) - 1
  }

  predicate InPlace(p: Page, i: nat)
    requires i < |p.snapshots|
  {
    && p.snapshots[i].session == p.session
    && p.snapshots[i].sequence == p.snapshots[0].sequence + i
    && p.snapshots[i].sequence >= p.oldest
  }

  predicate ValidEnvelope(p: Page) {
    && p.version == PROTOCOL_VERSION
    && Named(p.session)
    && |p.snapshots| <= MAX_PAGE_SNAPSHOTS
    && p.oldest <= p.next <= MAX_SEQUENCE
    && (p.droppedBefore.Some? ==> p.droppedBefore.value == p.oldest)
    && PageBytes(p) <= MAX_PAGE_BYTES
  }

  /** Snapshot `i` is valid and carries the sequence its place demands. */
  ghost predicate Fits(p: Page, i: nat)
    requires i < |p.snapshots|
  {
    ValidSnapshot(p.snapshots[i]) && InPlace(p, i)
  }

  /** Sequences increase by one, from a value not below `oldest` up to just before `next`. */
  ghost predicate ValidPage(p: Page) {
    && ValidEnvelope(p)
    && (forall i :: 0 <= i < |p.snapshots| ==> Fits(p, i))
    && (p.snapshots != [] ==> p.next == p.snapshots[0].sequence + |p.snapshots|)
  }

  /** One pass with the previous sequence in hand accepts exactly the valid pages. */
  method ValidatePage(p: Page) returns (ok: bool)
    ensures ok <==> ValidPage(p)
    ensures ok <==>
              && p.version == 1 && Named(p.session) && |p.snapshots| <= 256
              && p.oldest <= p.next <= MAX_SEQUENCE
              && (p.droppedBefore.Some? ==> p.droppedBefore.value == p.oldest)
              && PageBytes(p) <= 16 * 1024 * 1024
              && (forall i :: 0 <= i < |p.snapshots| ==>
                    && ValidSnapshot(p.snapshots[i]) && p.snapshots[i].session == p.session
                    && p.oldest <= p.snapshots[i].sequence == p.snapshots[0].sequence + i)
              && (p.snapshots != [] ==> p.next == p.snapshots[|p.snapshots| - 1].sequence + 1)
  {
    PageMeans(p);
    hide ValidSnapshot, ValidEnvelope;
    if !ValidEnvelope(p) {
      return false;
    }
    var prior: Option<nat> := None;
    for i := 0 to |p.snapshots|
      invariant forall j :: 0 <= j < i ==> Fits(p, j)
      invariant prior == if i == 0 then None else Some(p.snapshots[i - 1].sequence)
    {
      ok := CheckPlace(p, i, prior);
      if !ok {
        return false;
      }
      prior := Some(p.snapshots[i].sequence);
    }
    assert |p.snapshots| > 0 ==> Fits(p, |p.snapshots| - 1);
    return prior.None? || p.next == prior.value + 1;
  }

  lemma PageMeans(p: Page)
    ensures ValidPage(p) <==>
              && p.version == 1 && Named(p.session) && |p.snapshots| <= 256
              && p.oldest <= p.next <= MAX_SEQUENCE
              && (p.droppedBefore.Some? ==> p.droppedBefore.value == p.oldest)
              && PageBytes(p) <= 16 * 1024 * 1024
              && (forall i :: 0 <= i < |p.snapshots| ==>
                    && ValidSnapshot(p.snapshots[i]) && p.snapshots[i].session == p.session
                    && p.oldest <= p.snapshots[i].sequence == p.snapshots[0].sequence + i)
              && (p.snapshots != [] ==> p.next == p.snapshots[|p.snapshots| - 1].sequence + 1)
  {
    hide ValidSnapshot, Named, PageBytes;
    if ValidPage(p) {
      forall i | 0 <= i < |p.snapshots|
        ensures ValidSnapshot(p.snapshots[i]) && p.snapshots[i].session == p.session
        ensures p.oldest <= p.snapshots[i].sequence == p.snapshots[0].sequence + i
      {
        assert Fits(p, i);
      }
    }
  }

  method CheckPlace(p: Page, i: nat, prior: Option<nat>) returns (ok: bool)
    requires i < |p.snapshots|
    requires prior == if i == 0 then None else Some(p.snapshots[i - 1].sequence)
    requires i > 0 ==> Fits(p, i - 1)
    ensures ok <==> Fits(p, i)
  {
    var s := p.snapshots[i];
    ok := ValidateSnapshot(s);
    ok := ok && s.session == p.session && s.sequence >= p.oldest && (prior.Some? ==> s.sequence == prior.value + 1);
  }
}
