/**
  Delivery accounting of the alert dispatcher. Every alert offered to a channel is one message; its
  phase says where its `Pending` object is, and the counters must add up after every atomic step of
  senders, workers and cancellation.
 */
module AlertDelivery {
  import opened Common

  datatype Outcome = Delivered | Failed | Suppressed

  datatype Phase =
    | Refused                      // turned away when sent
    | Live                         // between admission and its end: queued, or held by a worker
    | Settled(outcome: Outcome)    // counted as completed, object not yet dropped
    | Releasing                    // dropped unfinished: bytes returned, not yet counted
    | Completed(outcome: Outcome)  // gone after completion
    | Lost                         // gone without completion

  datatype Message = Message(channel: nat, size: nat, phase: Phase)

  datatype Stats = Stats(accepted: nat, pending: nat, completed: nat, dropped: nat, failed: nat, suppressed: nat)

  /** `messages` is the history behind the counters; `limit` is the byte budget of each channel. */
  datatype State = State(stats: Stats, bytes: seq<nat>, closed: bool, messages: seq<Message>)

  function Initial(channels: nat): State {
    State(Stats(0, 0, 0, 0, 0, 0), seq(channels, _ => 0), false, [])
  }

  // ---------------------------------------------------------------- atomic steps

  function SaturatingSub(a: nat, b: nat): nat {
    if a < b then 0 else a - b
  }

  function Finished(stats: Stats, dropped: bool, failed: bool, suppressed: bool): Stats {
    stats.(pending := SaturatingSub(stats.pending, 1),
           dropped := stats.dropped + if dropped then 1 else 0,
           completed := stats.completed + if dropped then 0 else 1,
           failed := stats.failed + if failed then 1 else 0,
           suppressed := stats.suppressed + if suppressed then 1 else 0)
  }

  datatype Step =
    | Admit(channel: nat, size: nat)
    | Finish(index: nat, outcome: Outcome)
    | ReturnBytes(index: nat)
    | CountDrop(index: nat)
    | Close

  predicate Enabled(s: State, step: Step) {
    match step
    case Admit(channel, _) => channel < |s.bytes|
    case Finish(index, _) => index < |s.messages| && s.messages[index].phase.Live?
    case ReturnBytes(index) =>
      index < |s.messages| && s.messages[index].channel < |s.bytes|
      && (s.messages[index].phase.Live? || s.messages[index].phase.Settled?)
    case CountDrop(index) => index < |s.messages| && s.messages[index].phase.Releasing?
    case Close => true
  }

  function Marked(messages: seq<Message>, index: nat, phase: Phase): seq<Message>
    requires index < |messages|
  {
    messages[index := messages[index].(phase := phase)]
  }

  /** Under the statistics and byte locks, `send` either refuses a message or reserves its bytes. */
  function Admitted(s: State, channel: nat, size: nat, limit: nat): State
    requires channel < |s.bytes|
  {
    var accepted := s.stats.(accepted := s.stats.accepted + 1);
    if s.closed || size > SaturatingSub(limit, s.bytes[channel]) then
      s.(stats := accepted.(dropped := accepted.dropped + 1),
         messages := s.messages + [Message(channel, size, Refused)])
    else
      s.(stats := accepted.(pending := accepted.pending + 1),
         bytes := s.bytes[channel := s.bytes[channel] + size],
         messages := s.messages + [Message(channel, size, Live)])
  }

  /** Unsigned subtraction: `None` stands for the overflow that dropping a message must never cause. */
  function Applied(s: State, step: Step, limit: nat): Option<State>
    requires Enabled(s, step)
  {
    match step
    case Admit(channel, size) => Some(Admitted(s, channel, size, limit))
    case Finish(index, outcome) =>
      Some(s.(stats := Finished(s.stats, false, outcome.Failed?, outcome.Suppressed?),
              messages := Marked(s.messages, index, Settled(outcome))))
    case ReturnBytes(index) =>
      var m := s.messages[index];
      if m.size > s.bytes[m.channel] then None
      else Some(s.(bytes := s.bytes[m.channel := s.bytes[m.channel] - m.size],
                   messages := Marked(s.messages, index,
                                      if m.phase.Settled? then Completed(m.phase.outcome) else Releasing)))
    case CountDrop(index) =>
      Some(s.(stats := Finished(s.stats, true, false, false), messages := Marked(s.messages, index, Lost)))
    case Close => Some(s.(closed := true))
  }

  // ---------------------------------------------------------------- counting

  function Total(messages: seq<Message>, weight: Message -> nat): nat {
    if messages == [] then 0
    else Total(messages[..|messages| - 1], weight) + weight(messages[|messages| - 1])
  }

  function One(yes: bool): nat {
    if yes then 1 else 0
  }

  function Pending(): Message -> nat {
    (m: Message) => One(m.phase.Live? || m.phase.Releasing?)
  }

  function CompletedOnes(): Message -> nat {
    (m: Message) => One(m.phase.Settled? || m.phase.Completed?)
  }

  function Dropped(): Message -> nat {
    (m: Message) => One(m.phase.Refused? || m.phase.Lost?)
  }

  predicate Ended(m: Message, outcome: Outcome) {
    m.phase == Settled(outcome) || m.phase == Completed(outcome)
  }

  function FailedOnes(): Message -> nat {
    (m: Message) => One(Ended(m, Failed))
  }

  function SuppressedOnes(): Message -> nat {
    (m: Message) => One(Ended(m, Suppressed))
  }

  function HeldBytes(channel: nat): Message -> nat {
    (m: Message) => if m.channel == channel && (m.phase.Live? || m.phase.Settled?) then m.size else 0
  }

  /** The counters are exactly what the messages say. */
  ghost predicate Accounted(s: State, limit: nat) {
    && s.stats.accepted == |s.messages|
    && s.stats.pending == Total(s.messages, Pending())
    && s.stats.completed == Total(s.messages, CompletedOnes())
    && s.stats.dropped == Total(s.messages, Dropped())
    && s.stats.failed == Total(s.messages, FailedOnes())
    && s.stats.suppressed == Total(s.messages, SuppressedOnes())
    && (forall c :: 0 <= c < |s.bytes| ==> s.bytes[c] == Total(s.messages, HeldBytes(c)) && s.bytes[c] <= limit)
    && (forall i :: 0 <= i < |s.messages| ==> s.messages[i].channel < |s.bytes|)
  }

  lemma {:induction false} TotalUpdate(messages: seq<Message>, i: nat, m: Message, weight: Message -> nat)
    requires i < |messages|
    ensures Total(messages[i := m], weight) + weight(messages[i]) == Total(messages, weight) + weight(m)
    ensures weight(messages[i]) <= Total(messages, weight)
  {
    var n := |messages| - 1;
    if i < n {
      TotalUpdate(messages[..n], i, m, weight);
      assert messages[i := m][..n] == messages[..n][i := m];
    } else {
      assert messages[i := m][..n] == messages[..n];
    }
  }

  lemma TotalAppend(messages: seq<Message>, m: Message, weight: Message -> nat)
    ensures Total(messages + [m], weight) == Total(messages, weight) + weight(m)
  {
    assert (messages + [m])[..|messages|] == messages;
  }

  // ---------------------------------------------------------------- every step keeps the accounts

  lemma AdmitAccounted(s: State, channel: nat, size: nat, limit: nat)
    requires Accounted(s, limit) && channel < |s.bytes|
    ensures Accounted(Admitted(s, channel, size, limit), limit)
  {
    hide Total;
    var t := Admitted(s, channel, size, limit);
    var m := t.messages[|s.messages|];
    CountersAppend(s.messages, m);
    forall c | 0 <= c < |s.bytes|
      ensures t.bytes[c] == Total(t.messages, HeldBytes(c)) && t.bytes[c] <= limit
    {
      TotalAppend(s.messages, m, HeldBytes(c));
    }
  }

  lemma CountersAppend(messages: seq<Message>, m: Message)
    ensures Total(messages + [m], Pending()) == Total(messages, Pending()) + Pending()(m)
    ensures Total(messages + [m], CompletedOnes()) == Total(messages, CompletedOnes()) + CompletedOnes()(m)
    ensures Total(messages + [m], Dropped()) == Total(messages, Dropped()) + Dropped()(m)
    ensures Total(messages + [m], FailedOnes()) == Total(messages, FailedOnes()) + FailedOnes()(m)
    ensures Total(messages + [m], SuppressedOnes()) == Total(messages, SuppressedOnes()) + SuppressedOnes()(m)
  {
    TotalAppend(messages, m, Pending());
    TotalAppend(messages, m, CompletedOnes());
    TotalAppend(messages, m, Dropped());
    TotalAppend(messages, m, FailedOnes());
    TotalAppend(messages, m, SuppressedOnes());
  }

  /** How the totals move when one message changes phase. */
  lemma CountersMove(messages: seq<Message>, i: nat, phase: Phase)
    requires i < |messages|
    ensures var m, a, b := messages[i].(phase := phase), messages, Marked(messages, i, phase);
            && Total(b, Pending()) + Pending()(a[i]) == Total(a, Pending()) + Pending()(m)
            && Total(b, CompletedOnes()) + CompletedOnes()(a[i]) == Total(a, CompletedOnes()) + CompletedOnes()(m)
            && Total(b, Dropped()) + Dropped()(a[i]) == Total(a, Dropped()) + Dropped()(m)
            && Total(b, FailedOnes()) + FailedOnes()(a[i]) == Total(a, FailedOnes()) + FailedOnes()(m)
            && Total(b, SuppressedOnes()) + SuppressedOnes()(a[i]) == Total(a, SuppressedOnes()) + SuppressedOnes()(m)
            && Pending()(a[i]) <= Total(a, Pending())
  {
    var m := messages[i].(phase := phase);
    TotalUpdate(messages, i, m, Pending());
    TotalUpdate(messages, i, m, CompletedOnes());
    TotalUpdate(messages, i, m, Dropped());
    TotalUpdate(messages, i, m, FailedOnes());
    TotalUpdate(messages, i, m, SuppressedOnes());
  }

  lemma BytesMove(messages: seq<Message>, i: nat, phase: Phase, c: nat)
    requires i < |messages|
    ensures var m, a, b := messages[i].(phase := phase), messages, Marked(messages, i, phase);
            && Total(b, HeldBytes(c)) + HeldBytes(c)(a[i]) == Total(a, HeldBytes(c)) + HeldBytes(c)(m)
            && HeldBytes(c)(a[i]) <= Total(a, HeldBytes(c))
  {
    TotalUpdate(messages, i, messages[i].(phase := phase), HeldBytes(c));
  }

  /** Every step keeps the accounts, and returning bytes never underflows. */
  lemma StepAccounted(s: State, step: Step, limit: nat)
    requires Accounted(s, limit) && Enabled(s, step)
    ensures Applied(s, step, limit).Some? && Accounted(Applied(s, step, limit).value, limit)
  {
    hide Total, Admitted, Marked;
    match step
    case Admit(channel, size) =>
      AdmitAccounted(s, channel, size, limit);
    case Finish(i, outcome) =>
      MoveAccounted(s, i, Settled(outcome), limit);
    case ReturnBytes(i) =>
      BytesMove(s.messages, i, Releasing, s.messages[i].channel);
      ReturnAccounted(s, i, limit);
    case CountDrop(i) =>
      MoveAccounted(s, i, Lost, limit);
    case Close =>
  }

  lemma MoveAccounted(s: State, i: nat, phase: Phase, limit: nat)
    requires Accounted(s, limit) && i < |s.messages|
    requires (s.messages[i].phase.Live? && phase.Settled?) || (s.messages[i].phase.Releasing? && phase.Lost?)
    ensures var outcome := if phase.Settled? then phase.outcome else Delivered;
            var stats := Finished(s.stats, phase.Lost?, outcome.Failed?, outcome.Suppressed?);
            Accounted(s.(stats := stats, messages := Marked(s.messages, i, phase)), limit)
  {
    hide Total;
    CountersMove(s.messages, i, phase);
    forall c: nat
      ensures Total(Marked(s.messages, i, phase), HeldBytes(c)) == Total(s.messages, HeldBytes(c))
    {
      BytesMove(s.messages, i, phase, c);
    }
  }

  lemma ReturnAccounted(s: State, i: nat, limit: nat)
    requires Accounted(s, limit) && Enabled(s, ReturnBytes(i)) && s.messages[i].size <= s.bytes[s.messages[i].channel]
    ensures Accounted(Applied(s, ReturnBytes(i), limit).value, limit)
  {
    hide Total;
    var m, t := s.messages[i], Applied(s, ReturnBytes(i), limit).value;
    var phase := t.messages[i].phase;
    CountersMove(s.messages, i, phase);
    forall c: nat
      ensures Total(t.messages, HeldBytes(c)) == Total(s.messages, HeldBytes(c)) - if c == m.channel then m.size else 0
    {
      BytesMove(s.messages, i, phase, c);
    }
  }

  // ---------------------------------------------------------------- whole runs

  ghost predicate Run(states: seq<State>, steps: seq<Step>, channels: nat, limit: nat) {
    && |states| == |steps| + 1 && states[0] == Initial(channels)
    && forall i :: 0 <= i < |steps| ==>
         Enabled(states[i], steps[i]) && Applied(states[i], steps[i], limit) == Some(states[i + 1])
  }

  lemma {:induction false} RunAccounted(states: seq<State>, steps: seq<Step>, channels: nat, limit: nat, i: nat)
    requires Run(states, steps, channels, limit) && i < |states|
    ensures Accounted(states[i], limit)
  {
    hide Applied, Enabled;
    if i == 0 {
    } else {
      RunAccounted(states, steps, channels, limit, i - 1);
      StepAccounted(states[i - 1], steps[i - 1], limit);
    }
  }

  lemma {:induction false} EveryMessageOnce(messages: seq<Message>)
    ensures |messages| == Total(messages, CompletedOnes()) + Total(messages, Dropped()) + Total(messages, Pending())
  {
    if messages == [] {
    } else {
      EveryMessageOnce(messages[..|messages| - 1]);
    }
  }

  /** Under every interleaving nothing accepted is lost from the books, and no channel is over budget. */
  lemma Conservation(states: seq<State>, steps: seq<Step>, channels: nat, limit: nat, i: nat)
    requires Run(states, steps, channels, limit) && i < |states|
    ensures var stats := states[i].stats;
            && stats.accepted == stats.completed + stats.dropped + stats.pending
            && stats.failed + stats.suppressed <= stats.completed
    ensures forall c :: 0 <= c < |states[i].bytes| ==> states[i].bytes[c] <= limit
  {
    RunAccounted(states, steps, channels, limit, i);
    EveryMessageOnce(states[i].messages);
    OutcomesWithin(states[i].messages);
  }

  lemma {:induction false} OutcomesWithin(messages: seq<Message>)
    ensures Total(messages, FailedOnes()) + Total(messages, SuppressedOnes()) <= Total(messages, CompletedOnes())
  {
    if messages == [] {
    } else {
      OutcomesWithin(messages[..|messages| - 1]);
    }
  }

  // ---------------------------------------------------------------- flush

  predicate FlushResult(stats: Stats) {
    stats.pending == 0 && stats.failed == 0 && stats.dropped == 0
  }

  lemma {:induction false} NoneCounted(messages: seq<Message>, weight: Message -> nat)
    ensures Total(messages, weight) == 0 <==> forall i :: 0 <= i < |messages| ==> weight(messages[i]) == 0
  {
    if messages == [] {
    } else {
      var n := |messages| - 1;
      NoneCounted(messages[..n], weight);
      assert forall i :: 0 <= i < n ==> messages[..n][i] == messages[i];
    }
  }

  /** A flush reports success exactly when every alert ever accepted was delivered or suppressed. */
  lemma FlushMeans(s: State, limit: nat)
    requires Accounted(s, limit)
    ensures FlushResult(s.stats) <==>
            forall i :: 0 <= i < |s.messages| ==> Ended(s.messages[i], Delivered) || Ended(s.messages[i], Suppressed)
  {
    NoneCounted(s.messages, Pending());
    NoneCounted(s.messages, FailedOnes());
    NoneCounted(s.messages, Dropped());
    forall m: Message
      ensures (Ended(m, Delivered) || Ended(m, Suppressed))
              <==> (Pending()(m) == 0 && FailedOnes()(m) == 0 && Dropped()(m) == 0)
    {
      match m.phase
      case Settled(outcome) => assert outcome.Delivered? || outcome.Failed? || outcome.Suppressed?;
      case Completed(outcome) => assert outcome.Delivered? || outcome.Failed? || outcome.Suppressed?;
      case _ =>
    }
  }

  /**
    Flush waits: it reads the counters now and after each wake-up, until nothing is pending or its
    deadline has passed. `wakes` are the moments of the run at which it holds the lock, `expired`
    whether the deadline had passed by then. It reports success exactly when, at the moment it
    stops, every alert accepted so far was delivered or suppressed.
   */
  method Flush(states: seq<State>, ghost steps: seq<Step>, ghost channels: nat, ghost limit: nat, wakes: seq<nat>,
               expired: seq<bool>)
    returns (clean: bool, at: nat)
    requires Run(states, steps, channels, limit)
    requires |wakes| == |expired| > 0 && expired[|expired| - 1] && forall i :: 0 <= i < |wakes| ==> wakes[i] < |states|
    ensures at < |wakes| && (states[wakes[at]].stats.pending == 0 || expired[at])
    ensures forall i :: 0 <= i < at ==> states[wakes[i]].stats.pending > 0 && !expired[i]
    ensures var messages := states[wakes[at]].messages;
            clean <==> forall i :: 0 <= i < |messages| ==>
              Ended(messages[i], Delivered) || Ended(messages[i], Suppressed)
  {
    hide Accounted, Run;
    at := 0;
    while states[wakes[at]].stats.pending > 0
      invariant at < |wakes| && forall i :: 0 <= i < at ==> states[wakes[i]].stats.pending > 0 && !expired[i]
      decreases |wakes| - at
    {
      if expired[at] {
        break;
      }
      at := at + 1;
    }
    var stats := states[wakes[at]].stats;
    clean := stats.pending == 0 && stats.failed == 0 && stats.dropped == 0;
    RunAccounted(states, steps, channels, limit, wakes[at]);
    FlushMeans(states[wakes[at]], limit);
  }

  /** Once every message object is gone, all channel budgets are free again. */
  lemma QuietChannels(s: State, limit: nat, c: nat)
    requires Accounted(s, limit) && c < |s.bytes|
    requires forall i :: 0 <= i < |s.messages| ==> !s.messages[i].phase.Live? && !s.messages[i].phase.Settled?
    ensures s.bytes[c] == 0
  {
    NoneCounted(s.messages, HeldBytes(c));
  }

  // ---------------------------------------------------------------- the dispatcher

  /** What one alert becomes on the first `n` channels; `full` tells which queues turn it away. */
  function Offers(s: State, accepts: seq<bool>, full: seq<bool>, size: nat, limit: nat, n: nat): seq<Message>
    requires n <= |s.bytes| == |accepts| == |full|
  {
    if n == 0 then []
    else
      var c := n - 1;
      Offers(s, accepts, full, size, limit, c)
      + if accepts[c] then [Offer(s, c, size, full[c], limit)] else []
  }

  function Offer(s: State, c: nat, size: nat, full: bool, limit: nat): Message
    requires c < |s.bytes|
  {
    Message(c, size,
            if s.closed || size > SaturatingSub(limit, s.bytes[c]) then Refused else if full then Lost else Live)
  }

  lemma ChannelKnown(s: State, i: nat, limit: nat)
    requires Accounted(s, limit) && i < |s.messages|
    ensures s.messages[i].channel < |s.bytes|
  {
  }

  /** Refused when closed or over the byte budget, dropped when the queue is full, otherwise live. */
  lemma OfferMeans(s: State, c: nat, size: nat, full: bool, limit: nat)
    requires Accounted(s, limit) && c < |s.bytes|
    ensures var m, refused := Offer(s, c, size, full, limit), s.closed || s.bytes[c] + size > limit;
            && m.channel == c && m.size == size
            && m.phase == if refused then Refused else if full then Lost else Live
  {
    hide Total;
    assert s.bytes[c] <= limit;
  }

  class Dispatcher {
    const limit: nat
    var stats: Stats
    var bytes: seq<nat>
    var closed: bool
    var messages: seq<Message>  // every `Pending` object ever made, by age

    ghost function Now(): State
      reads this
    {
      State(stats, bytes, closed, messages)
    }

    ghost predicate Valid()
      reads this
    {
      Accounted(Now(), limit)
    }

    constructor (channels: nat, maxPendingBytes: nat)
      ensures Valid() && Now() == Initial(channels) && limit == maxPendingBytes
    {
      limit := maxPendingBytes;
      stats, bytes, closed, messages := Stats(0, 0, 0, 0, 0, 0), seq(channels, _ => 0), false, [];
    }

    method Send(size: nat, accepts: seq<bool>, full: seq<bool>)
      requires Valid() && |accepts| == |full| == |bytes|
      modifies this
      ensures Valid() && |bytes| == |old(bytes)| && closed == old(closed)
      ensures messages == old(messages) + Offers(old(Now()), accepts, full, size, limit, |bytes|)
    {
      hide Accounted;
      for c := 0 to |bytes|
        invariant Valid() && |bytes| == |old(bytes)| && closed == old(closed)
        invariant forall d :: c <= d < |bytes| ==> bytes[d] == old(bytes[d])
        invariant messages == old(messages) + Offers(old(Now()), accepts, full, size, limit, c)
      {
        if accepts[c] {
          SendTo(c, size, full[c]);
        }
      }
    }

    /** One channel's share: refuse, or reserve and enqueue; a full queue drops the object again. */
    method SendTo(c: nat, size: nat, full: bool)
      requires Valid() && c < |bytes|
      modifies this
      ensures Valid() && |bytes| == |old(bytes)| && closed == old(closed)
      ensures forall d :: 0 <= d < |bytes| && d != c ==> bytes[d] == old(bytes[d])
      ensures messages == old(messages) + [Offer(old(Now()), c, size, full, limit)]
    {
      hide Accounted;
      AdmitAccounted(Now(), c, size, limit);
      stats := stats.(accepted := stats.accepted + 1);
      if closed || size > SaturatingSub(limit, bytes[c]) {
        stats := stats.(dropped := stats.dropped + 1);
        messages := messages + [Message(c, size, Refused)];
        return;
      }
      stats := stats.(pending := stats.pending + 1);
      bytes := bytes[c := bytes[c] + size];
      messages := messages + [Message(c, size, Live)];
      assert Now() == Admitted(old(Now()), c, size, limit);
      if full {
        DropPending(|messages| - 1);
      }
    }

    /** The worker is done with a message it holds. */
    method FinishPending(i: nat, outcome: Outcome)
      requires Valid() && i < |messages| && messages[i].phase.Live?
      modifies this
      ensures Valid() && bytes == old(bytes) && closed == old(closed)
      ensures messages == Marked(old(messages), i, Settled(outcome))
    {
      hide Accounted;
      StepAccounted(Now(), Finish(i, outcome), limit);
      stats := Finished(stats, false, outcome.Failed?, outcome.Suppressed?);
      messages := Marked(messages, i, Settled(outcome));
    }

    /** Dropping the object returns its bytes and, if it was not finished, counts it as dropped. */
    method DropPending(i: nat)
      requires Valid() && i < |messages| && (messages[i].phase.Live? || messages[i].phase.Settled?)
      modifies this
      ensures Valid() && |bytes| == |old(bytes)| && closed == old(closed)
      ensures messages == Marked(old(messages), i,
                                 if old(messages)[i].phase.Settled?
                                 then Completed(old(messages)[i].phase.outcome) else Lost)
      ensures forall d :: 0 <= d < |bytes| && d != messages[i].channel ==> bytes[d] == old(bytes[d])
    {
      hide Accounted;
      ChannelKnown(Now(), i, limit);
      var c, size := messages[i].channel, messages[i].size;
      StepAccounted(Now(), ReturnBytes(i), limit);
      bytes := bytes[c := bytes[c] - size];
      if messages[i].phase.Settled? {
        messages := Marked(messages, i, Completed(messages[i].phase.outcome));
      } else {
        messages := Marked(messages, i, Releasing);
        StepAccounted(Now(), CountDrop(i), limit);
        stats := Finished(stats, true, false, false);
        messages := Marked(messages, i, Lost);
      }
    }

    method Close()
      requires Valid()
      modifies this
      ensures Valid() && closed && messages == old(messages) && bytes == old(bytes) && stats == old(stats)
    {
      StepAccounted(Now(), Step.Close, limit);
      closed := true;
    }
  }
}
