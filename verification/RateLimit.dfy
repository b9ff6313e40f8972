/** The alert worker's token bucket, in exact arithmetic over seconds. */
module RateLimit {

  /** A message reaches the bucket at `at`; if it must wait, the sleep may overrun by `overrun`. */
  datatype Request = Request(at: real, overrun: real)

  datatype Bucket = Bucket(tokens: real, refilled: real)

  /** Tokens earned in so many seconds. */
  function Gain(rate: nat, seconds: real): real {
    seconds * rate as real / 60.0
  }

  function Refill(rate: nat, b: Bucket, now: real): real
    requires rate > 0
  {
    var tokens := b.tokens + Gain(rate, now - b.refilled);
    if tokens < rate as real then tokens else rate as real
  }

  function Wait(rate: nat, tokens: real): real
    requires rate > 0
  {
    (1.0 - tokens) * 60.0 / rate as real
  }

  /** When the message is let through, and the bucket behind it. */
  function Grant(rate: nat, b: Bucket, request: Request): (real, Bucket)
    requires rate > 0
  {
    var tokens := Refill(rate, b, request.at);
    if tokens < 1.0 then
      var time := request.at + Wait(rate, tokens) + request.overrun;
      (time, Bucket(0.0, time))
    else
      (request.at, Bucket(tokens - 1.0, request.at))
  }

  /** The bucket after every message of `requests`, newest last. */
  function After(rate: nat, start: real, requests: seq<Request>): Bucket
    requires rate > 0
  {
    if requests == [] then Bucket(rate as real, start)
    else Grant(rate, After(rate, start, requests[..|requests| - 1]), requests[|requests| - 1]).1
  }

  function Grants(rate: nat, start: real, requests: seq<Request>): (times: seq<real>)
    requires rate > 0
    ensures |times| == |requests|
  {
    if requests == [] then []
    else
      var n := |requests| - 1;
      Grants(rate, start, requests[..n]) + [Grant(rate, After(rate, start, requests[..n]), requests[n]).0]
  }

  /** Time does not run backwards: a worker takes a message after it let the previous one through. */
  ghost predicate Orderly(rate: nat, start: real, requests: seq<Request>)
    requires rate > 0
  {
    forall i :: 0 <= i < |requests| ==>
      requests[i].overrun >= 0.0 && requests[i].at >= After(rate, start, requests[..i]).refilled
  }

  method Worker(rate: nat, start: real, requests: seq<Request>) returns (times: seq<real>)
    ensures rate > 0 ==> times == Grants(rate, start, requests)
    ensures rate == 0 ==> |times| == |requests| && forall i :: 0 <= i < |times| ==> times[i] == requests[i].at
  {
    times := [];
    var tokens, refilled := rate as real, start;
    for i := 0 to |requests|
      invariant rate > 0 ==> times == Grants(rate, start, requests[..i])
      invariant rate > 0 ==> Bucket(tokens, refilled) == After(rate, start, requests[..i])
      invariant rate == 0 ==> |times| == i && forall j :: 0 <= j < i ==> times[j] == requests[j].at
    {
      assert requests[..i + 1][..i] == requests[..i];
      var now := requests[i].at;
      if rate > 0 {
        tokens := Refill(rate, Bucket(tokens, refilled), now);
        refilled := now;
        if tokens < 1.0 {
          now := now + Wait(rate, tokens) + requests[i].overrun;
          tokens := 0.0;
          refilled := now;
        } else {
          tokens := tokens - 1.0;
        }
      }
      times := times + [now];
    }
    assert requests[..|requests|] == requests;
  }

  // ---------------------------------------------------------------- the bound

  lemma WaitFills(rate: nat, tokens: real)
    requires rate > 0 && tokens < 1.0
    ensures Wait(rate, tokens) > 0.0 && Gain(rate, Wait(rate, tokens)) == 1.0 - tokens
  {
    assert Wait(rate, tokens) * rate as real == (1.0 - tokens) * 60.0;
  }

  lemma GainMonotone(rate: nat, a: real, b: real)
    requires a <= b
    ensures Gain(rate, a) <= Gain(rate, b)
  {
    assert (b - a) * rate as real >= 0.0;
    assert (b - a) * rate as real == b * rate as real - a * rate as real;
  }

  lemma GainAdds(rate: nat, a: real, b: real)
    ensures Gain(rate, a + b) == Gain(rate, a) + Gain(rate, b)
  {
  }

  /** One message pays a whole token out of what the bucket held and gained meanwhile. */
  lemma GrantPays(rate: nat, b: Bucket, request: Request)
    requires rate > 0 && 0.0 <= b.tokens && request.overrun >= 0.0 && b.refilled <= request.at
    ensures var (time, next) := Grant(rate, b, request);
            && next.refilled == time >= request.at
            && 0.0 <= next.tokens <= rate as real - 1.0
            && next.tokens + 1.0 <= b.tokens + Gain(rate, time - b.refilled)
  {
    hide Gain, Wait;
    var tokens := Refill(rate, b, request.at);
    if tokens < 1.0 {
      WaitFills(rate, tokens);
      var wait := Wait(rate, tokens);
      var time := request.at + wait + request.overrun;
      GainMonotone(rate, request.at - b.refilled + wait, time - b.refilled);
      GainAdds(rate, request.at - b.refilled, wait);
    }
  }

  /** From one grant to a later one, time pays for all but a bucketful of the messages between. */
  lemma {:induction false} ChainPays(rate: nat, start: real, requests: seq<Request>, i: nat)
    requires rate > 0 && Orderly(rate, start, requests) && i <= |requests|
    ensures var from, now := After(rate, start, requests[..i]), After(rate, start, requests);
            && 0.0 <= now.tokens <= rate as real - (if requests == [] then 0.0 else 1.0)
            && now.tokens + (|requests| - i) as real <= from.tokens + Gain(rate, now.refilled - from.refilled)
  {
    hide Grant, Gain, Grants, Orderly;
    var n := |requests| - 1;
    if i == |requests| {
      assert requests[..i] == requests;
      GainAdds(rate, 0.0, 0.0);
      if requests != [] {
        OrderlyPrefix(rate, start, requests);
        ChainPays(rate, start, requests[..n], n);
        GrantPays(rate, After(rate, start, requests[..n]), requests[n]);
      }
    } else {
      var prefix := requests[..n];
      OrderlyPrefix(rate, start, requests);
      assert prefix[..i] == requests[..i];
      ChainPays(rate, start, prefix, i);
      var from, mid, now := After(rate, start, requests[..i]), After(rate, start, prefix), After(rate, start, requests);
      GrantPays(rate, mid, requests[n]);
      GainAdds(rate, mid.refilled - from.refilled, now.refilled - mid.refilled);
    }
  }

  lemma OrderlyPrefix(rate: nat, start: real, requests: seq<Request>)
    requires rate > 0 && Orderly(rate, start, requests) && requests != []
    ensures Orderly(rate, start, requests[..|requests| - 1])
    ensures requests[|requests| - 1].at >= After(rate, start, requests[..|requests| - 1]).refilled
    ensures requests[|requests| - 1].overrun >= 0.0
  {
    var prefix := requests[..|requests| - 1];
    forall i | 0 <= i < |prefix|
      ensures prefix[i].overrun >= 0.0 && prefix[i].at >= After(rate, start, prefix[..i]).refilled
    {
      assert prefix[..i] == requests[..i];
    }
  }

  lemma {:induction false} GrantAt(rate: nat, start: real, requests: seq<Request>, i: nat)
    requires rate > 0 && i < |requests|
    ensures Grants(rate, start, requests)[i] == After(rate, start, requests[..i + 1]).refilled
    decreases |requests|
  {
    hide Wait, Refill;
    var n := |requests| - 1;
    if i < n {
      GrantAt(rate, start, requests[..n], i);
      assert requests[..n][..i + 1] == requests[..i + 1];
    } else {
      assert requests[..i + 1] == requests;
    }
  }

  /** Between any two grants at most a bucketful plus what the time between earned is let through. */
  lemma SpanBound(rate: nat, start: real, requests: seq<Request>, i: nat, j: nat)
    requires rate > 0 && Orderly(rate, start, requests) && i <= j < |requests|
    ensures var times := Grants(rate, start, requests);
            (j - i + 1) as real <= rate as real + Gain(rate, times[j] - times[i])
  {
    hide Gain, Orderly, After, Grants;
    var upto := requests[..j + 1];
    OrderlyUpTo(rate, start, requests, j + 1);
    OrderlyUpTo(rate, start, requests, i + 1);
    ChainPays(rate, start, upto, i + 1);
    ChainPays(rate, start, requests[..i + 1], i + 1);
    assert upto[..i + 1] == requests[..i + 1];
    GrantAt(rate, start, requests, i);
    GrantAt(rate, start, requests, j);
  }

  lemma OrderlyUpTo(rate: nat, start: real, requests: seq<Request>, k: nat)
    requires rate > 0 && Orderly(rate, start, requests) && k <= |requests|
    ensures Orderly(rate, start, requests[..k])
  {
    hide After;
    forall i | 0 <= i < k
      ensures requests[..k][..i] == requests[..i]
    {
    }
  }

  function Within(times: seq<real>, low: real, high: real): nat {
    if times == [] then 0
    else
      var n := |times| - 1;
      Within(times[..n], low, high) + if low <= times[n] <= high then 1 else 0
  }

  lemma {:induction false} WithinSpan(times: seq<real>, low: real, high: real) returns (i: nat, j: nat)
    requires Within(times, low, high) > 0
    ensures i <= j < |times| && low <= times[i] && times[j] <= high
    ensures Within(times, low, high) <= j - i + 1
  {
    var n := |times| - 1;
    if low <= times[n] <= high {
      i, j := n, n;
      if Within(times[..n], low, high) > 0 {
        i, j := WithinSpan(times[..n], low, high);
        j := n;
      }
    } else {
      i, j := WithinSpan(times[..n], low, high);
    }
  }

  /** In any window of `seconds` the worker lets at most rate + seconds * rate / 60 messages through. */
  lemma RateBound(rate: nat, start: real, requests: seq<Request>, low: real, seconds: real)
    requires rate > 0 && Orderly(rate, start, requests) && seconds >= 0.0
    ensures Within(Grants(rate, start, requests), low, low + seconds) as real
         <= rate as real + seconds * rate as real / 60.0
  {
    var times := Grants(rate, start, requests);
    GainMonotone(rate, 0.0, seconds);
    if Within(times, low, low + seconds) > 0 {
      hide Grants, Orderly, Within;
      var i, j := WithinSpan(times, low, low + seconds);
      SpanBound(rate, start, requests, i, j);
      GainMonotone(rate, times[j] - times[i], seconds);
    }
  }

  /** The limit costs no more than one token's time plus the overrun of the sleep. */
  lemma DelayBound(rate: nat, b: Bucket, request: Request)
    requires rate > 0 && 0.0 <= b.tokens && b.refilled <= request.at && request.overrun >= 0.0
    ensures request.at <= Grant(rate, b, request).0 <= request.at + 60.0 / rate as real + request.overrun
  {
    var tokens := Refill(rate, b, request.at);
    GainMonotone(rate, 0.0, request.at - b.refilled);
    if tokens < 1.0 {
      WaitFills(rate, tokens);
      assert (60.0 / rate as real - Wait(rate, tokens)) * rate as real == tokens * 60.0;
    }
  }

  /** Messages at least one token's time apart never wait. */
  lemma {:induction false} SpacedNeverWaits(rate: nat, start: real, requests: seq<Request>, i: nat)
    requires rate > 0 && Orderly(rate, start, requests) && i < |requests|
    requires forall k :: 0 < k < |requests| ==> Gain(rate, requests[k].at - requests[k - 1].at) >= 1.0
    ensures Grants(rate, start, requests)[i] == requests[i].at
  {
    hide Gain, Orderly, Within, Grant, Grants;
    OrderlyUpTo(rate, start, requests, i);
    var before := requests[..i];
    ChainPays(rate, start, before, i);
    if i == 0 {
    } else {
      SpacedNeverWaits(rate, start, requests, i - 1);
      GrantAt(rate, start, requests, i - 1);
    }
    GrantAt(rate, start, requests, i);
    assert requests[..i + 1][..i] == before;
    OrderlyUpTo(rate, start, requests, i + 1);
    OrderlyPrefix(rate, start, requests[..i + 1]);
    GainAdds(rate, 0.0, 0.0);
    GainMonotone(rate, 0.0, requests[i].at - After(rate, start, before).refilled);
    FullNeverWaits(rate, After(rate, start, before), requests[i]);
  }

  lemma FullNeverWaits(rate: nat, b: Bucket, request: Request)
    requires rate > 0 && b.tokens + Gain(rate, request.at - b.refilled) >= 1.0
    ensures Grant(rate, b, request).1.refilled == request.at
  {
    hide Gain, Wait;
  }

  lemma {:induction false} BurstStep(rate: nat, start: real, requests: seq<Request>)
    requires rate > 0 && |requests| <= rate
    requires forall i :: 0 <= i < |requests| ==> requests[i].at == start
    ensures After(rate, start, requests) == Bucket((rate - |requests|) as real, start)
    ensures forall i :: 0 <= i < |requests| ==> Grants(rate, start, requests)[i] == start
  {
    if requests == [] {
    } else {
      var n := |requests| - 1;
      BurstStep(rate, start, requests[..n]);
      assert Gain(rate, start - start) == 0.0;
    }
  }

  /** A fresh worker lets a burst of `rate` messages through at once, and only the next one waits. */
  lemma BurstAtOnce(rate: nat, start: real, requests: seq<Request>, more: Request)
    requires rate > 0 && |requests| == rate && more.at == start
    requires forall i :: 0 <= i < |requests| ==> requests[i].at == start
    ensures forall i :: 0 <= i < rate ==> Grants(rate, start, requests)[i] == start
    ensures Grants(rate, start, requests + [more])[rate] == start + 60.0 / rate as real + more.overrun
  {
    BurstStep(rate, start, requests);
    assert (requests + [more])[..rate] == requests;
    assert Gain(rate, start - start) == 0.0;
  }

  /** After a minute without messages the bucket is full again, whatever happened before. */
  lemma FullAgain(rate: nat, b: Bucket, now: real)
    requires rate > 0 && 0.0 <= b.tokens && now >= b.refilled + 60.0
    ensures Refill(rate, b, now) == rate as real
  {
    GainMonotone(rate, 60.0, now - b.refilled);
    assert 60.0 * rate as real / 60.0 == rate as real;
  }
}
