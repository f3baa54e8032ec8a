/** The data relay's one-way copy loop with its cap, throttle and timeout
    (server/relay.go, runBridge). */
module Bridge {
  import opened Transfer

  /** 50 MB, counted on the wire. */
  const MAX_BYTES: nat := 52428800
  /** 1 MB/s. */
  const BANDWIDTH: nat := 1048576
  /** Ten minutes, after which both connections are closed. */
  const TIMEOUT: real := 600.0
  /** Sleeps are whole nanoseconds. */
  const NANO: real := 0.000000001

  /** What the outside world does around one message: how long the host keeps the
      bridge waiting, how much a sleep and the write take beyond what was asked,
      and whether the read and the write succeed. */
  datatype Turn = Turn(wait: Seconds, late: Seconds, readOk: bool, writeOk: bool)
  type Seconds = r: real | r >= 0.0

  /** Everything the world added to the clock in the first `n` turns. */
  function Slack(turns: nat -> Turn, n: nat): Seconds {
    if n == 0 then 0.0 else Slack(turns, n - 1) + turns(n - 1).wait + turns(n - 1).late
  }

  /** A nanosecond count cut to an integer, in seconds. */
  function Whole(seconds: Seconds): Seconds {
    (seconds / NANO).Floor as real * NANO
  }

  lemma WholeIsClose(seconds: Seconds)
    ensures seconds - NANO < Whole(seconds) <= seconds
  {
    var x := seconds / NANO;
    assert x.Floor as real <= x < x.Floor as real + 1.0;
    assert x * NANO == seconds;
  }

  /** The longest prefix of the messages that stays within the cap. */
  function Cut(messages: seq<Bytes>): nat {
    if Total(messages) <= MAX_BYTES then |messages| else Cut(messages[..|messages| - 1])
  }

  lemma {:induction false} TotalGrows(messages: seq<Bytes>, k: nat)
    requires k <= |messages|
    ensures Total(messages[..k]) <= Total(messages)
  {
    TotalSplits(messages[..k], messages[k..]);
    assert messages[..k] + messages[k..] == messages;
  }

  /** A prefix fits exactly when it is no longer than the cut. */
  lemma {:induction false} CutIsTheLongestFit(messages: seq<Bytes>, k: nat)
    requires k <= |messages|
    ensures Cut(messages) <= |messages|
    ensures k <= Cut(messages) <==> Total(messages[..k]) <= MAX_BYTES
  {
    if Total(messages) <= MAX_BYTES {
      TotalGrows(messages, k);
    } else {
      var init := messages[..|messages| - 1];
      if k == |messages| {
        assert messages[..k] == messages;
        CutIsTheLongestFit(init, 0);
      } else {
        assert messages[..k] == init[..k];
        CutIsTheLongestFit(init, k);
      }
    }
  }

  /** A single message over the cap already fails to be read. */
  datatype Outcome = HostGone | TooBig | WriteFailed | Idle

  /** A turn that ends the session: a failing read or write, or so much waiting
      that the timeout can strike. */
  predicate Trouble(turns: nat -> Turn, i: nat) {
    !turns(i).readOk || !turns(i).writeOk || Slack(turns, i + 1) >= 550.0
  }

  /** The clock may trail the bytes by at most the truncation of a sleep. */
  predicate Paced(bytes: nat, clock: real) {
    bytes as real <= 1048576.0 * (clock + 0.000000001)
  }

  /** `now` after the throttle, when `bytes` have been read so far. */
  method Throttle(bytes: nat, now: Seconds, late: Seconds) returns (now': Seconds)
    ensures Paced(bytes, now')
    ensures now + late <= now' && (bytes == 0 ==> now' == now + late)
    ensures now' == now + late || now' <= bytes as real / BANDWIDTH as real + late
  {
    var target := bytes as real / BANDWIDTH as real;
    now' := now;
    if now < target {
      WholeIsClose(target - now);
      now' := now + Whole(target - now);
    }
    assert target <= now' + NANO;
    assert BANDWIDTH as real * target == bytes as real;
    now' := now' + late;
  }

  /** Every message was written in its time, in order, before the timeout. */
  ghost predicate Timed(messages: seq<Bytes>, stamps: seq<Seconds>) {
    && |stamps| <= |messages|
    && (forall i :: 0 <= i < |stamps| ==> Paced(Total(messages[..i + 1]), stamps[i]))
    && (forall i, j :: 0 <= i <= j < |stamps| ==> stamps[i] <= stamps[j] < 600.0)
  }

  lemma TimedOn(messages: seq<Bytes>, stamps: seq<Seconds>, now: Seconds)
    requires Timed(messages, stamps) && |stamps| < |messages| && now < TIMEOUT
    requires stamps != [] ==> stamps[|stamps| - 1] <= now
    requires Paced(Total(messages[..|stamps| + 1]), now)
    ensures Timed(messages, stamps + [now])
  {
    hide Paced, Total;
  }

  /** Reading message `n` after the first `n`. */
  lemma OneMore(messages: seq<Bytes>, turns: nat -> Turn, n: nat)
    requires n < |messages| && n <= Cut(messages)
    ensures messages[..n + 1] == messages[..n] + [messages[n]]
    ensures Total(messages[..n + 1]) == Total(messages[..n]) + |messages[n]|
    ensures n < Cut(messages) <==> Total(messages[..n + 1]) <= MAX_BYTES
    ensures Slack(turns, n + 1) == Slack(turns, n) + turns(n).wait + turns(n).late
  {
    assert messages[..n + 1][..n] == messages[..n];
    CutIsTheLongestFit(messages, n + 1);
  }

  /** `runBridge`: copies the host's messages to the guest.  `stamps[i]` is when
      message `i` was written. */
  method RunBridge(messages: seq<Bytes>, turns: nat -> Turn)
    returns (delivered: seq<Bytes>, stamps: seq<Seconds>, bytesTransmitted: nat, outcome: Outcome)
    ensures |stamps| == |delivered| <= Cut(messages) <= |messages| && delivered == messages[..|delivered|]
    ensures Total(delivered) <= MAX_BYTES && Timed(messages, stamps)
    ensures |delivered| < Cut(messages) ==> Trouble(turns, |delivered|)
    ensures outcome == Idle <==> |delivered| == |messages|
    ensures outcome == TooBig ==> |delivered| == Cut(messages)
    ensures bytesTransmitted == Total(messages[..|delivered| + if outcome.TooBig? || outcome.WriteFailed? then 1 else 0])
  {
    var now: Seconds := 0.0;
    var n := 0;
    delivered, stamps, bytesTransmitted, outcome := [], [], 0, Idle;
    CutIsTheLongestFit(messages, 0);
    assert Slack(turns, 0) == 0.0;
    hide Total, Cut, Slack, Timed, Paced;
    while n < |messages|
      invariant n <= Cut(messages) <= |messages| && n == |stamps|
      invariant delivered == messages[..n] && outcome == Idle
      invariant bytesTransmitted == Total(messages[..n]) <= MAX_BYTES
      invariant Timed(messages, stamps)
      invariant n > 0 ==> stamps[n - 1] <= now
      invariant now <= Slack(turns, n) + bytesTransmitted as real / BANDWIDTH as real
    {
      OneMore(messages, turns, n);
      var turn := turns(n);
      now := now + turn.wait;
      if !turn.readOk || now >= TIMEOUT || |messages[n]| > MAX_BYTES {
        outcome := HostGone;
        return;
      }
      bytesTransmitted := bytesTransmitted + |messages[n]|;
      if bytesTransmitted > MAX_BYTES {
        outcome := TooBig;
        return;
      }
      now := Throttle(bytesTransmitted, now, turn.late);
      if !turn.writeOk || now >= TIMEOUT {
        outcome := WriteFailed;
        return;
      }
      TimedOn(messages, stamps, now);
      delivered := delivered + [messages[n]];
      stamps := stamps + [now];
      n := n + 1;
    }
    assert messages[..n] == messages;
  }
}
