/** The numeric policies of the connection: when repeated ping timeouts end it, and how long to wait
    before the next attempt. */
module Policy {

  import opened Types

  type u8 = x: int | 0 <= x < 0x100

  function Min(a: int, b: int): int {
    if a <= b then a else b
  }

  function Max(a: int, b: int): int {
    if a >= b then a else b
  }

  // ----- Ping timeouts -----

  datatype PingReply = Pong | TimedOut | Failed

  /** What one turn of the sender loop finds ready. */
  datatype Event =
    | Ping(reply: PingReply)
    | Batch(sent: bool)
    | SendersDropped

  datatype Exit = Timeout | RequestError | Dropped

  /** The limit as the client stores it. */
  function ClampedLimit(configured: u8): u8 {
    Max(configured, 1)
  }

  function SaturatingInc(x: u8): u8 {
    Min(x + 1, 255)
  }

  /** The pings among the events, in order. */
  function Pings(events: seq<Event>): seq<PingReply> {
    if events == [] then []
    else
      var last, before := events[|events| - 1], Pings(events[..|events| - 1]);
      if last.Ping? then before + [last.reply] else before
  }

  /** Length of the run of timeouts at the end of the pings. */
  function TimeoutRun(pings: seq<PingReply>): (n: nat)
    ensures n <= |pings|
    ensures forall k :: |pings| - n <= k < |pings| ==> pings[k].TimedOut?
    ensures n < |pings| ==> !pings[|pings| - n - 1].TimedOut?
  {
    if pings == [] || !pings[|pings| - 1].TimedOut? then 0 else 1 + TimeoutRun(pings[..|pings| - 1])
  }

  /** How the loop ends with the last of these events, if it does. */
  function EndsWith(limit: u8, events: seq<Event>): Option<Exit>
    requires events != []
  {
    match events[|events| - 1]
    case Ping(Pong) => None
    case Ping(TimedOut) => if TimeoutRun(Pings(events)) >= limit then Some(Timeout) else None
    case Ping(Failed) => Some(RequestError)
    case Batch(sent) => if sent then None else Some(RequestError)
    case SendersDropped => Some(Dropped)
  }

  /** The loop has gone through the first `n` events and is still running. */
  predicate GoesOn(limit: u8, events: seq<Event>, n: nat)
    requires n <= |events|
  {
    forall m :: 0 < m <= n ==> EndsWith(limit, events[..m]).None?
  }

  lemma PingsNext(events: seq<Event>, n: nat)
    requires n < |events|
    ensures Pings(events[..n + 1]) ==
              if events[n].Ping? then Pings(events[..n]) + [events[n].reply] else Pings(events[..n])
  {
    assert events[..n + 1][..n] == events[..n];
  }

  lemma RunNext(pings: seq<PingReply>, reply: PingReply)
    ensures TimeoutRun(pings + [reply]) == if reply.TimedOut? then TimeoutRun(pings) + 1 else 0
  {
    assert (pings + [reply])[..|pings|] == pings;
  }

  /** The sender loop over the events it meets: it ends with the first of them that ends it. The counter
      it keeps is the current run of timeouts, stays below the limit and so never saturates. */
  method SenderMessageHandler(configured: u8, events: seq<Event>)
    returns (exit: Option<Exit>, handled: nat, consecutive: u8)
    ensures handled <= |events|
    ensures exit.None? ==> handled == |events| && GoesOn(ClampedLimit(configured), events, handled)
    ensures exit.Some? ==>
              && 0 < handled
              && GoesOn(ClampedLimit(configured), events, handled - 1)
              && EndsWith(ClampedLimit(configured), events[..handled]) == exit
    ensures exit == None || exit == Some(Timeout) ==> consecutive == TimeoutRun(Pings(events[..handled]))
    ensures exit == Some(Timeout) <==> consecutive == ClampedLimit(configured)
  {
    var limit := ClampedLimit(configured);
    consecutive, handled, exit := 0, 0, None;
    while handled < |events| && exit == None
      invariant handled <= |events|
      invariant exit == None ==> consecutive < limit && GoesOn(limit, events, handled)
      invariant exit.Some? ==>
                  && 0 < handled && GoesOn(limit, events, handled - 1)
                  && EndsWith(limit, events[..handled]) == exit
      invariant exit == None || exit == Some(Timeout) ==> consecutive == TimeoutRun(Pings(events[..handled]))
      invariant exit == Some(Timeout) <==> consecutive == limit
      decreases |events| - handled
    {
      PingsNext(events, handled);
      if events[handled].Ping? {
        RunNext(Pings(events[..handled]), events[handled].reply);
      }
      exit, consecutive := HandleEvent(limit, events[handled], consecutive);
      handled := handled + 1;
    }
  }

  /** One turn of the loop. */
  method HandleEvent(limit: u8, event: Event, counter: u8) returns (exit: Option<Exit>, consecutive: u8)
    requires counter < limit
    ensures event == Ping(Pong) ==> exit == None && consecutive == 0
    ensures event == Ping(TimedOut) ==>
              consecutive == counter + 1 && exit == if counter + 1 == limit then Some(Timeout) else None
    ensures event != Ping(Pong) && event != Ping(TimedOut) ==> consecutive == counter
    ensures event == Ping(Failed) || event == Batch(false) ==> exit == Some(RequestError)
    ensures event == Batch(true) ==> exit == None
    ensures event == SendersDropped ==> exit == Some(Dropped)
  {
    consecutive := counter;
    match event {
      case Ping(Pong) =>
        consecutive := 0;
      case Ping(TimedOut) =>
        consecutive := SaturatingInc(consecutive);
        if consecutive < limit {
          return None, consecutive;
        }
        return Some(Timeout), consecutive;
      case Ping(Failed) =>
        return Some(RequestError), consecutive;
      case Batch(sent) =>
        if !sent {
          return Some(RequestError), consecutive;
        }
      case SendersDropped =>
        return Some(Dropped), consecutive;
    }
    exit := None;
  }

  /** A loop still running has not seen `limit` timeouts in a row, however many batches came between
      them. */
  lemma {:induction false} NoLongRunBefore(limit: u8, events: seq<Event>, n: nat, k: nat)
    requires limit > 0 && n <= |events| && GoesOn(limit, events, n) && k + limit <= |Pings(events[..n])|
    ensures exists j :: k <= j < k + limit && !Pings(events[..n])[j].TimedOut?
    decreases n
  {
    var pings := Pings(events[..n]);
    PingsNext(events, n - 1);
    assert EndsWith(limit, events[..n]).None?;
    if k + limit <= |Pings(events[..n - 1])| {
      NoLongRunBefore(limit, events, n - 1, k);
      var j :| k <= j < k + limit && !Pings(events[..n - 1])[j].TimedOut?;
      assert !pings[j].TimedOut?;
    } else if pings[|pings| - 1].TimedOut? {
      assert !pings[|pings| - TimeoutRun(pings) - 1].TimedOut?;
    } else {
      assert !pings[k + limit - 1].TimedOut?;
    }
  }

  // ----- Reconnection delays -----

  const NANOS_PER_MILLI: int := 1_000_000

  /** The longest `Duration`: whole seconds of 64 bits and a fraction in nanoseconds. */
  const MAX_NANOS: int := 0x1_0000_0000_0000_0000 * 1_000_000_000 - 1

  /** A duration, as its number of nanoseconds. */
  type Duration = n: int | 0 <= n <= MAX_NANOS

  function FromMillis(ms: nat): Duration
    requires ms * NANOS_PER_MILLI <= MAX_NANOS
  {
    ms * NANOS_PER_MILLI
  }

  function CheckedMul(d: Duration, factor: u32): Option<Duration> {
    if d * factor <= MAX_NANOS then Some(d * factor) else None
  }

  function SaturatingAdd(a: Duration, b: Duration): Duration {
    Min(a + b, MAX_NANOS)
  }

  lemma {:induction false} Pow2Bound(n: nat)
    requires n <= 10
    ensures Pow2(n) <= 1024
    decreases 10 - n
  {
    if n < 10 {
      Pow2Bound(n + 1);
    }
  }

  function Initial(initial: Duration): Duration {
    if initial == 0 then FromMillis(250) else initial
  }

  function Limit(initial: Duration, max: Duration): Duration {
    Max(max, Initial(initial))
  }

  function JitterMillis(attempt: u32): (ms: nat)
    ensures ms <= 250
  {
    attempt * 73 % 251
  }

  function Capped(first: int, limit: int, factor: int, jitter: int): int {
    Min(first * factor + jitter * NANOS_PER_MILLI, limit)
  }

  /** The interval the formula asks for in unbounded arithmetic. */
  function Ideal(attempt: u32, initial: Duration, max: Duration): int {
    Capped(Initial(initial), Limit(initial, max), Pow2(Min(attempt, 10)), JitterMillis(attempt))
  }

  /** The interval before the next attempt. Overflow of the product, saturation of the sum and both caps
      never show: it is the unbounded formula, between the two configured delays. */
  function NextReconnectInterval(attempt: u32, initial: Duration, max: Duration): (interval: Duration)
    ensures interval == Ideal(attempt, initial, max)
    ensures Initial(initial) <= interval <= Limit(initial, max)
  {
    var first := if initial == 0 then FromMillis(250) else initial;
    var limit := Max(max, first);
    Pow2Bound(Min(attempt, 10));
    var factor := Pow2(Min(attempt, 10));
    AtLeastOnce(first, factor);
    var product := CheckedMul(first, factor);
    var base := Min(if product.Some? then product.value else limit, limit);
    var interval := SaturatingAdd(base, FromMillis(JitterMillis(attempt)));
    Min(interval, limit)
  }

  lemma AtLeastOnce(d: int, factor: int)
    requires d >= 0 && factor >= 1
    ensures d <= d * factor
  {
  }

  /** Growth over the first attempts: up to the tenth, no delay is shorter than an earlier one. */
  ghost predicate NeverShrinks(initial: Duration, max: Duration) {
    forall a: u32, b: u32 :: a <= b <= 10 ==>
      NextReconnectInterval(a, initial, max) <= NextReconnectInterval(b, initial, max)
  }

  /** The jitter drops by 178 ms at the fourth and the seventh attempt: the delays keep growing exactly if
      the doubled base makes up for it, or the limit hides it. */
  predicate DropsCovered(initial: Duration, max: Duration) {
    var i, m := Initial(initial), Limit(initial, max);
    && (8 * i >= 178 * NANOS_PER_MILLI || m <= 16 * i + 41 * NANOS_PER_MILLI)
    && (64 * i >= 178 * NANOS_PER_MILLI || m <= 128 * i + 9 * NANOS_PER_MILLI)
  }

  lemma Doubling(n: nat)
    ensures Pow2(n + 1) == 2 * Pow2(n)
  {
  }

  lemma EarlyPowers()
    ensures Pow2(0) == 1 && Pow2(1) == 2 && Pow2(2) == 4 && Pow2(3) == 8 && Pow2(4) == 16 && Pow2(5) == 32
    ensures Pow2(6) == 64 && Pow2(7) == 128 && Pow2(8) == 256 && Pow2(9) == 512 && Pow2(10) == 1024
  {
    Doubling(0);
    Doubling(2);
    Doubling(4);
    Doubling(6);
    Doubling(8);
  }

  function EarlyPower(a: nat): int {
    [1, 2, 4, 8, 16, 32, 64, 128, 256, 512, 1024][Min(a, 10)]
  }

  function EarlyJitter(a: nat): int {
    [0, 73, 146, 219, 41, 114, 187, 9, 82, 155, 228][Min(a, 10)]
  }

  lemma EarlyIdeal(a: u32, initial: Duration, max: Duration)
    requires a <= 10
    ensures Ideal(a, initial, max) == Capped(Initial(initial), Limit(initial, max), EarlyPower(a), EarlyJitter(a))
  {
    EarlyPowers();
  }

  lemma CappedGrows(a: nat, first: int, limit: int)
    requires a < 10 && first > 0
    requires a == 3 ==> 8 * first >= 178 * NANOS_PER_MILLI || limit <= 16 * first + 41 * NANOS_PER_MILLI
    requires a == 6 ==> 64 * first >= 178 * NANOS_PER_MILLI || limit <= 128 * first + 9 * NANOS_PER_MILLI
    ensures Capped(first, limit, EarlyPower(a), EarlyJitter(a))
            <= Capped(first, limit, EarlyPower(a + 1), EarlyJitter(a + 1))
  {
  }

  lemma CappedDrops(first: int, limit: int)
    ensures 8 * first < 178 * NANOS_PER_MILLI && limit > 16 * first + 41 * NANOS_PER_MILLI ==>
              Capped(first, limit, EarlyPower(3), EarlyJitter(3)) > Capped(first, limit, EarlyPower(4), EarlyJitter(4))
    ensures 64 * first < 178 * NANOS_PER_MILLI && limit > 128 * first + 9 * NANOS_PER_MILLI ==>
              Capped(first, limit, EarlyPower(6), EarlyJitter(6)) > Capped(first, limit, EarlyPower(7), EarlyJitter(7))
  {
  }

  lemma {:induction false} IdealGrows(a: u32, b: u32, initial: Duration, max: Duration)
    requires a <= b <= 10 && DropsCovered(initial, max)
    ensures Ideal(a, initial, max) <= Ideal(b, initial, max)
    decreases b - a
  {
    if a < b {
      EarlyIdeal(a, initial, max);
      EarlyIdeal(a + 1, initial, max);
      CappedGrows(a, Initial(initial), Limit(initial, max));
      IdealGrows(a + 1, b, initial, max);
    }
  }

  lemma IdealDrops(initial: Duration, max: Duration) returns (a: u32)
    requires !DropsCovered(initial, max)
    ensures a < 10 && Ideal(a, initial, max) > Ideal(a + 1, initial, max)
  {
    EarlyIdeal(3, initial, max);
    EarlyIdeal(4, initial, max);
    EarlyIdeal(6, initial, max);
    EarlyIdeal(7, initial, max);
    CappedDrops(Initial(initial), Limit(initial, max));
    a := if Ideal(3, initial, max) > Ideal(4, initial, max) then 3 else 6;
  }

  lemma NeverShrinksIff(initial: Duration, max: Duration)
    ensures NeverShrinks(initial, max) <==> DropsCovered(initial, max)
  {
    if DropsCovered(initial, max) {
      forall a: u32, b: u32 | a <= b <= 10
        ensures NextReconnectInterval(a, initial, max) <= NextReconnectInterval(b, initial, max)
      {
        IdealGrows(a, b, initial, max);
      }
    } else {
      var a := IdealDrops(initial, max);
      assert NextReconnectInterval(a, initial, max) > NextReconnectInterval(a + 1, initial, max);
    }
  }

  /** In particular with a first delay of 250 ms or more, or none configured. */
  lemma UsualDelaysGrow(initial: Duration, max: Duration)
    requires initial == 0 || initial >= FromMillis(250)
    ensures NeverShrinks(initial, max)
  {
    NeverShrinksIff(initial, max);
  }
}
