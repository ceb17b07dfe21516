/** The circuit breaker (internal/platform/circuit_breaker.go) as a timed state machine.
    One event is one critical section: an iteration of Allow's waiting loop, a recorded
    delivery error, or a recorded success.  Times are in nanoseconds. */
module Breaker {
  import opened Text

  const SECOND := 1_000_000_000
  const BACKOFF_BASE := 30 * SECOND
  const BACKOFF_MAX := 600 * SECOND

  datatype Event =
    | Poll(now: int)
    | DeliveryError(now: int, transient: bool, resetAt: Option<int>)
    | Success(now: int)

  datatype Mode = Closed | Open | HalfOpen

  datatype Circuit = Circuit(mode: Mode, resetAt: Option<int>, backoff: int, tripped: nat, lastTrip: int,
                             lastReason: string)

  const INITIAL := Circuit(Closed, None, BACKOFF_BASE, 0, 0, "")

  /** The decision of one iteration of Allow. */
  predicate Admits(c: Circuit, now: int) {
    match c.mode
    case Open => (match c.resetAt case Some(r) => now > r case None => now - c.lastTrip > c.backoff)
    case _ => true
  }

  /** How long an iteration that is not admitted sleeps. */
  function WaitFor(c: Circuit, now: int): int {
    var d := match c.resetAt case Some(r) => r - now case None => c.backoff - (now - c.lastTrip);
    if d <= 0 then SECOND else d
  }

  function Doubled(backoff: int): int {
    if backoff * 2 > BACKOFF_MAX then BACKOFF_MAX else backoff * 2
  }

  function Step(c: Circuit, e: Event): Circuit {
    match e
    case Poll(now) => if c.mode == Open && Admits(c, now) then c.(mode := HalfOpen) else c
    case DeliveryError(now, transient, resetAt) =>
      if !transient then c
      else Circuit(Open, resetAt, Doubled(c.backoff), c.tripped + 1, now, "delivery_retry_backoff")
    case Success(_) =>
      c.(mode := Closed, resetAt := None, lastReason := "",
         backoff := if c.mode != Closed then BACKOFF_BASE else c.backoff)
  }

  function Replay(h: seq<Event>): Circuit {
    if h == [] then INITIAL else Step(Replay(h[..|h| - 1]), h[|h| - 1])
  }

  // ---------------------------------------------- what a history says, without the state

  predicate IsTrip(e: Event) { e.DeliveryError? && e.transient }

  /** Transient errors since the last success. */
  function Trips(h: seq<Event>): nat {
    if h == [] then 0
    else
      var e, before := h[|h| - 1], h[..|h| - 1];
      if e.Success? then 0 else if IsTrip(e) then Trips(before) + 1 else Trips(before)
  }

  function LastTrip(h: seq<Event>): Option<Event> {
    if h == [] then None
    else
      var e, before := h[|h| - 1], h[..|h| - 1];
      if e.Success? then None else if IsTrip(e) then Some(e) else LastTrip(before)
  }

  function Power(k: nat): nat { if k == 0 then 1 else 2 * Power(k - 1) }

  function Min(a: int, b: int): int { if a <= b then a else b }

  /** min(30 s * 2^k, 10 min) */
  function Backoff(k: nat): int { Min(BACKOFF_BASE * Power(k), BACKOFF_MAX) }

  /** The pause after the last trip is over: past the announced reset time, or strictly
      more than the backoff after the trip. */
  predicate PauseOver(h: seq<Event>, now: int) {
    LastTrip(h).Some? ==> Over(LastTrip(h).value, Trips(h), now)
  }

  predicate Over(trip: Event, k: nat, now: int) {
    match trip
    case DeliveryError(at, _, Some(r)) => now > r
    case DeliveryError(at, _, None) => now - at > Backoff(k)
    case _ => true
  }

  /** No attempt since the last trip came after the pause. */
  predicate Paused(h: seq<Event>) {
    if h == [] then false
    else
      var e, before := h[|h| - 1], h[..|h| - 1];
      match e
      case Success(_) => false
      case DeliveryError(_, transient, _) => transient || Paused(before)
      case Poll(now) => Paused(before) && !PauseOver(before, now)
  }

  // ---------------------------------------------------------------------- theorems

  ghost predicate Means(c: Circuit, h: seq<Event>) {
    && c.backoff == Backoff(Trips(h))
    && (c.mode == Closed <==> Trips(h) == 0)
    && (c.mode == Open <==> Paused(h))
    && (LastTrip(h).None? <==> Trips(h) == 0)
    && (Trips(h) == 0 ==> c.resetAt == None && c.lastReason == "")
    && (Trips(h) > 0 ==>
        LastTrip(h) == Some(DeliveryError(c.lastTrip, true, c.resetAt)) && c.lastReason == "delivery_retry_backoff")
  }

  lemma BackoffDoubles(k: nat)
    ensures Backoff(k + 1) == Doubled(Backoff(k)) && Backoff(0) == BACKOFF_BASE && Power(k) >= 1
  {
    PowerPositive(k);
  }

  lemma {:induction false} PowerPositive(k: nat)
    ensures Power(k) >= 1
  {
    if k > 0 { PowerPositive(k - 1); }
  }

  /** After every trace the breaker's fields say what the trace says: the backoff is
      min(30 s * 2^k, 10 min) for the k transient errors since it was last closed, closed
      means k = 0 with no reset time or reason, open means that the pause has not been
      seen to end. */
  lemma {:induction false} StateMeansHistory(h: seq<Event>)
    ensures Means(Replay(h), h)
  {
    hide Backoff;
    BackoffDoubles(0);
    if h != [] {
      StateMeansHistory(h[..|h| - 1]);
      BackoffDoubles(Trips(h[..|h| - 1]));
    }
  }

  /** A call is admitted exactly when the breaker is not pausing or the pause is over. */
  lemma AdmissionExact(h: seq<Event>, now: int)
    ensures Admits(Replay(h), now) <==> !Paused(h) || PauseOver(h, now)
  {
    hide Backoff;
    StateMeansHistory(h);
  }

  /** The instant after which the current pause is over. */
  function PauseEnd(h: seq<Event>): Option<int> {
    match LastTrip(h)
    case Some(DeliveryError(_, _, Some(r))) => Some(r)
    case Some(DeliveryError(at, _, None)) => Some(at + Backoff(Trips(h)))
    case _ => None
  }

  /** The sleep is neither too short nor too long: a call that is turned down sleeps exactly
      until the pause ends, a second if that is this very instant, and until then no call is
      admitted, while every later one is. */
  lemma SleepExact(h: seq<Event>, now: int, t: int)
    requires !Admits(Replay(h), now)
    ensures var wait, end := WaitFor(Replay(h), now), PauseEnd(h);
            && end.Some? && now <= end.value
            && wait == (if end.value == now then SECOND else end.value - now)
            && (Admits(Replay(h + [Poll(now)]), t) <==> t > end.value)
            && (wait != SECOND ==> (Admits(Replay(h + [Poll(now)]), t) <==> t > now + wait))
  {
    hide Backoff, Replay;
    StateMeansHistory(h);
    var h' := h + [Poll(now)];
    assert h'[..|h'| - 1] == h && h'[|h'| - 1] == Poll(now);
    AdmissionExact(h, now);
    StateMeansHistory(h');
  }

  /** The pauses of the first seven trips in a row, in seconds; every later one is ten minutes. */
  lemma PauseTable(k: nat)
    requires k >= 1
    ensures Backoff(k) / SECOND == match k case 1 => 60 case 2 => 120 case 3 => 240 case 4 => 480 case _ => 600
    ensures Backoff(0) == 30 * SECOND && Backoff(k) <= 600 * SECOND
  {
    if k >= 5 { PowerFrom(k); }
  }

  lemma {:induction false} PowerFrom(k: nat)
    requires k >= 5
    ensures Power(k) >= 32
  {
    if k > 5 { PowerFrom(k - 1); }
  }

  /** All transient errors of the trace, whatever succeeded in between. */
  function AllTrips(h: seq<Event>): nat {
    if h == [] then 0 else AllTrips(h[..|h| - 1]) + if IsTrip(h[|h| - 1]) then 1 else 0
  }

  /** The trip counter is never reset. */
  lemma {:induction false} TrippedCounts(h: seq<Event>)
    ensures Replay(h).tripped == AllTrips(h)
  {
    if h != [] { TrippedCounts(h[..|h| - 1]); }
  }

  ghost predicate Monotone(h: seq<Event>) {
    forall i, j :: 0 <= i < j < |h| ==> h[i].now <= h[j].now
  }

  /** Between a trip and the next success or trip no call is admitted, by whatever caller,
      until the announced reset time or strictly more than the backoff has passed. */
  lemma NoEarlyProbe(h: seq<Event>, i: nat, j: nat)
    requires Monotone(h) && i < j < |h| && IsTrip(h[i]) && h[j].Poll?
    requires forall n :: i < n < j ==> !IsTrip(h[n]) && !h[n].Success?
    requires Admits(Replay(h[..j]), h[j].now)
    ensures match h[i].resetAt
            case Some(r) => h[j].now > r
            case None => h[j].now - h[i].now > Backoff(Trips(h[..i + 1]))
  {
    hide Backoff, Admits, Replay;
    AdmissionExact(h[..j], h[j].now);
    SinceTrip(h, i, j);
    assert h[j - 1].now <= h[j].now;
    assert Over(h[i], Trips(h[..i + 1]), h[j].now);
  }

  lemma {:induction false} SinceTrip(h: seq<Event>, i: nat, j: nat)
    requires Monotone(h) && i < j < |h| && IsTrip(h[i])
    requires forall n :: i < n < j ==> !IsTrip(h[n]) && !h[n].Success?
    ensures LastTrip(h[..j]) == Some(h[i]) && Trips(h[..j]) == Trips(h[..i + 1])
    ensures !Paused(h[..j]) ==> Over(h[i], Trips(h[..i + 1]), h[j - 1].now)
    decreases j
  {
    hide Backoff;
    if j == i + 1 {
      assert h[..j][j - 1] == h[i];
    } else {
      SinceTrip(h, i, j - 1);
      assert h[..j][..j - 1] == h[..j - 1] && h[..j][j - 1] == h[j - 1];
      assert h[j - 2].now <= h[j - 1].now;
    }
  }

  /** Events that leave a pause alone. */
  ghost predicate NoTrip(between: seq<Event>) {
    forall e :: e in between ==> !IsTrip(e)
  }

  lemma {:induction false} NoTripKeeps(h: seq<Event>, between: seq<Event>)
    requires NoTrip(between)
    ensures var h' := h + between;
            LastTrip(h').None? || (LastTrip(h') == LastTrip(h) && Trips(h') == Trips(h))
  {
    var h' := h + between;
    if between == [] {
      assert h' == h;
    } else {
      var n := |between| - 1;
      assert h'[..|h'| - 1] == h + between[..n] && h'[|h'| - 1] == between[n];
      assert between[n] in between;
      NoTripKeeps(h, between[..n]);
    }
  }

  /** A waiting call sleeps no longer than needed: unless a new trip intervenes, every call
      later than the announced sleep is admitted. */
  lemma AdmittedAfterWait(h: seq<Event>, now: int, between: seq<Event>, t: int)
    requires NoTrip(between) && !Admits(Replay(h), now) && t > now + WaitFor(Replay(h), now)
    ensures Admits(Replay(h + [Poll(now)] + between), t)
  {
    hide Backoff, Replay;
    StateMeansHistory(h);
    var later := [Poll(now)] + between;
    assert h + [Poll(now)] + between == h + later;
    NoTripKeeps(h, later);
    StateMeansHistory(h + later);
    AdmissionExact(h + later, t);
    hide Admits;
  }

  /** And a call that wakes exactly then either is admitted or sleeps one more second. */
  lemma OneMoreSecond(h: seq<Event>, now: int, between: seq<Event>)
    requires NoTrip(between) && !Admits(Replay(h), now)
    ensures var t := now + WaitFor(Replay(h), now);
            var c := Replay(h + [Poll(now)] + between);
            Admits(c, t) || WaitFor(c, t) == SECOND
  {
    hide Backoff, Replay;
    StateMeansHistory(h);
    var later := [Poll(now)] + between;
    assert h + [Poll(now)] + between == h + later;
    NoTripKeeps(h, later);
    StateMeansHistory(h + later);
  }

  // ---------------------------------------------------------------------- snapshot

  datatype Snapshot = Snapshot(state: string, reason: string, retryBudget: nat, resumeAt: Option<int>,
                               resumeCondition: string)

  function SnapshotOf(c: Circuit): Snapshot {
    match c.mode
    case Closed => Snapshot("active", "", 1, None, "provider-available")
    case HalfOpen => Snapshot("degraded", "probe", 1, None, "probe-succeeds")
    case Open =>
      if c.resetAt.Some? then Snapshot("paused", c.lastReason, 0, c.resetAt, "provider-reset-window")
      else Snapshot("waiting", c.lastReason, 0, None, "backoff-elapses")
  }

  /** What a snapshot tells about the trace; the retry budget is zero exactly while the
      breaker pauses, and a resume time is the one the last trip announced. */
  lemma SnapshotTruthful(h: seq<Event>)
    ensures var s := SnapshotOf(Replay(h));
            && (s.state == "active" <==> Trips(h) == 0)
            && (s.state == "degraded" <==> Trips(h) > 0 && !Paused(h))
            && (s.retryBudget == 0 <==> Paused(h))
            && (s.state == "paused" <==>
                  Paused(h) && LastTrip(h).Some? && LastTrip(h).value.DeliveryError? && LastTrip(h).value.resetAt.Some?)
            && (s.state == "waiting" <==>
                  Paused(h) && LastTrip(h).Some? && LastTrip(h).value.DeliveryError? && LastTrip(h).value.resetAt.None?)
            && s.resumeAt == (if s.state == "paused" then LastTrip(h).value.resetAt else None)
            && s.reason == (if Paused(h) then "delivery_retry_backoff" else if Trips(h) > 0 then "probe" else "")
            && (s.resumeCondition == "provider-available" <==> Trips(h) == 0)
            && (s.resumeCondition == "probe-succeeds" <==> Trips(h) > 0 && !Paused(h))
            && (s.resumeCondition == "provider-reset-window" <==> s.state == "paused")
            && (s.resumeCondition == "backoff-elapses" <==> s.state == "waiting")
            && s.retryBudget <= 1
  {
    hide Backoff, Replay;
    StateMeansHistory(h);
  }

  // -------------------------------------------------------------------- the program

  datatype Verdict = Admitted | Cancelled | StillWaiting

  /** What happens around one iteration of Allow: what other callers did while it slept,
      the time, and whether the context is done. */
  datatype Wake = Wake(others: seq<Event>, now: int, cancelled: bool)

  /** What the breaker sees of a wait: before each look at the clock, what the others did. */
  ghost function Looks(wakes: seq<Wake>): seq<Event> {
    if wakes == [] then []
    else
      var n := |wakes| - 1;
      Looks(wakes[..n]) + wakes[n].others + [Poll(wakes[n].now)]
  }

  /** What happened until just before the look of wake `i`. */
  ghost function UpTo(h: seq<Event>, wakes: seq<Wake>, i: nat): seq<Event>
    requires i < |wakes|
  {
    h + Looks(wakes[..i]) + wakes[i].others
  }

  ghost predicate TurnedDown(h: seq<Event>, wakes: seq<Wake>, i: nat)
    requires i < |wakes|
  {
    !wakes[i].cancelled && !Admits(Replay(UpTo(h, wakes, i)), wakes[i].now)
  }

  class CircuitBreaker {
    var mode: Mode
    var resetAt: Option<int>
    var backoff: int
    var tripped: nat
    var lastTrip: int
    var lastReason: string
    /** Every critical section so far. */
    ghost var history: seq<Event>

    ghost predicate Valid()
      reads this
    {
      Circuit(mode, resetAt, backoff, tripped, lastTrip, lastReason) == Replay(history)
    }

    constructor ()
      ensures Valid() && history == []
    {
      mode, resetAt, backoff, tripped, lastTrip, lastReason := Closed, None, BACKOFF_BASE, 0, 0, "";
      history := [];
    }

    method PollOnce(now: int) returns (admitted: bool, wait: int)
      requires Valid()
      modifies this
      ensures Valid() && history == old(history) + [Poll(now)]
      ensures admitted <==> Admits(Replay(old(history)), now)
      ensures !admitted ==> wait == WaitFor(Replay(old(history)), now)
    {
      admitted, wait := true, 0;
      if mode == Open {
        if resetAt.Some? && now > resetAt.value {
          mode := HalfOpen;
        } else if resetAt.None? && now - lastTrip > backoff {
          mode := HalfOpen;
        } else {
          admitted := false;
          wait := if resetAt.Some? then resetAt.value - now else backoff - (now - lastTrip);
          if wait <= 0 { wait := SECOND; }
        }
      }
      history := history + [Poll(now)];
      assert history[..|history| - 1] == old(history);
    }

    method RecordDeliveryError(now: int, transient: bool, announced: Option<int>)
      requires Valid()
      modifies this
      ensures Valid() && history == old(history) + [DeliveryError(now, transient, announced)]
    {
      if transient {
        mode := Open;
        tripped := tripped + 1;
        lastTrip := now;
        backoff := backoff * 2;
        if backoff > BACKOFF_MAX { backoff := BACKOFF_MAX; }
        resetAt := announced;
        lastReason := "delivery_retry_backoff";
      }
      history := history + [DeliveryError(now, transient, announced)];
      assert history[..|history| - 1] == old(history);
    }

    method RecordSuccess(now: int)
      requires Valid()
      modifies this
      ensures Valid() && history == old(history) + [Success(now)]
    {
      if mode != Closed { backoff := BACKOFF_BASE; }
      mode := Closed;
      resetAt := None;
      lastReason := "";
      history := history + [Success(now)];
      assert history[..|history| - 1] == old(history);
    }

    method Perform(others: seq<Event>)
      requires Valid()
      modifies this
      ensures Valid() && history == old(history) + others
    {
      for i := 0 to |others|
        invariant Valid() && history == old(history) + others[..i]
      {
        match others[i] {
          case Poll(now) => var _, _ := PollOnce(now);
          case DeliveryError(now, transient, announced) => RecordDeliveryError(now, transient, announced);
          case Success(now) => RecordSuccess(now);
        }
      }
    }

    /** The waiting loop of Allow.  After `n` looks that were turned down it ends at the first
        wake that finds the context done or that is admitted; it goes on waiting only if every
        look was turned down. */
    method Allow(wakes: seq<Wake>) returns (verdict: Verdict, ghost n: nat)
      requires Valid()
      modifies this
      ensures Valid() && n <= |wakes|
      ensures forall i: nat :: i < n ==> TurnedDown(old(history), wakes, i)
      ensures n < |wakes| <==> !verdict.StillWaiting?
      ensures verdict.StillWaiting? ==> history == old(history) + Looks(wakes)
      ensures verdict.Admitted? ==>
                && !wakes[n].cancelled && Admits(Replay(UpTo(old(history), wakes, n)), wakes[n].now)
                && history == UpTo(old(history), wakes, n) + [Poll(wakes[n].now)]
      ensures verdict.Cancelled? ==> wakes[n].cancelled && history == UpTo(old(history), wakes, n)
    {
      hide Admits, Replay;
      for i := 0 to |wakes|
        invariant Valid() && history == old(history) + Looks(wakes[..i])
        invariant forall j: nat :: j < i ==> TurnedDown(old(history), wakes, j)
      {
        assert wakes[..i + 1][..i] == wakes[..i];
        Perform(wakes[i].others);
        assert history == UpTo(old(history), wakes, i);
        if wakes[i].cancelled {
          return Cancelled, i;
        }
        var admitted, wait := PollOnce(wakes[i].now);
        if admitted {
          return Admitted, i;
        }
      }
      assert wakes[..|wakes|] == wakes;
      verdict, n := StillWaiting, |wakes|;
    }

    method TakeSnapshot() returns (s: Snapshot)
      requires Valid()
      ensures s == SnapshotOf(Replay(history))
    {
      match mode {
        case Closed => s := Snapshot("active", "", 1, None, "provider-available");
        case HalfOpen => s := Snapshot("degraded", "probe", 1, None, "probe-succeeds");
        case Open =>
          s := Snapshot("waiting", lastReason, 0, None, "backoff-elapses");
          if resetAt.Some? { s := Snapshot("paused", lastReason, 0, resetAt, "provider-reset-window"); }
      }
    }
  }
}
