/**
 * The reminder timer: messages parked in reminders.waiting with a per-message TTL
 * (packages/shared/src/adapters/broker.ts, packages/shared/src/events.ts), which RabbitMQ expires
 * from the head of the queue only.
 */
module ReminderQueue {
  import opened Common

  const REMINDER_HOURS_BEFORE_TRIP: int := 24
  const MAX_TTL_MS: int := 0xFFFF_FFFF   // RabbitMQ refuses a longer expiration

  function Max(a: int, b: int): int { if a < b then b else a }

  /** When the reminder should fire; None stands for a start date that does not parse. */
  function DueAt(start: Option<int>): Option<int> {
    if start.None? then None else Some(start.value - REMINDER_HOURS_BEFORE_TRIP * 60 * 60 * 1000)
  }

  function ReminderDelayMs(start: Option<int>, now: int): (delay: int)
    ensures delay >= 0
    ensures start.Some? ==> now + delay == Max(now, DueAt(start).value)
    ensures start.None? ==> delay == 0
  {
    if start.None? then 0 else Max(0, DueAt(start).value - now)
  }

  /** One scheduleReminder call that reached the queue. */
  datatype Request = Request(start: Option<int>, at: int)

  predicate Accepted(r: Request) { ReminderDelayMs(r.start, r.at) <= MAX_TTL_MS }

  /** The earliest moment at which the reminder may leave: its TTL counted from when it was queued. */
  function ExpiresAt(r: Request): int { r.at + ReminderDelayMs(r.start, r.at) }

  datatype Release = Release(request: Request, at: int)

  /** The specification: reminder i leaves when it and everything queued before it has expired. */
  function ReleaseTime(requests: seq<Request>, i: nat): int
    requires i < |requests|
  {
    if i == 0 then ExpiresAt(requests[0])
    else Max(ReleaseTime(requests, i - 1), ExpiresAt(requests[i]))
  }

  ghost predicate InOrder(requests: seq<Request>) {
    forall i, j :: 0 <= i < j < |requests| ==> requests[i].at <= requests[j].at
  }

  lemma InOrderExtend(requests: seq<Request>, r: Request)
    requires InOrder(requests) && (requests != [] ==> requests[|requests| - 1].at <= r.at)
    ensures InOrder(requests + [r])
  {
  }

  /** The first n releases. */
  function Releases(requests: seq<Request>, n: nat): seq<Release>
    requires n <= |requests|
  {
    seq(n, (i: nat) requires i < n => Release(requests[i], ReleaseTime(requests, i)))
  }

  lemma {:induction false} ReleaseTimePrefix(requests: seq<Request>, r: Request, i: nat)
    requires i < |requests|
    ensures ReleaseTime(requests + [r], i) == ReleaseTime(requests, i)
  {
    if i > 0 { ReleaseTimePrefix(requests, r, i - 1); }
  }

  lemma ReleasesPrefix(requests: seq<Request>, r: Request, n: nat)
    requires n <= |requests|
    ensures Releases(requests + [r], n) == Releases(requests, n)
  {
    forall i: nat | i < n
      ensures ReleaseTime(requests + [r], i) == ReleaseTime(requests, i)
    {
      ReleaseTimePrefix(requests, r, i);
    }
  }

  lemma ReleasesExtend(requests: seq<Request>, n: nat)
    requires n < |requests|
    ensures Releases(requests, n + 1) == Releases(requests, n) + [Release(requests[n], ReleaseTime(requests, n))]
  {
  }

  /** n reminders have left by `now`. */
  predicate ReleasedBy(requests: seq<Request>, n: nat, now: int) {
    n <= |requests| && (n > 0 ==> ReleaseTime(requests, n - 1) <= now)
  }

  /** The clock shows the moment the last reminder left, or the next one has not expired yet. */
  predicate UpToDate(requests: seq<Request>, n: nat, now: int) {
    && n <= |requests|
    && ((n > 0 && ReleaseTime(requests, n - 1) == now) || (n < |requests| ==> now < ExpiresAt(requests[n])))
  }

  /** With the head unexpired, the reminders that have left are exactly those whose release time has come. */
  lemma ReleasedIffDue(requests: seq<Request>, n: nat, now: int, i: nat)
    requires ReleasedBy(requests, n, now) && i < |requests|
    requires n < |requests| ==> now < ExpiresAt(requests[n])
    ensures i < n <==> ReleaseTime(requests, i) <= now
  {
    if i < n { ReleasesInOrder(requests, i, n - 1); } else { ReleasesInOrder(requests, n, i); }
  }

  /** What has left so far is what the specification says, and nothing expired is at the head. */
  ghost predicate Consistent(requests: seq<Request>, waiting: seq<Request>, released: seq<Release>, now: int) {
    && ReleasedBy(requests, |released|, now)
    && released == Releases(requests, |released|)
    && waiting == requests[|released|..]
    && InOrder(requests)
    && (requests != [] ==> requests[|requests| - 1].at <= now)
    && (waiting != [] ==> now < ExpiresAt(waiting[0]))
  }

  lemma ConsistentQueued(requests: seq<Request>, waiting: seq<Request>, released: seq<Release>, now: int, r: Request)
    requires Consistent(requests, waiting, released, now) && r.at == now
    requires waiting != [] || now < ExpiresAt(r)
    ensures Consistent(requests + [r], waiting + [r], released, now)
  {
    InOrderExtend(requests, r);
    ReleasesPrefix(requests, r, |released|);
    if |released| > 0 { ReleaseTimePrefix(requests, r, |released| - 1); }
  }

  lemma ConsistentImmediate(requests: seq<Request>, released: seq<Release>, now: int, r: Request)
    requires Consistent(requests, [], released, now) && r.at == now && ExpiresAt(r) <= now
    ensures Consistent(requests + [r], [], released + [Release(r, now)], now)
  {
    InOrderExtend(requests, r);
    assert |released| == |requests|;
    ReleasesPrefix(requests, r, |released|);
    if |released| > 0 { ReleaseTimePrefix(requests, r, |released| - 1); }
    ReleasesExtend(requests + [r], |requests|);
  }

  class TimerQueue {
    var now: int
    var waiting: seq<Request>
    var released: seq<Release>
    ghost var requests: seq<Request>   // everything ever queued

    ghost predicate Valid()
      reads this
    {
      Consistent(requests, waiting, released, now)
    }

    constructor (now: int)
      ensures Valid() && requests == [] && this.now == now
    {
      this.now, waiting, released, requests := now, [], [], [];
    }

    /** The clock reaches `target`; RabbitMQ dead-letters from the head whatever expires on the way. */
    method AdvanceTo(target: int)
      requires Valid() && now <= target
      modifies this
      ensures Valid() && now == target && requests == old(requests)
      ensures old(released) <= released
    {
      ghost var n := |released|;
      while waiting != [] && ExpiresAt(waiting[0]) <= target
        invariant now <= target && requests == old(requests) && old(released) <= released
        invariant n == |released| && ReleasedBy(requests, n, now) && UpToDate(requests, n, now)
        invariant released == Releases(requests, n) && waiting == requests[n..]
        decreases |waiting|
      {
        now := Max(now, ExpiresAt(waiting[0]));
        released := released + [Release(waiting[0], now)];
        waiting := waiting[1..];
        ReleasesExtend(requests, n);
        n := n + 1;
      }
      now := target;
    }

    /** sendToQueue with an expiration RabbitMQ takes. */
    method Enqueue(start: Option<int>)
      requires Valid()
      modifies this
      ensures Valid() && now == old(now)
      ensures requests == old(requests) + [Request(start, now)]
      ensures old(released) <= released
    {
      var r := Request(start, now);
      if waiting == [] && ExpiresAt(r) <= now {
        ConsistentImmediate(requests, released, now, r);
      } else {
        ConsistentQueued(requests, waiting, released, now, r);
      }
      requests := requests + [r];
      waiting := waiting + [r];
      if waiting == [r] && ExpiresAt(r) <= now {
        released := released + [Release(r, now)];
        waiting := [];
      }
    }

    /** scheduleReminder at the present moment; nothing is queued when the expiration is too long. */
    method Schedule(start: Option<int>) returns (queued: bool)
      requires Valid()
      modifies this
      ensures Valid() && now == old(now)
      ensures queued <==> start.None? || start.value - now <= 86_400_000 + 0xFFFF_FFFF
      ensures requests == if queued then old(requests) + [Request(start, now)] else old(requests)
      ensures old(released) <= released && (!queued ==> released == old(released) && waiting == old(waiting))
    {
      AcceptedIff(start, now);
      queued := Accepted(Request(start, now));
      if queued { Enqueue(start); }
    }
  }

  /** Exactly which trips can be reminded of: those no more than 24 h and 2^32 - 1 ms away. */
  lemma AcceptedIff(start: Option<int>, now: int)
    ensures Accepted(Request(start, now)) <==> start.None? || start.value - now <= 86_400_000 + 0xFFFF_FFFF
  {
  }

  /** t is the largest of requests[i].at and all due times up to and including the i-th. */
  ghost predicate IsReleaseBound(requests: seq<Request>, i: nat, t: int)
    requires i < |requests|
  {
    && requests[i].at <= t
    && (forall j :: 0 <= j <= i && requests[j].start.Some? ==> DueAt(requests[j].start).value <= t)
    && (|| t == requests[i].at
        || exists j :: 0 <= j <= i && requests[j].start.Some? && DueAt(requests[j].start) == Some(t))
  }

  /**
   * The i-th reminder, queued at t_i, leaves at exactly max(t_i, max over j <= i of start_j - 24 h):
   * never early, and late only behind an earlier-queued reminder that is due later.
   */
  lemma {:induction false} ReleaseTimeExact(requests: seq<Request>, i: nat)
    requires InOrder(requests) && i < |requests|
    ensures IsReleaseBound(requests, i, ReleaseTime(requests, i))
    ensures forall t :: IsReleaseBound(requests, i, t) ==> t == ReleaseTime(requests, i)
  {
    if i > 0 { ReleaseTimeExact(requests, i - 1); }
    var r := ReleaseTime(requests, i);
    if r != requests[i].at && (requests[i].start.None? || DueAt(requests[i].start).value != r) {
      assert r == ReleaseTime(requests, i - 1);
    }
  }

  /** First in, first out. */
  lemma {:induction false} ReleasesInOrder(requests: seq<Request>, i: nat, j: nat)
    requires i <= j < |requests|
    ensures ReleaseTime(requests, i) <= ReleaseTime(requests, j)
    decreases j
  {
    if i < j { ReleasesInOrder(requests, i, j - 1); }
  }

  /** A reminder is on time exactly when nothing queued before it leaves later than it expires. */
  lemma OnTimeIff(requests: seq<Request>, i: nat)
    requires i < |requests|
    ensures ReleaseTime(requests, i) == ExpiresAt(requests[i]) <==>
              forall j :: 0 <= j < i ==> ExpiresAt(requests[j]) <= ExpiresAt(requests[i])
  {
    forall j: nat | j < i
      ensures ExpiresAt(requests[j]) <= ReleaseTime(requests, i)
    {
      ReleasesInOrder(requests, j, i);
    }
    SomeExpiry(requests, i);
  }

  /** Every release happens at the expiry of some reminder queued no later. */
  lemma {:induction false} SomeExpiry(requests: seq<Request>, i: nat)
    requires i < |requests|
    ensures exists j :: 0 <= j <= i && ReleaseTime(requests, i) == ExpiresAt(requests[j])
  {
    if i > 0 && ReleaseTime(requests, i) != ExpiresAt(requests[i]) {
      SomeExpiry(requests, i - 1);
      var j :| 0 <= j <= i - 1 && ReleaseTime(requests, i - 1) == ExpiresAt(requests[j]);
      assert ReleaseTime(requests, i) == ExpiresAt(requests[j]);
    } else {
      assert ReleaseTime(requests, i) == ExpiresAt(requests[i]);
    }
  }

  /** Trips scheduled in the order of their start dates are all reminded on time. */
  lemma OnTimeWhenSorted(requests: seq<Request>, i: nat)
    requires InOrder(requests) && i < |requests|
    requires forall j, k :: 0 <= j < k < |requests| && requests[j].start.Some? ==>
               requests[k].start.Some? && requests[j].start.value <= requests[k].start.value
    ensures ReleaseTime(requests, i) == ExpiresAt(requests[i])
  {
    OnTimeIff(requests, i);
  }
}
