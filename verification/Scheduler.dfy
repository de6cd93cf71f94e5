/** The fair gate between the local transfer workers. Each method is one pass through
    the critical section, between taking the condition's lock and waiting or leaving. */
module Scheduler {
  import opened CausalVersions

  datatype Kind = Push | Pull | Mirror | Preview

  function Priority(kind: Kind): int {
    match kind
    case Push => 0
    case Pull => 1
    case Mirror => 2
    case Preview => 3
  }

  datatype Request = Request(kind: Kind, sequence: nat, queuedAt: real)

  const AGING_SECONDS := 30.0

  function Waited(r: Request, now: real): real {
    if now > r.queuedAt then now - r.queuedAt else 0.0
  }

  /** The first component of the sort key. */
  function EffectivePriority(r: Request, now: real): real {
    Priority(r.kind) as real - Waited(r, now) / AGING_SECONDS
  }

  /** Sort keys are pairs compared in order. */
  predicate KeyBefore(a: Request, b: Request, now: real) {
    EffectivePriority(a, now) < EffectivePriority(b, now)
    || (EffectivePriority(a, now) == EffectivePriority(b, now) && a.sequence < b.sequence)
  }

  /* ---- the order does not depend on when it is looked at ---- */

  function Due(r: Request): real {
    30.0 * Priority(r.kind) as real + r.queuedAt
  }

  predicate Precedes(a: Request, b: Request) {
    Due(a) < Due(b) || (Due(a) == Due(b) && a.sequence < b.sequence)
  }

  /** Ageing never reorders two waiting requests: at every moment after both were queued
      the keys compare like 30 s per priority step plus the queue time. */
  lemma AgeingKeepsOrder(a: Request, b: Request, now: real)
    requires a.queuedAt <= now && b.queuedAt <= now
    ensures KeyBefore(a, b, now) <==> Precedes(a, b)
  {
    assert EffectivePriority(a, now) == (Due(a) - now) / 30.0;
    assert EffectivePriority(b, now) == (Due(b) - now) / 30.0;
  }

  lemma PrecedesIsTotalOrder(a: Request, b: Request, c: Request)
    ensures a.sequence != b.sequence ==> Precedes(a, b) || Precedes(b, a)
    ensures !(Precedes(a, b) && Precedes(b, a))
    ensures Precedes(a, b) && Precedes(b, c) ==> Precedes(a, c)
  {
  }

  /** A later request goes first exactly when its head start in priority, at 30 s a step,
      exceeds its delay; after 90 s no kind has enough. */
  lemma OvertakingExactly(early: Request, late: Request)
    requires early.sequence < late.sequence
    ensures Precedes(late, early) <==> late.queuedAt - early.queuedAt < 30.0 * (Priority(early.kind) - Priority(late.kind)) as real
    ensures late.queuedAt - early.queuedAt >= 90.0 ==> Precedes(early, late)
  {
  }

  /** Each kind has 30 s on the next one: push, pull, mirror, preview. A later request of
      the better kind goes first exactly within that time, and one of a worse or the same
      kind never does. */
  lemma KindsInOrder(a: Request, b: Request)
    requires a.sequence < b.sequence && a.queuedAt <= b.queuedAt
    ensures a.kind.Pull? && b.kind.Push? ==> (Precedes(b, a) <==> b.queuedAt - a.queuedAt < 30.0)
    ensures a.kind.Mirror? && b.kind.Pull? ==> (Precedes(b, a) <==> b.queuedAt - a.queuedAt < 30.0)
    ensures a.kind.Preview? && b.kind.Mirror? ==> (Precedes(b, a) <==> b.queuedAt - a.queuedAt < 30.0)
    ensures a.kind.Mirror? && b.kind.Push? ==> (Precedes(b, a) <==> b.queuedAt - a.queuedAt < 60.0)
    ensures a.kind.Preview? && b.kind.Pull? ==> (Precedes(b, a) <==> b.queuedAt - a.queuedAt < 60.0)
    ensures a.kind.Preview? && b.kind.Push? ==> (Precedes(b, a) <==> b.queuedAt - a.queuedAt < 90.0)
    ensures a.kind.Push? || b.kind.Preview? || a.kind == b.kind || (a.kind.Pull? && b.kind.Mirror?) ==> Precedes(a, b) && !Precedes(b, a)
  {
  }

  /** The sort key at one reading of the clock: a waiting second is worth a thirtieth of a
      priority step. */
  lemma KeyExactly(kind: Kind, sequence: nat, queuedAt: real, now: real)
    requires now >= queuedAt
    ensures var key := EffectivePriority(Request(kind, sequence, queuedAt), now);
            key == (match kind case Push => 0.0 case Pull => 1.0 case Mirror => 2.0 case Preview => 3.0) - (now - queuedAt) / 30.0
  {
  }

  /** The bound is tight: any shorter delay lets a push overtake a preview. */
  lemma NinetySecondsIsTight(queuedAt: real, delay: real)
    requires 0.0 <= delay < 90.0
    ensures Precedes(Request(Push, 1, queuedAt + delay), Request(Preview, 0, queuedAt))
  {
  }

  /* ---- the gate ---- */

  datatype Answer = Granted | Refused | Waits

  function Sequences(waiting: seq<Request>): set<nat> {
    set r | r in waiting :: r.sequence
  }

  /** In order of arrival, each with its own number. */
  ghost predicate Queued(waiting: seq<Request>, next: nat, clock: real) {
    && (forall i, j :: 0 <= i < j < |waiting| ==>
          waiting[i].sequence < waiting[j].sequence && waiting[i].queuedAt <= waiting[j].queuedAt)
    && forall r :: r in waiting ==> r.sequence < next && r.queuedAt <= clock
  }

  ghost predicate IsFirst(r: Request, waiting: seq<Request>) {
    r in waiting && forall w :: w in waiting && w != r ==> Precedes(r, w)
  }

  function Without(waiting: seq<Request>, sequence: nat): (rest: seq<Request>)
    ensures forall r :: r in rest <==> r in waiting && r.sequence != sequence
  {
    if waiting == [] then []
    else if waiting[0].sequence == sequence then Without(waiting[1..], sequence)
    else [waiting[0]] + Without(waiting[1..], sequence)
  }

  lemma TailIsQueued(waiting: seq<Request>, next: nat, clock: real)
    requires Queued(waiting, next, clock) && waiting != []
    ensures Queued(waiting[1..], next, clock)
    ensures forall r :: r in waiting[1..] ==> waiting[0].sequence < r.sequence && waiting[0].queuedAt <= r.queuedAt
  {
  }

  lemma FrontIsQueued(r: Request, rest: seq<Request>, next: nat, clock: real)
    requires Queued(rest, next, clock) && r.sequence < next && r.queuedAt <= clock
    requires forall w :: w in rest ==> r.sequence < w.sequence && r.queuedAt <= w.queuedAt
    ensures Queued([r] + rest, next, clock)
  {
  }

  lemma {:induction false} WithoutStaysQueued(waiting: seq<Request>, sequence: nat, next: nat, clock: real)
    requires Queued(waiting, next, clock)
    ensures Queued(Without(waiting, sequence), next, clock)
  {
    if waiting != [] {
      assert waiting[0].sequence < next && waiting[0].queuedAt <= clock;
      hide Queued, Precedes;
      TailIsQueued(waiting, next, clock);
      WithoutStaysQueued(waiting[1..], sequence, next, clock);
      FrontIsQueued(waiting[0], Without(waiting[1..], sequence), next, clock);
    }
  }

  lemma SameNumberSameRequest(waiting: seq<Request>, next: nat, clock: real, a: Request, b: Request)
    requires Queued(waiting, next, clock) && a in waiting && b in waiting && a.sequence == b.sequence
    ensures a == b
  {
  }

  /** The minimum of the queue by the sort key, with one reading of the clock. */
  method First(waiting: seq<Request>, next: nat, now: real) returns (first: Request)
    requires waiting != [] && Queued(waiting, next, now)
    ensures IsFirst(first, waiting)
  {
    first := waiting[0];
    for i := 1 to |waiting|
      invariant first in waiting[..i]
      invariant forall w :: w in waiting[..i] && w != first ==> Precedes(first, w)
    {
      AgeingKeepsOrder(waiting[i], first, now);
      var previous := first;
      if KeyBefore(waiting[i], first, now) {
        first := waiting[i];
      }
      forall w | w in waiting[..i + 1] && w != first ensures Precedes(first, w) {
        PrecedesIsTotalOrder(waiting[i], previous, w);
        assert w in waiting[..i] || w == waiting[i];
        assert previous.sequence != waiting[i].sequence;
      }
    }
    assert waiting[..|waiting|] == waiting;
  }

  lemma {:induction false} WithoutLast(waiting: seq<Request>, r: Request)
    requires forall w :: w in waiting ==> w.sequence != r.sequence
    ensures Without(waiting + [r], r.sequence) == waiting
  {
    if waiting != [] {
      assert (waiting + [r])[1..] == waiting[1..] + [r];
      WithoutLast(waiting[1..], r);
      assert waiting == [waiting[0]] + waiting[1..];
    } else {
      assert waiting + [r] == [r] && [r][1..] == [];
    }
  }

  lemma LaterIsQueued(waiting: seq<Request>, next: nat, clock: real, now: real)
    requires Queued(waiting, next, clock) && now >= clock
    ensures Queued(waiting, next, now) && Queued(waiting, next + 1, now)
    ensures next !in Sequences(waiting)
  {
  }

  lemma NewcomerIsQueued(waiting: seq<Request>, next: nat, clock: real, r: Request)
    requires Queued(waiting, next, clock) && r.sequence == next && r.queuedAt >= clock
    ensures Queued(waiting + [r], next + 1, r.queuedAt)
    ensures Without(waiting + [r], r.sequence) == waiting
  {
    var more := waiting + [r];
    forall i, j | 0 <= i < j < |more| ensures more[i].sequence < more[j].sequence && more[i].queuedAt <= more[j].queuedAt {
      assert more[i] in waiting;
    }
    WithoutLast(waiting, r);
  }

  /* ---- no starvation ---- */

  function Ahead(waiting: seq<Request>, r: Request): set<nat> {
    set w | w in waiting && Precedes(w, r) :: w.sequence
  }

  /** Every grant to somebody else brings a waiting request one place forward, and a
      request queued 90 s or more after it does not push it back. */
  lemma QueuePositionImproves(waiting: seq<Request>, next: nat, clock: real, granted: Request, r: Request, newcomer: Request)
    requires Queued(waiting, next, clock) && IsFirst(granted, waiting) && r in waiting && r != granted
    requires newcomer.sequence == next && newcomer.queuedAt - r.queuedAt >= 90.0
    ensures Ahead(Without(waiting, granted.sequence), r) == Ahead(waiting, r) - {granted.sequence}
    ensures granted.sequence in Ahead(waiting, r)
    ensures Ahead(waiting + [newcomer], r) == Ahead(waiting, r)
  {
    OvertakingExactly(r, newcomer);
    PrecedesIsTotalOrder(r, newcomer, r);
    var rest := Without(waiting, granted.sequence);
    forall n ensures n in Ahead(rest, r) <==> n in Ahead(waiting, r) && n != granted.sequence {
      if n in Ahead(waiting, r) && n != granted.sequence {
        var w :| w in waiting && Precedes(w, r) && w.sequence == n;
        assert w in rest;
      }
    }
    forall n ensures n in Ahead(waiting + [newcomer], r) <==> n in Ahead(waiting, r) {
      if n in Ahead(waiting, r) {
        var w :| w in waiting && Precedes(w, r) && w.sequence == n;
        assert w in waiting + [newcomer];
      }
    }
  }

  /** The first in line never has 90 s less behind it than somebody else. */
  lemma NobodyPassedOver(waiting: seq<Request>, next: nat, clock: real, first: Request)
    requires Queued(waiting, next, clock) && IsFirst(first, waiting)
    ensures forall w :: w in waiting && w != first ==> first.queuedAt - w.queuedAt < 90.0
  {
    forall w | w in waiting && w != first ensures first.queuedAt - w.queuedAt < 90.0 {
      if w.sequence < first.sequence {
        OvertakingExactly(w, first);
        PrecedesIsTotalOrder(w, first, w);
      }
    }
  }

  /** The sleepers are waiting requests, and with the gate free none of them may pass. */
  ghost predicate NobodyForgotten(active: bool, waiting: seq<Request>, asleep: set<nat>) {
    && asleep <= Sequences(waiting)
    && (!active ==> forall r :: IsFirst(r, waiting) ==> r.sequence !in asleep)
  }

  lemma NewcomerMaySleep(active: bool, waiting: seq<Request>, asleep: set<nat>, r: Request)
    requires NobodyForgotten(active, waiting, asleep) && r.sequence !in Sequences(waiting)
    ensures Sequences(waiting + [r]) == Sequences(waiting) + {r.sequence}
    ensures NobodyForgotten(active, waiting + [r], asleep)
    ensures active || !IsFirst(r, waiting + [r]) ==> NobodyForgotten(active, waiting + [r], asleep + {r.sequence})
  {
    hide Precedes;
    var more := waiting + [r];
    forall x ensures x in more <==> x in waiting || x == r {
    }
    forall n ensures n in Sequences(more) <==> n in Sequences(waiting) || n == r.sequence {
      if n in Sequences(waiting) {
        var w :| w in waiting && w.sequence == n;
        assert w in more;
      }
      assert r in more;
    }
    if !active {
      forall x | IsFirst(x, more) && x != r ensures IsFirst(x, waiting) && x.sequence != r.sequence {
        assert x.sequence in Sequences(waiting);
      }
    }
  }

  lemma WaiterMaySleep(active: bool, waiting: seq<Request>, next: nat, clock: real, asleep: set<nat>, r: Request)
    requires NobodyForgotten(active, waiting, asleep) && Queued(waiting, next, clock) && r in waiting
    requires active || !IsFirst(r, waiting)
    ensures NobodyForgotten(active, waiting, asleep + {r.sequence})
  {
    forall x | IsFirst(x, waiting) && !active ensures x.sequence !in asleep + {r.sequence} {
      if x.sequence == r.sequence {
        SameNumberSameRequest(waiting, next, clock, x, r);
      }
    }
  }

  lemma NobodyAsleep(active: bool, waiting: seq<Request>)
    ensures NobodyForgotten(active, waiting, {})
  {
  }

  lemma SequencesWithout(waiting: seq<Request>, n: nat)
    ensures Sequences(Without(waiting, n)) == Sequences(waiting) - {n}
  {
    hide Without;
    forall k | k in Sequences(waiting) && k != n ensures k in Sequences(Without(waiting, n)) {
      var w :| w in waiting && w.sequence == k;
      assert w in Without(waiting, n);
    }
  }

  class TransferScheduler {
    var active: bool
    var sequence: nat
    var waiting: seq<Request>
    ghost var clock: real          // the last time anybody looked
    ghost var asleep: set<nat>     // the requests inside wait()
    ghost var holders: set<nat>    // granted and not released

    constructor ()
      ensures Valid() && waiting == [] && !active
    {
      active, sequence, waiting, clock, asleep, holders := false, 0, [], 0.0, {}, {};
    }

    ghost predicate Valid()
      reads this
    {
      && Queued(waiting, sequence, clock)
      // at most one holder
      && |holders| <= 1 && (active <==> holders != {})
      && (forall h :: h in holders ==> h < sequence && h !in Sequences(waiting))
      // no lost wake-up: with the gate free, the one that may pass is awake
      && NobodyForgotten(active, waiting, asleep)
    }

    /** What a grant means: the request was first, and it alone holds the gate. */
    twostate predicate GrantedTo(request: Request, before: seq<Request>)
      reads this
    {
      && !old(active) && active && holders == {request.sequence}
      && IsFirst(request, before)
      && waiting == Without(before, request.sequence)
      // nobody who waited 90 s or more for it is passed over
      && forall w :: w in before && w != request ==> request.queuedAt - w.queuedAt < 90.0
    }

    method Grant(request: Request)
      requires Valid() && !active && IsFirst(request, waiting)
      modifies this`active, this`waiting, this`asleep, this`holders
      ensures Valid() && GrantedTo(request, old(waiting)) && asleep == old(asleep) - {request.sequence}
      ensures forall r :: r in old(waiting) && r.sequence in old(asleep) && r != request ==> r.sequence in asleep
    {
      WithoutStaysQueued(waiting, request.sequence, sequence, clock);
      SequencesWithout(waiting, request.sequence);
      NobodyPassedOver(waiting, sequence, clock, request);
      hide Queued, IsFirst, Precedes, Without;
      waiting := Without(waiting, request.sequence);
      active, holders := true, {request.sequence};
      asleep := asleep - {request.sequence};
    }

    /** Enter the queue and make the first pass. `timeout` is how long to wait at most. */
    method Acquire(kind: Kind, blocking: bool, timeout: Option<real>, now: real) returns (answer: Answer)
      requires Valid() && now >= clock
      modifies this
      ensures Valid() && clock == now && sequence == old(sequence) + 1
      ensures var request := Request(kind, old(sequence), now);
              && (answer.Granted? ==> GrantedTo(request, old(waiting) + [request]))
              && (blocking ==> (answer.Granted? <==> !old(active) && IsFirst(request, old(waiting) + [request])))
              && (answer.Refused? ==> waiting == old(waiting) && active == old(active) && holders == old(holders)
                                      && (!blocking || (timeout.Some? && timeout.value <= 0.0)))
              && (answer.Waits? ==> blocking && waiting == old(waiting) + [request] && active == old(active) && holders == old(holders)
                                    && (active || !IsFirst(request, waiting))
                                    && (timeout.None? || timeout.value > 0.0))
      // one that waits sleeps; one that gives up wakes all the others
      ensures asleep == match answer
                        case Waits => old(asleep) + {old(sequence)}
                        case Refused => if blocking then {} else old(asleep)
                        case Granted => old(asleep) - {old(sequence)}
      // a non-blocking request is answered at once, and granted only when nothing is going on
      ensures !blocking ==> (answer.Granted? <==> !old(active) && old(waiting) == [])
    {
      hide Precedes, Without, Queued, NobodyForgotten, Sequences, KeyBefore, EffectivePriority, IsFirst;
      var request := Request(kind, sequence, now);
      LaterIsQueued(waiting, sequence, clock, now);
      NewcomerIsQueued(waiting, sequence, clock, request);
      NewcomerMaySleep(active, waiting, asleep, request);
      sequence, clock := sequence + 1, now;
      if !blocking && (active || waiting != []) {
        return Refused;
      }
      waiting := waiting + [request];
      var first := First(waiting, sequence, now);
      FirstIsUnique(waiting, first, request);
      if !active && first == request {
        Grant(request);
        return Granted;
      }
      LoneRequestIsFirst(request, first);
      assert blocking;  // otherwise the request is alone in a free gate, and first
      if timeout.Some? && timeout.value <= 0.0 {
        waiting := Without(waiting, request.sequence);
        asleep := {};
        NobodyAsleep(active, waiting);
        return Refused;
      }
      asleep := asleep + {request.sequence};
      answer := Waits;
    }

    /** A waiting request that woke up passes through the loop again. */
    method Recheck(request: Request, expired: bool, now: real) returns (answer: Answer)
      requires Valid() && now >= clock && request in waiting && request.sequence !in asleep
      modifies this
      ensures Valid() && clock == now && sequence == old(sequence)
      ensures answer.Granted? ==> GrantedTo(request, old(waiting))
      ensures answer.Refused? ==> expired && waiting == Without(old(waiting), request.sequence) && active == old(active) && holders == old(holders)
      ensures answer.Waits? ==> !expired && waiting == old(waiting) && active == old(active) && holders == old(holders)
      ensures asleep == match answer
                        case Waits => old(asleep) + {request.sequence}
                        case Refused => {}
                        case Granted => old(asleep) - {request.sequence}
      // whoever may pass does
      ensures answer.Granted? <==> !old(active) && IsFirst(request, old(waiting))
    {
      hide Precedes, Without, Queued, NobodyForgotten, Sequences;
      LaterIsQueued(waiting, sequence, clock, now);
      WithoutStaysQueued(waiting, request.sequence, sequence, now);
      SequencesWithout(waiting, request.sequence);
      clock := now;
      var first := First(waiting, sequence, now);
      FirstIsUnique(waiting, first, request);
      if !active && first == request {
        Grant(request);
        return Granted;
      }
      if expired {
        waiting := Without(waiting, request.sequence);
        asleep := {};
        NobodyAsleep(active, waiting);
        return Refused;
      }
      WaiterMaySleep(active, waiting, sequence, now, asleep, request);
      asleep := asleep + {request.sequence};
      answer := Waits;
    }

    /** wait() returns: notified, timed out, or for no reason. */
    ghost method Wake(request: Request)
      requires Valid()
      modifies this`asleep
      ensures Valid() && asleep == old(asleep) - {request.sequence}
    {
      asleep := asleep - {request.sequence};
    }

    /** Fails when nobody holds the gate. */
    method Release() returns (ok: bool)
      requires Valid()
      modifies this`active, this`holders, this`asleep
      ensures Valid() && (ok <==> old(active))
      ensures !active && holders == {}
      ensures ok ==> asleep == {}
    {
      if !active {
        return false;
      }
      active, holders, asleep := false, {}, {};
      ok := true;
    }
  }

  lemma LoneRequestIsFirst(r: Request, first: Request)
    ensures IsFirst(first, [] + [r]) ==> first == r
  {
  }

  lemma FirstIsUnique(waiting: seq<Request>, a: Request, b: Request)
    requires IsFirst(a, waiting)
    ensures IsFirst(b, waiting) ==> a == b
  {
    PrecedesIsTotalOrder(a, b, a);
  }

  /* ---- permits ---- */

  class TransferPermit {
    const scheduler: TransferScheduler
    const kind: Kind
    var held: bool
    ghost var mine: nat   // the number of the request that was granted

    constructor (scheduler: TransferScheduler, kind: Kind)
      ensures this.scheduler == scheduler && this.kind == kind && !held
    {
      this.scheduler, this.kind, held, mine := scheduler, kind, false, 0;
    }

    ghost predicate Valid()
      reads this, scheduler
    {
      scheduler.Valid() && (held ==> scheduler.holders == {mine})
    }

    /** The first pass of an acquire. The permit learns the answer when there is one; while
        it waits it is what it was. A permit that is already held is never granted again:
        refused, it forgets that it holds the gate, which then stays taken; without a
        timeout it waits for itself. */
    method Acquire(blocking: bool, timeout: Option<real>, now: real) returns (answer: Answer, request: Request)
      requires Valid() && now >= scheduler.clock
      modifies this, scheduler
      ensures Valid() && request == Request(kind, old(scheduler.sequence), now)
      ensures if answer.Waits? then held == old(held) && request in scheduler.waiting else held <==> answer.Granted?
      ensures blocking ==> (answer.Granted? <==> !old(scheduler.active) && IsFirst(request, old(scheduler.waiting) + [request]))
      ensures !blocking ==> !answer.Waits? && (answer.Granted? <==> !old(scheduler.active) && old(scheduler.waiting) == [])
      ensures old(held) ==> !answer.Granted? && scheduler.active && scheduler.holders == {old(mine)}
      ensures old(held) && blocking ==> (answer.Waits? <==> timeout.None? || timeout.value > 0.0)
    {
      hide IsFirst, Queued, NobodyForgotten, Without;
      request := Request(kind, scheduler.sequence, now);
      answer := scheduler.Acquire(kind, blocking, timeout, now);
      if !answer.Waits? {
        held, mine := answer.Granted?, request.sequence;
      }
    }

    /** A later pass, after a wake-up or at the deadline. */
    method Resume(request: Request, expired: bool, now: real) returns (answer: Answer)
      requires Valid() && now >= scheduler.clock && request in scheduler.waiting && request.sequence !in scheduler.asleep
      modifies this, scheduler
      ensures Valid()
      ensures if answer.Waits? then !expired && held == old(held) else held <==> answer.Granted?
      ensures answer.Granted? <==> !old(scheduler.active) && IsFirst(request, old(scheduler.waiting))
      ensures old(held) ==> !answer.Granted? && scheduler.active && scheduler.holders == {old(mine)}
    {
      hide IsFirst, Queued, NobodyForgotten, Without;
      answer := scheduler.Recheck(request, expired, now);
      if !answer.Waits? {
        held, mine := answer.Granted?, request.sequence;
      }
    }

    method Release()
      requires Valid()
      modifies this, scheduler
      ensures Valid() && !held
      ensures if old(held) then !scheduler.active && scheduler.holders == {}
              else scheduler.active == old(scheduler.active) && scheduler.holders == old(scheduler.holders)
    {
      if held {
        held := false;
        var ok := scheduler.Release();
      }
    }
  }
}
