/**
 The single-slot handoff to the publishing thread: a slot under a mutex in which
 a new value replaces the pending one, a condition variable, and a stop. The
 slot's operations come first; then the producer, the consumer and the stopping
 thread interleave, with the consumer's sleep and every kind of wake-up.
 */
module Mailbox {
  import opened Common

  datatype PushResult = Stored | Replaced | Stopped

  datatype Slot<+T> = Slot(pending: Option<T>, stopped: bool)

  function PushSlot<T>(s: Slot<T>, value: T): (Slot<T>, PushResult) {
    if s.stopped then (s, Stopped)
    else (s.(pending := Some(value)), if s.pending.Some? then Replaced else Stored)
  }

  predicate MayReturn<T>(s: Slot<T>) {
    s.stopped || s.pending.Some?
  }

  /** What wait_pop does once its predicate holds; None stands for its false result. */
  function PopSlot<T>(s: Slot<T>): (Slot<T>, Option<T>) {
    (s.(pending := None), s.pending)
  }

  function StopSlot<T>(s: Slot<T>): Slot<T> {
    Slot(None, true)
  }

  class LatestValueMailbox<T> {
    var pending: Option<T>
    var stopped: bool

    function State(): Slot<T>
      reads this
    {
      Slot(pending, stopped)
    }

    constructor ()
      ensures State() == Slot(None, false)
    {
      pending, stopped := None, false;
    }

    method Push(value: T) returns (r: PushResult)
      modifies this
      ensures (State(), r) == PushSlot(old(State()), value)
    {
      if stopped {
        return Stopped;
      }
      var replaced := pending.Some?;
      pending := Some(value);
      return if replaced then Replaced else Stored;
    }

    /** The part of wait_pop after the wait, under the lock. */
    method PopAfterWait() returns (value: Option<T>)
      requires MayReturn(State())
      modifies this
      ensures (State(), value) == PopSlot(old(State()))
    {
      if pending.None? {
        return None;
      }
      value := pending;
      pending := None;
    }

    method Stop()
      modifies this
      ensures State() == StopSlot(old(State()))
    {
      stopped, pending := true, None;
    }
  }

  // ---------------------------------------------------------- the monitor

  /** Asleep: in the wait, not notified. Woken: notified or woken spuriously, and to recheck under the lock. */
  datatype Consumer<+T> = Running | Asleep | Woken | Publishing(value: T) | Finished

  datatype Monitor<+T> = Monitor(
    slot: Slot<T>,
    consumer: Consumer<T>,
    pushed: seq<T>,        // values of pushes that were not refused
    overwrites: nat,
    discarded: nat,        // values dropped by stop
    delivered: seq<T>,
    published: seq<T>,
    failures: nat)

  function InitialMonitor<T>(): Monitor<T> {
    Monitor(Slot(None, false), Running, [], 0, 0, [], [], 0)
  }

  datatype Step<+T> =
    | Push(value: T)
    | Stop
    | CheckAndWait          // takes the lock, tests the predicate, returns or falls asleep
    | WakeSpuriously
    | Publish(ok: bool)

  predicate Enabled<T>(m: Monitor<T>, step: Step<T>) {
    match step
    case Push(_) => true
    case Stop => true
    case CheckAndWait => m.consumer.Running? || m.consumer.Woken?
    case WakeSpuriously => m.consumer.Asleep?
    case Publish(_) => m.consumer.Publishing?
  }

  /** A notification reaches the consumer only if it sleeps. */
  function Notified<T>(c: Consumer<T>): Consumer<T> {
    if c.Asleep? then Woken else c
  }

  function Apply<T>(m: Monitor<T>, step: Step<T>): Monitor<T>
    requires Enabled(m, step)
  {
    match step
    case Push(value) =>
      var (slot, r) := PushSlot(m.slot, value);
      if r == Stopped then m.(slot := slot)
      else m.(slot := slot, consumer := Notified(m.consumer), pushed := m.pushed + [value],
              overwrites := m.overwrites + (if r == Replaced then 1 else 0))
    case Stop =>
      m.(slot := StopSlot(m.slot), consumer := Notified(m.consumer),
         discarded := m.discarded + (if m.slot.pending.Some? then 1 else 0))
    case CheckAndWait =>
      if !MayReturn(m.slot) then m.(consumer := Asleep)
      else
        var (slot, value) := PopSlot(m.slot);
        if value.None? then m.(slot := slot, consumer := Finished)
        else m.(slot := slot, consumer := Publishing(value.value), delivered := m.delivered + [value.value])
    case WakeSpuriously => m.(consumer := Woken)
    case Publish(ok) =>
      if ok then m.(consumer := Running, published := m.published + [m.consumer.value])
      else m.(consumer := Running, failures := m.failures + 1)
  }

  predicate Run<T>(steps: seq<Step<T>>)
    decreases |steps|, 0
  {
    steps == [] || (Run(Front(steps)) && Enabled(After(Front(steps)), Last(steps)))
  }

  function After<T>(steps: seq<Step<T>>): Monitor<T>
    requires Run(steps)
    decreases |steps|, 1
  {
    if steps == [] then InitialMonitor() else Apply(After(Front(steps)), Last(steps))
  }

  function InSlot<T>(s: Slot<T>): seq<T> {
    if s.pending.Some? then [s.pending.value] else []
  }

  function InHand<T>(c: Consumer<T>): seq<T> {
    if c.Publishing? then [c.value] else []
  }

  /** Where every accepted push ends up. */
  ghost predicate Balanced<T>(m: Monitor<T>) {
    && |m.pushed| == |m.delivered| + m.overwrites + |InSlot(m.slot)| + m.discarded
    && |m.delivered| == |m.published| + m.failures + |InHand(m.consumer)|
    && m.discarded <= 1 && (m.discarded == 1 ==> m.slot.stopped)
  }

  ghost predicate Ordered<T>(m: Monitor<T>) {
    && Subsequence(m.delivered + InSlot(m.slot), m.pushed)
    && Subsequence(m.published + InHand(m.consumer), m.delivered)
    && (m.slot.pending.Some? ==> m.pushed != [] && m.slot.pending.value == Last(m.pushed))
  }

  /** No lost wake-up: the consumer does not sleep on a value or on a stop. */
  ghost predicate Awake<T>(m: Monitor<T>) {
    && (m.slot.stopped ==> m.slot.pending.None?)
    && (m.consumer.Asleep? ==> !MayReturn(m.slot))
    && (m.consumer.Finished? ==> m.slot.stopped)
  }

  ghost predicate Inv<T>(m: Monitor<T>) {
    Balanced(m) && Ordered(m) && Awake(m)
  }

  /** A push: in order behind what was delivered, the pending value overtaken. */
  lemma PushOrdered<T>(m: Monitor<T>, value: T)
    requires Ordered(m) && Awake(m)
    ensures Ordered(Apply(m, Push(value)))
  {
    if !m.slot.stopped {
      if m.slot.pending.Some? {
        DropLast(m.delivered, m.slot.pending.value, m.pushed);
      } else {
        assert m.delivered + InSlot(m.slot) == m.delivered;
      }
      SubsequenceTake(m.delivered, m.pushed, value);
    }
  }

  lemma StopOrdered<T>(m: Monitor<T>)
    requires Ordered(m)
    ensures Ordered(Apply(m, Stop))
  {
    if m.slot.pending.Some? {
      DropLast(m.delivered, m.slot.pending.value, m.pushed);
      assert m.delivered + [] == m.delivered;
    }
  }

  lemma CheckOrdered<T>(m: Monitor<T>)
    requires Ordered(m) && Awake(m) && Enabled(m, CheckAndWait)
    ensures Ordered(Apply(m, CheckAndWait))
  {
    assert m.published + InHand(m.consumer) == m.published;
    assert m.published + InHand(Asleep) == m.published + InHand(Finished) == m.published;
    if m.slot.pending.Some? {
      var value := m.slot.pending.value;
      SubsequenceTake(m.published, m.delivered, value);
      assert (m.delivered + [value]) + [] == m.delivered + [value];
    }
  }

  lemma PublishOrdered<T>(m: Monitor<T>, ok: bool)
    requires Ordered(m) && Enabled(m, Publish(ok))
    ensures Ordered(Apply(m, Publish(ok)))
  {
    var next := Apply(m, Publish(ok));
    assert InHand(next.consumer) == [] && InHand(m.consumer) == [m.consumer.value];
    if ok {
      assert next.published + [] == m.published + [m.consumer.value];
    } else {
      DropLast(m.published, m.consumer.value, m.delivered);
      assert next.published + [] == m.published;
    }
  }

  lemma StepBalanced<T>(m: Monitor<T>, step: Step<T>)
    requires Balanced(m) && Awake(m) && Enabled(m, step)
    ensures Balanced(Apply(m, step))
  {
  }

  lemma StepAwake<T>(m: Monitor<T>, step: Step<T>)
    requires Awake(m) && Enabled(m, step)
    ensures Awake(Apply(m, step))
  {
  }

  lemma StepOrdered<T>(m: Monitor<T>, step: Step<T>)
    requires Ordered(m) && Awake(m) && Enabled(m, step)
    ensures Ordered(Apply(m, step))
  {
    match step
    case Push(value) => PushOrdered(m, value);
    case Stop => StopOrdered(m);
    case CheckAndWait => CheckOrdered(m);
    case WakeSpuriously =>
    case Publish(ok) => PublishOrdered(m, ok);
  }

  lemma StepInv<T>(m: Monitor<T>, step: Step<T>)
    requires Inv(m) && Enabled(m, step)
    ensures Inv(Apply(m, step))
  {
    StepBalanced(m, step);
    StepOrdered(m, step);
    StepAwake(m, step);
  }

  lemma {:induction false} RunInv<T>(steps: seq<Step<T>>)
    requires Run(steps)
    ensures Inv(After(steps))
  {
    if steps != [] {
      RunInv(Front(steps));
      StepInv(After(Front(steps)), Last(steps));
    }
  }

  lemma ChainIsOrdered<T>(m: Monitor<T>)
    requires Ordered(m)
    ensures Subsequence(m.delivered, m.pushed) && Subsequence(m.published, m.delivered) && Subsequence(m.published, m.pushed)
  {
    SubsequencePrefix(m.delivered, m.delivered + InSlot(m.slot));
    SubsequenceTransitive(m.delivered, m.delivered + InSlot(m.slot), m.pushed);
    SubsequencePrefix(m.published, m.published + InHand(m.consumer));
    SubsequenceTransitive(m.published, m.published + InHand(m.consumer), m.delivered);
    SubsequenceTransitive(m.published, m.delivered, m.pushed);
  }

  // ---------------------------------------------------------- main results

  /**
   In every interleaving the delivered values are a subsequence of the accepted
   pushes, the published ones of those delivered, and the value a pop delivers
   is the newest accepted push.
   */
  lemma DeliversNewestInOrder<T>(steps: seq<Step<T>>)
    requires Run(steps)
    ensures var m := After(steps);
            && Subsequence(m.delivered, m.pushed) && Subsequence(m.published, m.delivered)
            && (Enabled(m, CheckAndWait) ==>
                  var next := Apply(m, CheckAndWait);
                  next.delivered == m.delivered || (m.pushed != [] && next.delivered == m.delivered + [Last(m.pushed)]))
  {
    RunInv(steps);
    ChainIsOrdered(After(steps));
  }

  /**
   With a value pending or stop set, the consumer is never asleep un-notified:
   unless it has finished, a step of its own is enabled, and testing the
   predicate then returns instead of sleeping, with false exactly when stopped.
   */
  lemma ConsumerNeverSleepsOnWork<T>(steps: seq<Step<T>>)
    requires Run(steps) && (After(steps).slot.pending.Some? || After(steps).slot.stopped)
    ensures var m := After(steps);
            && !m.consumer.Asleep?
            && (!m.consumer.Finished? ==> Enabled(m, CheckAndWait) || Enabled(m, Publish(true)))
            && (Enabled(m, CheckAndWait) ==>
                  && (Apply(m, CheckAndWait).consumer.Finished? <==> m.slot.stopped)
                  && (Apply(m, CheckAndWait).consumer.Publishing? <==> !m.slot.stopped))
  {
    RunInv(steps);
  }

  /**
   Once the consumer has returned for good, every accepted push was published,
   failed to publish, was overwritten, or is the at most one value discarded by stop.
   */
  lemma JoinedCountersBalance<T>(steps: seq<Step<T>>)
    requires Run(steps) && After(steps).consumer.Finished?
    ensures var m := After(steps);
            && m.discarded <= 1
            && |m.pushed| == |m.published| + m.failures + m.overwrites + m.discarded
  {
    RunInv(steps);
  }
}
