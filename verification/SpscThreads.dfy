/**
 The queue as two concurrent threads under release / acquire ordering.

 Every load, slot access and store of try_push and try_pop is one step, and the
 steps of the two threads interleave freely. Each atomic index is the sequence
 of all values ever stored to it (its modification order); an acquire load may
 return any entry no older than the one this thread saw last. A slot read may
 return any write to that slot that the reading thread's view does not already
 know to be overwritten, a write still in flight included. Only the wrapped
 index values steer the threads; the positions in the modification orders are
 bookkeeping.
 */
module SpscThreads {
  import opened Common
  import opened SpscQueue

  datatype Config = Config(capacity: nat, maxDepth: nat) {
    ghost predicate Valid() {
      0 < maxDepth < capacity
    }
  }

  datatype Producer<+T> =
    | PIdle
    | PLoadedWrite(value: T, write: nat)
    | PLoadedRead(value: T, write: nat, read: nat)
    | PWrote(value: T, write: nat, size: nat)

  datatype Consumer<+T> =
    | CIdle
    | CLoadedRead(read: nat)
    | CLoadedWrite(read: nat, write: nat)
    | CTook(read: nat, value: T)

  datatype SlotWrite<+T> = SlotWrite(slot: nat, value: T)

  datatype Ring<+T> = Ring(
    readStores: seq<nat>,           // modification order of read_index_
    writeStores: seq<nat>,          // modification order of write_index_
    base: seq<T>,                   // slot contents left over from before
    slotWrites: seq<SlotWrite<T>>,  // writes to storage_, in program order
    slotReads: seq<nat>,            // slots read, in program order
    published: seq<nat>,            // published[p]: slot writes sequenced before store p of write_index_
    released: seq<nat>,             // released[p]: slot reads sequenced before store p of read_index_
    seenRead: nat,                  // newest position of read_index_ the producer has loaded
    seenWrite: nat,                 // newest position of write_index_ the consumer has loaded
    knownWrites: nat,               // slot writes that happen before the consumer's next action
    knownReads: nat,                // slot reads that happen before the producer's next action
    producer: Producer<T>,
    consumer: Consumer<T>,
    popped: seq<T>)                 // values returned by successful pops

  function Init<T>(base: seq<T>): Ring<T> {
    Ring([0], [0], base, [], [], [0], [0], 0, 0, 0, 0, PIdle, CIdle, [])
  }

  datatype Step<+T> =
    | PushBegin(value: T)           // relaxed load of write_index_
    | PushLoadRead(position: nat)   // acquire load of read_index_
    | PushRefuse
    | PushWriteSlot
    | PushPublish                   // release store of write_index_
    | PopBegin                      // relaxed load of read_index_
    | PopLoadWrite(position: nat)   // acquire load of write_index_
    | PopRefuse
    | PopReadSlot(source: Option<nat>)
    | PopPublish                    // release store of read_index_

  predicate IsPush<T>(step: Step<T>) {
    step.PushBegin? || step.PushLoadRead? || step.PushRefuse? || step.PushWriteSlot? || step.PushPublish?
  }

  /** What a read of `slot` may return: a write not known to be overwritten, or the old content. */
  ghost predicate MayReturn<T>(s: Ring<T>, slot: nat, source: Option<nat>) {
    match source
    case Some(j) =>
      && j < |s.slotWrites| && s.slotWrites[j].slot == slot
      && forall k :: j < k < |s.slotWrites| && k < s.knownWrites ==> s.slotWrites[k].slot != slot
    case None =>
      && slot < |s.base|
      && forall k :: 0 <= k < |s.slotWrites| && k < s.knownWrites ==> s.slotWrites[k].slot != slot
  }

  ghost predicate Enabled<T>(c: Config, s: Ring<T>, step: Step<T>) {
    match step
    case PushBegin(v) => s.producer.PIdle? && s.writeStores != []
    case PushLoadRead(p) => s.producer.PLoadedWrite? && s.seenRead <= p < |s.readStores| && p < |s.released|
    case PushRefuse =>
      s.producer.PLoadedRead? && s.producer.read <= c.capacity &&
      Distance(s.producer.read, s.producer.write, c.capacity) >= c.maxDepth
    case PushWriteSlot =>
      s.producer.PLoadedRead? && s.producer.read <= c.capacity &&
      Distance(s.producer.read, s.producer.write, c.capacity) < c.maxDepth
    case PushPublish => s.producer.PWrote?
    case PopBegin => s.consumer.CIdle? && s.readStores != []
    case PopLoadWrite(p) => s.consumer.CLoadedRead? && s.seenWrite <= p < |s.writeStores| && p < |s.published|
    case PopRefuse => s.consumer.CLoadedWrite? && s.consumer.read == s.consumer.write
    case PopReadSlot(source) =>
      s.consumer.CLoadedWrite? && s.consumer.read != s.consumer.write && MayReturn(s, s.consumer.read, source)
    case PopPublish => s.consumer.CTook?
  }

  function Max(a: nat, b: nat): nat {
    if a < b then b else a
  }

  ghost function Apply<T>(c: Config, s: Ring<T>, step: Step<T>): Ring<T>
    requires Enabled(c, s, step)
  {
    match step
    case PushBegin(v) => s.(producer := PLoadedWrite(v, Last(s.writeStores)))
    case PushLoadRead(p) =>
      s.(producer := PLoadedRead(s.producer.value, s.producer.write, s.readStores[p]),
         seenRead := p, knownReads := Max(s.knownReads, s.released[p]))
    case PushRefuse => s.(producer := PIdle)
    case PushWriteSlot =>
      var size := Distance(s.producer.read, s.producer.write, c.capacity);
      s.(producer := PWrote(s.producer.value, s.producer.write, size + 1),
         slotWrites := s.slotWrites + [SlotWrite(s.producer.write, s.producer.value)])
    case PushPublish =>
      s.(producer := PIdle,
         writeStores := s.writeStores + [NextIndex(s.producer.write, c.capacity)],
         published := s.published + [|s.slotWrites|])
    case PopBegin => s.(consumer := CLoadedRead(Last(s.readStores)))
    case PopLoadWrite(p) =>
      s.(consumer := CLoadedWrite(s.consumer.read, s.writeStores[p]),
         seenWrite := p, knownWrites := Max(s.knownWrites, s.published[p]))
    case PopRefuse => s.(consumer := CIdle)
    case PopReadSlot(source) =>
      var value := if source.Some? then s.slotWrites[source.value].value else s.base[s.consumer.read];
      s.(consumer := CTook(s.consumer.read, value), slotReads := s.slotReads + [s.consumer.read])
    case PopPublish =>
      s.(consumer := CIdle,
         readStores := s.readStores + [NextIndex(s.consumer.read, c.capacity)],
         released := s.released + [|s.slotReads|],
         popped := s.popped + [s.consumer.value])
  }

  /** A schedule: every step is enabled where it is taken. */
  ghost predicate Schedule<T>(c: Config, base: seq<T>, steps: seq<Step<T>>)
    decreases |steps|, 0
  {
    steps == [] ||
    (Schedule(c, base, Front(steps)) && Enabled(c, After(c, base, Front(steps)), Last(steps)))
  }

  ghost function After<T>(c: Config, base: seq<T>, steps: seq<Step<T>>): Ring<T>
    requires Schedule(c, base, steps)
    decreases |steps|, 1
  {
    if steps == [] then Init(base) else Apply(c, After(c, base, Front(steps)), Last(steps))
  }

  // ------------------------------------------------------------ abstraction

  ghost function ReadCount<T>(s: Ring<T>): int {
    |s.readStores| - 1
  }

  ghost function WriteCount<T>(s: Ring<T>): int {
    |s.writeStores| - 1
  }

  /** The values of all completed pushes, in order. */
  ghost function Pushed<T>(s: Ring<T>): seq<T> {
    seq(if 0 <= WriteCount(s) <= |s.slotWrites| then WriteCount(s) else 0,
        i requires 0 <= i < |s.slotWrites| => s.slotWrites[i].value)
  }

  // ---------------------------------------------------- wrapped arithmetic

  lemma SlotNext(n: nat, capacity: nat)
    requires capacity > 0
    ensures (n + 1) % capacity == NextIndex(n % capacity, capacity)
  {
    var q, m := n / capacity, n % capacity;
    assert n == q * capacity + m;
    if m + 1 == capacity {
      assert n + 1 == (q + 1) * capacity;
      MultipleRemainder(q + 1, 0, capacity);
    } else {
      MultipleRemainder(q, m + 1, capacity);
    }
  }

  lemma MultipleRemainder(q: nat, m: nat, capacity: nat)
    requires m < capacity
    ensures (q * capacity + m) % capacity == m
  {
    var n := q * capacity + m;
    var q', m' := n / capacity, n % capacity;
    assert n == q' * capacity + m';
    assert (q' - q) * capacity == m - m';
    MulAtLeast(q' - q, capacity);
  }

  lemma MulAtLeast(k: int, m: int)
    requires m >= 0
    ensures k >= 1 ==> k * m >= m
    ensures k <= -1 ==> k * m <= -m
  {
    assert k * m == (k - 1) * m + m == (k + 1) * m - m;
  }

  /** Less than one lap apart, the wrapped indices determine the true distance. */
  lemma SlotDistance(read: nat, write: nat, capacity: nat)
    requires capacity > 0 && read <= write < read + capacity
    ensures Distance(read % capacity, write % capacity, capacity) == write - read
    ensures read % capacity == write % capacity <==> read == write
    decreases write - read
  {
    if read < write {
      SlotDistance(read, write - 1, capacity);
      SlotNext(write - 1, capacity);
    }
  }

  // -------------------------------------------------------------- invariant

  ghost predicate IndexInv<T>(c: Config, s: Ring<T>)
    requires c.Valid()
  {
    && 0 <= ReadCount(s) && 0 <= WriteCount(s)
    && |s.released| == |s.readStores| && |s.published| == |s.writeStores|
    && (forall p :: 0 <= p < |s.readStores| ==> s.readStores[p] == p % c.capacity && s.released[p] == p)
    && (forall p :: 0 <= p < |s.writeStores| ==> s.writeStores[p] == p % c.capacity && s.published[p] == p)
    && s.knownReads == s.seenRead <= ReadCount(s) <= s.seenWrite == s.knownWrites <= WriteCount(s)
    && WriteCount(s) <= s.seenRead + c.maxDepth
  }

  ghost predicate SlotInv<T>(c: Config, s: Ring<T>)
    requires c.Valid() && IndexInv(c, s)
  {
    && |s.base| == c.capacity
    && |s.slotWrites| == WriteCount(s) + (if s.producer.PWrote? then 1 else 0)
    && |s.slotReads| == ReadCount(s) + (if s.consumer.CTook? then 1 else 0)
    && (forall k :: 0 <= k < |s.slotWrites| ==> s.slotWrites[k].slot == k % c.capacity)
    && (forall k :: 0 <= k < |s.slotReads| ==> s.slotReads[k] == k % c.capacity)
    && |s.popped| == ReadCount(s)
    && (forall k :: 0 <= k < |s.popped| ==> s.popped[k] == s.slotWrites[k].value)
  }

  ghost predicate ProducerInv<T>(c: Config, s: Ring<T>)
    requires c.Valid() && IndexInv(c, s) && SlotInv(c, s)
  {
    match s.producer
    case PIdle => true
    case PLoadedWrite(_, write) => write == WriteCount(s) % c.capacity
    case PLoadedRead(_, write, read) =>
      write == WriteCount(s) % c.capacity && read == s.seenRead % c.capacity
    case PWrote(value, write, size) =>
      && write == WriteCount(s) % c.capacity && value == Last(s.slotWrites).value
      && size == WriteCount(s) + 1 - s.seenRead <= c.maxDepth
  }

  ghost predicate ConsumerInv<T>(c: Config, s: Ring<T>)
    requires c.Valid() && IndexInv(c, s) && SlotInv(c, s)
  {
    match s.consumer
    case CIdle => true
    case CLoadedRead(read) => read == ReadCount(s) % c.capacity
    case CLoadedWrite(read, write) =>
      read == ReadCount(s) % c.capacity && write == s.seenWrite % c.capacity
    case CTook(read, value) =>
      && read == ReadCount(s) % c.capacity && ReadCount(s) < s.seenWrite
      && value == s.slotWrites[ReadCount(s)].value
  }

  ghost predicate Inv<T>(c: Config, s: Ring<T>) {
    c.Valid() && IndexInv(c, s) && SlotInv(c, s) && ProducerInv(c, s) && ConsumerInv(c, s)
  }

  lemma InitInv<T>(c: Config, base: seq<T>)
    requires c.Valid() && |base| == c.capacity
    ensures Inv(c, Init(base))
  {
  }

  lemma PushInv<T>(c: Config, s: Ring<T>, step: Step<T>)
    requires Inv(c, s) && Enabled(c, s, step)
    requires IsPush(step)
    ensures Inv(c, Apply(c, s, step))
  {
    if step.PushWriteSlot? {
      SlotDistance(s.seenRead, WriteCount(s), c.capacity);
    } else if step.PushPublish? {
      SlotNext(WriteCount(s), c.capacity);
    }
  }

  /** The only write a slot read can return is the oldest value not yet popped. */
  lemma SlotReadDetermined<T>(c: Config, s: Ring<T>, source: Option<nat>)
    requires Inv(c, s) && s.consumer.CLoadedWrite? && Enabled(c, s, PopReadSlot(source))
    ensures ReadCount(s) < s.seenWrite && source == Some(ReadCount(s))
  {
    var r := ReadCount(s);
    SlotDistance(r, s.seenWrite, c.capacity);
    assert s.slotWrites[r].slot == s.consumer.read;
    if source.Some? && source.value > r {
      SlotDistance(r, source.value, c.capacity);
    }
  }

  /** A pop that saw something unread can read the head. */
  lemma HeadMayBeRead<T>(c: Config, s: Ring<T>)
    requires Inv(c, s) && s.consumer.CLoadedWrite? && s.consumer.read != s.consumer.write
    ensures Enabled(c, s, PopReadSlot(Some(ReadCount(s))))
  {
    var r := ReadCount(s);
    SlotDistance(r, s.seenWrite, c.capacity);
    forall k | r < k < s.knownWrites
      ensures s.slotWrites[k].slot != s.consumer.read
    {
      SlotDistance(r, k, c.capacity);
    }
  }

  lemma PopLoadInv<T>(c: Config, s: Ring<T>, step: Step<T>)
    requires Inv(c, s) && Enabled(c, s, step) && (step.PopBegin? || step.PopLoadWrite? || step.PopRefuse?)
    ensures Inv(c, Apply(c, s, step))
  {
  }

  lemma PopPublishInv<T>(c: Config, s: Ring<T>)
    requires Inv(c, s) && Enabled(c, s, PopPublish)
    ensures Inv(c, Apply(c, s, PopPublish))
  {
    SlotNext(ReadCount(s), c.capacity);
  }

  lemma PopInv<T>(c: Config, s: Ring<T>, step: Step<T>)
    requires Inv(c, s) && Enabled(c, s, step)
    requires !IsPush(step)
    ensures Inv(c, Apply(c, s, step))
  {
    if step.PopReadSlot? {
      PopReadSlotInv(c, s, step.source);
    } else if step.PopPublish? {
      PopPublishInv(c, s);
    } else {
      PopLoadInv(c, s, step);
    }
  }

  lemma PopReadSlotInv<T>(c: Config, s: Ring<T>, source: Option<nat>)
    requires Inv(c, s) && Enabled(c, s, PopReadSlot(source))
    ensures Inv(c, Apply(c, s, PopReadSlot(source)))
  {
    SlotReadDetermined(c, s, source);
  }

  lemma StepInv<T>(c: Config, s: Ring<T>, step: Step<T>)
    requires Inv(c, s) && Enabled(c, s, step)
    ensures Inv(c, Apply(c, s, step))
  {
    if IsPush(step) {
      PushInv(c, s, step);
    } else {
      PopInv(c, s, step);
    }
  }

  lemma {:induction false} ScheduleInv<T>(c: Config, base: seq<T>, steps: seq<Step<T>>)
    requires c.Valid() && |base| == c.capacity && Schedule(c, base, steps)
    ensures Inv(c, After(c, base, steps))
  {
    if steps == [] {
      InitInv(c, base);
    } else {
      ScheduleInv(c, base, Front(steps));
      StepInv(c, After(c, base, Front(steps)), Last(steps));
    }
  }

  // ---------------------------------------------------------- main results

  /**
   In every interleaving, whatever stale index values the loads return: the
   backlog stays between 0 and MaxDepth, the popped values are a prefix of the
   pushed ones across any number of wraps, and a value in hand is the next one.
   */
  lemma QueueIsFifo<T>(c: Config, base: seq<T>, steps: seq<Step<T>>)
    requires c.Valid() && |base| == c.capacity && Schedule(c, base, steps)
    ensures var s := After(c, base, steps);
            && ReadCount(s) <= WriteCount(s) <= ReadCount(s) + c.maxDepth
            && |s.popped| == ReadCount(s) && |Pushed(s)| == WriteCount(s)
            && s.popped <= Pushed(s)
            && (s.consumer.CTook? ==> s.popped + [s.consumer.value] <= Pushed(s))
  {
    ScheduleInv(c, base, steps);
    InvIsFifo(c, After(c, base, steps));
  }

  lemma InvIsFifo<T>(c: Config, s: Ring<T>)
    requires Inv(c, s)
    ensures ReadCount(s) <= WriteCount(s) <= ReadCount(s) + c.maxDepth
    ensures |s.popped| == ReadCount(s) && |Pushed(s)| == WriteCount(s) && s.popped <= Pushed(s)
    ensures s.consumer.CTook? ==> s.popped + [s.consumer.value] <= Pushed(s)
  {
  }

  /**
   No data race on storage_. When the producer may write a slot, every read of
   that slot made so far happens before the write; when the consumer may read a
   slot, every write to it happens before the read.
   */
  lemma SlotsAreRaceFree<T>(c: Config, base: seq<T>, steps: seq<Step<T>>)
    requires c.Valid() && |base| == c.capacity && Schedule(c, base, steps)
    ensures var s := After(c, base, steps);
            && (Enabled(c, s, PushWriteSlot) ==>
                  && (forall k :: 0 <= k < |s.slotReads| && s.slotReads[k] == s.producer.write ==> k < s.knownReads)
                  && (s.consumer.CLoadedWrite? && s.consumer.read != s.consumer.write ==> s.consumer.read != s.producer.write))
            && (s.consumer.CLoadedWrite? && s.consumer.read != s.consumer.write ==>
                  forall k :: 0 <= k < |s.slotWrites| && s.slotWrites[k].slot == s.consumer.read ==> k < s.knownWrites)
  {
    ScheduleInv(c, base, steps);
    var s := After(c, base, steps);
    if Enabled(c, s, PushWriteSlot) {
      SlotDistance(s.seenRead, WriteCount(s), c.capacity);
      forall k | 0 <= k < |s.slotReads| && s.slotReads[k] == s.producer.write
        ensures k < s.knownReads
      {
        if k >= s.knownReads {
          SlotDistance(k, WriteCount(s), c.capacity);
        }
      }
      if s.consumer.CLoadedWrite? && s.consumer.read != s.consumer.write {
        SlotDistance(ReadCount(s), s.seenWrite, c.capacity);
        SlotDistance(ReadCount(s), WriteCount(s), c.capacity);
      }
    }
    if s.consumer.CLoadedWrite? && s.consumer.read != s.consumer.write {
      SlotDistance(ReadCount(s), s.seenWrite, c.capacity);
      forall k | 0 <= k < |s.slotWrites| && s.slotWrites[k].slot == s.consumer.read
        ensures k < s.knownWrites
      {
        if k >= s.knownWrites {
          SlotDistance(ReadCount(s), k, c.capacity);
        }
      }
    }
  }

  /**
   Every refusal is justified by the index values loaded: a push is refused
   exactly when MaxDepth completed pushes are not covered by the read index it
   loaded, a pop exactly when the write index it loaded covers nothing unread.
   With up-to-date loads that is a full, respectively empty, queue.
   */
  lemma RefusalsAreJustified<T>(c: Config, base: seq<T>, steps: seq<Step<T>>)
    requires c.Valid() && |base| == c.capacity && Schedule(c, base, steps)
    ensures var s := After(c, base, steps);
            && (s.producer.PLoadedRead? ==>
                  && (Enabled(c, s, PushRefuse) <==> WriteCount(s) - s.seenRead == c.maxDepth)
                  && (Enabled(c, s, PushWriteSlot) <==> WriteCount(s) - s.seenRead < c.maxDepth)
                  && (s.seenRead == ReadCount(s) ==>
                        (Enabled(c, s, PushRefuse) <==> |Pushed(s)| - |s.popped| == c.maxDepth)))
            && (s.consumer.CLoadedWrite? ==>
                  && (Enabled(c, s, PopRefuse) <==> s.seenWrite == ReadCount(s))
                  && (s.seenWrite == WriteCount(s) ==> (Enabled(c, s, PopRefuse) <==> Pushed(s) == s.popped)))
  {
    ScheduleInv(c, base, steps);
    var s := After(c, base, steps);
    if s.producer.PLoadedRead? {
      SlotDistance(s.seenRead, WriteCount(s), c.capacity);
    }
    if s.consumer.CLoadedWrite? {
      SlotDistance(ReadCount(s), s.seenWrite, c.capacity);
    }
  }

  /** The producer always has a step, and a load may return any value of the index since the last one seen. */
  lemma ProducerNeverBlocked<T>(c: Config, s: Ring<T>)
    requires Inv(c, s)
    ensures s.producer.PIdle? ==> forall value :: Enabled(c, s, PushBegin(value))
    ensures s.producer.PLoadedWrite? ==> forall p: nat :: Enabled(c, s, PushLoadRead(p)) <==> s.seenRead <= p <= ReadCount(s)
    ensures s.producer.PLoadedRead? ==> Enabled(c, s, PushRefuse) || Enabled(c, s, PushWriteSlot)
    ensures s.producer.PWrote? ==> Enabled(c, s, PushPublish)
  {
  }

  /** And so has the consumer. */
  lemma ConsumerNeverBlocked<T>(c: Config, s: Ring<T>)
    requires Inv(c, s)
    ensures s.consumer.CIdle? ==> Enabled(c, s, PopBegin)
    ensures s.consumer.CLoadedRead? ==> forall p: nat :: Enabled(c, s, PopLoadWrite(p)) <==> s.seenWrite <= p <= WriteCount(s)
    ensures s.consumer.CLoadedWrite? ==> Enabled(c, s, PopRefuse) || exists j: nat :: Enabled(c, s, PopReadSlot(Some(j)))
    ensures s.consumer.CTook? ==> Enabled(c, s, PopPublish)
  {
    if s.consumer.CLoadedWrite? && s.consumer.read != s.consumer.write {
      HeadMayBeRead(c, s);
    }
  }

  /** Nothing but the order of release and acquire shields a reader: a write not ordered before it may be what it reads. */
  lemma UnorderedWritesAreVisible<T>(s: Ring<T>, slot: nat, j: nat)
    requires s.knownWrites <= j < |s.slotWrites| && s.slotWrites[j].slot == slot
    ensures MayReturn(s, slot, Some(j))
  {
  }

  // ------------------------------------------------- refinement of a queue

  /** The specification: a bounded queue with one atomic push and one atomic pop. */
  datatype Fifo<T> = Fifo(pushed: seq<T>, popped: seq<T>)

  ghost function Abstract<T>(s: Ring<T>): Fifo<T> {
    Fifo(Pushed(s), s.popped)
  }

  ghost predicate FifoStep<T>(maxDepth: nat, a: Fifo<T>, b: Fifo<T>) {
    || b == a
    || (&& b.popped == a.popped && a.pushed <= b.pushed && |b.pushed| == |a.pushed| + 1
        && |a.pushed| - |a.popped| < maxDepth)
    || (|a.popped| < |a.pushed| && b == Fifo(a.pushed, a.popped + [a.pushed[|a.popped|]]))
  }

  lemma PublishAppends<T>(c: Config, s: Ring<T>)
    requires Inv(c, s) && Enabled(c, s, PushPublish)
    ensures Pushed(Apply(c, s, PushPublish)) == Pushed(s) + [s.producer.value]
    ensures |Pushed(s)| - |s.popped| < c.maxDepth
  {
    var t := Apply(c, s, PushPublish);
    assert t.slotWrites == s.slotWrites && WriteCount(t) == WriteCount(s) + 1 == |s.slotWrites|;
    assert Last(s.slotWrites).value == s.producer.value;
  }

  lemma OthersAppendNothing<T>(c: Config, s: Ring<T>, step: Step<T>)
    requires Inv(c, s) && Enabled(c, s, step) && !step.PushPublish?
    ensures Pushed(Apply(c, s, step)) == Pushed(s)
  {
  }

  lemma PopTakesHead<T>(c: Config, s: Ring<T>)
    requires Inv(c, s) && Enabled(c, s, PopPublish)
    ensures |s.popped| < |Pushed(s)| && s.consumer.value == Pushed(s)[|s.popped|]
  {
  }

  /** Each thread step is invisible, one atomic push below the cap, or one atomic pop of the head. */
  lemma RingRefinesFifo<T>(c: Config, s: Ring<T>, step: Step<T>)
    requires Inv(c, s) && Enabled(c, s, step)
    ensures FifoStep(c.maxDepth, Abstract(s), Abstract(Apply(c, s, step)))
    ensures step.PushPublish? ==> Pushed(Apply(c, s, step)) == Pushed(s) + [s.producer.value]
    ensures !step.PushPublish? ==> Pushed(Apply(c, s, step)) == Pushed(s)
    ensures step.PopPublish? ==> |s.popped| < |Pushed(s)| && s.consumer.value == Pushed(s)[|s.popped|]
    ensures Apply(c, s, step).popped == if step.PopPublish? then s.popped + [s.consumer.value] else s.popped
  {
    if step.PushPublish? {
      PublishAppends(c, s);
    } else {
      OthersAppendNothing(c, s, step);
      if step.PopPublish? {
        PopTakesHead(c, s);
      }
    }
  }

  // ------------------------------------------------ pushes and what is offered

  function BeingPushed<T>(producer: Producer<T>): seq<T> {
    if producer.PIdle? then [] else [producer.value]
  }

  function OfferedBy<T>(step: Step<T>): seq<T> {
    if step.PushBegin? then [step.value] else []
  }

  /** The pushed values, then the one in the producer's hands. */
  ghost function Taken<T>(s: Ring<T>): seq<T> {
    Pushed(s) + BeingPushed(s.producer)
  }

  /** They come in order from those offered. */
  ghost predicate FromOffered<T>(s: Ring<T>, offered: seq<T>) {
    Subsequence(Taken(s), offered)
  }

  lemma NothingOffered<T>(base: seq<T>)
    ensures FromOffered(Init(base), [])
  {
    assert Taken(Init(base)) == [];
  }

  lemma BeginTakes<T>(c: Config, s: Ring<T>, value: T)
    requires Enabled(c, s, PushBegin(value))
    ensures Taken(Apply(c, s, PushBegin(value))) == Taken(s) + [value]
  {
    assert Pushed(Apply(c, s, PushBegin(value))) == Pushed(s);
  }

  lemma RefusalDrops<T>(c: Config, s: Ring<T>)
    requires Enabled(c, s, PushRefuse)
    ensures Taken(s) == Taken(Apply(c, s, PushRefuse)) + [s.producer.value]
  {
    assert Pushed(Apply(c, s, PushRefuse)) == Pushed(s);
  }

  lemma OthersTakeNothing<T>(c: Config, s: Ring<T>, step: Step<T>)
    requires Inv(c, s) && Enabled(c, s, step) && !step.PushBegin? && !step.PushRefuse?
    ensures Taken(Apply(c, s, step)) == Taken(s)
  {
    RingRefinesFifo(c, s, step);
  }

  lemma StepFromOffered<T>(c: Config, s: Ring<T>, step: Step<T>, offered: seq<T>)
    requires Inv(c, s) && Enabled(c, s, step) && FromOffered(s, offered)
    ensures FromOffered(Apply(c, s, step), offered + OfferedBy(step))
  {
    var next := Apply(c, s, step);
    if step.PushBegin? {
      BeginTakes(c, s, step.value);
      SubsequenceTake(Taken(s), offered, step.value);
    } else {
      assert offered + OfferedBy(step) == offered;
      if step.PushRefuse? {
        RefusalDrops(c, s);
        DropLast(Taken(next), s.producer.value, offered);
      } else {
        OthersTakeNothing(c, s, step);
      }
    }
  }

  lemma PushedFromOffered<T>(s: Ring<T>, offered: seq<T>)
    requires FromOffered(s, offered)
    ensures Subsequence(Pushed(s), offered)
  {
    SubsequencePrefix(Pushed(s), Taken(s));
    SubsequenceTransitive(Pushed(s), Taken(s), offered);
  }
}
