/** The sample ring at the level of single atomic loads, single slot copies and single
    stores, with one producer, one consumer and one observer interleaved arbitrarily. */
module RingInterleaving {
  import opened Arithmetic
  import opened SampleRing

  /** FloatSpscRing::push. */
  datatype Producer =
    | NotPushing
    | WriteLoaded(offered: seq<Sample>, write: nat)
    | Copying(offered: seq<Sample>, write: nat, count: nat, copied: nat)

  /** FloatSpscRing::pop. `got` is what has been copied out so far. */
  datatype Consumer =
    | NotPopping
    | ReadLoaded(limit: nat, read: nat)
    | Taking(read: nat, count: nat, got: seq<Sample>)

  /** FloatSpscRing::availableRead on a third thread. */
  datatype Observer = NotLooking | Looking(write: nat) | Looked(available: nat)

  datatype Ring = Ring(
    slots: seq<Sample>,
    readPosition: nat,
    writePosition: nat,
    producer: Producer,
    consumer: Consumer,
    observer: Observer,
    pushed: seq<Sample>,      // everything published by completed pushes
    popped: seq<Sample>)      // everything returned by completed pops

  datatype RingStep =
    | BeginPush(offered: seq<Sample>)
    | LoadReadPosition
    | CopyIn
    | Publish
    | BeginPop(limit: nat)
    | LoadWritePosition
    | CopyOut
    | Release
    | ObserveWrite
    | ObserveRead

  /** A step that the program counters do not allow changes nothing. */
  function ProducerStep(s: Ring, step: RingStep): Ring
    requires |s.slots| > 0
  {
    match step
    case BeginPush(offered) =>
      if s.producer.NotPushing? then s.(producer := WriteLoaded(offered, s.writePosition)) else s
    case LoadReadPosition =>
      if s.producer.WriteLoaded? then
        var used := BoundedDistance(s.producer.write, s.readPosition, |s.slots|);
        var count := Min(|s.producer.offered|, |s.slots| - used);
        s.(producer := if count == 0 then NotPushing else Copying(s.producer.offered, s.producer.write, count, 0))
      else s
    case CopyIn =>
      if s.producer.Copying? && s.producer.copied < s.producer.count <= |s.producer.offered| then
        var k := s.producer.copied;
        var slot := Slot(s.producer.write, k, s.producer.count, |s.slots|);
        if slot < |s.slots| then
          s.(slots := s.slots[slot := s.producer.offered[k]], producer := s.producer.(copied := k + 1))
        else s
      else s
    case Publish =>
      if s.producer.Copying? && s.producer.copied == s.producer.count <= |s.producer.offered| then
        s.(writePosition := s.producer.write + s.producer.count,
        pushed := s.pushed + s.producer.offered[..s.producer.count], producer := NotPushing)
      else s
    case _ => s
  }

  function ConsumerStep(s: Ring, step: RingStep): Ring
    requires |s.slots| > 0
  {
    match step
    case BeginPop(limit) =>
      if s.consumer.NotPopping? then s.(consumer := ReadLoaded(limit, s.readPosition)) else s
    case LoadWritePosition =>
      if s.consumer.ReadLoaded? then
        var count := Min(s.consumer.limit, BoundedDistance(s.writePosition, s.consumer.read, |s.slots|));
        s.(consumer := if count == 0 then NotPopping else Taking(s.consumer.read, count, []))
      else s
    case CopyOut =>
      if s.consumer.Taking? && |s.consumer.got| < s.consumer.count then
        var slot := Slot(s.consumer.read, |s.consumer.got|, s.consumer.count, |s.slots|);
        if slot < |s.slots| then s.(consumer := s.consumer.(got := s.consumer.got + [s.slots[slot]])) else s
      else s
    case Release =>
      if s.consumer.Taking? && |s.consumer.got| == s.consumer.count then
        s.(readPosition := s.consumer.read + s.consumer.count, popped := s.popped + s.consumer.got, consumer := NotPopping)
      else s
    case _ => s
  }

  function ObserverStep(s: Ring, step: RingStep): Ring {
    match step
    case ObserveWrite => s.(observer := Looking(s.writePosition))
    case ObserveRead =>
      if s.observer.Looking? then s.(observer := Looked(BoundedDistance(s.observer.write, s.readPosition, |s.slots|)))
      else s
    case _ => s
  }

  function Next(s: Ring, step: RingStep): Ring
    requires |s.slots| > 0
  {
    if step.BeginPush? || step.LoadReadPosition? || step.CopyIn? || step.Publish? then ProducerStep(s, step)
    else if step.ObserveWrite? || step.ObserveRead? then ObserverStep(s, step)
    else ConsumerStep(s, step)
  }

  /** The state after a whole schedule. */
  function Play(s: Ring, steps: seq<RingStep>): (t: Ring)
    requires |s.slots| > 0
    ensures |t.slots| == |s.slots|
    decreases |steps|
  {
    if steps == [] then s else Play(Next(s, steps[0]), steps[1..])
  }

  function Empty(capacity: nat): Ring
    requires capacity > 0
  {
    Ring(seq(capacity, _ => 0.0), 0, 0, NotPushing, NotPopping, NotLooking, [], [])
  }

  /** The queue that the ring implements. */
  function Queue(s: Ring): seq<Sample> {
    if s.readPosition <= |s.pushed| then s.pushed[s.readPosition..] else []
  }

  // ------------------------------------------------------------------- invariant

  predicate ProducerInv(s: Ring)
    requires |s.slots| > 0
  {
    match s.producer
    case NotPushing => true
    case WriteLoaded(offered, write) => write == s.writePosition
    case Copying(offered, write, count, copied) =>
      && write == s.writePosition
      && copied <= count <= |offered|
      && write + count <= s.readPosition + |s.slots|
      && forall k :: 0 <= k < copied ==> s.slots[(write + k) % |s.slots|] == offered[k]
  }

  predicate ConsumerInv(s: Ring)
    requires s.writePosition == |s.pushed|
  {
    match s.consumer
    case NotPopping => true
    case ReadLoaded(limit, read) => read == s.readPosition
    case Taking(read, count, got) =>
      && read == s.readPosition
      && |got| <= count && read + count <= s.writePosition
      && got == s.pushed[read..read + |got|]
  }

  predicate RingInv(s: Ring) {
    && 0 < |s.slots|
    && s.readPosition <= s.writePosition <= s.readPosition + |s.slots|
    && |s.pushed| == s.writePosition && s.popped == s.pushed[..s.readPosition]
    && (forall p :: s.readPosition <= p < s.writePosition ==> s.slots[p % |s.slots|] == s.pushed[p])
    && ProducerInv(s) && ConsumerInv(s)
  }

  // ----------------------------------------------------------------- every step

  lemma CopyInKeeps(s: Ring)
    requires RingInv(s)
    ensures RingInv(ProducerStep(s, CopyIn))
  {
    var t := ProducerStep(s, CopyIn);
    if t != s {
      var c := |s.slots|;
      var Copying(offered, write, count, k) := s.producer;
      SlotIsPosition(write, k, count, c);
      forall p | s.readPosition <= p < s.writePosition
        ensures t.slots[p % c] == s.pushed[p]
      {
        DistinctSlots(p, write + k, c);
      }
      forall j | 0 <= j < k + 1
        ensures t.slots[(write + j) % c] == offered[j]
      {
        if j < k {
          DistinctSlots(write + j, write + k, c);
        }
      }
    }
  }

  lemma PublishKeeps(s: Ring)
    requires RingInv(s)
    ensures RingInv(ProducerStep(s, Publish))
  {
    var t := ProducerStep(s, Publish);
    if t != s {
      var Copying(offered, write, count, k) := s.producer;
      forall p | t.readPosition <= p < t.writePosition
        ensures t.slots[p % |t.slots|] == t.pushed[p]
      {
        if p >= write {
          assert p == write + (p - write);
        }
      }
    }
  }

  lemma CopyOutKeeps(s: Ring)
    requires RingInv(s)
    ensures RingInv(ConsumerStep(s, CopyOut))
  {
    var t := ConsumerStep(s, CopyOut);
    if t != s {
      var Taking(read, count, got) := s.consumer;
      SlotIsPosition(read, |got|, count, |s.slots|);
      assert t.consumer.got == s.pushed[read..read + |got| + 1];
    }
  }

  lemma ReleaseKeeps(s: Ring)
    requires RingInv(s)
    ensures RingInv(ConsumerStep(s, Release))
  {
    var t := ConsumerStep(s, Release);
    if t != s {
      assert t.popped == s.pushed[..t.readPosition];
    }
  }

  lemma NextKeeps(s: Ring, step: RingStep)
    requires RingInv(s)
    ensures RingInv(Next(s, step))
  {
    match step
    case CopyIn => CopyInKeeps(s);
    case Publish => PublishKeeps(s);
    case CopyOut => CopyOutKeeps(s);
    case Release => ReleaseKeeps(s);
    case _ =>
  }

  lemma {:induction false} PlayKeeps(s: Ring, steps: seq<RingStep>)
    requires RingInv(s)
    ensures RingInv(Play(s, steps))
    decreases |steps|
  {
    if steps != [] {
      NextKeeps(s, steps[0]);
      PlayKeeps(Next(s, steps[0]), steps[1..]);
    }
  }

  // -------------------------------------------------------------- every interleaving

  /** Whatever the schedule: what was popped, followed by what is queued, is what was
      pushed, in order, and no more than the capacity is ever queued. */
  lemma FirstInFirstOut(capacity: nat, steps: seq<RingStep>)
    requires capacity > 0
    ensures var s := Play(Empty(capacity), steps);
            s.popped + Queue(s) == s.pushed && |Queue(s)| <= capacity
  {
    PlayKeeps(Empty(capacity), steps);
  }

  /** The slots that the producer is filling are not among those the consumer is reading,
      and both stay inside the storage. */
  lemma TransfersDisjoint(capacity: nat, steps: seq<RingStep>, i: nat, j: nat)
    requires capacity > 0
    requires var s := Play(Empty(capacity), steps);
             s.producer.Copying? && s.consumer.Taking? && i < s.producer.count && j < s.consumer.count
    ensures var s := Play(Empty(capacity), steps);
            && Slot(s.producer.write, i, s.producer.count, capacity) < capacity
            && Slot(s.consumer.read, j, s.consumer.count, capacity) < capacity
            && Slot(s.producer.write, i, s.producer.count, capacity) != Slot(s.consumer.read, j, s.consumer.count, capacity)
  {
    var s := Play(Empty(capacity), steps);
    PlayKeeps(Empty(capacity), steps);
    hide Slot;
    SlotIsPosition(s.producer.write, i, s.producer.count, capacity);
    SlotIsPosition(s.consumer.read, j, s.consumer.count, capacity);
    DistinctSlots(s.consumer.read + j, s.producer.write + i, capacity);
  }

  /** The queue grows only when a push is published, by the samples it took; the push
      decided how many by the space that was free when it loaded the read position. */
  lemma PushRefinesQueue(s: Ring, step: RingStep)
    requires RingInv(s)
    ensures var t := ProducerStep(s, step);
            && t.popped == s.popped && t.readPosition == s.readPosition
            && Queue(t) == (if step.Publish? && t != s then Queue(s) + s.producer.offered[..s.producer.count] else Queue(s))
            && (step.LoadReadPosition? && s.producer.WriteLoaded? && t.producer.Copying? ==>
                  t.producer.count == Min(|s.producer.offered|, |s.slots| - |Queue(s)|))
            && (step.LoadReadPosition? && s.producer.WriteLoaded? && t.producer.NotPushing? ==>
                  s.producer.offered == [] || |Queue(s)| == |s.slots|)
  {
  }

  /** The queue shrinks only when a pop is released, by the oldest samples, which are those
      it copied; it decided how many by the fill when it loaded the write position. */
  lemma PopRefinesQueue(s: Ring, step: RingStep)
    requires RingInv(s)
    ensures var t := ConsumerStep(s, step);
            && t.pushed == s.pushed && t.writePosition == s.writePosition
            && Queue(s) == (if step.Release? && t != s then s.consumer.got + Queue(t) else Queue(t))
            && t.popped == (if step.Release? && t != s then s.popped + s.consumer.got else s.popped)
            && (step.LoadWritePosition? && s.consumer.ReadLoaded? && t.consumer.Taking? ==>
                  t.consumer.count == Min(s.consumer.limit, |Queue(s)|))
            && (step.LoadWritePosition? && s.consumer.ReadLoaded? && t.consumer.NotPopping? ==>
                  s.consumer.limit == 0 || Queue(s) == [])
  {
    if step.Release? && s.consumer.Taking? && |s.consumer.got| == s.consumer.count {
      TakenFromQueue(s);
    }
  }

  // ------------------------------------------------------------------- the observer

  lemma {:induction false} PositionsGrow(s: Ring, steps: seq<RingStep>)
    requires RingInv(s)
    ensures var t := Play(s, steps);
            s.readPosition <= t.readPosition && s.writePosition <= t.writePosition && |t.slots| == |s.slots|
    decreases |steps|
  {
    if steps != [] {
      NextKeeps(s, steps[0]);
      hide RingInv;
      PositionsGrow(Next(s, steps[0]), steps[1..]);
    }
  }

  /** What a thread that loads the write position in one state and the read position in a
      later one is told. It is exact for the producer, whose own load cannot be overtaken,
      and for the consumer. A third thread is told no more than is queued unless the reader
      has passed the loaded write position; then it is told the ring is full. */
  lemma ObservedFill(a: Ring, steps: seq<RingStep>)
    requires RingInv(a) && Play(a, steps).readPosition + |a.slots| < WORD
    ensures var b := Play(a, steps);
            var seen := BoundedDistance(a.writePosition, b.readPosition, |a.slots|);
            && (b.writePosition == a.writePosition ==> seen == |Queue(b)|)
            && (b.readPosition == a.readPosition ==> seen == |Queue(a)|)
            && (seen <= |Queue(b)| <==> b.readPosition <= a.writePosition || |Queue(b)| == |a.slots|)
            && (b.readPosition > a.writePosition ==> seen == |a.slots|)
  {
    PlayKeeps(a, steps);
    PositionsGrow(a, steps);
  }

  // ----------------------------------------------------- uninterrupted operations

  function CopiesIn(n: nat): (steps: seq<RingStep>)
    ensures |steps| == n
  {
    if n == 0 then [] else [CopyIn] + CopiesIn(n - 1)
  }

  function CopiesOut(n: nat): (steps: seq<RingStep>)
    ensures |steps| == n
  {
    if n == 0 then [] else [CopyOut] + CopiesOut(n - 1)
  }

  lemma PlayNone(s: Ring)
    requires |s.slots| > 0
    ensures Play(s, []) == s
  {
  }

  lemma NextSlots(s: Ring, step: RingStep)
    requires |s.slots| > 0
    ensures |Next(s, step).slots| == |s.slots|
  {
  }

  lemma PlayOne(s: Ring, step: RingStep, rest: seq<RingStep>)
    requires |s.slots| > 0
    ensures Play(s, [step] + rest) == Play(Next(s, step), rest)
  {
    assert ([step] + rest)[1..] == rest;
  }

  lemma {:induction false} PlayAll(s: Ring, first: seq<RingStep>, rest: seq<RingStep>)
    requires |s.slots| > 0
    ensures Play(s, first + rest) == Play(Play(s, first), rest)
    decreases |first|
  {
    hide Next;
    if first == [] {
      assert first + rest == rest;
    } else {
      NextSlots(s, first[0]);
      PlayAll(Next(s, first[0]), first[1..], rest);
      assert (first + rest)[1..] == first[1..] + rest;
      assert (first + rest)[0] == first[0];
    }
  }

  lemma {:induction false} CopyAllIn(s: Ring)
    requires RingInv(s) && s.producer.Copying?
    ensures var n := s.producer.count - s.producer.copied;
            var t := Play(s, CopiesIn(n));
            RingInv(t) && t == s.(slots := t.slots, producer := s.producer.(copied := s.producer.count))
    decreases s.producer.count - s.producer.copied
  {
    var n := s.producer.count - s.producer.copied;
    if n > 0 {
      var t := ProducerStep(s, CopyIn);
      CopyInKeeps(s);
      SlotIsPosition(s.producer.write, s.producer.copied, s.producer.count, |s.slots|);
      PlayOne(s, CopyIn, CopiesIn(n - 1));
      assert t == s.(slots := t.slots, producer := s.producer.(copied := s.producer.copied + 1));
      hide RingInv, ProducerStep;
      CopyAllIn(t);
    }
  }

  lemma {:induction false} CopyAllOut(s: Ring)
    requires RingInv(s) && s.consumer.Taking?
    ensures var n := s.consumer.count - |s.consumer.got|;
            var t := Play(s, CopiesOut(n));
            RingInv(t) && t == s.(consumer := t.consumer)
            && t.consumer.Taking? && t.consumer.count == |t.consumer.got| == s.consumer.count
               && t.consumer.read == s.consumer.read
    decreases s.consumer.count - |s.consumer.got|
  {
    var n := s.consumer.count - |s.consumer.got|;
    if n > 0 {
      var t := ConsumerStep(s, CopyOut);
      CopyOutKeeps(s);
      SlotIsPosition(s.consumer.read, |s.consumer.got|, s.consumer.count, |s.slots|);
      PlayOne(s, CopyOut, CopiesOut(n - 1));
      assert t == s.(consumer := Taking(s.consumer.read, s.consumer.count, t.consumer.got))
             && |t.consumer.got| == |s.consumer.got| + 1;
      hide RingInv, ConsumerStep;
      CopyAllOut(t);
    }
  }

  /** Two steps, a run of steps and a last step. */
  lemma PlayFramed(s: Ring, first: RingStep, second: RingStep, middle: seq<RingStep>, last: RingStep)
    requires |s.slots| > 0
    ensures Play(s, [first, second] + middle + [last]) == Next(Play(Next(Next(s, first), second), middle), last)
  {
    hide Next, Play;
    NextSlots(s, first);
    NextSlots(Next(s, first), second);
    var begun := Next(s, first);
    var loaded := Next(begun, second);
    PlayAll(loaded, middle, [last]);
    PlayOne(Play(loaded, middle), last, []);
    assert [last] + [] == [last];
    NextSlots(Play(loaded, middle), last);
    PlayNone(Next(Play(loaded, middle), last));
    PlayOne(begun, second, middle + [last]);
    PlayOne(s, first, [second] + (middle + [last]));
    assert [first, second] + middle + [last] == [first] + ([second] + (middle + [last]));
  }

  lemma PushBegun(s: Ring, offered: seq<Sample>, count: nat)
    requires RingInv(s) && s.producer.NotPushing?
    requires 0 < count == Min(|offered|, |s.slots| - |Queue(s)|)
    ensures var t := Next(Next(s, BeginPush(offered)), LoadReadPosition);
            t == s.(producer := Copying(offered, s.writePosition, count, 0)) && RingInv(t)
  {
  }

  lemma PopBegun(s: Ring, limit: nat, count: nat)
    requires RingInv(s) && s.consumer.NotPopping?
    requires 0 < count == Min(limit, |Queue(s)|)
    ensures var t := Next(Next(s, BeginPop(limit)), LoadWritePosition);
            t == s.(consumer := Taking(s.readPosition, count, [])) && RingInv(t)
  {
    NextKeeps(s, BeginPop(limit));
    NextKeeps(Next(s, BeginPop(limit)), LoadWritePosition);
    hide RingInv, Slot;
    PopCount(s, limit, count);
  }

  lemma PopCount(s: Ring, limit: nat, count: nat)
    requires RingInv(s) && s.consumer.NotPopping?
    requires 0 < count == Min(limit, |Queue(s)|)
    ensures Next(Next(s, BeginPop(limit)), LoadWritePosition) == s.(consumer := Taking(s.readPosition, count, []))
  {
    hide ProducerInv;
  }

  /** A push that nobody interrupts appends what fits, as FloatSpscRing.Push promises. */
  lemma PushAlone(s: Ring, offered: seq<Sample>, count: nat)
    requires RingInv(s) && s.producer.NotPushing?
    requires 0 < count == Min(|offered|, |s.slots| - |Queue(s)|)
    ensures var t := Play(s, [BeginPush(offered), LoadReadPosition] + CopiesIn(count) + [Publish]);
            && RingInv(t) && Queue(t) == Queue(s) + offered[..count]
            && t == s.(slots := t.slots, writePosition := s.writePosition + count, pushed := s.pushed + offered[..count])
  {
    var loaded := Next(Next(s, BeginPush(offered)), LoadReadPosition);
    PushBegun(s, offered, count);
    hide Next, Queue;
    CopyAllIn(loaded);
    var full := Play(loaded, CopiesIn(count));
    hide Play, CopiesIn;
    PushEnded(s, full, offered, count);
    hide RingInv;
    PlayFramed(s, BeginPush(offered), LoadReadPosition, CopiesIn(count), Publish);
  }

  lemma PushEnded(s: Ring, full: Ring, offered: seq<Sample>, count: nat)
    requires RingInv(s) && RingInv(full) && count <= |offered| && s.producer.NotPushing?
    requires full == s.(slots := full.slots, producer := Copying(offered, s.writePosition, count, count))
    ensures var t := Next(full, Publish);
            && RingInv(t) && Queue(t) == Queue(s) + offered[..count]
            && t == s.(slots := full.slots, writePosition := s.writePosition + count, pushed := s.pushed + offered[..count])
  {
    PublishKeeps(full);
    hide RingInv;
  }

  /** A pop that nobody interrupts takes the oldest samples, as FloatSpscRing.Pop promises. */
  lemma PopAlone(s: Ring, limit: nat, count: nat)
    requires RingInv(s) && s.consumer.NotPopping?
    requires 0 < count == Min(limit, |Queue(s)|)
    ensures var t := Play(s, [BeginPop(limit), LoadWritePosition] + CopiesOut(count) + [Release]);
            && RingInv(t) && t.popped == s.popped + Queue(s)[..count] && Queue(t) == Queue(s)[count..]
            && t == s.(readPosition := s.readPosition + count, popped := t.popped)
  {
    var loaded := Next(Next(s, BeginPop(limit)), LoadWritePosition);
    PopBegun(s, limit, count);
    CopyAllOut(loaded);
    var full := Play(loaded, CopiesOut(count));
    TakenFromQueue(full);
    hide Play, CopiesOut, RingInv;
    ReleaseKeeps(full);
    PlayFramed(s, BeginPop(limit), LoadWritePosition, CopiesOut(count), Release);
  }

  lemma TakenFromQueue(s: Ring)
    requires RingInv(s) && s.consumer.Taking? && |s.consumer.got| == s.consumer.count
    ensures s.consumer.got == Queue(s)[..s.consumer.count]
    ensures Queue(ConsumerStep(s, Release)) == Queue(s)[s.consumer.count..]
  {
  }

  /** One sample passes through the ring between the observer's two loads. */
  function OvertakenLook(): seq<RingStep> {
    [ObserveWrite] + ([BeginPush([1.0]), LoadReadPosition] + CopiesIn(1) + [Publish])
    + (([BeginPop(1), LoadWritePosition] + CopiesOut(1) + [Release]) + [ObserveRead])
  }

  /** An observer can be told that a ring is full although it never held more than one
      sample and is empty. */
  lemma EmptyRingLooksFull(capacity: nat)
    requires 0 < capacity <= MAXIMUM_CAPACITY
    ensures var s := Play(Empty(capacity), OvertakenLook());
            s.observer == Looked(capacity) && Queue(s) == []
  {
    var a := Next(Empty(capacity), ObserveWrite);
    var pushing := [BeginPush([1.0]), LoadReadPosition] + CopiesIn(1) + [Publish];
    var popping := [BeginPop(1), LoadWritePosition] + CopiesOut(1) + [Release];
    assert RingInv(a);
    PushAlone(a, [1.0], 1);
    var b := Play(a, pushing);
    PopAlone(b, 1, 1);
    var c := Play(b, popping);
    assert c.readPosition == 1 && c.observer == Looking(0);
    hide Play, CopiesIn, CopiesOut, RingInv, ProducerStep, ConsumerStep, ObserverStep;
    PlayOne(c, ObserveRead, []);
    PlayNone(Next(c, ObserveRead));
    PlayAll(b, popping, [ObserveRead]);
    PlayAll(a, pushing, popping + [ObserveRead]);
    PlayOne(Empty(capacity), ObserveWrite, pushing + (popping + [ObserveRead]));
    assert OvertakenLook() == [ObserveWrite] + (pushing + (popping + [ObserveRead]));
  }

}
