/** FloatSpscRing (src/audio/sample_ring.cpp): the ring as an object used by one thread at
    a time, and the ring under every interleaving of its producer's and consumer's atomic
    loads, slot copies and stores. Positions never wrap; differences of positions do. */
module SampleRing {
  import opened Arithmetic
  import TransmitLog

  type Sample = TransmitLog.Sample

  const MAXIMUM_CAPACITY: nat := 16_777_216

  /** Unsigned subtraction, cut off at the capacity. */
  function BoundedDistance(newer: nat, older: nat, capacity: nat): nat {
    Min(if newer >= older then newer - older else WORD - Min(WORD, older - newer), capacity)
  }

  /** Where the k-th sample of a transfer that starts at a position lives: up to the end
      of the storage, then from its beginning. */
  function Slot(position: nat, k: nat, count: nat, capacity: nat): nat
    requires capacity > 0
  {
    var offset := position % capacity;
    var first := Min(count, capacity - offset);
    if k < first then offset + k else k - first
  }

  /** The two-part copy addresses the slot of each position. */
  lemma SlotIsPosition(position: nat, k: nat, count: nat, capacity: nat)
    requires k < count <= capacity
    ensures Slot(position, k, count, capacity) == (position + k) % capacity
    ensures Slot(position, k, count, capacity) < capacity
  {
    ModStep(position, k, capacity);
  }

  /** Positions less than a capacity apart live in different slots. */
  lemma DistinctSlots(p: nat, q: nat, capacity: nat)
    requires p < q < p + capacity
    ensures p % capacity != q % capacity
  {
    ModStep(p, q - p, capacity);
  }

  // ------------------------------------------------------------- one thread at a time

  /** The samples stored between two positions. */
  function Window(slots: seq<Sample>, read: nat, write: nat): (w: seq<Sample>)
    requires |slots| > 0 && read <= write
    ensures |w| == write - read
    ensures forall i :: 0 <= i < |w| ==> w[i] == slots[(read + i) % |slots|]
  {
    seq(write - read, i requires 0 <= i => slots[(read + i) % |slots|])
  }

  class FloatSpscRing {
    const storage: array<Sample>
    const capacity: nat
    var readPosition: nat
    var writePosition: nat

    predicate Valid()
      reads this
    {
      && 0 < capacity <= MAXIMUM_CAPACITY && storage.Length == capacity
      && readPosition <= writePosition <= readPosition + capacity
    }

    ghost function Contents(): seq<Sample>
      requires Valid()
      reads this, storage
    {
      Window(storage[..], readPosition, writePosition)
    }

    constructor (capacity: nat)
      requires 0 < capacity <= MAXIMUM_CAPACITY
      ensures Valid() && fresh(storage) && this.capacity == capacity && Contents() == []
    {
      storage := new Sample[capacity](_ => 0.0);
      this.capacity, readPosition, writePosition := capacity, 0, 0;
    }

    /** Appends as many samples as fit. */
    method Push(samples: seq<Sample>) returns (count: nat)
      requires Valid()
      modifies this`writePosition, storage
      ensures Valid()
      ensures count == Min(|samples|, capacity - |old(Contents())|)
      ensures Contents() == old(Contents()) + samples[..count]
    {
      var used := BoundedDistance(writePosition, readPosition, capacity);
      count := Min(|samples|, capacity - used);
      if count == 0 {
        return;
      }
      var offset := writePosition % capacity;
      var first := Min(count, capacity - offset);
      ghost var before := storage[..];
      forall k | 0 <= k < first {
        storage[offset + k] := samples[k];
      }
      forall k | first <= k < count {
        storage[k - first] := samples[k];
      }
      PushedWindow(before, storage[..], readPosition, writePosition, samples, count);
      writePosition := writePosition + count;
    }

    /** Removes as many samples as there are, up to a limit, and hands them over. */
    method Pop(samples: array<Sample>, limit: nat) returns (count: nat)
      requires Valid() && limit <= samples.Length && samples != storage
      modifies this`readPosition, samples
      ensures Valid()
      ensures count == Min(limit, |old(Contents())|)
      ensures samples[..count] == old(Contents())[..count]
      ensures Contents() == old(Contents())[count..]
      ensures samples[count..] == old(samples[count..])
    {
      count := Min(limit, BoundedDistance(writePosition, readPosition, capacity));
      if count == 0 {
        return;
      }
      var offset := readPosition % capacity;
      var first := Min(count, capacity - offset);
      forall k | 0 <= k < first {
        samples[k] := storage[offset + k];
      }
      forall k | first <= k < count {
        samples[k] := storage[k - first];
      }
      forall k | 0 <= k < count
        ensures samples[k] == old(Contents())[k]
      {
        SlotIsPosition(readPosition, k, count, capacity);
      }
      readPosition := readPosition + count;
    }

    function AvailableRead(): (n: nat)
      requires Valid()
      reads this, storage
      ensures n == |Contents()|
    {
      BoundedDistance(writePosition, readPosition, capacity)
    }

    function AvailableWrite(): (n: nat)
      requires Valid()
      reads this, storage
      ensures n == capacity - |Contents()|
    {
      capacity - AvailableRead()
    }

    method Reset()
      requires Valid()
      modifies this
      ensures Valid() && Contents() == []
    {
      readPosition, writePosition := 0, 0;
    }
  }

  /** Filling the free slots after the write position extends the window. */
  lemma PushedWindow(before: seq<Sample>, after: seq<Sample>, read: nat, write: nat, samples: seq<Sample>, count: nat)
    requires |before| == |after| > 0 && read <= write && count <= |samples| && write + count <= read + |after|
    requires forall k :: 0 <= k < count ==>
                           var s := Slot(write, k, count, |after|); s < |after| && after[s] == samples[k]
    requires forall j :: 0 <= j < |after| && (forall k :: 0 <= k < count ==> j != Slot(write, k, count, |after|)) ==>
                           after[j] == before[j]
    ensures Window(after, read, write + count) == Window(before, read, write) + samples[..count]
  {
    var c := |after|;
    forall i | 0 <= i < write + count - read
      ensures Window(after, read, write + count)[i] == (Window(before, read, write) + samples[..count])[i]
    {
      if i < write - read {
        forall k | 0 <= k < count ensures (read + i) % c != Slot(write, k, count, c) {
          SlotIsPosition(write, k, count, c);
          DistinctSlots(read + i, write + k, c);
        }
      } else {
        SlotIsPosition(write, i - (write - read), count, c);
      }
    }
  }
}
