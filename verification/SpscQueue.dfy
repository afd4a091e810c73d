/**
 The bounded single-producer / single-consumer queue as a sequential object:
 fixed storage, two wrapped indices, a backlog cap below the storage size.
 What the two threads may observe of each other is in module SpscThreads.
 */
module SpscQueue {
  import opened Common

  function NextIndex(index: nat, capacity: nat): nat {
    if index + 1 == capacity then 0 else index + 1
  }

  function Distance(read: nat, write: nat, capacity: nat): nat
    requires read <= capacity
  {
    if write >= read then write - read else capacity - read + write
  }

  class BoundedSpscQueue<T(0)> {
    const capacity: nat
    const maxDepth: nat
    const storage: array<T>
    var readIndex: nat
    var writeIndex: nat

    ghost predicate Valid()
      reads this
    {
      && 0 < maxDepth < capacity == storage.Length
      && readIndex < capacity && writeIndex < capacity
      && Distance(readIndex, writeIndex, capacity) <= maxDepth
    }

    /** The queued values, oldest first. */
    ghost function Contents(): seq<T>
      requires Valid()
      reads this, storage
    {
      if readIndex <= writeIndex then storage[readIndex..writeIndex]
      else storage[readIndex..] + storage[..writeIndex]
    }

    constructor (capacity: nat, maxDepth: nat)
      requires 0 < maxDepth < capacity
      ensures Valid() && fresh(storage) && Contents() == []
      ensures this.capacity == capacity && this.maxDepth == maxDepth
    {
      this.capacity, this.maxDepth := capacity, maxDepth;
      storage := new T[capacity];
      readIndex, writeIndex := 0, 0;
    }

    method TryPush(value: T) returns (ok: bool, sizeAfterPush: nat)
      requires Valid()
      modifies this`writeIndex, storage
      ensures Valid()
      ensures ok <==> |old(Contents())| < maxDepth
      ensures Contents() == if ok then old(Contents()) + [value] else old(Contents())
      ensures ok ==> sizeAfterPush == |Contents()|
    {
      var write, read := writeIndex, readIndex;
      var currentSize := Distance(read, write, capacity);
      if currentSize >= maxDepth {
        return false, 0;
      }
      storage[write] := value;
      writeIndex := NextIndex(write, capacity);
      return true, currentSize + 1;
    }

    method TryPop() returns (value: Option<T>)
      requires Valid()
      modifies this`readIndex
      ensures Valid()
      ensures value.None? <==> old(Contents()) == []
      ensures old(Contents()) == (if value.Some? then [value.value] else []) + Contents()
    {
      var read, write := readIndex, writeIndex;
      if read == write {
        return None;
      }
      value := Some(storage[read]);
      readIndex := NextIndex(read, capacity);
    }

    method Reset()
      requires Valid()
      modifies this`readIndex, this`writeIndex
      ensures Valid() && Contents() == []
    {
      readIndex, writeIndex := 0, 0;
    }
  }
}
