/** The audit trail (internal/audit/trail.go): a ring buffer that stands for the end of the full
    history of routing decisions. */
module Audit {
  import opened Arith

  /** The slot of the i-th newest record. */
  function Slot(head: int, i: int, capacity: int): (slot: int)
    requires capacity > 0
    ensures 0 <= slot < capacity
  {
    (head - 1 - i + capacity) % capacity
  }

  function Min(a: int, b: int): int {
    if a < b then a else b
  }

  /** The last n records of a history, newest first. */
  function Newest<T>(history: seq<T>, n: nat): seq<T>
    requires n <= |history|
  {
    seq(n, i requires 0 <= i < n => history[|history| - 1 - i])
  }

  class Trail<T(0)> {
    const records: array<T>
    var head: int
    var count: int
    ghost var history: seq<T>

    ghost predicate Valid()
      reads this, records
    {
      var capacity := records.Length;
      && capacity > 0
      && 0 <= head < capacity
      && count == Min(|history|, capacity)
      && forall i | 0 <= i < count :: InSlot(i)
    }

    ghost predicate InSlot(i: int)
      requires records.Length > 0 && 0 <= i < |history|
      reads this, records
    {
      records[Slot(head, i, records.Length)] == history[|history| - 1 - i]
    }

    constructor (capacity: nat)
      requires capacity > 0
      ensures Valid() && fresh(records) && records.Length == capacity && history == []
    {
      records := new T[capacity];
      head, count, history := 0, 0, [];
    }

    method Record(r: T)
      requires Valid()
      modifies this, records
      ensures Valid() && history == old(history) + [r]
    {
      hide Slot;
      records[head] := r;
      head := (head + 1) % records.Length;
      if count < records.Length {
        count := count + 1;
      }
      history := history + [r];
      forall i | 0 <= i < count
        ensures InSlot(i)
      {
        SlotMoves(old(head), i, records.Length);
        if i > 0 {
          assert old(InSlot(i - 1));
        }
      }
    }

    method Recent(n: nat) returns (result: seq<T>)
      requires Valid()
      ensures result == Newest(history, Min(n, Min(|history|, records.Length)))
    {
      hide Slot;
      var m := if n > count then count else n;
      if m == 0 {
        return [];
      }
      var found := new T[m];
      for i := 0 to m
        invariant forall j | 0 <= j < i :: found[j] == history[|history| - 1 - j]
      {
        assert InSlot(i);
        found[i] := records[Slot(head, i, records.Length)];
      }
      result := found[..];
    }
  }

  /** Recording moves every older record one place down, and puts none of those still kept in the
      slot that is overwritten. */
  lemma SlotMoves(head: int, i: int, capacity: int)
    requires 0 <= head < capacity && 0 <= i < capacity
    ensures var next := (head + 1) % capacity;
            if i == 0 then Slot(next, 0, capacity) == head else Slot(next, i, capacity) == Slot(head, i - 1, capacity) != head
  {
    hide Slot;
    var next := if head + 1 == capacity then 0 else head + 1;
    assert next == (head + 1) % capacity;
    SlotValue(next, i, capacity);
    if i > 0 {
      SlotValue(head, i - 1, capacity);
    }
  }

  lemma SlotValue(head: int, i: int, capacity: int)
    requires 0 <= head < capacity && 0 <= i < capacity
    ensures Slot(head, i, capacity) == if i < head then head - 1 - i else head - 1 - i + capacity
  {
    var x, q := head - 1 - i + capacity, if i < head then 1 else 0;
    assert q * capacity == if i < head then capacity else 0;
    DivUnique(x, q, capacity);
    assert x == x / capacity * capacity + x % capacity;
  }

  /** Read backwards, the newest records are the end of the history. */
  lemma {:induction false} NewestIsSuffix<T>(history: seq<T>, n: nat)
    requires n <= |history|
    ensures |Newest(history, n)| == n
    ensures forall k | 0 <= k < n :: Newest(history, n)[k] == history[|history| - n..][n - 1 - k]
    ensures n < |history| ==> Newest(history, n + 1) == Newest(history, n) + [history[|history| - 1 - n]]
  {
  }
}
