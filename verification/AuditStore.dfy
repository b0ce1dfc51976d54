/**
 The in-memory audit store: a ring buffer that must behave as "the last N appended entries, newest
 first". The capacity N is any positive number.
 */
module AuditStores {
  import opened Wrappers

  datatype Decision = Allow | Deny

  datatype Entry = Entry(
    id: string,
    clientID: string,
    toolName: string,
    decision: Decision,
    timestamp: string,
    requestID: string,
    metadata: map<string, string>)

  function Reverse<T>(s: seq<T>): (r: seq<T>)
    ensures |r| == |s|
    ensures forall i | 0 <= i < |s| :: r[i] == s[|s| - 1 - i]
  {
    seq(|s|, i requires 0 <= i < |s| => s[|s| - 1 - i])
  }

  /** What the store holds after these appends: the last `capacity` entries, newest first. */
  function Newest(log: seq<Entry>, capacity: nat): (r: seq<Entry>)
    ensures |r| == Min(|log|, capacity)
    ensures forall i | 0 <= i < |r| :: r[i] == log[|log| - 1 - i]
  {
    Reverse(log[|log| - Min(|log|, capacity)..])
  }

  /** `List` shows 20 entries for a non-positive limit and never more than 100. */
  function PageLimit(limit: int): (n: nat)
    ensures limit <= 0 ==> n == 20
    ensures 1 <= limit <= 100 ==> n == limit
    ensures limit > 100 ==> n == 100
  {
    if limit <= 0 then 20 else if limit > 100 then 100 else limit
  }

  function Slice(entries: seq<Entry>, offset: nat, limit: nat): (r: seq<Entry>)
    ensures |r| == if offset < |entries| then Min(limit, |entries| - offset) else 0
    ensures forall k | 0 <= k < |r| :: r[k] == entries[offset + k]
  {
    if offset >= |entries| then [] else entries[offset..Min(offset + limit, |entries|)]
  }

  lemma SliceGrows(entries: seq<Entry>, offset: nat, i: nat)
    requires offset + i < |entries|
    ensures Slice(entries, offset, i + 1) == Slice(entries, offset, i) + [entries[offset + i]]
  {
  }

  lemma SliceEnds(entries: seq<Entry>, offset: nat, i: nat, limit: nat)
    requires i <= limit && offset + i >= |entries|
    ensures Slice(entries, offset, i) == Slice(entries, offset, limit)
  {
  }

  /** The i-th entry ever appended is in slot i mod N, as long as it is among the last N. */
  ghost predicate Represents(slots: seq<Option<Entry>>, head: int, count: int, log: seq<Entry>) {
    && |slots| >= 1
    && head == |log| % |slots|
    && count == Min(|log|, |slots|)
    && forall i | |log| - count <= i < |log| :: slots[i % |slots|] == Some(log[i])
  }

  lemma MultipleOf(d: int, n: int)
    requires n > 0
    ensures d >= 1 ==> d * n >= n
    ensures d == 0 ==> d * n == 0
    ensures d <= -1 ==> d * n <= -n
  {
  }

  lemma ModOfSum(q: int, n: int, r: int)
    requires 0 <= r < n
    ensures (q * n + r) % n == r
  {
    var x := q * n + r;
    assert x == (x / n) * n + x % n;
    var d := q - x / n;
    assert d * n == x % n - r;
    MultipleOf(d, n);
  }

  /** Two positions less than N apart never share a slot. */
  lemma SlotsDiffer(i: int, j: int, n: int)
    requires 0 < n && i < j < i + n
    ensures i % n != j % n
  {
    var d := j / n - i / n;
    assert j - i == d * n + (j % n - i % n);
    MultipleOf(d, n);
  }

  /** The index arithmetic of `List` is in range and finds the entry `idx` places behind the newest. */
  lemma PhysicalIndex(total: nat, capacity: nat, idx: nat)
    requires idx < Min(total, capacity)
    ensures var physIdx := (total % capacity - 1 - idx + capacity) % capacity;
            0 <= physIdx < capacity && physIdx == (total - 1 - idx) % capacity
    ensures 0 <= total % capacity - 1 - idx + capacity
  {
    var q, r := total / capacity, total % capacity;
    assert total == q * capacity + r;
    if r - 1 - idx >= 0 {
      ModOfSum(q, capacity, r - 1 - idx);
      ModOfSum(1, capacity, r - 1 - idx);
    } else {
      ModOfSum(q - 1, capacity, r - 1 - idx + capacity);
      assert (q - 1) * capacity + (r - 1 - idx + capacity) == total - 1 - idx;
      ModOfSum(0, capacity, r - 1 - idx + capacity);
    }
  }

  lemma SlotOfNewest(slots: seq<Option<Entry>>, head: int, count: int, log: seq<Entry>, idx: nat)
    requires Represents(slots, head, count, log) && idx < count
    ensures var physIdx := (head - 1 - idx + |slots|) % |slots|;
            0 <= physIdx < |slots| && slots[physIdx] == Some(Newest(log, |slots|)[idx])
  {
    PhysicalIndex(|log|, |slots|, idx);
    assert slots[(|log| - 1 - idx) % |slots|] == Some(log[|log| - 1 - idx]);
  }

  /** Writing slot `head` and advancing represents the log with one more entry. */
  lemma AppendRepresents(slots: seq<Option<Entry>>, head: int, count: int, log: seq<Entry>, entry: Entry)
    requires Represents(slots, head, count, log)
    ensures 0 <= head < |slots|
    ensures Represents(slots[head := Some(entry)], (head + 1) % |slots|,
                       if count < |slots| then count + 1 else count, log + [entry])
  {
    var n := |slots|;
    var count' := if count < n then count + 1 else count;
    var log' := log + [entry];
    NextHead(|log|, n);
    forall i | |log'| - count' <= i < |log'|
      ensures slots[head := Some(entry)][i % n] == Some(log'[i])
    {
      if i < |log| {
        SlotsDiffer(i, |log|, n);
      }
    }
  }

  lemma NextHead(total: nat, n: nat)
    requires n >= 1
    ensures (total % n + 1) % n == (total + 1) % n
  {
    var q, r := total / n, total % n;
    assert total + 1 == q * n + r + 1;
    if r + 1 < n {
      ModOfSum(q, n, r + 1);
    } else {
      ModOfSum(q + 1, n, 0);
      assert (q + 1) * n + 0 == total + 1;
      ModOfSum(1, n, 0);
    }
  }

  class Store {
    var entries: array<Option<Entry>>
    var head: int
    var count: int
    ghost var log: seq<Entry>

    ghost predicate Valid()
      reads this, entries
    {
      Represents(entries[..], head, count, log)
    }

    constructor (capacity: nat)
      requires capacity >= 1
      ensures Valid() && fresh(entries) && log == [] && entries.Length == capacity
    {
      entries := new Option<Entry>[capacity](_ => None);
      head := 0;
      count := 0;
      log := [];
    }

    method Append(entry: Entry)
      requires Valid()
      modifies this`head, this`count, this`log, entries
      ensures Valid() && entries == old(entries)
      ensures log == old(log) + [entry]
    {
      AppendRepresents(entries[..], head, count, log, entry);
      entries[head] := Some(entry);
      head := (head + 1) % entries.Length;
      if count < entries.Length {
        count := count + 1;
      }
      log := log + [entry];
    }

    /** The entry `idx` places behind the newest one: its slot exists and has been written. */
    method EntryAt(idx: nat) returns (entry: Entry)
      requires Valid() && idx < count
      ensures idx < |Newest(log, entries.Length)| && entry == Newest(log, entries.Length)[idx]
    {
      SlotOfNewest(entries[..], head, count, log, idx);
      var physIdx := (head - 1 - idx + entries.Length) % entries.Length;
      assert entries[..][physIdx] == entries[physIdx];
      entry := entries[physIdx].value;
    }

    /** A page of the newest entries. */
    method List(offset: int, limit: int) returns (page: seq<Entry>, total: int)
      requires Valid() && offset >= 0
      ensures total == |Newest(log, entries.Length)|
      ensures page == Slice(Newest(log, entries.Length), offset, PageLimit(limit))
    {
      total := count;
      if offset >= total {
        return [], total;
      }
      var n := limit;
      if n <= 0 {
        n := 20;
      }
      if n > 100 {
        n := 100;
      }
      ghost var newest := Newest(log, entries.Length);
      page := [];
      var i := 0;
      while i < n
        invariant 0 <= i <= n && offset + i <= total
        invariant page == Slice(newest, offset, i)
      {
        var idx := offset + i;
        if idx >= total {
          SliceEnds(newest, offset, i, n);
          return;
        }
        SliceGrows(newest, offset, i);
        var entry := EntryAt(idx);
        page := page + [entry];
        i := i + 1;
      }
    }

    method Count() returns (n: int)
      requires Valid()
      ensures n == Min(|log|, entries.Length)
    {
      n := count;
    }
  }
}
