/** The bounded output ring of the runtime host, with cursors that count bytes since the start. */
module Ring {
  type byte = b: int | 0 <= b < 256

  /** A replay is refused past the head; otherwise it starts at the cursor or at the retained floor. */
  datatype Replay = Invalid | Replay(bytes: seq<byte>, from: nat, gap: bool)

  function Min(a: nat, b: nat): nat {
    if a < b then a else b
  }

  /** What a ring of this capacity retains of a log: its last bytes. */
  function Retained(log: seq<byte>, capacity: nat): (r: seq<byte>)
    ensures |r| == Min(capacity, |log|)
  {
    log[|log| - Min(capacity, |log|)..]
  }

  function Floor(log: seq<byte>, capacity: nat): nat {
    |log| - Min(capacity, |log|)
  }

  /** What a replay from `cursor` returns, in terms of the whole log. */
  function ReplayOf(log: seq<byte>, capacity: nat, cursor: nat): Replay {
    if cursor > |log| then Invalid
    else if cursor >= Floor(log, capacity) then Replay(log[cursor..], cursor, false)
    else Replay(log[Floor(log, capacity)..], Floor(log, capacity), true)
  }

  class Ring {
    const capacity: nat
    var store: array<byte>
    var len: nat
    var total: nat
    /** Every byte ever appended. */
    ghost var log: seq<byte>

    ghost predicate Valid()
      reads this, store
    {
      && capacity > 0 && store.Length == 2 * capacity && len <= capacity
      && total == |log| && store[..len] == Retained(log, capacity)
    }

    /** Room for twice the capacity, so that a chunk can be appended before the excess is shifted out. */
    constructor (capacity: nat)
      requires capacity > 0
      ensures Valid() && this.capacity == capacity && log == [] && fresh(store)
    {
      this.capacity := capacity;
      this.store := new byte[2 * capacity](_ => 0);
      this.len := 0;
      this.total := 0;
      this.log := [];
    }

    method Base() returns (base: nat)
      requires Valid()
      ensures base == Floor(log, capacity)
    {
      base := total - len;
    }

    /** Copies `data` behind the first `at` bytes of the store. */
    method CopyIn(data: seq<byte>, at: nat)
      requires at + |data| <= store.Length
      modifies store
      ensures store[..at + |data|] == old(store[..at]) + data
    {
      var i := 0;
      while i < |data|
        invariant i <= |data|
        invariant store[..at] == old(store[..at]) && store[at..at + i] == data[..i]
      {
        store[at + i] := data[i];
        i := i + 1;
      }
      assert store[..at + |data|] == store[..at] + store[at..at + |data|];
    }

    /** Drops the first `excess` of `n` bytes by shifting the rest down in place. */
    method ShiftDown(excess: nat, n: nat)
      requires excess <= n <= store.Length
      modifies store
      ensures store[..n - excess] == old(store[excess..n])
    {
      var i := 0;
      while i < n - excess
        invariant i <= n - excess
        invariant forall k | 0 <= k < i :: store[k] == old(store[k + excess])
        invariant forall k | i <= k < store.Length :: store[k] == old(store[k])
      {
        store[i] := store[i + excess];
        i := i + 1;
      }
    }

    /** `Append`: a chunk as large as the ring replaces it; a smaller one is copied in and the excess shifted out. */
    method Append(data: seq<byte>)
      requires Valid()
      modifies this, store
      ensures Valid() && store == old(store) && log == old(log) + data
    {
      total := total + |data|;
      if |data| >= capacity {
        CopyIn(data[|data| - capacity..], 0);
        len := capacity;
        LargeChunk(log, data, capacity);
      } else {
        CopyIn(data, len);
        len := len + |data|;
        AppendedTail(log, data, capacity);
        Trim();
      }
      log := log + data;
    }

    /** Keeps the last `capacity` bytes of the store, shifted to its start. */
    method Trim()
      requires len <= store.Length && capacity <= store.Length
      modifies this`len, store
      ensures len == Min(capacity, old(len)) && store[..len] == Retained(old(store[..len]), capacity)
    {
      if len > capacity {
        ghost var before := store[..len];
        var excess := len - capacity;
        assert before[excess..] == store[excess..len];
        ShiftDown(excess, len);
        len := capacity;
      }
    }

    method ReplayFrom(cursor: nat) returns (r: Replay)
      requires Valid()
      ensures r == ReplayOf(log, capacity, cursor)
    {
      if cursor > total { return Invalid; }
      var base := Base();
      if cursor >= base {
        var off := cursor - base;
        assert store[off..len] == store[..len][off..];
        return Replay(store[off..len], cursor, false);
      }
      r := Replay(store[..len], base, true);
    }
  }

  /** The retained tail followed by a chunk ends in the tail of the whole. */
  lemma AppendedTail(log: seq<byte>, data: seq<byte>, capacity: nat)
    requires |data| <= capacity
    ensures Retained(log + data, capacity) == Retained(Retained(log, capacity) + data, capacity)
  {
  }

  lemma LargeChunk(log: seq<byte>, data: seq<byte>, capacity: nat)
    requires |data| >= capacity
    ensures Retained(log + data, capacity) == data[|data| - capacity..]
  {
  }

  /**
   Whatever was cut off, a valid replay is the log from its start on: from the cursor, or, if more than
   `capacity` bytes have come since, the last `capacity` bytes.
   */
  lemma ReplayIsASuffix(log: seq<byte>, capacity: nat, cursor: nat)
    ensures var r := ReplayOf(log, capacity, cursor);
            && (r.Invalid? <==> cursor > |log|)
            && (r.Replay? ==>
                  && r.from <= |log| && r.bytes == log[r.from..]
                     && r.from == (if |log| - cursor > capacity then |log| - capacity else cursor)
                  && (r.gap <==> cursor < r.from) && |r.bytes| <= capacity)
  {
  }
}
