/**
 * The renderer's `Buffer`: one GPU-visible arena of `instances` equal slots of
 * `length` bytes, one slot per frame in flight, so that the CPU writes one slot
 * while the GPU reads another. Only what the pipelines rely on is modelled:
 * `update` copies a value's bytes into a slot at an offset, `next` gives the
 * handle and byte offset to bind for a slot.
 *
 * Memory is a flat array of cells. A cell is either never written, or byte
 * `at` of a copy of some value: this records what a `memcpy` leaves behind
 * without fixing a byte encoding for the values.
 */
module RingBuffers {
  import opened Optional

  datatype Cell<T> = Blank | Part(payload: T, at: nat)

  /** The `n` bytes of a copy of `p`. */
  function Bytes<T>(p: T, n: nat): seq<Cell<T>> {
    seq(n, (k: int) requires 0 <= k => Part(p, k))
  }

  /** `cells` after copying the `n` bytes of `p` to `offset`; nothing else changes. */
  function Written<T>(cells: seq<Cell<T>>, p: T, offset: nat, n: nat): (r: seq<Cell<T>>)
    requires offset + n <= |cells|
    ensures |r| == |cells|
  {
    cells[..offset] + Bytes(p, n) + cells[offset + n..]
  }

  /** What each byte holds after a copy: the copied value's bytes in `[offset, offset + n)`, the old bytes elsewhere. */
  lemma WrittenAt<T>(cells: seq<Cell<T>>, p: T, offset: nat, n: nat)
    requires offset + n <= |cells|
    ensures forall a :: 0 <= a < |cells| ==>
              Written(cells, p, offset, n)[a] == (if offset <= a < offset + n then Part(p, a - offset) else cells[a])
  {
  }

  /** The value whose `n` bytes lie, in order, at `offset`, if there is one. */
  function ReadBack<T(==)>(cells: seq<Cell<T>>, offset: nat, n: nat): (r: Option<T>)
    ensures r.Some? ==> offset + n <= |cells| && forall k :: 0 <= k < n ==> cells[offset + k] == Part(r.value, k)
    ensures r.Some? ==> n > 0
  {
    if n == 0 || offset + n > |cells| then None
    else match cells[offset]
      case Blank => None
      case Part(p, _) =>
        if forall k :: 0 <= k < n ==> cells[offset + k] == Part(p, k) then Some(p) else None
  }

  /** `n` bytes of one copy of `p`, in order, read back as `p`. */
  lemma ReadBackBytes<T>(cells: seq<Cell<T>>, p: T, offset: nat, n: nat)
    requires 0 < n && offset + n <= |cells|
    requires forall a :: offset <= a < offset + n ==> cells[a] == Part(p, a - offset)
    ensures ReadBack(cells, offset, n) == Some(p)
  {
    assert cells[offset] == Part(p, 0);
    assert forall k :: 0 <= k < n ==> cells[offset + k] == Part(p, k) by {
      forall k | 0 <= k < n ensures cells[offset + k] == Part(p, k) {
        assert offset <= offset + k < offset + n;
      }
    }
  }

  /** A value copied into memory reads back as itself. */
  lemma ReadBackWritten<T>(cells: seq<Cell<T>>, p: T, offset: nat, n: nat)
    requires 0 < n && offset + n <= |cells|
    ensures ReadBack(Written(cells, p, offset, n), offset, n) == Some(p)
  {
    WrittenAt(cells, p, offset, n);
    ReadBackBytes(Written(cells, p, offset, n), p, offset, n);
  }

  /** A copy leaves every value stored in a disjoint range readable as before. */
  lemma ReadBackDisjoint<T>(cells: seq<Cell<T>>, p: T, offset: nat, n: nat, other: nat, m: nat)
    requires offset + n <= |cells|
    requires other + m <= offset || offset + n <= other
    ensures ReadBack(Written(cells, p, offset, n), other, m) == ReadBack(cells, other, m)
  {
    var w := Written(cells, p, offset, n);
    WrittenAt(cells, p, offset, n);
    if 0 < m && other + m <= |cells| {
      assert forall a :: other <= a < other + m ==> w[a] == cells[a];
    }
  }

  /** Multiplication by a length is monotonic in the slot index. */
  lemma {:induction false} MulMonotone(a: nat, b: nat, length: nat)
    requires a <= b
    ensures a * length <= b * length
    decreases b - a
  {
    if a < b {
      MulMonotone(a, b - 1, length);
      assert b * length == (b - 1) * length + length;
    }
  }

  /** Slot `slot` spans `[slot * length, (slot + 1) * length)` inside the arena. */
  lemma SlotInArena(slot: nat, instances: nat, length: nat)
    requires slot < instances
    ensures slot * length + length <= instances * length
  {
    MulMonotone(slot + 1, instances, length);
    assert (slot + 1) * length == slot * length + length;
  }

  /** The byte ranges of two different slots never overlap: a write to one slot cannot alias another. */
  lemma SlotsDisjoint(s: nat, t: nat, length: nat)
    requires s != t
    ensures s * length + length <= t * length || t * length + length <= s * length
  {
    if s < t {
      SlotInArena(s, t, length);
    } else {
      SlotInArena(t, s, length);
    }
  }

  class Buffer<T> {
    /** The number of slots, one per frame in flight. */
    const instances: nat
    /** The bytes in one slot. */
    const length: nat
    /** The arena: slot `s` is `mem[s * length .. (s + 1) * length]`. */
    const mem: array<Cell<T>>

    predicate Valid() {
      mem.Length == instances * length
    }

    constructor (length: nat, instances: nat)
      ensures Valid() && fresh(mem)
      ensures this.length == length && this.instances == instances
      ensures forall a :: 0 <= a < mem.Length ==> mem[a] == Blank
    {
      this.length := length;
      this.instances := instances;
      mem := new Cell<T>[instances * length](_ => Blank);
    }

    /** The handle and byte offset to bind for slot `slot`. */
    function Next(slot: nat): (Buffer<T>, nat) {
      (this, slot * length)
    }

    /** `update(data, size, bufferIndex, offset)`: copy `size` bytes of `data` into slot `slot` at `offset`. */
    method Update(data: T, size: nat, slot: nat, offset: nat)
      requires Valid() && slot < instances && offset + size <= length
      modifies mem
      ensures slot * length + offset + size <= mem.Length
      ensures mem[..] == Written(old(mem[..]), data, slot * length + offset, size)
    {
      SlotInArena(slot, instances, length);
      var start := slot * length + offset;
      forall a | start <= a < start + size {
        mem[a] := Part(data, a - start);
      }
      WrittenAt(old(mem[..]), data, start, size);
    }
  }
}
