/**
 The ring buffer class: fields of 32 bits changed in place, block copies in two parts, and a
 reset loop. Each locked method is one atomic step. Every index expression is evaluated in
 32-bit arithmetic; it fits because the size is below 2^31.
 */
module RingBuffers {
  import opened Remainders
  import opened RingSpec
  import opened Wrappers

  /** Copies `len` elements between two arrays that are not the same. */
  method Copy<T>(dst: array<T>, at: uint32, src: array<T>, from: uint32, len: uint32)
    requires dst != src
    requires at as int + len as int <= dst.Length && from as int + len as int <= src.Length
    modifies dst
    ensures forall i :: 0 <= i < dst.Length ==>
      dst[i] == if at as int <= i < at as int + len as int then src[from as int + (i - at as int)] else old(dst[i])
  {
    forall i | 0 <= i < len as int {
      dst[at as int + i] := src[from as int + i];
    }
  }

  /** `(i + k) % size`, evaluated in 32 bits. */
  method Advance(i: uint32, k: uint32, size: uint32) returns (r: uint32)
    requires i < size < 0x8000_0000 && i as int + k as int <= 2 * size as int
    ensures r as int == if i as int + k as int == 2 * size as int then 0 else Wrap(i as int + k as int, size as int)
  {
    if i as int + k as int == 2 * size as int {
      RemainderIs(i as int + k as int, size as int, 2, 0);
    } else {
      WrapIsRemainder(i as int + k as int, size as int);
    }
    r := (i + k) % size;
  }

  class RingBuffer<T(0)> {
    const size: uint32
    const buffer: array<T>
    var head: uint32
    var tail: uint32
    var count: uint32

    ghost predicate Valid()
      reads this, buffer
    {
      && 0 < size < 0x8000_0000 && buffer.Length == size as int
      && State().Valid()
    }

    /** The fields as a value. */
    ghost function State(): Ring<T>
      reads this, buffer
    {
      Ring(buffer[..], head as int, tail as int, count as int)
    }

    /** Allocates `size` cells holding the default value, all free. */
    constructor (size: uint32, default: T)
      requires 0 < size < 0x8000_0000
      ensures Valid() && fresh(buffer) && this.size == size
      ensures State() == Ring.Cleared(size as int, default)
    {
      this.size := size;
      buffer := new T[size](_ => default);
      head, tail, count := 0, 0, 0;
    }

    /** Removes the oldest element, if there is one. */
    method Pop() returns (out: Option<T>)
      requires Valid()
      modifies this
      ensures Valid()
      ensures State() == old(State()).AfterDrain(1)
      ensures out == if old(count) == 0 then None else Some(old(State()).Contents()[0])
    {
      ghost var was := State();
      SkipKeepsValid(was, Min(1, was.count));
      if count == 0 {
        return None;
      }
      ContentsAt(was, 0);
      out := Some(buffer[tail]);
      tail := Advance(tail, 1, size);
      count := count - 1;
    }

    /** Adds an element; when the buffer is full the oldest one makes room. */
    method Push(data: T)
      requires Valid()
      modifies this, buffer
      ensures Valid()
      ensures State() == old(State()).Push(data)
    {
      ghost var was := State();
      PushKeepsValid(was, data);
      HeadInRange(was);
      buffer[head] := data;
      head := Advance(head, 1, size);
      if count == size {
        tail := Advance(tail, 1, size);
      } else {
        count := count + 1;
      }
      assert buffer[..] == was.cells[was.head := data];
    }

    /** The cell at a raw index, which need not hold a present element. */
    method Get(idx: uint32) returns (out: Option<T>)
      requires Valid()
      ensures out == if idx < size then Some(State().cells[idx]) else None
    {
      if idx < size {
        return Some(buffer[idx]);
      }
      return None;
    }

    /** Writes `len` elements of `src` from the write index on, in at most two blocks. */
    method CopyIn(src: array<T>, len: uint32)
      requires 0 < size < 0x8000_0000 && buffer.Length == size as int && head < size
      requires src != buffer && len as int <= src.Length && head as int + len as int <= 2 * size as int
      modifies buffer
      ensures buffer[..] == OverwriteBatch(old(buffer[..]), head as int, src[..len])
    {
      ghost var xs := src[..len];
      var firstPart := size - head;
      if len <= firstPart {
        CopyBlock(head, src, 0, len);
      } else {
        CopyBlock(head, src, 0, firstPart);
        var secondPart := len - firstPart;
        assert xs[..firstPart] == src[0..firstPart] && xs[firstPart..] == src[firstPart..firstPart + secondPart];
        CopyBlock(0, src, firstPart, secondPart);
      }
    }

    /** One block copy into the cells. */
    method CopyBlock(at: uint32, src: array<T>, from: uint32, len: uint32)
      requires buffer.Length == size as int && at < size && at as int + len as int <= size as int
      requires src != buffer && from as int + len as int <= src.Length && from as int + len as int < TWO_TO_THE_32
      modifies buffer
      ensures buffer[..] == Overwrite(old(buffer[..]), at as int, src[from..from + len])
    {
      ghost var was := buffer[..];
      Copy(buffer, at, src, from, len);
      BlockIsOverwrite(was, at as int, src[from..from + len], buffer[..]);
    }

    /**
     Adds `len` elements of `src` by block copies: the same as pushing each in order. The batch may be
     longer than the buffer, as long as the second copy stays inside it; the count then wraps below
     zero and back.
     */
    method PushBatch(src: array?<T>, len: uint32)
      requires Valid() && src != buffer
      requires src != null ==> len as int <= src.Length
      requires head as int + len as int <= 2 * size as int
      modifies this, buffer
      ensures Valid()
      ensures State() == if src == null then old(State()) else old(State()).PushAll(old(src[..len]))
    {
      ghost var was := State();
      if src == null || len == 0 {
        return;
      }
      ghost var xs := src[..len];
      ghost var end := was.PushAll(xs);
      BatchCells(was, xs);
      MakeRoom(len, xs);
      CopyIn(src, len);
      head := Advance(head, len, size);
      count := Wrap32(count as int + len as int);
      assert State() == end;
    }

    /** Moves the read index past the elements that have to leave; the count may wrap below zero. */
    method MakeRoom(len: uint32, ghost xs: seq<T>)
      requires Valid() && |xs| == len as int && head as int + len as int <= 2 * size as int
      modifies this`tail, this`count
      ensures tail as int == old(State()).PushAll(xs).tail
      ensures count == Wrap32(old(State()).PushAll(xs).count - len as int)
    {
      BatchCounters(State(), xs);
      var freeSpace := size - count;
      if len > freeSpace {
        var toAdvance := len - freeSpace;
        tail := Advance(tail, toAdvance, size);
        count := Wrap32(count as int - toAdvance as int);
      }
    }

    /** Copies the oldest `toCopy` elements out, in at most two blocks. */
    method CopyOut(dst: array<T>, toCopy: uint32)
      requires Valid() && dst != buffer
      requires toCopy <= count && toCopy as int <= dst.Length
      modifies dst
      ensures dst[..] == State().Contents()[..toCopy] + old(dst[toCopy..])
    {
      var firstPart := size - tail;
      if toCopy <= firstPart {
        Copy(dst, 0, buffer, tail, toCopy);
      } else {
        Copy(dst, 0, buffer, tail, firstPart);
        var secondPart := toCopy - firstPart;
        Copy(dst, firstPart, buffer, 0, secondPart);
      }
      forall i | 0 <= i < toCopy as int
        ensures dst[i] == State().Contents()[i]
      {
        ContentsAt(State(), i);
      }
    }

    /** Removes up to `len` of the oldest elements into `dst` and says how many. */
    method Drain(dst: array<T>, len: uint32) returns (copied: uint32)
      requires Valid() && dst != buffer
      requires Min(len as int, count as int) <= dst.Length
      modifies this, dst
      ensures Valid()
      ensures State() == old(State()).AfterDrain(len as int)
      ensures copied as int == Min(len as int, old(count) as int)
      ensures dst[..] == old(State()).Drained(len as int) + old(dst[..])[copied..]
    {
      ghost var was := State();
      SkipKeepsValid(was, Min(len as int, was.count));
      if count == 0 {
        return 0;
      }
      var toCopy := if len < count then len else count;
      CopyOut(dst, toCopy);
      tail := Advance(tail, toCopy, size);
      count := count - toCopy;
      return toCopy;
    }

    /** Drains up to `maxLen` elements; true exactly when that was all of them. */
    method DrainAll(dst: array<T>, maxLen: uint32) returns (all: bool)
      requires Valid() && dst != buffer
      requires Min(maxLen as int, count as int) <= dst.Length
      modifies this, dst
      ensures Valid()
      ensures State() == old(State()).AfterDrain(maxLen as int)
      ensures all <==> old(State()).Drained(maxLen as int) == old(State()).Contents()
      ensures dst[..] == old(State()).Drained(maxLen as int) + old(dst[..])[Min(maxLen as int, old(count) as int)..]
    {
      ghost var was := State();
      SkipKeepsValid(was, Min(maxLen as int, was.count));
      if count == 0 {
        return true;
      }
      var toCopy := if maxLen < count then maxLen else count;
      CopyOut(dst, toCopy);
      tail := Advance(tail, toCopy, size);
      count := count - toCopy;
      return count == 0;
    }

    /** Copies what the next drain of that length would remove, and removes nothing. */
    method Peek(dst: array<T>, len: uint32) returns (copied: uint32)
      requires Valid() && dst != buffer
      requires Min(len as int, count as int) <= dst.Length
      modifies dst
      ensures Valid()
      ensures copied as int == Min(len as int, count as int)
      ensures dst[..] == State().Drained(len as int) + old(dst[..])[copied..]
    {
      if count == 0 {
        return 0;
      }
      var toCopy := if len < count then len else count;
      CopyOut(dst, toCopy);
      return toCopy;
    }

    method GetHeadIdx() returns (h: uint32)
      ensures h == head
    {
      return head;
    }

    method GetTailIdx() returns (t: uint32)
      ensures t == tail
    {
      return tail;
    }

    method GetElementCount() returns (c: uint32)
      requires Valid()
      ensures c as int == |State().Contents()|
    {
      return count;
    }

    method IsEmpty() returns (empty: bool)
      requires Valid()
      ensures empty <==> State().Contents() == []
    {
      return count == 0;
    }

    method IsFull() returns (full: bool)
      requires Valid()
      ensures full <==> |State().Contents()| == size as int
    {
      return count == size;
    }

    method ClearCells(default: T)
      requires buffer.Length == size as int
      modifies buffer
      ensures buffer[..] == seq(size as int, i => default)
    {
      var i: uint32 := 0;
      while i < size
        invariant i <= size
        invariant forall k :: 0 <= k < i as int ==> buffer[k] == default
      {
        buffer[i] := default;
        i := i + 1;
      }
    }

    /** Every cell back to the default, nothing present. */
    method Reset(default: T)
      requires Valid()
      modifies this, buffer
      ensures Valid()
      ensures State() == Ring.Cleared(size as int, default)
    {
      ClearCells(default);
      head, tail, count := 0, 0, 0;
      ClearedIsEmpty(size as int, default);
    }
  }
}
