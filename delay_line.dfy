/** The power-of-two circular delay line: a caller-supplied sample array
    addressed by `(wrIdx + pos) & mask` in `uint32_t` arithmetic, a write
    index that steps back one slot per write, and a one-sample memory used
    by the read that interpolates with the previous read. */
module Delay {
  import opened IntMath
  import opened FloatMath

  /** The slot `(wrIdx + pos) & mask` that offset `pos` addresses; for the
      mask of a line it is always a slot of the line. */
  function Slot(wrIdx: U32, pos: U32, mask: nat): (i: nat)
    ensures i <= mask
  {
    BitAnd(Wrap32(wrIdx + pos), mask)
  }

  /** Offset 0 addresses `wrIdx & mask`, the slot the next write stores to. */
  lemma SlotZero(wrIdx: U32, mask: nat)
    ensures Slot(wrIdx, 0, mask) == BitAnd(wrIdx, mask)
  {
    ModUnique(wrIdx, U32_MODULUS, 0, wrIdx);
  }

  /** With mask = size - 1 and size a power of two, the slot is (wrIdx + pos)
      modulo size, even when `wrIdx + pos` wraps around 2^32. */
  lemma SlotIsMod(wrIdx: U32, pos: U32, size: nat)
    requires IsPow2(size) && size <= U32_MODULUS
    ensures Slot(wrIdx, pos, size - 1) == (wrIdx + pos) % size
  {
    var v := Wrap32(wrIdx + pos);
    MaskIsMod(v, size);
    WrapThenMod(wrIdx + pos, size);
    assert Slot(wrIdx, pos, size - 1) == BitAnd(v, size - 1);
  }

  /** Offsets that agree modulo size address the same slot. */
  lemma SlotCongruent(wrIdx: U32, p: U32, p': U32, size: nat)
    requires IsPow2(size) && size <= U32_MODULUS && p % size == p' % size
    ensures Slot(wrIdx, p, size - 1) == Slot(wrIdx, p', size - 1)
  {
    SlotIsMod(wrIdx, p, size);
    SlotIsMod(wrIdx, p', size);
    ModAddCongruent(wrIdx, p, p', size);
  }

  /** Offsets pos and pos + size (in `uint32_t`) alias. */
  lemma SlotAliases(wrIdx: U32, pos: U32, size: nat)
    requires IsPow2(size) && size < U32_MODULUS
    ensures Slot(wrIdx, Wrap32(pos + size), size - 1) == Slot(wrIdx, pos, size - 1)
  {
    WrapThenMod(pos + size, size);
    ModCongruent(pos + size, pos, size, 1);
    SlotCongruent(wrIdx, Wrap32(pos + size), pos, size);
  }

  /** Stepping the index back by one in `uint32_t` and then forward by k is,
      modulo size, a step forward by k - 1. */
  lemma StepBackMod(wrIdx: U32, k: int, size: nat)
    requires IsPow2(size) && size <= U32_MODULUS
    ensures (Wrap32(wrIdx - 1) + k) % size == (wrIdx + (k - 1)) % size
  {
    var w' := Wrap32(wrIdx - 1);
    WrapThenMod(wrIdx - 1, size);
    ModAddCongruent(k, w', wrIdx - 1, size);
    assert k + w' == w' + k && k + (wrIdx - 1) == wrIdx + (k - 1);
  }

  /** How many writes ago the sample at offset pos was written: offsets are
      taken modulo size, and offset 0 is the oldest sample, size writes ago. */
  function Age(pos: int, size: nat): (a: nat)
    requires size >= 1
    ensures 1 <= a <= size && a % size == pos % size
    ensures 1 <= pos <= size ==> a == pos
  {
    RemainderFacts(pos, size);
    if pos % size == 0 then size else pos % size
  }

  lemma RemainderFacts(pos: int, size: nat)
    requires size >= 1
    ensures size % size == 0 && (pos % size) % size == pos % size
    ensures 1 <= pos < size ==> pos % size == pos
  {
    ModUnique(size, size, 1, 0);
    ModUnique(pos % size, size, 0, pos % size);
    if 1 <= pos < size {
      ModUnique(pos, size, 0, pos);
    }
  }

  /** The sample written k writes ago, `written` listing the samples oldest
      first; 0 when fewer than k samples were written. */
  function PastOf(written: seq<real>, k: nat): real {
    if 1 <= k <= |written| then written[|written| - k] else 0.0
  }

  /** buf holds the last size samples of `written`: offset k from wrIdx holds
      the sample written k writes ago. */
  ghost predicate HoldsHistory(buf: seq<real>, wrIdx: U32, size: nat, written: seq<real>) {
    1 <= size <= |buf| && size < U32_MODULUS &&
    forall k: nat :: 1 <= k <= size ==> buf[(wrIdx + k) % size] == PastOf(written, k)
  }

  /** Storing s at slot wrIdx modulo size (`wrIdx & mask`) and stepping
      the index back by one keeps the history, now with s as the most recent
      sample: offset 1 addresses the slot just written, and offset k >= 2 the
      slot offset k - 1 addressed before, which the write did not touch. */
  lemma WriteKeepsHistory(buf: seq<real>, wrIdx: U32, size: nat, written: seq<real>, s: real)
    requires IsPow2(size) && size < U32_MODULUS && HoldsHistory(buf, wrIdx, size, written)
    ensures HoldsHistory(buf[wrIdx % size := s], Wrap32(wrIdx - 1), size, written + [s])
  {
    var i := wrIdx % size;
    var buf' := buf[i := s];
    forall k: nat | 1 <= k <= size
      ensures buf'[(Wrap32(wrIdx - 1) + k) % size] == PastOf(written + [s], k)
    {
      StepBackMod(wrIdx, k, size);
      PastOfAppend(written, s, k);
      if k == 1 {
        assert (wrIdx + 0) % size == i;
      } else {
        ModShiftDistinct(wrIdx, k - 1, size);
        assert buf[(wrIdx + (k - 1)) % size] == PastOf(written, k - 1);
      }
    }
  }

  /** After one more write, the sample k writes ago is the one that was
      k - 1 writes ago, and s is the one 1 write ago. */
  lemma PastOfAppend(written: seq<real>, s: real, k: nat)
    requires k >= 1
    ensures PastOf(written + [s], k) == if k == 1 then s else PastOf(written, k - 1)
  {
  }

  /** A cleared line holds the empty history. */
  lemma ZeroesHoldEmptyHistory(buf: seq<real>, wrIdx: U32, size: nat)
    requires 1 <= size <= |buf| && size < U32_MODULUS && forall i :: 0 <= i < size ==> buf[i] == 0.0
    ensures HoldsHistory(buf, wrIdx, size, [])
  {
  }

  /** The line length the oscillator asks for. */
  const HOST_LINE_SIZE: nat := 2048

  /** The host's length is a power of two, so `delay_line_init` keeps it. */
  lemma HostLineSizeKept()
    ensures IsPow2(HOST_LINE_SIZE) && NextPow2(HOST_LINE_SIZE) == HOST_LINE_SIZE
  {
    // doubling from 2 up to 2048, one unfolding of IsPow2 per step
    assert IsPow2(2) && IsPow2(4) && IsPow2(8) && IsPow2(16) && IsPow2(32) && IsPow2(64);
    assert IsPow2(128) && IsPow2(256) && IsPow2(512) && IsPow2(1024) && IsPow2(2048);
    NextPow2OfPow2(HOST_LINE_SIZE);
  }

  /** `delay_line`: the backing array `line`, its used length `size` (a power
      of two), `mask == size - 1`, the write index and the memory `fracz`. */
  class DelayLine {
    var line: array<real>
    var fracz: real
    var size: nat
    var mask: nat
    var wrIdx: U32
    /** Every sample written since the line was last cleared, oldest first. */
    ghost var written: seq<real>

    /** The sample written k writes ago, or 0 if fewer than k writes happened. */
    ghost function Past(k: nat): real
      reads this
    {
      PastOf(written, k)
    }

    /** The size, mask and array agree with each other. */
    ghost predicate Shaped()
      reads this
    {
      IsPow2(size) && size < U32_MODULUS && mask == size - 1 && size <= line.Length
    }

    /** The line holds the last size samples: offset k from the write index
        holds the sample written k writes ago. */
    ghost predicate Valid()
      reads this, line
    {
      Shaped() && HoldsHistory(line[..], wrIdx, size, written)
    }

    /** `delay_line_init`: bind the line to `ram`, round `lineSize` up to a
        power of two, reset the indices and the memory, and clear the samples. */
    constructor (ram: array<real>, lineSize: nat)
      requires 1 <= lineSize <= U32_MODULUS / 2
      requires NextPow2(lineSize) <= ram.Length
      modifies ram
      ensures Valid() && line == ram && written == []
      ensures size == NextPow2(lineSize) && IsPow2(size) && lineSize <= size < 2 * lineSize
      ensures IsPow2(lineSize) ==> size == lineSize
      ensures mask == size - 1 && wrIdx == 0 && fracz == 0.0
      ensures forall i :: 0 <= i < size ==> ram[i] == 0.0
      ensures forall i :: size <= i < ram.Length ==> ram[i] == old(ram[i])
    {
      line := ram;
      fracz := 0.0;
      size := NextPow2(lineSize);
      mask := NextPow2(lineSize) - 1;
      wrIdx := 0;
      written := [];
      new;
      if IsPow2(lineSize) {
        NextPow2OfPow2(lineSize);
      }
      Clear();
    }

    /** `delay_line_clear`: zero the first size samples; the write index is kept. */
    method Clear()
      requires Shaped()
      modifies line, this`written
      ensures Valid() && written == []
      ensures forall i :: 0 <= i < size ==> line[i] == 0.0
      ensures forall i :: size <= i < line.Length ==> line[i] == old(line[i])
    {
      var i := 0;
      while i < size
        invariant 0 <= i <= size
        invariant forall j :: 0 <= j < i ==> line[j] == 0.0
        invariant forall j :: size <= j < line.Length ==> line[j] == old(line[j])
      {
        line[i] := 0.0;
        i := i + 1;
      }
      written := [];
      ZeroesHoldEmptyHistory(line[..], wrIdx, size);
    }

    /** `delay_line_write`: store s at the slot of the current write index,
        then step the index back by one (in `uint32_t`). */
    method Write(s: real)
      requires Valid()
      modifies this`wrIdx, this`written, line
      ensures Valid() && written == old(written) + [s]
      ensures line[..] == old(line[..])[old(wrIdx) % size := s]
      ensures wrIdx == Wrap32(old(wrIdx) - 1)
      ensures line == old(line) && size == old(size) && mask == old(mask) && fracz == old(fracz)
      ensures Read(1) == s
      ensures forall k: U32 :: 2 <= k <= size ==> Read(k) == old(Read(k - 1))
    {
      ghost var buf, w: int, h := line[..], wrIdx, written;
      var i := BitAnd(wrIdx, mask);
      SlotZero(wrIdx, mask);
      SlotIsMod(wrIdx, 0, size);
      WriteKeepsHistory(buf, wrIdx, size, h, s);
      assert i == wrIdx % size;
      line[i] := s;
      wrIdx := Wrap32(wrIdx - 1);
      written := written + [s];
      assert line[..] == buf[i := s];
      assert HoldsHistory(line[..], wrIdx, size, written);
      ShiftedByWrite(s);
    }

    /** Between two valid states one write apart, the sample just written is
        read at offset 1 and every other offset reads what the offset before
        it read. */
    twostate lemma ShiftedByWrite(s: real)
      requires old(Valid()) && Valid()
      requires size == old(size) && written == old(written) + [s]
      ensures Read(1) == s
      ensures forall k: U32 :: 2 <= k <= size ==> Read(k) == old(Read(k - 1))
    {
      ReadIsPast(1);
      forall k: U32 | 2 <= k <= size
        ensures Read(k) == old(Read(k - 1))
      {
        ReadIsPast(k);
        PastOfAppend(old(written), s, k);
        assert Age(k - 1, size) == k - 1;
      }
    }

    /** Offsets 1 .. size read the samples written 1 .. size writes ago. */
    lemma ReadIsPast(k: U32)
      requires Valid() && 1 <= k <= size
      ensures Read(k) == Past(k)
    {
      assert Age(k, size) == k;
    }

    /** `delay_line_read`: the sample at offset pos from the write index,
        which is the one written Age(pos) writes ago (0 if none was). */
    function Read(pos: U32): (r: real)
      reads this, line
      requires Valid()
      ensures r == Past(Age(pos, size))
    {
      SlotCongruent(wrIdx, pos, Age(pos, size), size);
      SlotIsMod(wrIdx, Age(pos, size), size);
      assert line[..][(wrIdx + Age(pos, size)) % size] == Past(Age(pos, size));
      line[Slot(wrIdx, pos, mask)]
    }

    /** Offsets pos and pos + size read the same sample, even across the
        `uint32_t` wrap-around. */
    lemma ReadAliases(pos: U32)
      requires Valid()
      ensures Read(pos) == Read(Wrap32(pos + size))
    {
      SlotAliases(wrIdx, pos, size);
    }

    /** Offset 0, the slot the next write overwrites, holds the oldest sample. */
    lemma ReadZeroIsOldest()
      requires Valid()
      ensures Read(0) == Read(size) == Past(size)
    {
      ModUnique(0, size, 0, 0);
    }

    /** `delay_line_read_frac`: interpolate between the samples at offsets
        base = (uint32_t)pos and base + 1 by frac = pos - base. For pos in
        (-1, 0) the cast truncates to 0 and frac is negative, so the result
        extrapolates beyond offset 0. */
    function ReadFrac(pos: real): (r: real)
      reads this, line
      requires Valid() && -1.0 < pos < U32_MODULUS as real
      ensures var base := TruncToU32(pos);
        r == Linint(pos - base as real, Past(Age(base, size)), Past(Age(base + 1, size)))
      ensures var base := TruncToU32(pos);
        0.0 <= pos ==> Min(Past(Age(base, size)), Past(Age(base + 1, size))) <= r <= Max(Past(Age(base, size)), Past(Age(base + 1, size)))
      ensures var base := TruncToU32(pos); pos == base as real ==> r == Read(base)
      ensures pos < 0.0 ==> r == Linint(pos, Read(0), Read(1))
    {
      var base := TruncToU32(pos);
      var frac := pos - base as real;
      WrapThenMod(base + 1, size);
      Linint(frac, Read(base), Read(Wrap32(base + 1)))
    }

    /** `delay_line_read_fracz`: interpolate between the sample at offset pos
        and the sample the previous call read, and remember this one. */
    method ReadFracz(pos: U32, frac: real) returns (y: real)
      requires Valid()
      modifies this`fracz
      ensures Valid()
      ensures y == Linint(frac, Read(pos), old(fracz))
      ensures fracz == Read(pos) == Past(Age(pos, size))
    {
      var s0 := Read(pos);
      y := Linint(frac, s0, fracz);
      fracz := s0;
    }
  }
}
