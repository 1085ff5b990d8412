// The growth arithmetic that the task queue and the AIO request list share.

module Growth {
  import opened Common

  const REQ_LIST_BUFSIZE: nat := 1024
  const POINTER_SIZE: nat := 8

  /** Slots that can be filled before the byte size passed to realloc wraps. */
  const MAX_SLOTS: nat := 0x1FFF_FC00

  /** The byte size computed before realloc: a 32-bit sum, a 64-bit product, truncated to 32 bits. */
  function GrownBytes(count: u32): u32 {
    (count + REQ_LIST_BUFSIZE) % U32_SIZE / REQ_LIST_BUFSIZE * REQ_LIST_BUFSIZE * POINTER_SIZE % U32_SIZE
  }

  function GrownSlots(count: u32): nat {
    GrownBytes(count) / POINTER_SIZE
  }

  /** A block of whole pages of slots, reallocated at every multiple of the page, always has the next slot. */
  ghost predicate Covers(capacity: nat, count: nat) {
    && count <= capacity
    && (count % REQ_LIST_BUFSIZE != 0 ==> (count / REQ_LIST_BUFSIZE + 1) * REQ_LIST_BUFSIZE <= capacity)
  }

  /** The grown block has room for the next slot exactly as long as fewer than MAX_SLOTS are in use; at MAX_SLOTS the
      byte size wraps to zero. */
  lemma GrowthBound(count: u32)
    requires count % REQ_LIST_BUFSIZE == 0
    ensures count < GrownSlots(count) <==> count < MAX_SLOTS
    ensures count < MAX_SLOTS ==> GrownSlots(count) == count + REQ_LIST_BUFSIZE
    ensures GrownBytes(MAX_SLOTS) == 0
  {
  }

  /** The slots of a block after a number of submissions that each grow it when the count is a multiple of the page. */
  function SlotsAfter(count: nat, initial: nat): nat
    requires count < U32_SIZE
  {
    if count == 0 then initial
    else if (count - 1) % REQ_LIST_BUFSIZE == 0 then GrownSlots(count - 1)
    else SlotsAfter(count - 1, initial)
  }

  /** Every slot written by any sequence of up to MAX_SLOTS submissions lies inside the block it is written to, and the
      next one does not. */
  lemma {:induction false} EverySlotIsCovered(count: nat, initial: nat)
    requires count <= MAX_SLOTS
    ensures Covers(SlotsAfter(count, initial), count)
    ensures 0 < count ==> count - 1 < SlotsAfter(count, initial)
    ensures count == MAX_SLOTS ==> SlotsAfter(count + 1, initial) == 0
  {
    if count > 0 {
      EverySlotIsCovered(count - 1, initial);
      var before := count - 1;
      if before % REQ_LIST_BUFSIZE == 0 {
        GrowthBound(before);
        assert SlotsAfter(count, initial) == before + REQ_LIST_BUFSIZE;
        assert count / REQ_LIST_BUFSIZE == before / REQ_LIST_BUFSIZE;
      } else {
        assert (before / REQ_LIST_BUFSIZE + 1) * REQ_LIST_BUFSIZE <= SlotsAfter(before, initial);
      }
    }
    if count == MAX_SLOTS {
      GrowthBound(count);
    }
  }

  /** A successful realloc: a new block with the old content as its beginning. */
  method Reallocated<T(0)>(a: array<T>, used: nat, capacity: nat) returns (b: array<T>)
    requires used <= a.Length && used <= capacity
    ensures fresh(b) && b.Length == capacity && b[..used] == a[..used]
  {
    b := new T[capacity];
    for k := 0 to used
      invariant b[..k] == a[..k]
    {
      b[k] := a[k];
    }
  }

  /** A slot that is covered leaves the next count covered. */
  lemma NextCovered(capacity: nat, count: nat)
    requires count % REQ_LIST_BUFSIZE == 0 ==> count + REQ_LIST_BUFSIZE <= capacity
    requires Covers(capacity, count)
    ensures count < capacity && Covers(capacity, count + 1)
  {
  }
}
