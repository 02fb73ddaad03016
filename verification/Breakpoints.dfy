/** The breakpoint table of the CPU: 512 slots, 0 marking a free one. */
module Breakpoints {
  import opened Bytes

  const MAX_BREAKPOINTS := 512

  type Table = t: seq<u32> | |t| == MAX_BREAKPOINTS witness seq(MAX_BREAKPOINTS, i => 0)

  /** The first slot from `i` on that holds `v`, or the table size. */
  function FirstFrom(t: Table, v: u32, i: nat): (r: nat)
    requires i <= MAX_BREAKPOINTS
    ensures i <= r <= MAX_BREAKPOINTS
    ensures r < MAX_BREAKPOINTS ==> t[r] == v
    ensures forall k :: i <= k < r ==> t[k] != v
    decreases MAX_BREAKPOINTS - i
  {
    if i == MAX_BREAKPOINTS || t[i] == v then i else FirstFrom(t, v, i + 1)
  }

  /** The table after setting a breakpoint: the first free slot is taken, a full table is unchanged. */
  function Set(t: Table, addr: u32): Table {
    var k := FirstFrom(t, 0, 0);
    if k < MAX_BREAKPOINTS then t[k := addr] else t
  }

  /** Slots in use are never changed by setting further breakpoints. */
  ghost predicate Extends(t: Table, t': Table) {
    forall k :: 0 <= k < MAX_BREAKPOINTS && t[k] != 0 ==> t'[k] == t[k]
  }

  lemma SetExtends(t: Table, addr: u32)
    ensures Extends(t, Set(t, addr))
    ensures 0 in t ==> addr in Set(t, addr)
    ensures 0 !in t ==> Set(t, addr) == t
  {
    var k := FirstFrom(t, 0, 0);
    if k < MAX_BREAKPOINTS {
      assert Set(t, addr)[k] == addr;
    }
  }
}
