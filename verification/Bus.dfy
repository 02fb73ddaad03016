/** The memories behind the bus, as one value, and what a history of writes leaves in them. */
module BusMemory {
  import opened Bytes
  import opened AddrDecoder

  /** `input` is the port array the CPU writes, `output` the one it reads. */
  datatype Memory = Memory(rom: seq<u8>, sram: seq<u8>, wram: seq<u8>, input: seq<u8>, output: seq<u8>)

  /** What the bounds assertions (for the ROM, the mapping) allow; the unmapped ranges are served without one. */
  predicate InRange(m: Memory, addr: u32) {
    match CellOf(addr)
    case RomCell(i) => i < |m.rom|
    case SramCell(i) => i < |m.sram|
    case WramCell(i) => i < |m.wram|
    case PortCell(i) => i < |m.input| && i < |m.output|
    case Unmapped => true
  }

  /** The byte a cell shows to the CPU; 0 outside the memories. */
  function Peek(m: Memory, c: Cell): u8 {
    match c
    case RomCell(i) => if i < |m.rom| then m.rom[i] else 0
    case SramCell(i) => if i < |m.sram| then m.sram[i] else 0
    case WramCell(i) => if i < |m.wram| then m.wram[i] else 0
    case PortCell(i) => if i < |m.output| then m.output[i] else 0
    case Unmapped => 0
  }

  function Poke(m: Memory, c: Cell, v: u8): Memory {
    match c
    case RomCell(_) => m
    case SramCell(i) => if i < |m.sram| then m.(sram := m.sram[i := v]) else m
    case WramCell(i) => if i < |m.wram| then m.(wram := m.wram[i := v]) else m
    case PortCell(i) => if i < |m.input| then m.(input := m.input[i := v]) else m
    case Unmapped => m
  }

  function Read(m: Memory, addr: u32): u8 { Peek(m, CellOf(addr)) }

  function Write(m: Memory, addr: u32, v: u8): Memory { Poke(m, CellOf(addr), v) }

  /** Little-endian 16-bit access at two successive addresses. */
  function ReadWord(m: Memory, addr: u32): u16 { Word(Read(m, addr), Read(m, Trunc32(addr + 1))) }

  // ---- histories of writes

  datatype Access = Access(addr: u32, value: u8)

  function WriteAll(m: Memory, h: seq<Access>): Memory {
    if h == [] then m
    else Write(WriteAll(m, h[..|h| - 1]), h[|h| - 1].addr, h[|h| - 1].value)
  }

  /** The last value written to any address of the alias class `c`. */
  function LastTo(h: seq<Access>, c: Cell): Option<u8> {
    if h == [] then None
    else if CellOf(h[|h| - 1].addr) == c then Some(h[|h| - 1].value)
    else LastTo(h[..|h| - 1], c)
  }

  predicate SameShape(m: Memory, m': Memory) {
    && |m'.rom| == |m.rom| && |m'.sram| == |m.sram| && |m'.wram| == |m.wram|
    && |m'.input| == |m.input| && |m'.output| == |m.output|
  }

  lemma {:induction false} WriteAllShape(m: Memory, h: seq<Access>)
    ensures SameShape(m, WriteAll(m, h)) && WriteAll(m, h).rom == m.rom && WriteAll(m, h).output == m.output
  {
    if h != [] {
      WriteAllShape(m, h[..|h| - 1]);
    }
  }

  /**
   The bus is a memory over alias classes: after any history of in-range writes a read returns the
   last value written to any address reaching the same RAM cell, else what was there before.
   */
  lemma {:induction false} ReadAfterWrites(m: Memory, h: seq<Access>, addr: u32)
    requires InRange(m, addr) && forall i :: 0 <= i < |h| ==> InRange(m, h[i].addr)
    ensures var c := CellOf(addr); var last := LastTo(h, c);
            Read(WriteAll(m, h), addr) ==
            if (c.SramCell? || c.WramCell?) && last.Some? then last.value else Read(m, addr)
    decreases |h|
  {
    if h != [] {
      var prefix, a := h[..|h| - 1], h[|h| - 1];
      assert forall i :: 0 <= i < |prefix| ==> prefix[i] == h[i];
      ReadAfterWrites(m, prefix, addr);
      WriteAllShape(m, prefix);
    }
  }

  /** The APU's side of the ports: it reads the last value the CPU wrote to that port. */
  lemma {:induction false} PortAfterWrites(m: Memory, h: seq<Access>, i: nat)
    requires i < |m.input| && forall k :: 0 <= k < |h| ==> InRange(m, h[k].addr)
    ensures |WriteAll(m, h).input| == |m.input|
    ensures var last := LastTo(h, PortCell(i));
            WriteAll(m, h).input[i] == if last.Some? then last.value else m.input[i]
    decreases |h|
  {
    WriteAllShape(m, h);
    if h != [] {
      var prefix := h[..|h| - 1];
      assert forall k :: 0 <= k < |prefix| ==> prefix[k] == h[k];
      PortAfterWrites(m, prefix, i);
      WriteAllShape(m, prefix);
    }
  }

  /** Writing changes no size, so what is in range stays in range. */
  lemma WriteKeepsRange(m: Memory, addr: u32, v: u8, other: u32)
    ensures InRange(Write(m, addr, v), other) == InRange(m, other)
  {
    hide CellOf;
  }

  /** Reads and writes do not tell two addresses of one alias class apart. */
  lemma AliasesAgree(m: Memory, a: u32, b: u32, v: u8)
    requires CellOf(a) == CellOf(b)
    ensures Read(m, a) == Read(m, b) && Write(m, a, v) == Write(m, b, v)
  {
  }
}

/** The bus object: dispatch on the decoded type, updating the memories in place. */
module BusModel {
  import opened Bytes
  import opened AddrDecoder
  import opened BusMemory
  import opened RamModel
  import opened ApuPorts

  class Bus {
    const rom: seq<u8>
    const sram: Ram
    const wram: Ram
    const port: ApuPort

    ghost predicate Valid() {
      && port.Valid()
      && sram.data != wram.data
      && sram.data != port.inputPort.data && sram.data != port.outputPort.data
      && wram.data != port.inputPort.data && wram.data != port.outputPort.data
    }

    /** The arrays a CPU write may change. */
    ghost function Cells(): set<object> { {sram.data, wram.data, port.inputPort.data} }

    ghost function Contents(): Memory
      requires Valid()
      reads Cells(), port.outputPort.data
    {
      Memory(rom, sram.Contents(), wram.Contents(), port.Input(), port.Output())
    }

    constructor (rom: seq<u8>, sram: Ram, wram: Ram, port: ApuPort)
      requires port.Valid() && sram.data != wram.data
      requires sram.data != port.inputPort.data && sram.data != port.outputPort.data
      requires wram.data != port.inputPort.data && wram.data != port.outputPort.data
      ensures Valid() && this.rom == rom && this.sram == sram && this.wram == wram && this.port == port
    {
      this.rom, this.sram, this.wram, this.port := rom, sram, wram, port;
    }

    method Read(addr: u32) returns (v: u8)
      requires Valid() && InRange(Contents(), addr)
      ensures v == BusMemory.Read(Contents(), addr)
    {
      var address := Decode(addr);
      v := 0;
      match address.memType {
        case ROM => v := rom[address.decAddr];
        case SRAM => v := sram.Read(address.decAddr);
        case WRAM => v := wram.Read(address.decAddr);
        case PPU1_APU => v := port.Read(address.decAddr);
        case _ =>
      }
    }

    method Write(addr: u32, v: u8)
      requires Valid() && InRange(Contents(), addr)
      modifies Cells()
      ensures Contents() == BusMemory.Write(old(Contents()), addr, v)
    {
      var address := Decode(addr);
      match address.memType {
        case SRAM => sram.Write(address.decAddr, v);
        case WRAM => wram.Write(address.decAddr, v);
        case PPU1_APU => port.Write(address.decAddr, v);
        case _ =>
      }
    }
  }
}
