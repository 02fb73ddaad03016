/** The 65C816 register file: the status bits and the register widths are stored apart. */
module CpuRegisters {
  import opened Bytes

  datatype Width = Eight | Sixteen

  /** A register with its own length; the value is always kept in 16 bits. */
  datatype Reg = Reg(len: Width, value: u16) {
    function Low(): u8 { Bytes.Low(value) }

    function High(): u8 { Bytes.High(value) }

    /** The register as an index, or as a datum: its low byte when it is 8 bits long. */
    function Visible(): u16 { if len == Eight then Low() else value }

    function ClearHigh(): Reg { this.(value := Low()) }
  }

  /** The status byte, bit by bit: N V M X D I Z C from bit 7 down. In emulation mode X reads as B. */
  datatype Flags = Flags(n: bool, v: bool, m: bool, x: bool, d: bool, i: bool, z: bool, c: bool) {
    function ToByte(): u8 {
      0x10 * Nibble(n, v, m, x) + Nibble(d, i, z, c)
    }

    function Or(f: Flags): Flags {
      Flags(n || f.n, v || f.v, m || f.m, x || f.x, d || f.d, i || f.i, z || f.z, c || f.c)
    }

    function AndNot(f: Flags): Flags {
      Flags(n && !f.n, v && !f.v, m && !f.m, x && !f.x, d && !f.d, i && !f.i, z && !f.z, c && !f.c)
    }
  }

  /** Four bits as a number, and back. */
  function Nibble(b3: bool, b2: bool, b1: bool, b0: bool): (r: nat)
    ensures r < 0x10
  {
    (if b3 then 8 else 0) + (if b2 then 4 else 0) + (if b1 then 2 else 0) + (if b0 then 1 else 0)
  }

  function FromByte(b: u8): Flags {
    var h, l := b / 0x10, b % 0x10;
    Flags(h >= 8, h % 8 >= 4, h % 4 >= 2, h % 2 == 1, l >= 8, l % 8 >= 4, l % 4 >= 2, l % 2 == 1)
  }

  lemma NibbleBits(n: nat)
    requires n < 0x10
    ensures Nibble(n >= 8, n % 8 >= 4, n % 4 >= 2, n % 2 == 1) == n
  {
  }

  lemma BitsOfNibble(b3: bool, b2: bool, b1: bool, b0: bool)
    ensures var n := Nibble(b3, b2, b1, b0);
            (n >= 8) == b3 && (n % 8 >= 4) == b2 && (n % 4 >= 2) == b1 && (n % 2 == 1) == b0
  {
  }

  lemma FlagsRoundTrip(f: Flags)
    ensures FromByte(f.ToByte()) == f
  {
    var h, l := Nibble(f.n, f.v, f.m, f.x), Nibble(f.d, f.i, f.z, f.c);
    BitsOfNibble(f.n, f.v, f.m, f.x);
    BitsOfNibble(f.d, f.i, f.z, f.c);
    hide Nibble;
    assert f.ToByte() / 0x10 == h && f.ToByte() % 0x10 == l;
  }

  lemma ByteRoundTrip(b: u8)
    ensures FromByte(b).ToByte() == b
  {
    NibbleBits(b / 0x10);
    NibbleBits(b % 0x10);
    hide Nibble;
  }

  const NONE := Flags(false, false, false, false, false, false, false, false)
  const FLAG_C := NONE.(c := true)
  const FLAG_Z := NONE.(z := true)
  const FLAG_I := NONE.(i := true)
  const FLAG_D := NONE.(d := true)
  const FLAG_V := NONE.(v := true)
  const FLAG_N := NONE.(n := true)
  const FLAGS_CXM := NONE.(c := true, x := true, m := true)

  datatype Regs = Regs(acc: Reg, dbr: u8, x: Reg, y: Reg, dp: u16, sp: Reg, pbr: u8, pc: u16,
                       p: Flags, emulation: bool)
  {
    function SwitchRegLen(len: Width): Regs {
      if len == Eight then this.(x := x.(len := Eight).ClearHigh(), y := y.(len := Eight).ClearHigh())
      else this.(x := x.(len := Sixteen), y := y.(len := Sixteen))
    }

    function SwitchMemLen(len: Width): Regs { this.(acc := acc.(len := len)) }

    /** PLP and RTI: set bits shorten the registers, clear bits do not lengthen them. */
    function ForceFlags(f: Flags): Regs {
      var r := this.(p := f);
      var r := if f.x then r.SwitchRegLen(Eight) else r;
      if f.m then r.SwitchMemLen(Eight) else r
    }

    function SetFlags(f: Flags): Regs {
      var r := this.(p := p.Or(f));
      var r := if f.x then r.SwitchRegLen(Eight) else r;
      if f.m then r.SwitchMemLen(Eight) else r
    }

    function ResetFlags(f: Flags): Regs {
      var r := this.(p := p.AndNot(f));
      var r := if f.x then r.SwitchRegLen(Sixteen) else r;
      if f.m then r.SwitchMemLen(Sixteen) else r
    }

    /** The status with one flag set or reset; these three have no effect on widths. */
    function PutC(on: bool): Regs { this.(p := p.(c := on)) }

    function PutV(on: bool): Regs { this.(p := p.(v := on)) }

    function PutZ(on: bool): Regs { this.(p := p.(z := on)) }

    function Update8(v: u8): Regs { this.(p := p.(z := v == 0, n := Signed8(v) < 0)) }

    function Update16(v: u16): Regs { this.(p := p.(z := v == 0, n := Signed16(v) < 0)) }

    function SetAcc(v: u16): Regs {
      if acc.len == Eight then this.(acc := acc.(value := Word(Low(v), acc.High()))).Update8(Low(v))
      else this.(acc := acc.(value := v)).Update16(v)
    }

    function SetAcc16(v: u16): Regs { this.(acc := acc.(value := v)).Update16(v) }

    function SetX(v: u16): Regs {
      var r := this.(x := x.(value := v));
      if x.len == Eight then r.Update8(Low(v)) else r.Update16(v)
    }

    function SetY(v: u16): Regs {
      var r := this.(y := y.(value := v));
      if y.len == Eight then r.Update8(Low(v)) else r.Update16(v)
    }

    function SetDp(v: u16): Regs { this.(dp := v).Update16(v) }

    function SetSp(v: u16): Regs {
      if sp.len == Eight then this.(sp := sp.(value := Word(Low(v), sp.High()))) else this.(sp := sp.(value := v))
    }

    function SetDbr(v: u8): Regs { this.(dbr := v).Update8(v) }

    function IncPc(): Regs { this.(pc := Trunc16(pc + 1)) }

    function EmulationSet(): Regs {
      this.(emulation := true, p := p.(c := false), sp := sp.(value := Word(sp.Low(), 0x01)))
      .SwitchRegLen(Eight).SwitchMemLen(Eight)
    }

    function EmulationReset(): Regs { this.(emulation := false).SetFlags(FLAGS_CXM) }

    /** The data and program banks as the high byte of an address. */
    function DataBank(): u32 { dbr * 0x1_0000 }

    function ProgramBank(): u32 { pbr * 0x1_0000 }
  }

  const ZEROED := Regs(Reg(Eight, 0), 0, Reg(Eight, 0), Reg(Eight, 0), 0, Reg(Sixteen, 0), 0, 0, NONE, false)

  /** The registers at power-up, PC aside. */
  const INITIAL := ZEROED.EmulationSet().ResetFlags(FromByte(0x0F))

  /** The register file in place. */
  class Registers {
    var accumulator: Reg
    var dataBank: u8
    var x: Reg
    var y: Reg
    var directPage: u16
    var stackPointer: Reg
    var programBank: u8
    var pc: u16
    var status: Flags
    var emulation: bool

    function Value(): Regs
      reads this
    {
      Regs(accumulator, dataBank, x, y, directPage, stackPointer, programBank, pc, status, emulation)
    }

    constructor ()
      ensures Value() == INITIAL
    {
      accumulator, x, y := Reg(Eight, 0), Reg(Eight, 0), Reg(Eight, 0);
      dataBank, programBank, directPage, pc := 0, 0, 0, 0;
      status, emulation := NONE, false;
      stackPointer := Reg(Sixteen, 0);
      new;
      SetEmulation();
      ResetStatus(FromByte(0x0F));
    }

    method SwitchRegLen(len: Width)
      modifies this
      ensures Value() == old(Value()).SwitchRegLen(len)
    {
      x := x.(len := len);
      y := y.(len := len);
      if len == Eight {
        x := x.ClearHigh();
        y := y.ClearHigh();
      }
    }

    method SwitchMemLen(len: Width)
      modifies this
      ensures Value() == old(Value()).SwitchMemLen(len)
    {
      accumulator := accumulator.(len := len);
    }

    method ForceStatus(flags: Flags)
      modifies this
      ensures Value() == old(Value()).ForceFlags(flags)
    {
      status := flags;
      if flags.x {
        SwitchRegLen(Eight);
      }
      if flags.m {
        SwitchMemLen(Eight);
      }
    }

    method SetStatus(flags: Flags)
      modifies this
      ensures Value() == old(Value()).SetFlags(flags)
    {
      status := status.Or(flags);
      if flags.x {
        SwitchRegLen(Eight);
      }
      if flags.m {
        SwitchMemLen(Eight);
      }
    }

    method ResetStatus(flags: Flags)
      modifies this
      ensures Value() == old(Value()).ResetFlags(flags)
    {
      status := status.AndNot(flags);
      if flags.x {
        SwitchRegLen(Sixteen);
      }
      if flags.m {
        SwitchMemLen(Sixteen);
      }
    }

    method Update8(v: u8)
      modifies this
      ensures Value() == old(Value()).Update8(v)
    {
      if v == 0 {
        SetStatus(FLAG_Z);
      } else {
        ResetStatus(FLAG_Z);
      }
      if Signed8(v) < 0 {
        SetStatus(FLAG_N);
      } else {
        ResetStatus(FLAG_N);
      }
    }

    method Update16(v: u16)
      modifies this
      ensures Value() == old(Value()).Update16(v)
    {
      if v == 0 {
        SetStatus(FLAG_Z);
      } else {
        ResetStatus(FLAG_Z);
      }
      if Signed16(v) < 0 {
        SetStatus(FLAG_N);
      } else {
        ResetStatus(FLAG_N);
      }
    }

    /** Set or reset the carry, the overflow or the zero flag. */
    method PutCarry(on: bool)
      modifies this
      ensures Value() == old(Value()).PutC(on)
    {
      if on {
        SetStatus(FLAG_C);
      } else {
        ResetStatus(FLAG_C);
      }
    }

    method PutOverflow(on: bool)
      modifies this
      ensures Value() == old(Value()).PutV(on)
    {
      if on {
        SetStatus(FLAG_V);
      } else {
        ResetStatus(FLAG_V);
      }
    }

    method PutZero(on: bool)
      modifies this
      ensures Value() == old(Value()).PutZ(on)
    {
      if on {
        SetStatus(FLAG_Z);
      } else {
        ResetStatus(FLAG_Z);
      }
    }

    method SetAccumulator(v: u16)
      modifies this
      ensures Value() == old(Value()).SetAcc(v)
    {
      if accumulator.len == Eight {
        accumulator := accumulator.(value := Word(Low(v), accumulator.High()));
        Update8(Low(v));
      } else {
        accumulator := accumulator.(value := v);
        Update16(v);
      }
    }

    method SetAccumulator16(v: u16)
      modifies this
      ensures Value() == old(Value()).SetAcc16(v)
    {
      accumulator := accumulator.(value := v);
      Update16(v);
    }

    method SetX(v: u16)
      modifies this
      ensures Value() == old(Value()).SetX(v)
    {
      x := x.(value := v);
      if x.len == Eight {
        Update8(x.Low());
      } else {
        Update16(x.value);
      }
    }

    method SetY(v: u16)
      modifies this
      ensures Value() == old(Value()).SetY(v)
    {
      y := y.(value := v);
      if y.len == Eight {
        Update8(y.Low());
      } else {
        Update16(y.value);
      }
    }

    method SetDirectPage(v: u16)
      modifies this
      ensures Value() == old(Value()).SetDp(v)
    {
      directPage := v;
      Update16(v);
    }

    method SetStackPointer(v: u16)
      modifies this
      ensures Value() == old(Value()).SetSp(v)
    {
      if stackPointer.len == Eight {
        stackPointer := stackPointer.(value := Word(Low(v), stackPointer.High()));
      } else {
        stackPointer := stackPointer.(value := v);
      }
    }

    method SetProgramCounter(v: u16)
      modifies this
      ensures Value() == old(Value()).(pc := v)
    {
      pc := v;
    }

    method IncProgramCounter()
      modifies this
      ensures Value() == old(Value()).IncPc()
    {
      pc := Trunc16(pc + 1);
    }

    method SetProgramBank(v: u8)
      modifies this
      ensures Value() == old(Value()).(pbr := v)
    {
      programBank := v;
    }

    method SetDataBank(v: u8)
      modifies this
      ensures Value() == old(Value()).SetDbr(v)
    {
      dataBank := v;
      Update8(v);
    }

    method SetEmulation()
      modifies this
      ensures Value() == old(Value()).EmulationSet()
    {
      emulation := true;
      ResetStatus(FLAG_C);
      stackPointer := stackPointer.(value := Word(stackPointer.Low(), 0x01));
      SwitchRegLen(Eight);
      SwitchMemLen(Eight);
    }

    method ResetEmulation()
      modifies this
      ensures Value() == old(Value()).EmulationReset()
    {
      emulation := false;
      SetStatus(FLAGS_CXM);
    }
  }
}
