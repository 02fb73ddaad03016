/** Byte memories: signed cells, unsigned reads, and an assertion on every index. */
module RamModel {
  import opened Bytes

  class Ram {
    const data: array<i8>

    /** The bytes a reader sees. */
    ghost function Contents(): (s: seq<u8>)
      reads data
      ensures |s| == data.Length
    {
      seq(data.Length, i requires 0 <= i < data.Length reads data => FromCell(data[i]))
    }

    /** Allocation leaves the contents unspecified. */
    constructor (size: u32)
      ensures fresh(data) && data.Length == size
    {
      data := new i8[size];
    }

    method Read(addr: u32) returns (v: u8)
      requires addr < data.Length
      ensures v == Contents()[addr]
    {
      v := FromCell(data[addr]);
    }

    method Write(addr: u32, v: u8)
      requires addr < data.Length
      modifies data
      ensures Contents() == old(Contents())[addr := v]
    {
      CellRoundTrip(v);
      data[addr] := ToCell(v);
    }
  }
}
