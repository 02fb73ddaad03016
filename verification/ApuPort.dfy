/** The four ports between CPU and APU: two separate arrays, one per direction. */
module ApuPorts {
  import opened Bytes
  import opened RamModel

  const PORTS := 4

  class ApuPort {
    const inputPort: Ram
    const outputPort: Ram

    ghost predicate Valid() {
      inputPort.data.Length == PORTS && outputPort.data.Length == PORTS && inputPort.data != outputPort.data
    }

    ghost function Input(): (s: seq<u8>)
      requires Valid()
      reads inputPort.data
      ensures |s| == PORTS
    {
      inputPort.Contents()
    }

    ghost function Output(): (s: seq<u8>)
      requires Valid()
      reads outputPort.data
      ensures |s| == PORTS
    {
      outputPort.Contents()
    }

    constructor ()
      ensures Valid() && fresh(inputPort.data) && fresh(outputPort.data)
    {
      inputPort := new Ram(PORTS);
      outputPort := new Ram(PORTS);
    }

    /** The CPU reads what the APU wrote, ... */
    method Read(address: u32) returns (v: u8)
      requires Valid() && address < PORTS
      ensures v == Output()[address]
    {
      v := outputPort.Read(address);
    }

    /** ... and writes where the APU reads. */
    method Write(address: u32, v: u8)
      requires Valid() && address < PORTS
      modifies inputPort.data
      ensures Input() == old(Input())[address := v]
    {
      inputPort.Write(address, v);
    }

    method InternalRead(address: u32) returns (v: u8)
      requires Valid() && address < PORTS
      ensures v == Input()[address]
    {
      v := inputPort.Read(address);
    }

    method InternalWrite(address: u32, v: u8)
      requires Valid() && address < PORTS
      modifies outputPort.data
      ensures Output() == old(Output())[address := v]
    {
      outputPort.Write(address, v);
    }
  }
}
