/** The APU side of the upload, in place: the thread's own state, its RAM and the port arrays. */
module ApuModel {
  import opened Bytes
  import opened RamModel
  import opened ApuPorts
  import opened ApuProtocol

  class Apu {
    const port: ApuPort
    const ram: Ram
    var state: ApuState
    var lastData: Snapshot
    var currentTransferAddr: u16

    ghost predicate Valid() {
      && port.Valid()
      && ram.data.Length == RAM_SIZE
      && ram.data != port.inputPort.data && ram.data != port.outputPort.data
    }

    ghost function Value(): (r: Receiver)
      requires Valid()
      reads this, ram.data
      ensures |r.ram| == RAM_SIZE
    {
      Receiver(state, lastData, currentTransferAddr, ram.Contents())
    }

    ghost function Offered(): Snapshot
      requires Valid()
      reads port.inputPort.data
    {
      Snapshot(port.Input()[0], port.Input()[1], port.Input()[2], port.Input()[3])
    }

    constructor ()
      ensures Valid() && state == Stopped
      ensures fresh(ram.data) && fresh(port.inputPort.data) && fresh(port.outputPort.data)
    {
      port := new ApuPort();
      ram := new Ram(RAM_SIZE);
      state := Stopped;
    }

    method UpdateLastData(data: Snapshot)
      modifies `lastData
      ensures lastData == data
    {
      lastData := data;
    }

    /** The class of a snapshot; a change is remembered. None: the assertion on the cookie fails. */
    method GetType(data: Snapshot) returns (t: Option<TransferType>)
      modifies `lastData
      ensures t == Classify(state, old(lastData), data)
      ensures lastData == if t.None? || t.value.TransferNoChange? then old(lastData) else data
    {
      if lastData == data || data.port0 == lastData.port0 {
        return Some(TransferNoChange);
      }
      if data.port0 == INIT_COOKIE && (state == Stopped || state == NotInit) {
        t := Some(TransferInit);
      } else if data.port0 == 0 {
        t := Some(TransferData);
      } else if data.port0 == lastData.port0 + 1 {
        t := Some(TransferData);
      } else {
        var temp := Trunc8(lastData.port0 + 4);
        if temp == 0 {
          temp := 4;
        }
        if data.port0 == temp {
          if data.port1 != 0 {
            t := Some(TransferNew);
          } else {
            t := Some(TransferEnd);
          }
        } else {
          return None;
        }
      }
      UpdateLastData(data);
    }

    method GetNextData() returns (data: Snapshot)
      requires Valid()
      ensures data == Offered()
    {
      var p0 := port.InternalRead(0);
      var p1 := port.InternalRead(1);
      var p2 := port.InternalRead(2);
      var p3 := port.InternalRead(3);
      data := Snapshot(p0, p1, p2, p3);
    }

    method SetState(st: ApuState)
      modifies `state
      ensures state == st
    {
      if st != state {
        state := st;
      }
    }

    /**
     One poll with nobody else running: the decision and the echo of the protocol. The wait after
     an END is not entered here. The result is false when the cookie assertion fails.
     */
    method TransferHandle() returns (ok: bool)
      requires Valid()
      modifies this, ram.data, port.outputPort.data
      ensures Offered() == old(Offered())
      ensures ok == Classify(old(state), old(lastData), Offered()).Some?
      ensures !ok ==> Value() == old(Value()) && port.Output() == old(port.Output())
      ensures ok ==>
                var t := Classify(old(state), old(lastData), Offered()).value;
                && Value() == Accept(old(Value()), t, Offered())
                && port.Output() == Echoed(old(port.Output()), EchoOf(state, t, Offered()))
    {
      var data := GetNextData();
      var t := GetType(data);
      if t.None? {
        return false;
      }
      ok := true;
      match t.value {
      case TransferInit =>
        SetState(Inited);
        currentTransferAddr := Word(data.port2, data.port3);
      case TransferData =>
        ram.Write(currentTransferAddr, data.port1);
        currentTransferAddr := Trunc16(currentTransferAddr + 1);
      case TransferNew =>
        currentTransferAddr := Word(data.port2, data.port3);
      case TransferEnd =>
        SetState(Executing);
        return;
      case TransferNoChange =>
        return;
      }
      if !(state == Stopped || state == NotInit) {
        port.InternalWrite(0, data.port0);
      }
    }

    /** Announce readiness, then begin to poll. */
    method Announce()
      requires Valid()
      modifies `state, port.outputPort.data
      ensures port.Output() == old(port.Output())[0 := READY0][1 := READY1]
      ensures Value() == old(Value()).(state := NotInit)
    {
      port.InternalWrite(0, READY0);
      port.InternalWrite(1, READY1);
      state := NotInit;
    }

    /** What the CPU has put into its ports by the next poll. */
    method Offer(data: Snapshot)
      requires Valid()
      modifies port.inputPort.data
      ensures Offered() == data && port.Output() == old(port.Output())
    {
      port.Write(0, data.port0);
      port.Write(1, data.port1);
      port.Write(2, data.port2);
      port.Write(3, data.port3);
    }

    ghost function Serving(alive: bool): Service
      requires Valid()
      reads this, ram.data, port.outputPort.data
    {
      Service(Value(), port.Output(), alive)
    }

    /**
     The APU thread from its start until power-down stops it between two polls, or, once an upload
     has ended, in the wait that follows. `polls` are what it finds in its ports; false is the failing
     assertion.
     */
    method StartExecution(polls: seq<Snapshot>) returns (ok: bool)
      requires Valid()
      modifies this, ram.data, port.inputPort.data, port.outputPort.data
      ensures var start := old(Serving(true));
              var v := Serve(start.(r := start.r.(state := NotInit), output := start.output[0 := READY0][1 := READY1]),
                             polls);
              && ok == v.alive && port.Output() == v.output
              && Value() == if ok then v.r.(state := Stopped) else v.r
    {
      Announce();
      ok := true;
      ghost var start := Serving(true);
      for i := 0 to |polls|
        invariant Serving(ok) == Serve(start, polls[..i])
      {
        Offer(polls[i]);
        if ok && state != Executing {
          ok := TransferHandle();
        }
        assert polls[..i + 1][..i] == polls[..i];
      }
      assert polls[..|polls|] == polls;
      if ok {
        state := Stopped;
      }
    }
  }
}
