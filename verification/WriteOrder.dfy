/** In what order a sender may write the four ports, and why a 16-bit store to $2140 is not such an order. */
module WriteOrder {
  import opened Bytes
  import opened BusMemory
  import opened CpuRegisters
  import opened CpuMachine
  import opened Opcodes
  import opened AddressingModes
  import opened Instructions
  import opened ApuProtocol
  import opened Upload
  import opened GuestUpload

  datatype PortWrite = PortWrite(port: nat, value: u8)

  /** The ports after a series of writes. */
  function After(p: Snapshot, writes: seq<PortWrite>): Snapshot {
    if writes == [] then p else
    var n := |writes| - 1;
    WithPort(After(p, writes[..n]), writes[n].port, writes[n].value)
  }

  /** The ports after the first `t` of them. */
  function At(p: Snapshot, writes: seq<PortWrite>, t: nat): Snapshot
    requires t <= |writes|
  {
    After(p, writes[..t])
  }

  /** A poll in the middle of the writes: each port as it was when its turn came, port 0 first. */
  predicate Times(writes: seq<PortWrite>, t0: nat, t1: nat, t2: nat, t3: nat) { t0 <= t1 <= t2 <= t3 <= |writes| }

  function Polled(p: Snapshot, writes: seq<PortWrite>, t0: nat, t1: nat, t2: nat, t3: nat): Snapshot
    requires Times(writes, t0, t1, t2, t3)
  {
    Snapshot(At(p, writes, t0).port0, At(p, writes, t1).port1, At(p, writes, t2).port2, At(p, writes, t3).port3)
  }

  /** No poll sees a mixture: it finds the old cookie, or all of the final bytes. */
  ghost predicate Safe(p: Snapshot, writes: seq<PortWrite>) {
    forall t0: nat, t1: nat, t2: nat, t3: nat :: Times(writes, t0, t1, t2, t3) ==>
      var seen := Polled(p, writes, t0, t1, t2, t3);
      seen.port0 == p.port0 || seen == After(p, writes)
  }

  /** From the first change of port 0 on, port 0 holds its final byte where it differs, and the others hold theirs. */
  predicate CookieLast(p: Snapshot, writes: seq<PortWrite>) {
    forall t: nat, u: nat :: t <= u <= |writes| ==> SettledFrom(p, writes, t, u)
  }

  predicate SettledFrom(p: Snapshot, writes: seq<PortWrite>, t: nat, u: nat)
    requires t <= u <= |writes|
  {
    At(p, writes, t).port0 != p.port0 ==>
      At(p, writes, u).(port0 := At(p, writes, t).port0) == After(p, writes)
  }

  /** Exactly the series of writes that leave the cookie for last are safe, whatever they write and how often. */
  lemma SafeIff(p: Snapshot, writes: seq<PortWrite>)
    ensures Safe(p, writes) <==> CookieLast(p, writes)
  {
    hide After;
    if Safe(p, writes) {
      forall t: nat, u: nat | t <= u <= |writes|
        ensures SettledFrom(p, writes, t, u)
      {
        assert Times(writes, t, u, u, u);
      }
    }
    if CookieLast(p, writes) {
      forall t0: nat, t1: nat, t2: nat, t3: nat | Times(writes, t0, t1, t2, t3)
        ensures var seen := Polled(p, writes, t0, t1, t2, t3); seen.port0 == p.port0 || seen == After(p, writes)
      {
        assert SettledFrom(p, writes, t0, t1) && SettledFrom(p, writes, t0, t2) && SettledFrom(p, writes, t0, t3);
      }
    }
  }

  // ---- orders of the four ports

  predicate IsOrder(order: seq<nat>) {
    && |order| == 4
    && (forall i :: 0 <= i < 4 ==> order[i] < 4)
    && (forall i, j :: 0 <= i < j < 4 ==> order[i] != order[j])
  }

  function PortOf(p: Snapshot, port: nat): u8 {
    match port
    case 0 => p.port0
    case 1 => p.port1
    case 2 => p.port2
    case _ => p.port3
  }

  /** The bytes of `p`, written in that order. */
  function InOrder(order: seq<nat>, p: Snapshot): (writes: seq<PortWrite>)
    ensures |writes| == |order|
  {
    seq(|order|, i requires 0 <= i < |order| => PortWrite(order[i], PortOf(p, order[i])))
  }

  /** What is written by time `t`. */
  lemma {:induction false} WrittenBy(order: seq<nat>, p: Snapshot, q: Snapshot, t: nat, port: nat)
    requires IsOrder(order) && t <= 4 && port < 4
    ensures PortOf(At(p, InOrder(order, q), t), port) == if port in order[..t] then PortOf(q, port) else PortOf(p, port)
  {
    if t > 0 {
      WrittenBy(order, p, q, t - 1, port);
      var writes := InOrder(order, q);
      assert writes[..t][..t - 1] == writes[..t - 1] && order[..t] == order[..t - 1] + [order[t - 1]];
    }
  }

  ghost predicate SafeOrder(order: seq<nat>) {
    forall p: Snapshot, q: Snapshot :: q.port0 != p.port0 ==> Safe(p, InOrder(order, q))
  }

  lemma AllWritten(order: seq<nat>, p: Snapshot, q: Snapshot)
    requires IsOrder(order)
    ensures InOrder(order, q)[..4] == InOrder(order, q)
    ensures forall port: nat :: port < 4 ==> port in order
  {
    assert order == [order[0], order[1], order[2], order[3]];
  }

  /** An order of the four ports never lets a message be torn if and only if port 0 comes last. */
  lemma OrderSafeIff(order: seq<nat>)
    requires IsOrder(order)
    ensures SafeOrder(order) <==> order[3] == 0
  {
    if order[3] == 0 {
      forall p: Snapshot, q: Snapshot | q.port0 != p.port0
        ensures Safe(p, InOrder(order, q))
      {
        LastIsSafe(order, p, q);
      }
    } else {
      EarlierIsNot(order);
    }
  }

  lemma LastIsSafe(order: seq<nat>, p: Snapshot, q: Snapshot)
    requires IsOrder(order) && order[3] == 0
    ensures Safe(p, InOrder(order, q))
  {
    var writes := InOrder(order, q);
    hide Safe, After, InOrder;
    forall t: nat, u: nat | t <= u <= 4
      ensures SettledFrom(p, writes, t, u)
    {
      WrittenBy(order, p, q, t, 0);
      AllWritten(order, p, q);
    }
    SafeIff(p, writes);
  }

  lemma EarlierIsNot(order: seq<nat>)
    requires IsOrder(order) && order[3] != 0
    ensures !SafeOrder(order)
  {
    hide Safe, After, InOrder;
    var p, q := Snapshot(0, 0, 0, 0), Snapshot(1, 1, 1, 1);
    var writes := InOrder(order, q);
    AllWritten(order, p, q);
    WrittenBy(order, p, q, 3, 0);
    WrittenBy(order, p, q, 3, order[3]);
    WrittenBy(order, p, q, 4, order[3]);
    SafeIff(p, writes);
    assert 0 in order;
    var k :| 0 <= k < |order| && order[k] == 0;
    assert order[..3][k] == 0;
    assert !SettledFrom(p, writes, 3, 3);
  }

  // ---- a 16-bit store to $2140

  /** The two writes of a word to $2140: the low byte to port 0, then the high byte to port 1. */
  function WordWrites(word: u16): seq<PortWrite> { [PortWrite(0, Low(word)), PortWrite(1, High(word))] }

  /** The store writes port 0 first: what the APU's side sees before, between and after are these writes. */
  lemma WordStoreWrites(s: Machine)
    requires FourPorts(s.m) && s.r.acc.len == Sixteen
    ensures var first := Write(s.m, PORT0, s.r.acc.Low());
            var t := Execute(s, STA, Effective(SimpleAddress, PORT0));
            && t == s.(m := Write(first, PORT1, s.r.acc.High())) && FourPorts(first) && FourPorts(t.m)
            && PortsOf(first.input) == At(PortsOf(s.m.input), WordWrites(s.r.acc.value), 1)
            && PortsOf(t.m.input) == After(PortsOf(s.m.input), WordWrites(s.r.acc.value))
  {
    hide Execute, BusMemory.Write, Low, High, After, At, WordWrites;
    ExecuteSta(s, Effective(SimpleAddress, PORT0));
    PortsWritten(s.m, s.r.acc.Low());
    PortsWritten(Write(s.m, PORT0, s.r.acc.Low()), s.r.acc.High());
    WordSteps(PortsOf(s.m.input), s.r.acc.value);
  }

  lemma PortsWritten(m: Memory, v: u8)
    requires FourPorts(m)
    ensures Write(m, PORT0, v) == m.(input := m.input[0 := v]) && Write(m, PORT1, v) == m.(input := m.input[1 := v])
  {
    PortCells();
    hide AddrDecoder.CellOf;
  }

  lemma WordSteps(p: Snapshot, word: u16)
    ensures var writes := WordWrites(word);
            && At(p, writes, 0) == p && At(p, writes, 1) == p.(port0 := Low(word))
            && At(p, writes, 2) == After(p, writes) == p.(port0 := Low(word), port1 := High(word))
  {
    var writes := WordWrites(word);
    assert writes[..0] == [] && writes[..1] == [writes[0]] && writes[..2] == writes;
    assert [writes[0]][..0] == [];
    assert After(p, [writes[0]]) == WithPort(After(p, []), 0, Low(word));
    assert After(p, writes) == WithPort(After(p, writes[..1]), 1, High(word));
  }

  /** It is safe only if it leaves one of the two bytes as it was. */
  lemma WordStoreSafeIff(p: Snapshot, word: u16)
    ensures Safe(p, WordWrites(word)) <==> Low(word) == p.port0 || High(word) == p.port1
  {
    var writes := WordWrites(word);
    WordSteps(p, word);
    SafeIff(p, writes);
    hide Safe, After, At, Low, High;
    if Low(word) != p.port0 && High(word) != p.port1 {
      assert !SettledFrom(p, writes, 1, 1);
    } else {
      forall t: nat, u: nat | t <= u <= 2
        ensures SettledFrom(p, writes, t, u)
      {
      }
    }
  }

  /**
   And the receiver takes a torn one for data: a poll between the two writes of the next cookie and a
   byte stores the byte that stood in port 1 before.
   */
  lemma TornByteAccepted(r: Receiver, word: u16)
    requires |r.ram| == RAM_SIZE && r.state == Inited
    requires Low(word) == r.last.port0 + 1 && High(word) != r.last.port1
    ensures var seen := Polled(r.last, WordWrites(word), 1, 1, 1, 1);
            && Classify(r.state, r.last, seen) == Some(TransferData)
            && Accept(r, TransferData, seen).ram[r.addr] == r.last.port1 != High(word)
  {
    WordSteps(r.last, word);
    hide After, At, Low, High;
  }
}
