/** A script as a table of four-byte records, and what the receiver makes of one offered record by record. */
module UploadTable {
  import opened Bytes
  import opened ApuProtocol
  import opened Upload
  import opened UploadTheorems

  /** Record `k` of the table says what message `k` means, under a cookie that may follow the one before. */
  predicate RecordFits(msgs: seq<Message>, table: seq<Snapshot>, k: nat)
    requires k < |msgs| == |table|
  {
    && Port1Ok(msgs[k], table[k].port1) && Port2Ok(msgs[k], table[k].port2) && Port3Ok(msgs[k], table[k].port3)
    && ConformingCookie(msgs[k], if k == 0 then 0 else table[k - 1].port0, table[k].port0)
  }

  predicate Encodes(msgs: seq<Message>, table: seq<Snapshot>) {
    |table| == |msgs| && forall k :: 0 <= k < |msgs| ==> RecordFits(msgs, table, k)
  }

  /** One record: the payload in ports 1 to 3, the cookie in port 0. */
  function RecordFor(m: Message, prev: u8): Snapshot {
    var c := SomeCookie(m, prev);
    match m
    case Init(a) => Snapshot(c, 0, Low(a), High(a))
    case New(a) => Snapshot(c, 1, Low(a), High(a))
    case Data(b) => Snapshot(c, b, 0, 0)
    case End(a) => Snapshot(c, 0, Low(a), High(a))
  }

  function TableFor(msgs: seq<Message>): (table: seq<Snapshot>)
    ensures |table| == |msgs|
  {
    if msgs == [] then [] else
    var n := |msgs| - 1;
    var table := TableFor(msgs[..n]);
    table + [RecordFor(msgs[n], if n == 0 then 0 else table[n - 1].port0)]
  }

  /** Every script has a table. */
  lemma {:induction false} TableEncodes(msgs: seq<Message>)
    ensures Encodes(msgs, TableFor(msgs))
  {
    if msgs != [] {
      var n := |msgs| - 1;
      var shorter, table := TableFor(msgs[..n]), TableFor(msgs);
      TableEncodes(msgs[..n]);
      hide SomeCookie;
      forall k | 0 <= k < |msgs|
        ensures RecordFits(msgs, table, k)
      {
        assert k < n ==> RecordFits(msgs[..n], shorter, k);
      }
    }
  }

  // ---- the table, offered to the receiver

  /** The receiver after the first k records. */
  predicate Served(msgs: seq<Message>, table: seq<Snapshot>, ram0: seq<u8>, k: nat, v: Service)
    requires k <= |msgs| == |table| && |ram0| == RAM_SIZE && |v.output| == 4
  {
    var (ram, addr) := Deliver(msgs[..k], ram0);
    && v.alive && v.r.ram == ram && (k > 0 ==> v.r.addr == addr && v.r.last == table[k - 1])
    && v.r.state == (if k == 0 then NotInit else if k < |msgs| then Inited else Executing)
    && (0 < k < |msgs| ==> v.output[0] == table[k - 1].port0)
  }

  /** A record is classified as the message it stands for. */
  lemma RecordClassified(msgs: seq<Message>, table: seq<Snapshot>, k: nat, state: ApuState, last: Snapshot)
    requires WellFormed(msgs) && Encodes(msgs, table) && k < |msgs|
    requires if k == 0 then state == NotInit && last.port0 != INIT_COOKIE else state == Inited && last == table[k - 1]
    ensures var t := Classify(state, last, table[k]);
            t.Some? && !t.value.TransferNoChange? && Decode(t.value, table[k]) == msgs[k]
    ensures var t := Classify(state, last, table[k]); t.Some? ==> t.value.TransferEnd? == (k == |msgs| - 1)
  {
    assert RecordFits(msgs, table, k);
  }

  /** What a poll does once the record is classified. */
  lemma PollAccepts(v: Service, data: Snapshot, t: TransferType)
    requires |v.r.ram| == RAM_SIZE && |v.output| == 4 && v.alive && !v.r.state.Executing?
    requires Classify(v.r.state, v.r.last, data) == Some(t)
    ensures var r := Accept(v.r, t, data);
            ServePoll(v, data) == Service(r, Echoed(v.output, EchoOf(r.state, t, data)), true)
  {
    hide Classify, Accept, EchoOf, Echoed;
  }

  /** Accepting the next record delivers its message. */
  lemma RecordDelivers(msgs: seq<Message>, ram0: seq<u8>, k: nat, r: Receiver, t: TransferType, data: Snapshot)
    requires |ram0| == RAM_SIZE && k < |msgs| && r.ram == Deliver(msgs[..k], ram0).0
    requires k > 0 ==> r.addr == Deliver(msgs[..k], ram0).1
    requires !t.TransferNoChange? && Decode(t, data) == msgs[k] && (k == 0 ==> t.TransferInit?)
    ensures var r' := Accept(r, t, data); (r'.ram, r'.addr) == Deliver(msgs[..k + 1], ram0)
  {
    hide Deliver, Accept, Decode;
    AcceptDelivers(msgs, ram0, Sys(r, Poll0, data, data, Ready0, 0, msgs[..k]), t, data);
    assert msgs[..k] + [msgs[k]] == msgs[..k + 1];
  }

  lemma AcceptedState(r: Receiver, t: TransferType, data: Snapshot)
    requires |r.ram| == RAM_SIZE && !t.TransferNoChange?
    ensures var r' := Accept(r, t, data);
            && r'.last == data
            && r'.state == (if t.TransferInit? then Inited else if t.TransferEnd? then Executing else r.state)
    ensures var echo := EchoOf(Accept(r, t, data).state, t, data);
            echo == if t.TransferEnd? || (!t.TransferInit? && BelowInited(r.state)) then None else Some(data.port0)
  {
  }

  lemma RecordServed(msgs: seq<Message>, table: seq<Snapshot>, ram0: seq<u8>, k: nat, u: Service)
    requires WellFormed(msgs) && Encodes(msgs, table) && |ram0| == RAM_SIZE && |u.output| == 4 && k < |msgs|
    requires Served(msgs, table, ram0, k, u) && (k == 0 ==> u.r.last.port0 != INIT_COOKIE)
    ensures |u.r.ram| == RAM_SIZE && Served(msgs, table, ram0, k + 1, ServePoll(u, table[k]))
  {
    assert |u.r.ram| == RAM_SIZE && 2 <= |msgs|;
    hide Deliver, Classify, Encodes, WellFormed, ConformingCookie, ServePoll, Accept, EchoOf, Decode;
    RecordClassified(msgs, table, k, u.r.state, u.r.last);
    var t := Classify(u.r.state, u.r.last, table[k]).value;
    FirstIsInit(msgs, k, t, table[k]);
    PollAccepts(u, table[k], t);
    RecordDelivers(msgs, ram0, k, u.r, t, table[k]);
    AcceptedState(u.r, t, table[k]);
  }

  /** Only the first message is the init message. */
  lemma FirstIsInit(msgs: seq<Message>, k: nat, t: TransferType, data: Snapshot)
    requires WellFormed(msgs) && k < |msgs| && !t.TransferNoChange? && Decode(t, data) == msgs[k]
    ensures t.TransferInit? == (k == 0)
  {
  }

  lemma {:induction false} TableServed(msgs: seq<Message>, table: seq<Snapshot>, ram0: seq<u8>, v: Service, k: nat)
    requires WellFormed(msgs) && Encodes(msgs, table) && |ram0| == RAM_SIZE && |v.output| == 4 && k <= |msgs|
    requires v.alive && v.r.state == NotInit && v.r.ram == ram0 && v.r.last.port0 != INIT_COOKIE
    ensures Served(msgs, table, ram0, k, Serve(v, table[..k]))
    ensures k == 0 ==> Serve(v, table[..k]) == v
  {
    if k > 0 {
      hide Served, Encodes, WellFormed, ServePoll;
      TableServed(msgs, table, ram0, v, k - 1);
      assert table[..k][..k - 1] == table[..k - 1];
      RecordServed(msgs, table, ram0, k - 1, Serve(v, table[..k - 1]));
    }
  }

  /**
   Offered record by record, a table of the script takes the receiver to EXECUTING with the script's
   bytes in its RAM, whatever was there before.
   */
  lemma TableDelivers(msgs: seq<Message>, table: seq<Snapshot>, v: Service)
    requires WellFormed(msgs) && Encodes(msgs, table) && |v.r.ram| == RAM_SIZE && |v.output| == 4
    requires v.alive && v.r.state == NotInit && v.r.last.port0 != INIT_COOKIE
    ensures var v' := Serve(v, table); v'.alive && v'.r.state == Executing && v'.r.ram == Deliver(msgs, v.r.ram).0
  {
    assert table[..|msgs|] == table && msgs[..|msgs|] == msgs;
    TableServed(msgs, table, v.r.ram, v, |msgs|);
  }

  /** Polling the same bytes again changes nothing. */
  lemma RepeatedPoll(v: Service, data: Snapshot)
    requires |v.r.ram| == RAM_SIZE && |v.output| == 4
    ensures ServePoll(ServePoll(v, data), data) == ServePoll(v, data)
  {
  }
}
