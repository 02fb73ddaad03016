/** What the upload handshake guarantees over whole runs: delivery, absence of stale reads, progress. */
module UploadTheorems {
  import opened Bytes
  import opened ApuProtocol
  import opened Upload

  // ---- safety

  lemma {:induction false} RunInv(msgs: seq<Message>, most: nat, ram0: seq<u8>, run: seq<Sys>, who: seq<Party>, i: nat)
    requires WellFormed(msgs) && IsRun(msgs, most, run, who) && Start(ram0, run[0]) && i < |run|
    ensures Inv(msgs, ram0, run[i])
  {
    if i == 0 {
      StartInv(msgs, ram0, run[0]);
    } else {
      RunInv(msgs, most, ram0, run, who, i - 1);
      assert Moves(msgs, most, who[i - 1], run[i - 1], run[i]);
      MovesInv(msgs, most, ram0, who[i - 1], run[i - 1], run[i]);
    }
  }

  lemma MovesInv(msgs: seq<Message>, most: nat, ram0: seq<u8>, p: Party, s: Sys, s': Sys)
    requires WellFormed(msgs) && Inv(msgs, ram0, s) && Moves(msgs, most, p, s, s')
    ensures Inv(msgs, ram0, s')
  {
    match p
    case Apu => ApuStepInv(msgs, ram0, s);
    case Sender =>
      var c: Choice :| SenderStep(msgs, most, s, c, s');
      SenderStepInv(msgs, most, ram0, s, c, s');
  }

  /**
   Exactly once, in order: at every point of every interleaving the receiver has accepted a prefix
   of the script, classified as it was meant, and its assertion on unknown cookies has not failed.
   */
  lemma ExactlyOnceInOrder(msgs: seq<Message>, most: nat, ram0: seq<u8>, run: seq<Sys>, who: seq<Party>, i: nat)
    requires WellFormed(msgs) && IsRun(msgs, most, run, who) && Start(ram0, run[0]) && i < |run|
    ensures run[i].log <= msgs && run[i].sent <= |run[i].log| <= run[i].sent + 1
    ensures !run[i].apc.Crashed?
    ensures run[i].apu.ram == Deliver(run[i].log, ram0).0
  {
    RunInv(msgs, most, ram0, run, who, i);
  }

  /** A snapshot the receiver acts on as a change is the sender's whole message, never a mixture. */
  lemma NoTornSnapshot(msgs: seq<Message>, most: nat, ram0: seq<u8>, run: seq<Sys>, who: seq<Party>, i: nat)
    requires WellFormed(msgs) && IsRun(msgs, most, run, who) && Start(ram0, run[0]) && i < |run|
    requires run[i].apc.Act? && !IsSameData(run[i].apu.last, run[i].apc.data)
    ensures run[i].apc.data == run[i].input && Committed(run[i].spc)
    ensures |run[i].log| < |msgs|
    ensures var t := Classify(run[i].apu.state, run[i].apu.last, run[i].apc.data);
            t.Some? && !t.value.TransferNoChange? && Decode(t.value, run[i].apc.data) == msgs[|run[i].log|]
  {
    RunInv(msgs, most, ram0, run, who, i);
    PendingClassified(msgs, ram0, run[i]);
  }

  /** An echo equal to the cookie that is up is never a stale one: the message has been accepted. */
  lemma AcknowledgementIsFresh(msgs: seq<Message>, most: nat, ram0: seq<u8>, run: seq<Sys>, who: seq<Party>, i: nat)
    requires WellFormed(msgs) && IsRun(msgs, most, run, who) && Start(ram0, run[0]) && i < |run|
    requires run[i].spc.Await? && run[i].output.port0 == run[i].input.port0
    ensures |run[i].log| == run[i].sent + 1
  {
    RunInv(msgs, most, ram0, run, who, i);
  }

  /** Every value the sender puts into port 0 differs from the one it replaces. */
  lemma CookiesAlternate(msgs: seq<Message>, most: nat, ram0: seq<u8>, run: seq<Sys>, who: seq<Party>, i: nat)
    requires WellFormed(msgs) && IsRun(msgs, most, run, who) && Start(ram0, run[0]) && i < |who|
    requires who[i].Sender? && run[i].spc.Prepare? && !run[i + 1].spc.Prepare?
    ensures run[i + 1].input.port0 != run[i].input.port0
    ensures run[i + 1].input.port0 != run[i].output.port0
  {
    RunInv(msgs, most, ram0, run, who, i);
    assert Moves(msgs, most, who[i], run[i], run[i + 1]);
  }

  // ---- blocks

  datatype Block = Block(addr: u16, bytes: seq<u8>)

  function DataOf(bytes: seq<u8>): (r: seq<Message>)
    ensures |r| == |bytes|
  {
    seq(|bytes|, i requires 0 <= i < |bytes| => Data(bytes[i]))
  }

  function Body(blocks: seq<Block>): seq<Message> {
    if blocks == [] then [] else
    var n := |blocks| - 1;
    Body(blocks[..n]) + [if n == 0 then Init(blocks[n].addr) else New(blocks[n].addr)] + DataOf(blocks[n].bytes)
  }

  /** The transfers of an upload of `blocks`; an empty upload only announces the entry point. */
  function Script(blocks: seq<Block>, entry: u16): seq<Message> {
    (if blocks == [] then [Init(entry)] else Body(blocks)) + [End(entry)]
  }

  /** The last byte a block at `addr` puts into cell `x`, addresses wrapping at 64K. */
  function LastInBlock(addr: u16, bytes: seq<u8>, x: u16): Option<u8> {
    if bytes == [] then None else
    var n := |bytes| - 1;
    if Trunc16(addr + n) == x then Some(bytes[n]) else LastInBlock(addr, bytes[..n], x)
  }

  /** The last byte any of the blocks puts into cell `x`. */
  function LastWrite(blocks: seq<Block>, x: u16): Option<u8> {
    if blocks == [] then None else
    var n := |blocks| - 1;
    var w := LastInBlock(blocks[n].addr, blocks[n].bytes, x);
    if w.Some? then w else LastWrite(blocks[..n], x)
  }

  lemma {:induction false} BodyShape(blocks: seq<Block>)
    requires blocks != []
    ensures Body(blocks) != [] && Body(blocks)[0].Init?
    ensures forall i :: 0 < i < |Body(blocks)| ==> !Body(blocks)[i].Init?
    ensures forall i :: 0 <= i < |Body(blocks)| ==> !Body(blocks)[i].End?
    decreases |blocks|
  {
    var n := |blocks| - 1;
    if n > 0 {
      BodyShape(blocks[..n]);
    } else {
      assert Body(blocks[..n]) == [];
    }
  }

  lemma ScriptWellFormed(blocks: seq<Block>, entry: u16)
    ensures WellFormed(Script(blocks, entry))
  {
    if blocks != [] {
      BodyShape(blocks);
    }
  }

  lemma {:induction false} DeliverData(msgs: seq<Message>, bytes: seq<u8>, ram0: seq<u8>, x: u16)
    requires |ram0| == RAM_SIZE
    ensures var (ram, addr) := Deliver(msgs, ram0);
            var (ram', addr') := Deliver(msgs + DataOf(bytes), ram0);
            var w := LastInBlock(addr, bytes, x);
            addr' == Trunc16(addr + |bytes|) && ram'[x] == if w.Some? then w.value else ram[x]
    decreases |bytes|
  {
    hide Deliver;
    if bytes == [] {
      assert msgs + DataOf(bytes) == msgs;
    } else {
      var n := |bytes| - 1;
      var before := msgs + DataOf(bytes[..n]);
      DeliverData(msgs, bytes[..n], ram0, x);
      DeliverByte(before, bytes[n], ram0, x);
      DataSnoc(msgs, bytes);
      hide DataOf;
      NextAddress(Deliver(msgs, ram0).1, n);
    }
  }

  lemma DataSnoc(msgs: seq<Message>, bytes: seq<u8>)
    requires bytes != []
    ensures var n := |bytes| - 1; msgs + DataOf(bytes) == (msgs + DataOf(bytes[..n])) + [Data(bytes[n])]
  {
    var n := |bytes| - 1;
    assert DataOf(bytes) == DataOf(bytes[..n]) + [Data(bytes[n])];
  }

  lemma DeliverByte(msgs: seq<Message>, b: u8, ram0: seq<u8>, x: u16)
    requires |ram0| == RAM_SIZE
    ensures var (ram, addr) := Deliver(msgs, ram0);
            var (ram', addr') := Deliver(msgs + [Data(b)], ram0);
            addr' == Trunc16(addr + 1) && ram'[x] == if addr == x then b else ram[x]
  {
    DeliverSnoc(msgs, ram0, Data(b));
  }

  lemma NextAddress(addr: u16, n: nat)
    ensures Trunc16(Trunc16(addr + n) + 1) == Trunc16(addr + n + 1)
  {
  }

  lemma {:induction false} DeliverBody(blocks: seq<Block>, ram0: seq<u8>, x: u16)
    requires |ram0| == RAM_SIZE
    ensures var w := LastWrite(blocks, x);
            Deliver(Body(blocks), ram0).0[x] == if w.Some? then w.value else ram0[x]
    decreases |blocks|
  {
    if blocks != [] {
      var n := |blocks| - 1;
      var head := if n == 0 then Init(blocks[n].addr) else New(blocks[n].addr);
      DeliverBody(blocks[..n], ram0, x);
      DeliverSnoc(Body(blocks[..n]), ram0, head);
      DeliverData(Body(blocks[..n]) + [head], blocks[n].bytes, ram0, x);
    }
  }

  /** In every state of the invariant with the APU executing, each cell holds what the blocks put there last. */
  lemma ExecutingHoldsBlocks(blocks: seq<Block>, entry: u16, ram0: seq<u8>, s: Sys, x: u16)
    requires Inv(Script(blocks, entry), ram0, s) && s.apu.state == Executing
    ensures |s.apu.ram| == RAM_SIZE
    ensures var w := LastWrite(blocks, x); s.apu.ram[x] == if w.Some? then w.value else ram0[x]
  {
    assert s.log == Script(blocks, entry);
    DeliverBody(blocks, ram0, x);
    if blocks == [] {
      DeliverSnoc([], ram0, Init(entry));
      assert [Init(entry)] == [] + [Init(entry)];
      DeliverSnoc([Init(entry)], ram0, End(entry));
    } else {
      DeliverSnoc(Body(blocks), ram0, End(entry));
    }
  }

  /**
   The upload theorem: whatever the blocks and the interleaving, once the APU executes, every RAM
   cell holds the last byte the blocks put there, or what it held before.
   */
  lemma UploadDelivers(blocks: seq<Block>, entry: u16, most: nat, ram0: seq<u8>,
                       run: seq<Sys>, who: seq<Party>, i: nat, x: u16)
    requires IsRun(Script(blocks, entry), most, run, who) && Start(ram0, run[0]) && i < |run|
    requires run[i].apu.state == Executing
    ensures |run[i].apu.ram| == RAM_SIZE
    ensures var w := LastWrite(blocks, x); run[i].apu.ram[x] == if w.Some? then w.value else ram0[x]
  {
    ScriptWellFormed(blocks, entry);
    RunInv(Script(blocks, entry), most, ram0, run, who, i);
    ExecutingHoldsBlocks(blocks, entry, ram0, run[i], x);
  }

  // ---- progress

  function SenderRank(most: nat, s: Sys): nat {
    match s.spc
    case Ready0 => most + 4
    case Ready1 => most + 3
    case Prepare(left) => left + 2
    case Await => if |s.log| == s.sent then 1 else 0
    case Finished => if |s.log| == s.sent then 1 else 0
  }

  /** APU steps left until the pending message is accepted, the poll in progress being stale or not. */
  function StepsToAccept(s: Sys): nat {
    match s.apc
    case Boot0 => 8
    case Boot1 => 7
    case Boot2 => 6
    case Poll0 => 5
    case Poll1(p0) => if p0 == s.input.port0 then 4 else 9
    case Poll2(p0, _) => if p0 == s.input.port0 then 3 else 8
    case Poll3(p0, _, _) => if p0 == s.input.port0 then 2 else 7
    case Act(d) => if d.port0 == s.input.port0 then 1 else 6
    case _ => 0
  }

  function ApuRank(s: Sys): nat {
    if !Committed(s.spc) then
      (match s.apc case Boot0 => 3 case Boot1 => 2 case Boot2 => 1 case _ => 0)
    else if |s.log| == s.sent then StepsToAccept(s)
    else if s.apc.Echo? then 1 else 0
  }

  /** What `n` messages weigh in the measure. */
  function Weight(most: nat, n: nat): nat { (most + 5) * n }

  lemma WeightNext(most: nat, n: nat)
    ensures Weight(most, n + 1) == Weight(most, n) + most + 5
  {
  }

  /** The lexicographic measure (messages left, sender phase, APU phase), packed into one number. */
  function Rank(msgs: seq<Message>, most: nat, s: Sys): nat
    requires s.sent < |msgs|
  {
    16 * (Weight(most, |msgs| - s.sent) + SenderRank(most, s)) + ApuRank(s)
  }

  /** The party whose next step, whichever it is, makes progress. */
  function Helpful(s: Sys): Party {
    if Committed(s.spc) then
      (if |s.log| == s.sent || s.apc.Echo? then Apu else Sender)
    else if s.spc.Ready0? && s.output.port0 != READY0 then Apu
    else if s.spc.Ready1? && s.output.port1 != READY1 then Apu
    else Sender
  }

  lemma HelpfulApuLowers(msgs: seq<Message>, most: nat, ram0: seq<u8>, s: Sys)
    requires WellFormed(msgs) && Inv(msgs, ram0, s) && s.apu.state != Executing && Helpful(s).Apu?
    requires Inv(msgs, ram0, ApuStep(s))
    ensures Rank(msgs, most, ApuStep(s)) < Rank(msgs, most, s)
  {
    if s.apc.Act? {
      HelpfulActLowers(msgs, most, ram0, s);
    } else {
      HelpfulByteLowers(msgs, most, ram0, s);
    }
  }

  lemma HelpfulByteLowers(msgs: seq<Message>, most: nat, ram0: seq<u8>, s: Sys)
    requires WellFormed(msgs) && Inv(msgs, ram0, s) && s.apu.state != Executing && Helpful(s).Apu? && !s.apc.Act?
    ensures Rank(msgs, most, ApuStep(s)) < Rank(msgs, most, s)
  {
    hide ActStep, Deliver, WellFormed, Payload, ConformingCookie;
  }

  lemma HelpfulActLowers(msgs: seq<Message>, most: nat, ram0: seq<u8>, s: Sys)
    requires WellFormed(msgs) && Inv(msgs, ram0, s) && s.apu.state != Executing && Helpful(s).Apu? && s.apc.Act?
    ensures Rank(msgs, most, ApuStep(s)) < Rank(msgs, most, s)
  {
    hide Deliver, WellFormed, Payload, ConformingCookie;
    if s.apc.data.port0 == s.input.port0 {
      PendingClassified(msgs, ram0, s);
      ActAccepts(msgs, ram0, s, Classify(s.apu.state, s.apu.last, s.input).value);
      hide ActStep, Classify;
    }
  }

  /** A step of the helpful party lowers the measure. */
  lemma HelpfulLowers(msgs: seq<Message>, most: nat, ram0: seq<u8>, s: Sys, s': Sys)
    requires WellFormed(msgs) && Inv(msgs, ram0, s) && s.apu.state != Executing
    requires Moves(msgs, most, Helpful(s), s, s')
    ensures s'.sent < |msgs| && Rank(msgs, most, s') < Rank(msgs, most, s)
  {
    MovesInv(msgs, most, ram0, Helpful(s), s, s');
    if Helpful(s).Apu? {
      hide Inv, WellFormed, ApuStep, Rank;
      HelpfulApuLowers(msgs, most, ram0, s);
    } else {
      hide Inv, WellFormed, ApuStep, Rank, SenderStep;
      var c: Choice :| SenderStep(msgs, most, s, c, s');
      HelpfulSenderLowers(msgs, most, ram0, s, c, s');
    }
  }

  lemma HelpfulSenderLowers(msgs: seq<Message>, most: nat, ram0: seq<u8>, s: Sys, c: Choice, s': Sys)
    requires WellFormed(msgs) && Inv(msgs, ram0, s) && s.apu.state != Executing && Helpful(s).Sender?
    requires SenderStep(msgs, most, s, c, s') && Inv(msgs, ram0, s')
    ensures Rank(msgs, most, s') < Rank(msgs, most, s)
  {
    hide Deliver, Delivered, Weight, Payload, PayloadOk, Missing, ConformingCookie;
    WeightNext(most, |msgs| - s.sent - 1);
  }

  /** No deadlock: the helpful party always has a step to take. */
  lemma HelpfulEnabled(msgs: seq<Message>, most: nat, ram0: seq<u8>, s: Sys) returns (s': Sys)
    requires WellFormed(msgs) && Inv(msgs, ram0, s) && s.apu.state != Executing && 3 <= most
    ensures Moves(msgs, most, Helpful(s), s, s') && s'.sent < |msgs| && Rank(msgs, most, s') < Rank(msgs, most, s)
  {
    if Helpful(s).Apu? {
      s' := ApuStep(s);
    } else {
      s' := SomeSenderStep(msgs, most, ram0, s);
    }
    HelpfulLowers(msgs, most, ram0, s, s');
  }

  function SomeCookie(m: Message, prev: u8): (c: u8)
    ensures ConformingCookie(m, prev, c)
  {
    match m
    case Init(_) => INIT_COOKIE
    case Data(_) => Trunc8(prev + 1)
    case New(_) => BlockCookie(prev)
    case End(_) => BlockCookie(prev)
  }

  /** A byte that serves the message in a port. */
  function Wanted(m: Message, port: nat): u8 {
    match m
    case Data(b) => b
    case Init(a) => if port == 2 then Low(a) else if port == 3 then High(a) else 1
    case New(a) => if port == 2 then Low(a) else if port == 3 then High(a) else 1
    case End(a) => if port == 2 then Low(a) else if port == 3 then High(a) else 0
  }

  /** The first port that does not hold what the message needs; 0 if they all do. */
  function FirstMissing(m: Message, input: Snapshot): nat {
    if !Port1Ok(m, input.port1) then 1
    else if !Port2Ok(m, input.port2) then 2
    else if !Port3Ok(m, input.port3) then 3
    else 0
  }

  /** A sender that writes just what is missing. */
  function SomeChoice(msgs: seq<Message>, s: Sys): Choice
    requires s.sent < |msgs|
  {
    var m := msgs[s.sent];
    var port := FirstMissing(m, s.input);
    Choice(port, if port == 0 then SomeCookie(m, s.input.port0) else Wanted(m, port), 3)
  }

  lemma SomeSenderStep(msgs: seq<Message>, most: nat, ram0: seq<u8>, s: Sys) returns (s': Sys)
    requires WellFormed(msgs) && Inv(msgs, ram0, s) && 3 <= most
    ensures SenderStep(msgs, most, s, SomeChoice(msgs, s), s')
  {
    var m, c := msgs[s.sent], SomeChoice(msgs, s);
    s' := match s.spc
      case Ready0 => if s.output.port0 == READY0 then s.(spc := Ready1) else s
      case Ready1 => if s.output.port1 == READY1 then s.(spc := Prepare(3)) else s
      case Prepare(left) =>
        if c.port == 0 then s.(input := s.input.(port0 := c.value), spc := if m.End? then Finished else Await)
        else s.(input := WithPort(s.input, c.port, c.value), spc := if left > 0 then Prepare(left - 1) else s.spc)
      case Await =>
        if s.output.port0 == s.input.port0 && s.sent + 1 < |msgs| then s.(sent := s.sent + 1, spc := Prepare(3)) else s
      case Finished => s;
    hide Delivered, ReceiverState, ReadyBytes, Pending, Accepted, Preparing, WellFormed, ConformingCookie;
  }

  /** Any other step leaves the measure, and who is helpful, as they are, or lowers the measure. */
  lemma OtherStepsDoNotRaise(msgs: seq<Message>, most: nat, ram0: seq<u8>, p: Party, s: Sys, s': Sys)
    requires WellFormed(msgs) && Inv(msgs, ram0, s) && s.apu.state != Executing
    requires Moves(msgs, most, p, s, s')
    ensures s'.sent < |msgs| && Rank(msgs, most, s') <= Rank(msgs, most, s)
    ensures Rank(msgs, most, s') == Rank(msgs, most, s) ==>
              Helpful(s') == Helpful(s) != p && s' == s.(apc := s'.apc)
  {
    MovesInv(msgs, most, ram0, p, s, s');
    if p == Helpful(s) {
      HelpfulLowers(msgs, most, ram0, s, s');
    } else if p.Sender? {
      var c: Choice :| SenderStep(msgs, most, s, c, s');
      IdleSender(msgs, most, ram0, s, c, s');
    } else {
      IdleApu(msgs, most, ram0, s);
    }
  }

  /** While the APU is the helpful party the sender only waits, or announces nothing new. */
  lemma IdleSender(msgs: seq<Message>, most: nat, ram0: seq<u8>, s: Sys, c: Choice, s': Sys)
    requires WellFormed(msgs) && Inv(msgs, ram0, s) && s.apu.state != Executing
    requires Helpful(s).Apu? && SenderStep(msgs, most, s, c, s')
    ensures s'.sent < |msgs| && s' == s
  {
    hide Delivered, Deliver, WellFormed, Payload, ConformingCookie;
  }

  /** While the sender is the helpful party the APU finds no change. */
  lemma IdleApu(msgs: seq<Message>, most: nat, ram0: seq<u8>, s: Sys)
    requires WellFormed(msgs) && Inv(msgs, ram0, s) && s.apu.state != Executing && Helpful(s).Sender?
    requires Inv(msgs, ram0, ApuStep(s))
    ensures var s' := ApuStep(s);
            && s'.sent < |msgs| && Rank(msgs, most, s') <= Rank(msgs, most, s)
            && (Rank(msgs, most, s') == Rank(msgs, most, s) ==> Helpful(s').Sender? && s' == s.(apc := s'.apc))
  {
    hide Deliver, WellFormed, Payload, ConformingCookie;
  }

  predicate MovesWithin(who: seq<Party>, i: nat, w: nat, p: Party) {
    exists j :: i <= j < i + w && j < |who| && who[j] == p
  }

  /** In every window of `w` steps both parties move. */
  ghost predicate Fair(who: seq<Party>, w: nat) {
    forall i: nat, p: Party :: i + w <= |who| ==> MovesWithin(who, i, w, p)
  }

  ghost predicate Executes(run: seq<Sys>) { exists i :: 0 <= i < |run| && run[i].apu.state == Executing }

  /** Until the helpful party moves, the measure can only stay or fall. */
  lemma {:induction false} FallsWithin(msgs: seq<Message>, most: nat, ram0: seq<u8>, run: seq<Sys>, who: seq<Party>,
                                       i: nat, j: nat)
    returns (k: nat)
    requires WellFormed(msgs) && IsRun(msgs, most, run, who) && Start(ram0, run[0])
    requires i <= j < |who| && !Executes(run)
    requires run[i].sent < |msgs| && who[j] == Helpful(run[i])
    ensures i < k <= j + 1 && run[k].sent < |msgs| && Rank(msgs, most, run[k]) < Rank(msgs, most, run[i])
    decreases j - i
  {
    RunInv(msgs, most, ram0, run, who, i);
    assert Moves(msgs, most, who[i], run[i], run[i + 1]);
    OtherStepsDoNotRaise(msgs, most, ram0, who[i], run[i], run[i + 1]);
    if Rank(msgs, most, run[i + 1]) < Rank(msgs, most, run[i]) {
      k := i + 1;
    } else {
      k := FallsWithin(msgs, most, ram0, run, who, i + 1, j);
    }
  }

  lemma WindowsLeft(w: nat, r: nat, r': nat)
    ensures w * (r + 1) == w * r + w && w <= w * (r + 1)
    ensures r' < r ==> w * (r' + 1) <= w * r
  {
    if r' < r {
      var d := r - r' - 1;
      assert w * r == w * (r' + 1) + w * d;
    }
  }

  lemma {:induction false} FairRunFrom(msgs: seq<Message>, most: nat, ram0: seq<u8>, run: seq<Sys>, who: seq<Party>,
                                       w: nat, i: nat)
    requires WellFormed(msgs) && IsRun(msgs, most, run, who) && Start(ram0, run[0]) && Fair(who, w)
    requires i < |run| && run[i].sent < |msgs|
    requires |who| - i >= w * (Rank(msgs, most, run[i]) + 1)
    ensures Executes(run)
    decreases |who| - i
  {
    if !Executes(run) {
      var r := Rank(msgs, most, run[i]);
      WindowsLeft(w, r, r);
      var p := Helpful(run[i]);
      assert MovesWithin(who, i, w, p);
      var j :| i <= j < i + w && j < |who| && who[j] == p;
      var k := FallsWithin(msgs, most, ram0, run, who, i, j);
      WindowsLeft(w, r, Rank(msgs, most, run[k]));
      FairRunFrom(msgs, most, ram0, run, who, w, k);
    }
  }

  lemma RankAtStart(msgs: seq<Message>, most: nat, s: Sys)
    requires s.sent == 0 < |msgs| && s.spc == Ready0 && s.apc == Boot0
    ensures Rank(msgs, most, s) + 1 <= 16 * (most + 5) * (|msgs| + 1)
  {
    WeightNext(most, |msgs|);
    assert 16 * Weight(most, |msgs| + 1) == 16 * (most + 5) * (|msgs| + 1);
  }

  /** Every fair run reaches EXECUTING, within a number of steps linear in the length of the script. */
  lemma FairRunsExecute(msgs: seq<Message>, most: nat, ram0: seq<u8>, run: seq<Sys>, who: seq<Party>, w: nat)
    requires WellFormed(msgs) && IsRun(msgs, most, run, who) && Start(ram0, run[0]) && Fair(who, w)
    requires |who| >= w * (16 * (most + 5) * (|msgs| + 1))
    ensures Executes(run)
  {
    RunInv(msgs, most, ram0, run, who, 0);
    var r := Rank(msgs, most, run[0]);
    RankAtStart(msgs, most, run[0]);
    MulMono(r + 1, 16 * (most + 5) * (|msgs| + 1), w);
    FairRunFrom(msgs, most, ram0, run, who, w, 0);
  }
}
