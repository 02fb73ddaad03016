/**
 The upload handshake as two concurrent parties over the two 4-byte port arrays. Every access to
 a shared byte is one atomic step; the guest CPU is any sender that follows the protocol.
 */
module Upload {
  import opened Bytes
  import opened ApuProtocol

  /** What a sender means by one transfer. */
  datatype Message = Init(addr: u16) | New(addr: u16) | Data(value: u8) | End(entry: u16)

  /** Where the APU thread is: start-up writes, the four port reads, the decision, the echo, or the final wait. */
  datatype ApuPc =
    | Boot0 | Boot1 | Boot2
    | Poll0
    | Poll1(p0: u8)
    | Poll2(p0: u8, p1: u8)
    | Poll3(p0: u8, p1: u8, p2: u8)
    | Act(data: Snapshot)
    | Echo(cookie: u8)
    | Spin
    | Crashed

  /** Where the sender is; preparing a message it may still write ports 1 to 3 `left` times. */
  datatype SenderPc = Ready0 | Ready1 | Prepare(left: nat) | Await | Finished

  /** `sent` messages have been acknowledged; `log` is what the receiver has accepted so far. */
  datatype Sys = Sys(apu: Receiver, apc: ApuPc, input: Snapshot, output: Snapshot,
                     spc: SenderPc, sent: nat, log: seq<Message>)

  datatype Party = Apu | Sender

  /** An upload script: one init, then data and new blocks, closed by the only end message. */
  predicate WellFormed(msgs: seq<Message>) {
    && 2 <= |msgs|
    && msgs[0].Init?
    && forall i :: 0 < i < |msgs| ==> !msgs[i].Init? && (msgs[i].End? <==> i == |msgs| - 1)
  }

  // ---- the APU thread

  function Decode(t: TransferType, data: Snapshot): Message
    requires !t.TransferNoChange?
  {
    match t
    case TransferInit => Init(Word(data.port2, data.port3))
    case TransferNew => New(Word(data.port2, data.port3))
    case TransferData => Data(data.port1)
    case TransferEnd => End(Word(data.port2, data.port3))
  }

  function ActStep(s: Sys): Sys
    requires s.apc.Act? && |s.apu.ram| == RAM_SIZE
  {
    var data := s.apc.data;
    match Classify(s.apu.state, s.apu.last, data)
    case None => s.(apc := Crashed)
    case Some(t) =>
      if t.TransferNoChange? then s.(apc := Poll0) else
      var r := Accept(s.apu, t, data);
      s.(apu := r,
         log := s.log + [Decode(t, data)],
         apc := if t.TransferEnd? then Spin
                else match EchoOf(r.state, t, data) case Some(c) => Echo(c) case None => Poll0)
  }

  /** One atomic step of the APU thread; the final wait and a failed assertion only idle. */
  function ApuStep(s: Sys): Sys
    requires |s.apu.ram| == RAM_SIZE
  {
    match s.apc
    case Boot0 => s.(output := s.output.(port0 := READY0), apc := Boot1)
    case Boot1 => s.(output := s.output.(port1 := READY1), apc := Boot2)
    case Boot2 => s.(apu := s.apu.(state := NotInit), apc := Poll0)
    case Poll0 => s.(apc := Poll1(s.input.port0))
    case Poll1(p0) => s.(apc := Poll2(p0, s.input.port1))
    case Poll2(p0, p1) => s.(apc := Poll3(p0, p1, s.input.port2))
    case Poll3(p0, p1, p2) => s.(apc := Act(Snapshot(p0, p1, p2, s.input.port3)))
    case Act(_) => ActStep(s)
    case Echo(c) => s.(output := s.output.(port0 := c), apc := Poll0)
    case Spin => s
    case Crashed => s
  }

  // ---- the sender

  /** A cookie the protocol allows after `prev`; a data byte may count on or restart at 0. */
  predicate ConformingCookie(m: Message, prev: u8, c: u8) {
    match m
    case Init(_) => c == INIT_COOKIE
    case Data(_) => c != prev && (c == 0 || c == prev + 1)
    case New(_) => c == BlockCookie(prev)
    case End(_) => c == BlockCookie(prev)
  }

  predicate Port1Ok(m: Message, v: u8) {
    match m
    case Init(_) => true
    case Data(b) => v == b
    case New(_) => v != 0
    case End(_) => v == 0
  }

  predicate Port2Ok(m: Message, v: u8) {
    match m
    case Init(a) => v == Low(a)
    case Data(_) => true
    case New(a) => v == Low(a)
    case End(a) => v == Low(a)
  }

  predicate Port3Ok(m: Message, v: u8) {
    match m
    case Init(a) => v == High(a)
    case Data(_) => true
    case New(a) => v == High(a)
    case End(a) => v == High(a)
  }

  /** Ports 1 to 3 hold what the message needs. */
  predicate PayloadOk(m: Message, input: Snapshot) {
    Port1Ok(m, input.port1) && Port2Ok(m, input.port2) && Port3Ok(m, input.port3)
  }

  /** How many of them do not yet. */
  function Missing(m: Message, input: Snapshot): nat {
    (if Port1Ok(m, input.port1) then 0 else 1) + (if Port2Ok(m, input.port2) then 0 else 1)
    + (if Port3Ok(m, input.port3) then 0 else 1)
  }

  function WithPort(p: Snapshot, port: nat, value: u8): Snapshot {
    match port
    case 0 => p.(port0 := value)
    case 1 => p.(port1 := value)
    case 2 => p.(port2 := value)
    case _ => p.(port3 := value)
  }

  /** What the sender may choose: the port it writes, the byte, and the writes it plans for its next message. */
  datatype Choice = Choice(port: nat, value: u8, budget: nat)

  /** A plan for a message: enough writes for what is missing, and at most `most`. */
  predicate Plans(m: Message, input: Snapshot, most: nat, budget: nat) { Missing(m, input) <= budget <= most }

  /**
   One atomic step of the sender. For each message it writes ports 1 to 3 in any order, any of them
   several times and with any bytes in between, as long as it ends; only when it puts up the cookie
   must the payload be there.
   */
  ghost predicate SenderStep(msgs: seq<Message>, most: nat, s: Sys, c: Choice, s': Sys)
    requires s.sent < |msgs|
  {
    var m := msgs[s.sent];
    match s.spc
    case Ready0 => s' == if s.output.port0 == READY0 then s.(spc := Ready1) else s
    case Ready1 =>
      if s.output.port1 == READY1 then Plans(m, s.input, most, c.budget) && s' == s.(spc := Prepare(c.budget))
      else s' == s
    case Prepare(left) =>
      if c.port == 0 then
        && PayloadOk(m, s.input) && ConformingCookie(m, s.input.port0, c.value)
        && s' == s.(input := s.input.(port0 := c.value), spc := if m.End? then Finished else Await)
      else
        && c.port <= 3 && 0 < left && Missing(m, s'.input) < left
        && s' == s.(input := WithPort(s.input, c.port, c.value), spc := Prepare(left - 1))
    case Await =>
      if s.output.port0 == s.input.port0 && s.sent + 1 < |msgs| then
        && Plans(msgs[s.sent + 1], s.input, most, c.budget)
        && s' == s.(sent := s.sent + 1, spc := Prepare(c.budget))
      else s' == s
    case Finished => s' == s
  }

  ghost predicate Moves(msgs: seq<Message>, most: nat, who: Party, s: Sys, s': Sys)
    requires s.sent < |msgs| && |s.apu.ram| == RAM_SIZE
  {
    match who
    case Apu => s' == ApuStep(s)
    case Sender => exists c: Choice :: SenderStep(msgs, most, s, c, s')
  }

  /** Power-up: nothing is known of the ports and the remembered snapshot but that no cookie is pending. */
  predicate Start(ram0: seq<u8>, s: Sys) {
    && |ram0| == RAM_SIZE
    && s.apu.state == Stopped && s.apu.ram == ram0 && s.apc == Boot0
    && s.apu.last.port0 == s.input.port0 != INIT_COOKIE
    && s.spc == Ready0 && s.sent == 0 && s.log == []
  }

  /** A run: `run[i+1]` is reached from `run[i]` by a step of `who[i]`. */
  ghost predicate IsRun(msgs: seq<Message>, most: nat, run: seq<Sys>, who: seq<Party>) {
    && |run| == |who| + 1
    && forall i :: 0 <= i < |who| ==>
         run[i].sent < |msgs| && |run[i].apu.ram| == RAM_SIZE && Moves(msgs, most, who[i], run[i], run[i + 1])
  }

  // ---- the reference delivery of a script

  /** RAM and write address once `msgs` have been delivered in order, starting from `ram0`. */
  function Deliver(msgs: seq<Message>, ram0: seq<u8>): (r: (seq<u8>, u16))
    requires |ram0| == RAM_SIZE
    ensures |r.0| == RAM_SIZE
  {
    if msgs == [] then (ram0, 0) else
    var (ram, addr) := Deliver(msgs[..|msgs| - 1], ram0);
    match msgs[|msgs| - 1]
    case Init(a) => (ram, a)
    case New(a) => (ram, a)
    case Data(b) => (ram[addr := b], Trunc16(addr + 1))
    case End(_) => (ram, addr)
  }

  // ---- the inductive invariant

  predicate Booting(a: ApuPc) { a.Boot0? || a.Boot1? || a.Boot2? }

  /** A poll in progress that began with the cookie `c`. */
  predicate PolledCookie(a: ApuPc, c: u8) {
    match a
    case Poll0 => true
    case Poll1(p0) => p0 == c
    case Poll2(p0, _) => p0 == c
    case Poll3(p0, _, _) => p0 == c
    case Act(d) => d.port0 == c
    case _ => false
  }

  /** A poll in progress whose bytes so far are those of `input`: it is not torn. */
  predicate PolledInput(a: ApuPc, input: Snapshot) {
    match a
    case Poll0 => true
    case Poll1(p0) => p0 == input.port0
    case Poll2(p0, p1) => p0 == input.port0 && p1 == input.port1
    case Poll3(p0, p1, p2) => p0 == input.port0 && p1 == input.port1 && p2 == input.port2
    case Act(d) => d == input
    case _ => false
  }

  predicate Committed(spc: SenderPc) { spc.Await? || spc.Finished? }

  /** The payload is there once the cookie is up; before, the writes left are enough for what is missing. */
  predicate Payload(m: Message, spc: SenderPc, input: Snapshot) {
    && (Committed(spc) ==> PayloadOk(m, input))
    && (spc.Prepare? ==> Missing(m, input) <= spc.left)
  }

  predicate Delivered(msgs: seq<Message>, ram0: seq<u8>, s: Sys)
    requires |ram0| == RAM_SIZE
  {
    && |s.log| <= |msgs|
    && s.log == msgs[..|s.log|]
    && s.apu.ram == Deliver(s.log, ram0).0
    && (s.log != [] ==> s.apu.addr == Deliver(s.log, ram0).1)
  }

  predicate ReceiverState(msgs: seq<Message>, s: Sys) {
    && s.apu.state == (if s.log == [] then (if Booting(s.apc) then Stopped else NotInit)
                       else if |s.log| < |msgs| then Inited else Executing)
    && (s.apc.Spin? <==> |s.log| == |msgs|)
    && (Booting(s.apc) ==> s.log == [])
  }

  /** The start-up bytes 0xAA, 0xBB stay until the first echo. */
  predicate ReadyBytes(s: Sys) {
    && (s.log == [] && (!s.apc.Boot0? || !s.spc.Ready0?) ==> s.output.port0 == READY0)
    && (s.log == [] && !s.apc.Boot0? && !s.apc.Boot1? ==> s.output.port1 == READY1)
  }

  /** The sender has not put the next cookie up yet: whatever the receiver reads is no change. */
  predicate Preparing(s: Sys) {
    && |s.log| == s.sent
    && s.input.port0 == s.apu.last.port0
    && (Booting(s.apc) || PolledCookie(s.apc, s.apu.last.port0))
    && (s.sent == 0 ==> s.input.port0 != INIT_COOKIE)
    && (s.sent > 0 ==> !s.spc.Ready0? && !s.spc.Ready1? && s.output.port0 == s.apu.last.port0)
  }

  /** The cookie is up but the receiver has not accepted it: a poll is either old or the whole message. */
  predicate Pending(msgs: seq<Message>, s: Sys)
    requires s.sent < |msgs|
  {
    && |s.log| == s.sent
    && ConformingCookie(msgs[s.sent], s.apu.last.port0, s.input.port0)
    && s.input.port0 != s.apu.last.port0
    && (Booting(s.apc) || PolledCookie(s.apc, s.apu.last.port0) || PolledInput(s.apc, s.input))
    && s.output.port0 != s.input.port0
    && (s.sent > 0 ==> s.output.port0 == s.apu.last.port0)
  }

  /** The receiver has accepted the message; it echoes the cookie, then polls it as no change. */
  predicate Accepted(s: Sys) {
    && |s.log| == s.sent + 1
    && s.input.port0 == s.apu.last.port0
    && (s.apc.Spin?
        || (s.apc == Echo(s.input.port0) && s.output.port0 != s.input.port0)
        || (PolledCookie(s.apc, s.input.port0) && s.output.port0 == s.input.port0))
  }

  predicate Inv(msgs: seq<Message>, ram0: seq<u8>, s: Sys) {
    && |ram0| == RAM_SIZE
    && s.sent < |msgs|
    && Delivered(msgs, ram0, s)
    && ReceiverState(msgs, s)
    && ReadyBytes(s)
    && Payload(msgs[s.sent], s.spc, s.input)
    && (s.spc.Finished? ==> msgs[s.sent].End?)
    && (s.spc.Await? ==> !msgs[s.sent].End?)
    && (if Committed(s.spc) then Pending(msgs, s) || Accepted(s) else Preparing(s))
  }

  // ---- the invariant is inductive

  lemma StartInv(msgs: seq<Message>, ram0: seq<u8>, s: Sys)
    requires WellFormed(msgs) && Start(ram0, s)
    ensures Inv(msgs, ram0, s)
  {
  }

  /** A pending message is classified as what the sender meant. */
  lemma PendingClassified(msgs: seq<Message>, ram0: seq<u8>, s: Sys)
    requires WellFormed(msgs) && Inv(msgs, ram0, s) && Committed(s.spc) && Pending(msgs, s)
    requires s.apc == Act(s.input)
    ensures Classify(s.apu.state, s.apu.last, s.input).Some?
    ensures var t := Classify(s.apu.state, s.apu.last, s.input).value;
            !t.TransferNoChange? && Decode(t, s.input) == msgs[s.sent]
  {
    var m := msgs[s.sent];
    if s.sent > 0 {
      assert s.apu.state == Inited;
    }
  }

  lemma DeliverSnoc(msgs: seq<Message>, ram0: seq<u8>, m: Message)
    requires |ram0| == RAM_SIZE
    ensures Deliver(msgs + [m], ram0) ==
            var (ram, addr) := Deliver(msgs, ram0);
            match m
            case Init(a) => (ram, a)
            case New(a) => (ram, a)
            case Data(b) => (ram[addr := b], Trunc16(addr + 1))
            case End(_) => (ram, addr)
  {
    var all := msgs + [m];
    assert all[..|all| - 1] == msgs && all[|all| - 1] == m && all != [];
  }

  /** Accepting the next message of the script delivers it. */
  lemma AcceptDelivers(msgs: seq<Message>, ram0: seq<u8>, s: Sys, t: TransferType, data: Snapshot)
    requires |ram0| == RAM_SIZE && Delivered(msgs, ram0, s) && |s.log| < |msgs|
    requires !t.TransferNoChange? && Decode(t, data) == msgs[|s.log|] && (s.log == [] ==> t.TransferInit?)
    ensures var r, log := Accept(s.apu, t, data), s.log + [Decode(t, data)];
            log == msgs[..|log|] && r.ram == Deliver(log, ram0).0 && r.addr == Deliver(log, ram0).1
  {
    DeliverSnoc(s.log, ram0, Decode(t, data));
    hide Deliver;
    assert msgs[..|s.log| + 1] == msgs[..|s.log|] + [msgs[|s.log|]];
  }

  /** A poll that found the old cookie changes nothing but the position. */
  lemma QuietActInv(msgs: seq<Message>, ram0: seq<u8>, s: Sys)
    requires WellFormed(msgs) && Inv(msgs, ram0, s) && s.apc.Act? && s.apc.data.port0 == s.apu.last.port0
    ensures Inv(msgs, ram0, ActStep(s))
  {
    assert |s.apu.ram| == RAM_SIZE;
    hide Delivered, Deliver, Payload, ConformingCookie, WellFormed;
    SameDelivered(msgs, ram0, s, ActStep(s));
  }

  lemma SameDelivered(msgs: seq<Message>, ram0: seq<u8>, s: Sys, s': Sys)
    requires |ram0| == RAM_SIZE && Delivered(msgs, ram0, s) && s'.log == s.log && s'.apu == s.apu
    ensures Delivered(msgs, ram0, s')
  {
    hide Deliver;
  }

  /** What accepting a message of class `t` does to the system. */
  lemma ActAccepts(msgs: seq<Message>, ram0: seq<u8>, s: Sys, t: TransferType)
    requires WellFormed(msgs) && Inv(msgs, ram0, s) && s.apc.Act? && s.apc.data.port0 != s.apu.last.port0
    requires Classify(s.apu.state, s.apu.last, s.input) == Some(t) && !t.TransferNoChange?
    requires Decode(t, s.input) == msgs[s.sent]
    ensures var s' := ActStep(s);
            && s.apc == Act(s.input) && Committed(s.spc) && Pending(msgs, s)
            && s' == s.(apu := Accept(s.apu, t, s.input), log := s.log + [msgs[s.sent]],
                        apc := if t.TransferEnd? then Spin else Echo(s.input.port0))
  {
    hide Deliver, Payload, ConformingCookie, Classify;
    if s.sent > 0 {
      assert s.apu.state == Inited;
    }
  }

  lemma ActInv(msgs: seq<Message>, ram0: seq<u8>, s: Sys)
    requires WellFormed(msgs) && Inv(msgs, ram0, s) && s.apc.Act?
    ensures Inv(msgs, ram0, ActStep(s))
  {
    if s.apc.data.port0 == s.apu.last.port0 {
      QuietActInv(msgs, ram0, s);
    } else {
      PendingClassified(msgs, ram0, s);
      var t := Classify(s.apu.state, s.apu.last, s.input).value;
      ActAccepts(msgs, ram0, s, t);
      AcceptDelivers(msgs, ram0, s, t, s.input);
      hide ActStep, Deliver, Payload, ConformingCookie, Classify;
    }
  }

  lemma ApuStepInv(msgs: seq<Message>, ram0: seq<u8>, s: Sys)
    requires WellFormed(msgs) && Inv(msgs, ram0, s)
    ensures Inv(msgs, ram0, ApuStep(s))
  {
    if s.apc.Act? {
      ActInv(msgs, ram0, s);
    } else {
      OtherApuStepInv(msgs, ram0, s);
    }
  }

  /** The steps that move a byte, announce readiness or idle. */
  lemma OtherApuStepInv(msgs: seq<Message>, ram0: seq<u8>, s: Sys)
    requires WellFormed(msgs) && Inv(msgs, ram0, s) && !s.apc.Act?
    ensures Inv(msgs, ram0, ApuStep(s))
  {
    hide Deliver, WellFormed, Payload, ConformingCookie, ActStep;
  }

  lemma SenderStepInv(msgs: seq<Message>, most: nat, ram0: seq<u8>, s: Sys, c: Choice, s': Sys)
    requires WellFormed(msgs) && Inv(msgs, ram0, s) && SenderStep(msgs, most, s, c, s')
    ensures Inv(msgs, ram0, s')
  {
    hide Deliver, Port1Ok, Port2Ok, Port3Ok;
  }
}
