/** For exactly which contents of the remembered snapshot and the ports at power-up every upload arrives. */
module PowerUpExact {
  import opened Bytes
  import opened ApuProtocol
  import opened PowerUp
  import opened Upload
  import opened UploadTheorems

  // ---- what is asked of a power-up

  /** Until its init message is acknowledged the sender writes no 0 to port 1. */
  predicate KeepsPort1(s: Sys, s': Sys) {
    s.sent == 0 && s'.input.port1 != s.input.port1 ==> s'.input.port1 != 0
  }

  /** A run, of such a sender if `kept`. */
  ghost predicate IsKeptRun(kept: bool, msgs: seq<Message>, most: nat, run: seq<Sys>, who: seq<Party>) {
    && IsRun(msgs, most, run, who)
    && (kept ==> forall i :: 0 <= i < |who| ==> KeepsPort1(run[i], run[i + 1]))
  }

  ghost predicate Leads(kept: bool, msgs: seq<Message>, most: nat, run: seq<Sys>, who: seq<Party>, s: Sys, t: Sys) {
    IsKeptRun(kept, msgs, most, run, who) && run[0] == s && run[|who|] == t
  }

  ghost predicate Reaches(kept: bool, msgs: seq<Message>, most: nat, s: Sys, t: Sys) {
    exists run: seq<Sys>, who: seq<Party> :: Leads(kept, msgs, most, run, who, s, t)
  }

  ghost predicate CanExecute(kept: bool, msgs: seq<Message>, most: nat, s: Sys) {
    exists t: Sys :: Reaches(kept, msgs, most, s, t) && t.apu.state == Executing
  }

  /** The APU has not failed, can still get to execute, and if it executes has the script's bytes in its RAM. */
  ghost predicate Fine(kept: bool, msgs: seq<Message>, most: nat, ram0: seq<u8>, s: Sys)
    requires |ram0| == RAM_SIZE
  {
    && !s.apc.Crashed?
    && (s.apu.state == Executing ==> s.apu.ram == Deliver(msgs, ram0).0)
    && CanExecute(kept, msgs, most, s)
  }

  /** From this power-up every state of every run of every script is fine. */
  ghost predicate Delivers(kept: bool, s: Sys)
    requires |s.apu.ram| == RAM_SIZE
  {
    forall msgs: seq<Message>, most: nat, t: Sys ::
      WellFormed(msgs) && 3 <= most && Reaches(kept, msgs, most, s, t) ==> Fine(kept, msgs, most, s.apu.ram, t)
  }

  /** The cookie `i` found after `l` passes for that of a new block. */
  predicate PassesForNew(l: u8, i: u8) { i != l && i != INIT_COOKIE && i != 0 && i != l + 1 && i == BlockCookie(l) }

  predicate Good(kept: bool, s: Sys) {
    var l, i := s.apu.last.port0, s.input.port0;
    && l != INIT_COOKIE && i != INIT_COOKIE
    && (l == i || (kept && s.input.port1 != 0 && PassesForNew(l, i)))
  }

  // ---- runs, step by step

  lemma ReachesSelf(kept: bool, msgs: seq<Message>, most: nat, s: Sys)
    ensures Reaches(kept, msgs, most, s, s)
  {
    assert Leads(kept, msgs, most, [s], [], s, s);
  }

  lemma ReachesStep(kept: bool, msgs: seq<Message>, most: nat, s: Sys, t: Sys, p: Party, u: Sys)
    requires Reaches(kept, msgs, most, s, t) && t.sent < |msgs| && |t.apu.ram| == RAM_SIZE
    requires Moves(msgs, most, p, t, u) && (kept ==> KeepsPort1(t, u))
    ensures Reaches(kept, msgs, most, s, u)
  {
    hide Moves, KeepsPort1;
    var run: seq<Sys>, who: seq<Party> :| Leads(kept, msgs, most, run, who, s, t);
    assert Leads(kept, msgs, most, run + [u], who + [p], s, u);
  }

  lemma ReachesOn(kept: bool, msgs: seq<Message>, most: nat, s: Sys, t: Sys, u: Sys)
    requires Reaches(kept, msgs, most, s, t) && Reaches(kept, msgs, most, t, u)
    ensures Reaches(kept, msgs, most, s, u)
  {
    hide Moves, KeepsPort1;
    var run: seq<Sys>, who: seq<Party> :| Leads(kept, msgs, most, run, who, s, t);
    var run': seq<Sys>, who': seq<Party> :| Leads(kept, msgs, most, run', who', t, u);
    var long, longWho := run + run'[1..], who + who';
    forall i | 0 <= i < |longWho|
      ensures long[i].sent < |msgs| && |long[i].apu.ram| == RAM_SIZE
      ensures Moves(msgs, most, longWho[i], long[i], long[i + 1]) && (kept ==> KeepsPort1(long[i], long[i + 1]))
    {
      if i >= |who| {
        var k := i - |who|;
        assert long[i] == run'[k] && long[i + 1] == run'[k + 1] && longWho[i] == who'[k];
      } else {
        assert long[i] == run[i] && long[i + 1] == run[i + 1] && longWho[i] == who[i];
      }
    }
    assert Leads(kept, msgs, most, long, longWho, s, u);
  }

  // ---- the system as if the two had agreed

  predicate PolledNonzero(a: ApuPc) {
    match a
    case Poll2(_, p1) => p1 != 0
    case Poll3(_, p1, _) => p1 != 0
    case Act(d) => d.port1 != 0
    case _ => true
  }

  /** The stale cookie has not been acted upon; when it is, it passes for a new block. */
  predicate Unpolled(s: Sys, v: Sys) {
    && v.log == [] && s.sent == 0 && s.apu.last.port0 != INIT_COOKIE
    && PassesForNew(s.apu.last.port0, v.apu.last.port0)
    && s.input.port1 != 0 && PolledNonzero(s.apc)
  }

  /** `v` is `s` with the cookie that stands in port 0 remembered, and nothing logged for it. */
  predicate Shadows(s: Sys, v: Sys) {
    && v == s.(apu := v.apu, log := v.log)
    && v.apu.state == s.apu.state && v.apu.ram == s.apu.ram
    && (v.log != [] ==> v.apu.addr == s.apu.addr)
    && (s.apu.last.port0 == v.apu.last.port0 || Unpolled(s, v))
  }

  function ShadowMove(p: Party, v: Sys, s': Sys): Sys
    requires |v.apu.ram| == RAM_SIZE
  {
    if p.Apu? then ApuStep(v) else v.(input := s'.input, spc := s'.spc, sent := s'.sent)
  }

  lemma SenderShadow(msgs: seq<Message>, most: nat, ram0: seq<u8>, s: Sys, c: Choice, s': Sys, v: Sys)
    requires WellFormed(msgs) && Inv(msgs, ram0, v) && Shadows(s, v) && SenderStep(msgs, most, s, c, s')
    requires Unpolled(s, v) ==> KeepsPort1(s, s')
    ensures var v' := ShadowMove(Sender, v, s'); SenderStep(msgs, most, v, c, v') && Shadows(s', v')
    ensures Unpolled(s', ShadowMove(Sender, v, s')) ==> Unpolled(s, v)
  {
    hide ApuStep, Deliver, ConformingCookie, Missing, PayloadOk, Plans, ReceiverState, ReadyBytes, WellFormed;
    SameChoice(msgs, most, s, c, s', v);
  }

  /** The sender sees nothing of the APU but its ports. */
  lemma SameChoice(msgs: seq<Message>, most: nat, s: Sys, c: Choice, s': Sys, v: Sys)
    requires s.sent < |msgs| && v == s.(apu := v.apu, log := v.log) && |v.apu.ram| == RAM_SIZE
    requires SenderStep(msgs, most, s, c, s')
    ensures SenderStep(msgs, most, v, c, ShadowMove(Sender, v, s'))
    ensures s'.apu == s.apu && s'.apc == s.apc && s'.log == s.log && s'.output == s.output
  {
    hide ApuStep, Missing, PayloadOk, ConformingCookie;
  }

  /** Only port 0 of the remembered snapshot matters for the class. */
  lemma SameClass(state: ApuState, l: Snapshot, l': Snapshot, data: Snapshot)
    requires l.port0 == l'.port0
    ensures Classify(state, l, data) == Classify(state, l', data)
  {
  }

  /** Acting on a poll once the two remember the same cookie. */
  lemma ActAgreed(msgs: seq<Message>, ram0: seq<u8>, s: Sys, v: Sys)
    requires WellFormed(msgs) && Inv(msgs, ram0, v) && Shadows(s, v) && s.apc.Act?
    requires s.apu.last.port0 == v.apu.last.port0
    ensures Shadows(ActStep(s), ActStep(v)) && !Unpolled(ActStep(s), ActStep(v))
  {
    SameClass(s.apu.state, s.apu.last, v.apu.last, s.apc.data);
    var d := s.apc.data;
    if d.port0 != v.apu.last.port0 {
      PendingClassified(msgs, ram0, v);
      FirstAccepted(msgs, ram0, v);
    }
    hide Classify, Deliver, ConformingCookie, Inv, WellFormed, Decode;
  }

  /** The first message accepted is the init message, which sets the address. */
  lemma FirstAccepted(msgs: seq<Message>, ram0: seq<u8>, v: Sys)
    requires WellFormed(msgs) && Inv(msgs, ram0, v) && v.apc.Act? && v.apc.data.port0 != v.apu.last.port0
    ensures v.apc.data == v.input
    ensures v.log == [] ==> Classify(v.apu.state, v.apu.last, v.input) == Some(TransferInit)
  {
    PendingClassified(msgs, ram0, v);
    hide Deliver, ConformingCookie;
  }

  /** Acting on the stale cookie: a new block to the one, no change to the other. */
  lemma ActStale(s: Sys, v: Sys)
    requires Shadows(s, v) && Unpolled(s, v) && s.apc.Act? && s.apu.state == NotInit && |s.apu.ram| == RAM_SIZE
    requires s.apc.data.port0 == v.apu.last.port0
    ensures Shadows(ActStep(s), ActStep(v)) && !Unpolled(ActStep(s), ActStep(v))
  {
    hide Decode;
  }

  /** Acting on the init message before the stale cookie was seen: the same to both. */
  lemma ActFirst(s: Sys, v: Sys)
    requires Shadows(s, v) && Unpolled(s, v) && s.apc.Act? && s.apu.state == NotInit && |s.apu.ram| == RAM_SIZE
    requires s.apc.data.port0 == INIT_COOKIE != v.apu.last.port0
    ensures Shadows(ActStep(s), ActStep(v)) && !Unpolled(ActStep(s), ActStep(v))
  {
    hide Decode;
  }

  /** What a poll can find while the stale cookie is unpolled. */
  lemma FoundUnpolled(msgs: seq<Message>, ram0: seq<u8>, s: Sys, v: Sys)
    requires WellFormed(msgs) && Inv(msgs, ram0, v) && Shadows(s, v) && Unpolled(s, v) && s.apc.Act?
    ensures s.apu.state == NotInit && |s.apu.ram| == RAM_SIZE
    ensures s.apc.data.port0 == v.apu.last.port0 || s.apc.data.port0 == INIT_COOKIE != v.apu.last.port0
  {
    hide Deliver, Payload;
  }

  lemma ByteShadow(s: Sys, v: Sys)
    requires Shadows(s, v) && |s.apu.ram| == RAM_SIZE && !s.apc.Act?
    ensures Shadows(ApuStep(s), ApuStep(v)) && (Unpolled(ApuStep(s), ApuStep(v)) ==> Unpolled(s, v))
  {
    hide ActStep;
  }

  lemma ApuShadow(msgs: seq<Message>, ram0: seq<u8>, s: Sys, v: Sys)
    requires WellFormed(msgs) && Inv(msgs, ram0, v) && Shadows(s, v)
    ensures |s.apu.ram| == RAM_SIZE
    ensures Shadows(ApuStep(s), ApuStep(v)) && (Unpolled(ApuStep(s), ApuStep(v)) ==> Unpolled(s, v))
  {
    assert |s.apu.ram| == RAM_SIZE;
    if !s.apc.Act? {
      ByteShadow(s, v);
    } else if s.apu.last.port0 == v.apu.last.port0 {
      hide ActStep, Inv, WellFormed;
      ActAgreed(msgs, ram0, s, v);
    } else {
      hide ActStep, Inv, WellFormed, PassesForNew;
      FoundUnpolled(msgs, ram0, s, v);
      if s.apc.data.port0 == v.apu.last.port0 {
        ActStale(s, v);
      } else {
        ActFirst(s, v);
      }
    }
  }

  /** Any step of `s` is a step of its shadow. */
  lemma ShadowStep(msgs: seq<Message>, most: nat, ram0: seq<u8>, p: Party, s: Sys, s': Sys, v: Sys)
    requires WellFormed(msgs) && Inv(msgs, ram0, v) && Shadows(s, v) && |s.apu.ram| == RAM_SIZE && s.sent < |msgs|
    requires Moves(msgs, most, p, s, s') && (Unpolled(s, v) ==> KeepsPort1(s, s'))
    ensures var v' := ShadowMove(p, v, s');
            && Moves(msgs, most, p, v, v') && Inv(msgs, ram0, v') && Shadows(s', v')
            && (Unpolled(s', v') ==> Unpolled(s, v))
  {
    if p.Apu? {
      hide ApuStep, Inv, WellFormed, Shadows, Unpolled;
      ApuShadow(msgs, ram0, s, v);
      ApuStepInv(msgs, ram0, v);
    } else {
      SameSize(msgs, ram0, v);
      hide ApuStep, Inv, WellFormed, Shadows, Unpolled, SenderStep;
      var c: Choice :| SenderStep(msgs, most, s, c, s');
      SenderShadow(msgs, most, ram0, s, c, s', v);
      SenderStepInv(msgs, most, ram0, v, c, ShadowMove(p, v, s'));
    }
  }

  /** Every run has a shadow that is a run from an agreed power-up. */
  lemma {:induction false} ShadowRun(kept: bool, msgs: seq<Message>, most: nat, ram0: seq<u8>, run: seq<Sys>,
                                     who: seq<Party>, v: Sys) returns (shadow: seq<Sys>)
    requires WellFormed(msgs) && IsKeptRun(kept, msgs, most, run, who)
    requires Inv(msgs, ram0, v) && Shadows(run[0], v) && (kept || !Unpolled(run[0], v))
    ensures IsRun(msgs, most, shadow, who) && |shadow| == |run| && shadow[0] == v
    ensures forall i :: 0 <= i < |run| ==> Shadows(run[i], shadow[i]) && Inv(msgs, ram0, shadow[i])
    ensures forall i :: 0 <= i < |run| ==> kept || !Unpolled(run[i], shadow[i])
    decreases |who|
  {
    hide Moves, KeepsPort1, Inv, Shadows, Unpolled, WellFormed;
    if who == [] {
      shadow := [v];
    } else {
      var n := |who| - 1;
      assert forall i :: 0 <= i < n ==> run[..n + 1][i] == run[i] && who[..n][i] == who[i];
      shadow := ShadowRun(kept, msgs, most, ram0, run[..n + 1], who[..n], v);
      assert run[..n + 1][n] == run[n];
      assert Moves(msgs, most, who[n], run[n], run[n + 1]);
      ShadowStep(msgs, most, ram0, who[n], run[n], run[n + 1], shadow[n]);
      SameSize(msgs, ram0, shadow[n]);
      shadow := shadow + [ShadowMove(who[n], shadow[n], run[n + 1])];
    }
  }

  lemma SameSize(msgs: seq<Message>, ram0: seq<u8>, v: Sys)
    requires Inv(msgs, ram0, v)
    ensures |v.apu.ram| == RAM_SIZE && v.sent < |msgs|
  {
  }

  // ---- a good power-up delivers

  /** The power-up with the standing cookie remembered. */
  function Agreed(s: Sys): Sys { s.(apu := s.apu.(last := s.input)) }

  lemma GoodStart(kept: bool, msgs: seq<Message>, s: Sys)
    requires WellFormed(msgs) && AnyStart(s) && Good(kept, s)
    ensures Start(s.apu.ram, Agreed(s)) && Inv(msgs, s.apu.ram, Agreed(s))
    ensures Shadows(s, Agreed(s)) && (kept || !Unpolled(s, Agreed(s)))
  {
    StartInv(msgs, s.apu.ram, Agreed(s));
    hide Inv;
  }

  /** The choices of a sender that writes just what is missing spare port 1 at first. */
  lemma SomeChoiceKeeps(msgs: seq<Message>, most: nat, s: Sys, s': Sys)
    requires WellFormed(msgs) && s.sent < |msgs| && SenderStep(msgs, most, s, SomeChoice(msgs, s), s')
    ensures KeepsPort1(s, s')
  {
    hide Missing, PayloadOk, ConformingCookie, SomeCookie;
  }

  /** A step that brings the shadow nearer to execution. */
  lemma NextStep(msgs: seq<Message>, most: nat, ram0: seq<u8>, s: Sys, v: Sys) returns (p: Party, s': Sys)
    requires WellFormed(msgs) && Inv(msgs, ram0, v) && Shadows(s, v) && v.apu.state != Executing && 3 <= most
    ensures s.sent < |msgs| && |s.apu.ram| == RAM_SIZE && Moves(msgs, most, p, s, s') && KeepsPort1(s, s')
    ensures |v.apu.ram| == RAM_SIZE && p == Helpful(v)
  {
    SameSize(msgs, ram0, v);
    p := Helpful(v);
    if p.Apu? {
      s' := ApuStep(s);
      ApuKeepsPort1(s);
    } else {
      hide Inv, WellFormed, SenderStep, ApuStep, Unpolled, KeepsPort1;
      var t := SomeSenderStep(msgs, most, ram0, v);
      SameChoice(msgs, most, v, SomeChoice(msgs, v), t, s);
      s' := ShadowMove(Sender, s, t);
      assert SomeChoice(msgs, s) == SomeChoice(msgs, v);
      SomeChoiceKeeps(msgs, most, s, s');
    }
  }

  lemma ApuKeepsPort1(s: Sys)
    requires |s.apu.ram| == RAM_SIZE
    ensures KeepsPort1(s, ApuStep(s))
  {
  }

  /** From any state with a shadow the upload can be brought to its end, and ends right. */
  lemma {:induction false} CanFinish(kept: bool, msgs: seq<Message>, most: nat, ram0: seq<u8>, s: Sys, v: Sys)
    returns (t: Sys)
    requires WellFormed(msgs) && Inv(msgs, ram0, v) && Shadows(s, v) && 3 <= most && (kept || !Unpolled(s, v))
    ensures Reaches(kept, msgs, most, s, t) && t.apu.state == Executing && t.apu.ram == Deliver(msgs, ram0).0
    decreases if v.sent < |msgs| then Rank(msgs, most, v) else 0
  {
    SameSize(msgs, ram0, v);
    if v.apu.state == Executing {
      ExecutingHolds(msgs, ram0, v);
      ReachesSelf(kept, msgs, most, s);
      t := s;
    } else {
      hide Inv, WellFormed, Moves, KeepsPort1, Unpolled, Reaches, Rank, Helpful, ApuStep, Deliver;
      var p, s' := NextStep(msgs, most, ram0, s, v);
      ShadowStep(msgs, most, ram0, p, s, s', v);
      var v' := ShadowMove(p, v, s');
      HelpfulLowers(msgs, most, ram0, v, v');
      t := CanFinish(kept, msgs, most, ram0, s', v');
      ReachesSelf(kept, msgs, most, s);
      ReachesStep(kept, msgs, most, s, s, p, s');
      ReachesOn(kept, msgs, most, s, s', t);
    }
  }

  lemma ExecutingHolds(msgs: seq<Message>, ram0: seq<u8>, v: Sys)
    requires Inv(msgs, ram0, v)
    ensures !v.apc.Crashed? && (v.apu.state == Executing ==> v.apu.ram == Deliver(msgs, ram0).0)
  {
    hide Deliver, Payload;
    if v.apu.state == Executing {
      assert v.log == msgs;
    }
  }

  lemma GoodDelivers(kept: bool, s: Sys)
    requires AnyStart(s) && Good(kept, s)
    ensures Delivers(kept, s)
  {
    forall msgs: seq<Message>, most: nat, t: Sys | WellFormed(msgs) && 3 <= most && Reaches(kept, msgs, most, s, t)
      ensures Fine(kept, msgs, most, s.apu.ram, t)
    {
      GoodReaches(kept, msgs, most, s, t);
    }
  }

  lemma GoodReaches(kept: bool, msgs: seq<Message>, most: nat, s: Sys, t: Sys)
    requires AnyStart(s) && Good(kept, s) && WellFormed(msgs) && 3 <= most && Reaches(kept, msgs, most, s, t)
    ensures Fine(kept, msgs, most, s.apu.ram, t)
  {
    GoodStart(kept, msgs, s);
    hide Good, AnyStart, Inv, WellFormed, Shadows, Unpolled, Reaches, Deliver;
    var run, who := ReachedBy(kept, msgs, most, s, t);
    var shadow := ShadowRun(kept, msgs, most, s.apu.ram, run, who, Agreed(s));
    var v := shadow[|who|];
    ShadowFine(t, v);
    ExecutingHolds(msgs, s.apu.ram, v);
    var end := CanFinish(kept, msgs, most, s.apu.ram, t, v);
  }

  lemma ShadowFine(s: Sys, v: Sys)
    requires Shadows(s, v)
    ensures s.apc == v.apc && s.apu.state == v.apu.state && s.apu.ram == v.apu.ram
  {
  }

  lemma ReachedBy(kept: bool, msgs: seq<Message>, most: nat, s: Sys, t: Sys) returns (run: seq<Sys>, who: seq<Party>)
    requires Reaches(kept, msgs, most, s, t)
    ensures IsKeptRun(kept, msgs, most, run, who) && run[0] == s && run[|who|] == t
  {
    run, who :| Leads(kept, msgs, most, run, who, s, t);
  }

  /** And every fair run from it executes, as soon as from an agreed power-up. */
  lemma GoodRunsExecute(kept: bool, msgs: seq<Message>, most: nat, run: seq<Sys>, who: seq<Party>, w: nat)
    requires WellFormed(msgs) && IsKeptRun(kept, msgs, most, run, who) && AnyStart(run[0]) && Good(kept, run[0])
    requires Fair(who, w) && |who| >= w * (16 * (most + 5) * (|msgs| + 1))
    ensures Executes(run)
  {
    var ram0 := run[0].apu.ram;
    GoodStart(kept, msgs, run[0]);
    hide Good, Inv, WellFormed, Shadows, Unpolled, Start, Fair, Moves, KeepsPort1;
    var shadow := ShadowRun(kept, msgs, most, ram0, run, who, Agreed(run[0]));
    FairRunsExecute(msgs, most, ram0, shadow, who, w);
    var i :| 0 <= i < |shadow| && shadow[i].apu.state == Executing;
    ShadowFine(run[i], shadow[i]);
  }

  // ---- any other power-up fails some upload

  /** The shortest script, and one with a byte in it; the address is what stands in ports 2 and 3. */
  function ShortScript(s: Sys): seq<Message> {
    var a := Word(s.input.port2, s.input.port3);
    [Init(a), End(a)]
  }

  function ByteScript(s: Sys, b: u8): seq<Message> {
    var a := Word(s.input.port2, s.input.port3);
    [Init(a), Data(b), End(a)]
  }

  predicate StartsHere(msgs: seq<Message>, s: Sys) {
    WellFormed(msgs) && msgs[0] == Init(Word(s.input.port2, s.input.port3))
  }

  lemma HereFits(msgs: seq<Message>, s: Sys, p1: u8)
    requires StartsHere(msgs, s)
    ensures Missing(msgs[0], s.input.(port1 := p1)) == 0 && PayloadOk(msgs[0], s.input.(port1 := p1))
  {
    WordParts(s.input.port2, s.input.port3);
    hide Low, High, Word;
  }

  /** The APU has booted, the sender has seen it and may write ports 1 to 3 `budget` times. */
  function Booted(s: Sys, budget: nat): Sys {
    s.(apu := s.apu.(state := NotInit), apc := Poll0, output := s.output.(port0 := READY0, port1 := READY1),
       spc := Prepare(budget))
  }

  lemma BootsAlone(kept: bool, msgs: seq<Message>, most: nat, s: Sys)
    requires AnyStart(s) && WellFormed(msgs)
    ensures Reaches(kept, msgs, most, s, Booted(s, 0).(spc := Ready0))
  {
    hide Reaches;
    ReachesSelf(kept, msgs, most, s);
    var s1 := s.(output := s.output.(port0 := READY0), apc := Boot1);
    ReachesStep(kept, msgs, most, s, s, Apu, s1);
    var s2 := s1.(output := s1.output.(port1 := READY1), apc := Boot2);
    ReachesStep(kept, msgs, most, s, s1, Apu, s2);
    ReachesStep(kept, msgs, most, s, s2, Apu, Booted(s, 0).(spc := Ready0));
  }

  lemma Boots(kept: bool, msgs: seq<Message>, most: nat, s: Sys, budget: nat)
    requires AnyStart(s) && StartsHere(msgs, s) && budget <= most
    ensures Reaches(kept, msgs, most, s, Booted(s, budget))
  {
    HereFits(msgs, s, s.input.port1);
    hide Reaches, ApuStep, Missing, PayloadOk;
    BootsAlone(kept, msgs, most, s);
    var b := Booted(s, budget);
    assert SenderStep(msgs, most, b.(spc := Ready0), Choice(0, 0, 0), b.(spc := Ready1));
    ReachesStep(kept, msgs, most, s, b.(spc := Ready0), Sender, b.(spc := Ready1));
    assert b.input == s.input.(port1 := s.input.port1);
    assert SenderStep(msgs, most, b.(spc := Ready1), Choice(0, 0, budget), b);
    ReachesStep(kept, msgs, most, s, b.(spc := Ready1), Sender, b);
  }

  lemma {:induction false} AloneReaches(kept: bool, msgs: seq<Message>, most: nat, s: Sys, n: nat)
    requires |s.apu.ram| == RAM_SIZE && s.sent < |msgs|
    ensures Reaches(kept, msgs, most, s, ApuAlone(s, n))
  {
    hide ApuStep, Reaches;
    if n == 0 {
      ReachesSelf(kept, msgs, most, s);
    } else {
      AloneReaches(kept, msgs, most, s, n - 1);
      var t := ApuAlone(s, n - 1);
      SparedAlone(s, n - 1);
      ApuKeepsPort1(t);
      ReachesStep(kept, msgs, most, s, t, Apu, ApuStep(t));
    }
  }

  lemma SenderSpared(s: Sys)
    requires |s.apu.ram| == RAM_SIZE
    ensures var t := ApuStep(s); t.spc == s.spc && t.sent == s.sent && t.input == s.input
  {
  }

  lemma {:induction false} SparedAlone(s: Sys, n: nat)
    requires |s.apu.ram| == RAM_SIZE
    ensures var t := ApuAlone(s, n); t.spc == s.spc && t.sent == s.sent && t.input == s.input
  {
    hide ApuStep;
    if n > 0 {
      SparedAlone(s, n - 1);
      SenderSpared(ApuAlone(s, n - 1));
    }
  }

  // ---- deadlocks

  /** The init cookie is up and remembered: no poll finds a change, and the sender waits for an echo. */
  predicate AwaitsForever(s: Sys) {
    && s.spc == Await && s.sent == 0 && s.input.port0 == s.apu.last.port0 == INIT_COOKIE != s.output.port0
    && s.apu.state == NotInit && PolledCookie(s.apc, INIT_COOKIE) && |s.apu.ram| == RAM_SIZE
  }

  /** The ready byte has been overwritten by an echo before the sender saw it. */
  predicate NeverReady(s: Sys) {
    && s.spc == Ready0 && s.sent == 0 && s.input.port0 == s.apu.last.port0 == INIT_COOKIE == s.output.port0
    && s.apu.state == Inited && PolledCookie(s.apc, INIT_COOKIE) && |s.apu.ram| == RAM_SIZE
  }

  predicate Stuck(s: Sys) { AwaitsForever(s) || NeverReady(s) }

  lemma StuckStep(msgs: seq<Message>, most: nat, p: Party, s: Sys, s': Sys)
    requires Stuck(s) && s.sent < |msgs| && Moves(msgs, most, p, s, s')
    ensures Stuck(s')
  {
    if p.Sender? {
      var c: Choice :| SenderStep(msgs, most, s, c, s');
    }
  }

  lemma {:induction false} StuckRun(msgs: seq<Message>, most: nat, run: seq<Sys>, who: seq<Party>, i: nat)
    requires IsRun(msgs, most, run, who) && Stuck(run[0]) && i <= |who|
    ensures Stuck(run[i])
  {
    hide Stuck, Moves;
    if i > 0 {
      StuckRun(msgs, most, run, who, i - 1);
      assert Moves(msgs, most, who[i - 1], run[i - 1], run[i]);
      StuckStep(msgs, most, who[i - 1], run[i - 1], run[i]);
    }
  }

  lemma StuckNeverExecutes(kept: bool, msgs: seq<Message>, most: nat, s: Sys)
    requires Stuck(s)
    ensures !CanExecute(kept, msgs, most, s)
  {
    forall t: Sys | Reaches(kept, msgs, most, s, t)
      ensures t.apu.state != Executing
    {
      var run, who := ReachedBy(kept, msgs, most, s, t);
      StuckRun(msgs, most, run, who, |who|);
    }
  }

  lemma NotDelivered(kept: bool, msgs: seq<Message>, s: Sys, t: Sys)
    requires |s.apu.ram| == RAM_SIZE && WellFormed(msgs) && Reaches(kept, msgs, 3, s, t)
    requires !Fine(kept, msgs, 3, s.apu.ram, t)
    ensures !Delivers(kept, s)
  {
    hide Fine, Reaches, WellFormed;
  }

  /** 0xCC remembered: the init message is never seen. */
  lemma RememberedInitFails(kept: bool, s: Sys)
    requires AnyStart(s) && s.apu.last.port0 == INIT_COOKIE
    ensures !Delivers(kept, s)
  {
    var msgs := ShortScript(s);
    var b := Booted(s, 0);
    HereFits(msgs, s, s.input.port1);
    Boots(kept, msgs, 3, s, 0);
    assert b.input == s.input.(port1 := s.input.port1);
    var t := b.(input := b.input.(port0 := INIT_COOKIE), spc := Await);
    assert SenderStep(msgs, 3, b, Choice(0, INIT_COOKIE, 0), t);
    hide Reaches, PayloadOk, Missing, ApuStep, CanExecute, Delivers;
    ReachesStep(kept, msgs, 3, s, b, Sender, t);
    StuckNeverExecutes(kept, msgs, 3, t);
    NotDelivered(kept, msgs, s, t);
  }

  /** 0xCC in port 0: the APU takes it for an init message, and its echo hides the ready byte. */
  lemma StandingInitFails(kept: bool, s: Sys)
    requires AnyStart(s) && s.apu.last.port0 != INIT_COOKIE == s.input.port0
    ensures !Delivers(kept, s)
  {
    var msgs := ShortScript(s);
    StandingSticks(s);
    hide AnyStart, ApuAlone, Stuck, Reaches, CanExecute, Delivers;
    AloneReaches(kept, msgs, 3, s, 9);
    StuckNeverExecutes(kept, msgs, 3, ApuAlone(s, 9));
    NotDelivered(kept, msgs, s, ApuAlone(s, 9));
  }

  lemma StandingSticks(s: Sys)
    requires AnyStart(s) && s.apu.last.port0 != INIT_COOKIE == s.input.port0
    ensures Stuck(ApuAlone(s, 9))
  {
    AloneToPoll(s);
    hide ApuAlone, ApuStep, NeverReady, ActStep;
    AlonePolls(s, 3);
    SparedAlone(s, 7);
    EchoesStanding(s, ApuAlone(s, 7));
    AloneNext(s, 7);
    AloneNext(s, 8);
  }

  lemma EchoesStanding(s: Sys, t: Sys)
    requires AnyStart(s) && s.apu.last.port0 != INIT_COOKIE == s.input.port0
    requires t.apc == Act(s.input) && t.apu == s.apu.(state := NotInit)
    requires t.spc == Ready0 && t.sent == 0 && t.input == s.input
    ensures var u := ApuStep(t); |u.apu.ram| == RAM_SIZE && NeverReady(ApuStep(u))
  {
    hide Decode;
  }

  // ---- a cookie that passes for something

  /** The booted system after the sender has put `v` into port 1, and once the APU has polled that. */
  function Touched(s: Sys, v: u8): Sys {
    var b := Booted(s, 0);
    b.(input := b.input.(port1 := v))
  }

  function Found(s: Sys, v: u8): Sys
    requires |s.apu.ram| == RAM_SIZE
  {
    var x := Touched(s, v);
    ActStep(x.(apc := Act(x.input)))
  }

  lemma FoundReached(kept: bool, msgs: seq<Message>, s: Sys, v: u8)
    requires AnyStart(s) && StartsHere(msgs, s) && (v != 0 || v == s.input.port1 || !kept)
    ensures Reaches(kept, msgs, 3, s, Found(s, v))
  {
    var b, x := Booted(s, 1), Touched(s, v);
    Boots(kept, msgs, 3, s, 1);
    HereFits(msgs, s, v);
    assert x.input == s.input.(port1 := v);
    hide Reaches, Missing, PayloadOk, ActStep;
    assert SenderStep(msgs, 3, b, Choice(1, v, 0), x);
    ReachesStep(kept, msgs, 3, s, b, Sender, x);
    PolledReached(kept, msgs, s, x);
  }

  lemma PolledReached(kept: bool, msgs: seq<Message>, s: Sys, x: Sys)
    requires Reaches(kept, msgs, 3, s, x) && |x.apu.ram| == RAM_SIZE && x.sent < |msgs| && x.apc == Poll0
    ensures Reaches(kept, msgs, 3, s, ActStep(x.(apc := Act(x.input))))
  {
    hide ApuAlone, Reaches, ActStep, ApuStep;
    PollsHere(x);
    AloneReaches(kept, msgs, 3, x, 5);
    ReachesOn(kept, msgs, 3, s, x, ApuAlone(x, 5));
  }

  lemma PollsHere(x: Sys)
    requires |x.apu.ram| == RAM_SIZE && x.apc == Poll0
    ensures ApuAlone(x, 5) == ActStep(x.(apc := Act(x.input)))
  {
    hide ApuAlone, ActStep;
    AloneNone(x);
    AlonePolls(x, 0);
    AloneNext(x, 4);
  }

  /** An unknown cookie fails the assertion. */
  lemma UnknownFails(kept: bool, s: Sys)
    requires AnyStart(s) && Classify(NotInit, s.apu.last, s.input).None?
    ensures !Delivers(kept, s)
  {
    var msgs, v := ShortScript(s), s.input.port1;
    FoundReached(kept, msgs, s, v);
    assert Touched(s, v).input == s.input;
    assert Found(s, v).apc.Crashed?;
    hide Found, Reaches, CanExecute, Delivers;
    NotDelivered(kept, msgs, s, Found(s, v));
  }

  /** What passes for an end message makes the APU execute before it has anything. */
  lemma PassingEndFails(kept: bool, s: Sys)
    requires AnyStart(s) && PassesForNew(s.apu.last.port0, s.input.port0) && (kept ==> s.input.port1 == 0)
    ensures !Delivers(kept, s)
  {
    var a := Word(s.input.port2, s.input.port3);
    var b: u8 := if s.apu.ram[a] == 0 then 1 else 0;
    var msgs := ByteScript(s, b);
    FoundReached(kept, msgs, s, 0);
    ByteDelivered(msgs, s.apu.ram, a, b);
    var t := Found(s, 0);
    EndFound(s);
    hide Found, Reaches, CanExecute, Delivers, Deliver;
    NotDelivered(kept, msgs, s, t);
  }

  lemma EndFound(s: Sys)
    requires AnyStart(s) && PassesForNew(s.apu.last.port0, s.input.port0)
    ensures Found(s, 0).apu.state == Executing && Found(s, 0).apu.ram == s.apu.ram
  {
    hide Decode, EchoOf;
  }

  lemma ByteDelivered(msgs: seq<Message>, ram0: seq<u8>, a: u16, b: u8)
    requires |ram0| == RAM_SIZE && msgs == [Init(a), Data(b), End(a)]
    ensures Deliver(msgs, ram0).0 == ram0[a := b]
  {
    DeliverSnoc([], ram0, Init(a));
    DeliverSnoc([Init(a)], ram0, Data(b));
    DeliverSnoc([Init(a), Data(b)], ram0, End(a));
    assert [] + [Init(a)] == [Init(a)] && [Init(a)] + [Data(b)] == [Init(a), Data(b)];
    assert [Init(a), Data(b)] + [End(a)] == msgs;
  }

  lemma NothingDelivered(msgs: seq<Message>, ram0: seq<u8>, a: u16)
    requires |ram0| == RAM_SIZE && msgs == [Init(a), End(a)]
    ensures Deliver(msgs, ram0).0 == ram0
  {
    DeliverSnoc([], ram0, Init(a));
    DeliverSnoc([Init(a)], ram0, End(a));
    assert [] + [Init(a)] == [Init(a)] && [Init(a)] + [End(a)] == msgs;
  }

  predicate PassesForData(l: u8, i: u8) { i != l && i != INIT_COOKIE && (i == 0 || i == l + 1) }

  /** What passes for a data byte is stored, and stays though the upload goes on as if nothing had been. */
  lemma PassingDataFails(kept: bool, s: Sys)
    requires AnyStart(s) && PassesForData(s.apu.last.port0, s.input.port0)
    ensures !Delivers(kept, s)
  {
    var v: u8 := if s.apu.ram[s.apu.addr] == 1 then 2 else 1;
    var msgs, ram1 := ShortScript(s), s.apu.ram[s.apu.addr := v];
    FoundReached(kept, msgs, s, v);
    var t := Found(s, v);
    DataFound(msgs, s, v);
    NothingDelivered(msgs, s.apu.ram, Word(s.input.port2, s.input.port3));
    NothingDelivered(msgs, ram1, Word(s.input.port2, s.input.port3));
    hide Found, Reaches, CanExecute, Delivers, Deliver, Inv, Shadows, Unpolled;
    var end := CanFinish(kept, msgs, 3, ram1, t, t.(log := []));
    ReachesOn(kept, msgs, 3, s, t, end);
    assert ram1[s.apu.addr] != s.apu.ram[s.apu.addr];
    NotDelivered(kept, msgs, s, end);
  }

  lemma DataFound(msgs: seq<Message>, s: Sys, v: u8)
    requires AnyStart(s) && StartsHere(msgs, s) && PassesForData(s.apu.last.port0, s.input.port0)
    ensures var t := Found(s, v);
            && Inv(msgs, s.apu.ram[s.apu.addr := v], t.(log := []))
            && Shadows(t, t.(log := [])) && !Unpolled(t, t.(log := []))
  {
    HereFits(msgs, s, v);
    DataTaken(s, v);
    var t := Found(s, v);
    assert t.input == s.input.(port1 := v);
    hide Found, Missing, PayloadOk, WellFormed;
  }

  lemma DataTaken(s: Sys, v: u8)
    requires AnyStart(s) && PassesForData(s.apu.last.port0, s.input.port0)
    ensures var t, x := Found(s, v), Touched(s, v);
            && t == x.(apu := t.apu, log := t.log)
            && t.apu.ram == s.apu.ram[s.apu.addr := v] && t.apu.state == NotInit && t.apu.last == x.input
  {
    hide Decode;
  }

  // ---- the exact condition

  /**
   An upload arrives after power-up, whatever the script and the interleaving, if and only if neither
   the remembered cookie nor the one standing in port 0 is 0xCC, and either they are the same, or the
   one passes for a new block after the other while port 1 holds, and the sender keeps there until its
   init message is acknowledged, something other than 0.
   */
  lemma DeliversIff(kept: bool, s: Sys)
    requires AnyStart(s)
    ensures Delivers(kept, s) <==> Good(kept, s)
  {
    hide Delivers;
    var l, i := s.apu.last.port0, s.input.port0;
    if Good(kept, s) {
      GoodDelivers(kept, s);
    } else if l == INIT_COOKIE {
      RememberedInitFails(kept, s);
    } else if i == INIT_COOKIE {
      StandingInitFails(kept, s);
    } else if PassesForData(l, i) {
      PassingDataFails(kept, s);
    } else if PassesForNew(l, i) {
      PassingEndFails(kept, s);
    } else {
      UnknownFails(kept, s);
    }
  }
}
