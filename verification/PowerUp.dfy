/** What the upload is worth at power-up, when the remembered snapshot and the ports hold anything. */
module PowerUp {
  import opened ApuProtocol
  import opened Upload

  /** Power-up with arbitrary port contents and an arbitrary remembered snapshot. */
  predicate AnyStart(s: Sys) {
    && |s.apu.ram| == RAM_SIZE
    && s.apu.state == Stopped && s.apc == Boot0
    && s.spc == Ready0 && s.sent == 0 && s.log == []
  }

  function ApuAlone(s: Sys, n: nat): (r: Sys)
    requires |s.apu.ram| == RAM_SIZE
    ensures |r.apu.ram| == RAM_SIZE
  {
    if n == 0 then s else ApuStep(ApuAlone(s, n - 1))
  }

  lemma AloneNone(s: Sys)
    requires |s.apu.ram| == RAM_SIZE
    ensures ApuAlone(s, 0) == s
  {
  }

  lemma {:induction false} QuietAlone(s: Sys, n: nat)
    requires AnyStart(s) && s.apu.last.port0 == s.input.port0
    ensures var t := ApuAlone(s, n);
            t.log == [] && (Booting(t.apc) || PolledCookie(t.apc, s.input.port0))
            && t.input == s.input && t.apu.last == s.apu.last
  {
    if n > 0 {
      QuietAlone(s, n - 1);
    }
  }

  lemma AloneToPoll(s: Sys)
    requires AnyStart(s)
    ensures var t := ApuAlone(s, 3);
            t.apc == Poll0 && t.input == s.input && t.apu == s.apu.(state := NotInit) && t.log == []
  {
    assert ApuAlone(s, 1) == ApuStep(s);
    assert ApuAlone(s, 2) == ApuStep(ApuAlone(s, 1));
    assert ApuAlone(s, 3) == ApuStep(ApuAlone(s, 2));
    hide ActStep;
  }

  /** A poll with nobody else running takes in the four input bytes. */
  lemma AlonePolls(s: Sys, n: nat)
    requires |s.apu.ram| == RAM_SIZE && ApuAlone(s, n).apc == Poll0
    ensures ApuAlone(s, n + 4) == ApuAlone(s, n).(apc := Act(ApuAlone(s, n).input))
  {
    assert ApuAlone(s, n + 1) == ApuStep(ApuAlone(s, n));
    assert ApuAlone(s, n + 2) == ApuStep(ApuAlone(s, n + 1));
    assert ApuAlone(s, n + 3) == ApuStep(ApuAlone(s, n + 2));
    hide ActStep;
  }

  lemma NoisyAlone(s: Sys)
    requires AnyStart(s) && s.apu.last.port0 != s.input.port0
    ensures var t := ApuAlone(s, 8); t.log != [] || t.apc.Crashed?
  {
    hide ApuAlone, ApuStep, ActStep;
    AloneNext(s, 7);
    AloneToPoll(s);
    AlonePolls(s, 3);
    NoisyAct(ApuAlone(s, 7));
  }

  lemma AloneNext(s: Sys, n: nat)
    requires |s.apu.ram| == RAM_SIZE
    ensures ApuAlone(s, n + 1) == ApuStep(ApuAlone(s, n))
  {
    hide ApuStep;
  }

  /** A poll that finds another cookie is taken for a message or fails the assertion. */
  lemma NoisyAct(s: Sys)
    requires |s.apu.ram| == RAM_SIZE && s.apc.Act? && s.apc.data.port0 != s.apu.last.port0
    ensures var t := ApuStep(s); t.log != [] || t.apc.Crashed?
  {
    hide Accept, EchoOf, Decode;
  }

  /**
   The C leaves the remembered snapshot and the ports uninitialised. The APU stays quiet until the
   sender's first write exactly when the two happen to agree on port 0; otherwise its first poll
   already accepts a message nobody sent, or fails the assertion.
   */
  lemma QuietBeforeFirstWriteIff(s: Sys)
    requires AnyStart(s)
    ensures (forall n: nat :: var t := ApuAlone(s, n); t.log == [] && !t.apc.Crashed?)
            <==> s.apu.last.port0 == s.input.port0
  {
    hide ApuAlone;
    if s.apu.last.port0 == s.input.port0 {
      forall n: nat
        ensures var t := ApuAlone(s, n); t.log == [] && !t.apc.Crashed?
      {
        QuietAlone(s, n);
      }
    } else {
      NoisyAlone(s);
      assert var t := ApuAlone(s, 8); t.log != [] || t.apc.Crashed?;
    }
  }

  /** If both are 0xCC, the init message is never seen as a change and no run gets anywhere. */
  lemma {:induction false} InitCookiePendingDeadlocks(msgs: seq<Message>, most: nat, run: seq<Sys>,
                                                      who: seq<Party>, i: nat)
    requires WellFormed(msgs) && IsRun(msgs, most, run, who) && AnyStart(run[0]) && i < |run|
    requires run[0].apu.last.port0 == run[0].input.port0 == INIT_COOKIE
    ensures run[i].log == [] && run[i].sent == 0
    ensures run[i].apu.last.port0 == run[i].input.port0 == INIT_COOKIE
    ensures Booting(run[i].apc) || PolledCookie(run[i].apc, INIT_COOKIE)
    ensures run[i].apu.state == (if Booting(run[i].apc) then Stopped else NotInit)
    ensures run[i].spc.Ready0? || run[i].output.port0 == READY0
  {
    if i > 0 {
      InitCookiePendingDeadlocks(msgs, most, run, who, i - 1);
      assert Moves(msgs, most, who[i - 1], run[i - 1], run[i]);
      if who[i - 1].Sender? {
        var c: Choice :| SenderStep(msgs, most, run[i - 1], c, run[i]);
      }
    }
  }
}
