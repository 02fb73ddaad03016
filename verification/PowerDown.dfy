/**
 Power-down writes STOPPED without a lock and waits for the APU thread, which looks at the state only
 between two polls and in the wait after an upload: when the write is lost.
 */
module PowerDown {
  import opened ApuProtocol
  import opened PowerUp
  import opened Upload

  /** Messages that write the state: the init cookie, or the cookie of a block with port 1 at 0. */
  predicate OverwritesState(last: Snapshot, data: Snapshot) {
    && data.port0 != last.port0
    && (data.port0 == INIT_COOKIE ||
        (data.port0 != 0 && data.port0 != last.port0 + 1 && data.port0 == BlockCookie(last.port0) && data.port1 == 0))
  }

  /** The thread's next step writes the state: it leaves its start-up, or acts on such a message. */
  predicate Loses(s: Sys) { s.apc.Boot2? || (s.apc.Act? && OverwritesState(s.apu.last, s.apc.data)) }

  // ---- any interleaving

  lemma StepKeepsStoppedIff(s: Sys)
    requires |s.apu.ram| == RAM_SIZE && s.apu.state == Stopped
    ensures ApuStep(s).apu.state == Stopped <==> !Loses(s)
  {
    hide Decode, EchoOf;
  }

  /** No step of either party stops the APU. */
  lemma StepStaysUp(msgs: seq<Message>, most: nat, p: Party, s: Sys, s': Sys)
    requires s.sent < |msgs| && |s.apu.ram| == RAM_SIZE && Moves(msgs, most, p, s, s')
    ensures p.Sender? ==> s'.apu == s.apu && s'.apc == s.apc
    ensures s.apu.state != Stopped ==> s'.apu.state != Stopped
  {
    hide Decode, EchoOf;
    if p.Sender? {
      hide ApuStep;
      var c: Choice :| SenderStep(msgs, most, s, c, s');
    }
  }

  predicate NeverLoses(run: seq<Sys>, who: seq<Party>, j: nat)
    requires j <= |who| <= |run|
  {
    forall k :: 0 <= k < j && who[k].Apu? ==> !Loses(run[k])
  }

  /**
   From the write on, whatever sender and thread do: the state is still STOPPED if and only if the
   thread has neither left its start-up nor acted on an init or end message since; otherwise it is
   lost for good, so that no later check of the thread sees it.
   */
  lemma {:induction false} PowerDownSurvivesIff(msgs: seq<Message>, most: nat, run: seq<Sys>, who: seq<Party>, j: nat)
    requires IsRun(msgs, most, run, who) && run[0].apu.state == Stopped && j <= |who|
    ensures run[j].apu.state == Stopped <==> NeverLoses(run, who, j)
  {
    if j > 0 {
      PowerDownSurvivesIff(msgs, most, run, who, j - 1);
      var s, s' := run[j - 1], run[j];
      assert Moves(msgs, most, who[j - 1], s, s');
      hide IsRun, Moves, ApuStep, SenderStep;
      StepStaysUp(msgs, most, who[j - 1], s, s');
      if who[j - 1].Apu? && s.apu.state == Stopped {
        StepKeepsStoppedIff(s);
        ApuMoves(msgs, most, s, s');
      }
    }
  }

  lemma ApuMoves(msgs: seq<Message>, most: nat, s: Sys, s': Sys)
    requires s.sent < |msgs| && |s.apu.ram| == RAM_SIZE && Moves(msgs, most, Apu, s, s')
    ensures s' == ApuStep(s)
  {
    hide ApuStep;
  }

  // ---- foreseen from the state at the write

  predicate Polling(a: ApuPc) { a.Poll0? || a.Poll1? || a.Poll2? || a.Poll3? || a.Act? }

  /** What the poll in hand will have read, if nobody writes the ports meanwhile. */
  function PollBytes(s: Sys): Snapshot {
    match s.apc
    case Poll1(p0) => s.input.(port0 := p0)
    case Poll2(p0, p1) => s.input.(port0 := p0, port1 := p1)
    case Poll3(p0, p1, p2) => s.input.(port0 := p0, port1 := p1, port2 := p2)
    case Act(data) => data
    case _ => s.input
  }

  /** Steps until the thread has decided on that poll, or has left its start-up. */
  function StepsToDecision(a: ApuPc): nat {
    match a
    case Boot0 => 3
    case Boot1 => 2
    case Boot2 => 1
    case Poll0 => 5
    case Poll1(_) => 4
    case Poll2(_, _) => 3
    case Poll3(_, _, _) => 2
    case Act(_) => 1
    case Echo(_) => 1
    case _ => 0
  }

  lemma StepTowardsDecision(s: Sys)
    requires |s.apu.ram| == RAM_SIZE && StepsToDecision(s.apc) > 1 && s.apu.state == Stopped
    ensures var t := ApuStep(s);
            && t.apu == s.apu && PollBytes(t) == PollBytes(s)
            && Booting(t.apc) == Booting(s.apc) && Polling(t.apc) == Polling(s.apc)
            && StepsToDecision(t.apc) == StepsToDecision(s.apc) - 1
  {
    hide ActStep;
  }

  lemma Decides(s: Sys)
    requires |s.apu.ram| == RAM_SIZE && StepsToDecision(s.apc) == 1 && s.apu.state == Stopped
    ensures ApuStep(s).apu.state == Stopped <==>
              !Booting(s.apc) && !(Polling(s.apc) && OverwritesState(s.apu.last, PollBytes(s)))
    ensures var t := ApuStep(s); t.apu.state == Stopped ==> t.apc.Poll0? || t.apc.Crashed?
  {
    hide Decode;
  }

  /**
   With the ports undisturbed it can be told at the write: power-down is lost exactly if the thread is
   still starting, or the poll in hand is reading an init or end message. Otherwise the thread comes
   to its check with the state at STOPPED, and ends, unless its assertion on the cookie fails first.
   */
  lemma {:induction false} PowerDownForeseen(s: Sys)
    requires |s.apu.ram| == RAM_SIZE && s.apu.state == Stopped
    ensures var t := ApuAlone(s, StepsToDecision(s.apc));
            && (t.apu.state == Stopped <==>
                  !Booting(s.apc) && !(Polling(s.apc) && OverwritesState(s.apu.last, PollBytes(s))))
            && (t.apu.state == Stopped ==> t.apc.Poll0? || t.apc.Spin? || t.apc.Crashed?)
    decreases StepsToDecision(s.apc)
  {
    var n := StepsToDecision(s.apc);
    hide ApuAlone, ApuStep, OverwritesState;
    AloneNone(s);
    if n > 1 {
      StepTowardsDecision(s);
      PowerDownForeseen(ApuStep(s));
      AloneFirst(s, n - 1);
    } else if n == 1 {
      Decides(s);
      AloneFirst(s, 0);
      AloneNone(ApuStep(s));
    }
  }

  lemma {:induction false} AloneFirst(s: Sys, n: nat)
    requires |s.apu.ram| == RAM_SIZE
    ensures |ApuStep(s).apu.ram| == RAM_SIZE && ApuAlone(s, n + 1) == ApuAlone(ApuStep(s), n)
    decreases n
  {
    KeepsRam(s);
    if n > 0 {
      AloneFirst(s, n - 1);
    }
  }

  lemma KeepsRam(s: Sys)
    requires |s.apu.ram| == RAM_SIZE
    ensures |ApuStep(s).apu.ram| == RAM_SIZE
  {
  }
}
