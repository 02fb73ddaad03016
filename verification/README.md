# snesemu: a model and its proofs

snesemu is a small Super Nintendo emulator. This project models its two cores in Dafny and proves
what they guarantee over whole runs.

**The APU upload handshake.** The guest CPU uploads blocks of bytes into the 64K RAM of the sound
processor through four one-byte ports per direction. The APU thread reads the four input ports one
at a time, classifies what it read by the cookie in port 0, acts, and echoes the cookie.

- `ApuProtocol.dfy`: classification and effect of one snapshot, as functions.
- `Upload.dfy`: both parties as a state machine in which every access to a shared byte is one step,
  the sender being *any* one that follows the protocol (ports 1 to 3 in any order and as often as it
  likes, port 0 once they hold the message, then wait), and the inductive invariant.
- `UploadTheorems.dfy`: delivery, exactly-once, freshness of acknowledgements, progress under fairness.
- `PowerUp.dfy`, `PowerUpExact.dfy`: nothing initialises the remembered snapshot and the ports; for exactly
  which contents at power-up every upload arrives.
- `PowerDown.dfy`: when the unlocked write of STOPPED is lost.
- `WriteOrder.dfy`: in which orders a sender may write the ports, and why a 16-bit store to $2140 tears.
- `UploadTable.dfy`: scripts as tables of four-byte records, and the receiver offered one.
- `Apu.dfy`, `ApuPort.dfy`: the same receiver and the port arrays updated in place.
- `GuestUpload.dfy`, `GuestUploadTheorems.dfy`: both cores together. A guest program of 59 bytes, fetched
  and executed by the processor over $2140-$2143 and interleaved with the APU thread access by access,
  is such a sender; its blocks arrive.

**The 65C816 machine.** Registers, flags, address decoder, memories, stack, addressing modes,
instructions, prefetch, and the run loop with its mailbox and breakpoint table.

- `Registers.dfy`, `Machine.dfy`, `Addressing.dfy`, `Opcodes.dfy`, `Instructions.dfy`, `Cpu.dfy`: the machine
  as a function from state to state. `Registers.dfy`, `Ram.dfy`, `Bus.dfy`, `CpuStack.dfy`,
  `AddressResolver.dfy`, `Mnemonics.dfy` and `Processor.dfy`: the objects, updated in place, each
  method tied to that function. `ProcessorModel.Processor.Turn` is one turn of the emulator's loop and
  equals `CpuCore.Step` as long as no assertion fails, so there what is proved of runs of `Step` is about
  the objects too; `GuestRanges.dfy` and `MultiwordRanges.dfy` show that for the guest programs none does.
- `AddrDecoder.dfy`, `Bus.dfy`, `DirectPage.dfy`: which addresses are the same byte.
- `Stack.dfy`, `Calls.dfy`, `CallBodies.dfy`: the stack inside that memory, nested subroutine calls, and what
  may stand in a subroutine.
- `BitStrings.dfy`, `Arithmetic.dfy`, `Bitwise.dfy`, `ReadModifyWrite.dfy`, `Multiword.dfy`, `Rotation.dfy`: what
  the arithmetic means.
- `Widths.dfy`: register width is stored twice; when the two records agree.
- `Assembly.dfy`: an assembler with line labels; running the bytes is stepping through the lines.
- `GuestLoop.dfy`, `MultiwordCode.dfy`: guest programs proved from their bytes.
- `RunLoop.dfy`, `Breakpoints.dfy`, `CpuThread.dfy`: the CPU thread against concurrent command and breakpoint
  writers, and the processor under it.

`dafny verify dfyconfig.toml` checks everything.

## Conventions

- C integers are subset types with every truncation written out (`Trunc8`, `Trunc16`, `Trunc32`,
  `Signed8`, `Signed16`). The status byte is a record of eight bits with a proved round trip.
- The functions on values are total: a read outside the memories gives 0 and a write there is lost,
  where the C fails an assertion; an instruction that would fail an assertion or abort (BCD addition,
  WAI) leaves the machine as it is. The methods of the classes require instead that no assertion
  fails: `InRange`, `MayFetch`, `MayPush`, `MayResolve`, `Proceeds`.
- Two long-indirect resolvers add a pointer to a local that was never initialised. What it held is a
  parameter, `junk`, and every theorem about runs holds for all values of it.
- The code is followed where it departs from the processor's data sheet: the carry of ADC, 8-bit SBC,
  BIT's Z, the carry of ASL and ROR, ROL and ROR writing A, PLP and RTI not widening, operand bytes
  read from bank 0, RTI pulling P last. Some of these are stated as exact conditions below.
- The comments at COP, WDM and WAI ask for an assertion; COP and WDM do nothing in the code, and so here.

## Model

| member | source | states |
|---|---|---|
| GuestUploadTheorems.GuestUploadDelivers | src/snes_apu.c:137-238 | End to end: for every block list that fits the table, wherever program and table lie in bank 0 off the ports, and however the APU thread's accesses fall between the instructions, once the APU executes each RAM cell holds the last byte the blocks put there, or its initial byte; the cookie assertion never fails. |
| GuestUploadTheorems.FairGuestUploadExecutes | src/snes_apu.c:160-238 | If in every w steps both the processor and the APU thread move, the guest program brings the APU to EXECUTING within w * 16 * (128 * messages + 128) steps. |
| GuestUploadTheorems.WorldInv | src/snes_apu.c:137-217 | At every point of every interleaving the processor is at a line of the program, in step with a state of the handshake's invariant. |
| GuestUploadTheorems.WorldStep | src/snes_cpu.c:1796-1807 | One instruction of the program is one step of a conforming sender, or none; one access of the APU thread is one step of the receiver. |
| GuestUploadTheorems.DistanceFalls | src/snes_apu.c:212-215 | While it is the program's turn, each instruction between two port accesses brings it nearer to the next: it spins in a wait only while it is the APU's turn. |
| GuestUpload.AccessConforms | src/snes_apu_port.c:46-57 | At each line that accesses a port the program does what the protocol asks of a sender there, with the byte the table holds. |
| GuestUpload.CpuMoveCoupled | src/snes_cpu.c:1773-1807 | Fetching and executing any line of the program keeps it in step with the sender, code and table intact. |
| GuestUpload.ApuMoveCoupled | src/snes_apu.c:137-217 | What the APU writes into its ports disturbs neither the code, the table nor the instruction read ahead. |
| GuestUpload.LoadedInLowPage | src/snes_bus.c:92-129 | Program and table written through the bus into the low page are in place. |
| GuestUpload.ProgramAssembles | src/snes_cpu_addressing_mode.c:310-322 | Every branch of the program is within reach of its signed byte; it is 59 bytes long. |
| GuestRanges.UploadStaysInRange | src/snes_bus.c:51-129 | At every point of every interleaving of the guest upload the instruction read ahead can be executed and the next one read without an assertion failing, which is what `Processor.Turn` requires. |
| UploadTheorems.UploadDelivers | src/snes_apu.c:137-217 | For every block list and every byte-level interleaving with any conforming sender: once the APU executes, each RAM cell holds the last byte the blocks put there (addresses modulo 65536), or its initial byte. |
| UploadTheorems.ExactlyOnceInOrder | src/snes_apu.c:93-135 | In every reachable state the receiver has accepted a prefix of the script, each message once and as it was meant, and the assertion on unknown cookies has not failed. |
| UploadTheorems.NoTornSnapshot | src/snes_apu.c:137-217 | A snapshot acted on as a change is the whole current message, never a mixture of two, and is classified as what was sent. |
| UploadTheorems.AcknowledgementIsFresh | src/snes_apu.c:212-215 | When the waiting sender sees its cookie echoed, this very message has been accepted. |
| UploadTheorems.CookiesAlternate | src/snes_apu.c:74-83 | Each value put into port 0 differs from the one it replaces and from the echo standing there, across the wrap at 255 and the skipped 0 alike. |
| UploadTheorems.HelpfulEnabled | src/snes_apu.c:160-217 | No deadlock: before EXECUTING there is always a step that lowers the measure (messages left, sender phase, APU phase), if a message may be prepared with three accesses. |
| UploadTheorems.HelpfulLowers | src/snes_apu.c:160-217 | Any step of the helpful party, whatever ports and bytes the sender chooses, lowers that measure. |
| UploadTheorems.OtherStepsDoNotRaise | src/snes_apu.c:160-217 | No step of either party raises the measure, and one that leaves it alone leaves the helpful party helpful. |
| UploadTheorems.FairRunsExecute | src/snes_apu.c:160-238 | Every run in which both parties move in each window of w steps, and the sender spends at most k accesses on preparing a message, reaches EXECUTING within w * 16 * (k + 5) * (messages + 1) steps. |
| PowerUp.QuietBeforeFirstWriteIff | src/snes_apu.c:240-269 | The APU accepts nothing and fails no assertion before the first write if and only if the uninitialised last snapshot agrees with input port 0. |
| PowerUp.InitCookiePendingDeadlocks | src/snes_apu.c:99-104 | If both are 0xCC at power-up, no run ever accepts anything: the init message is taken for no change. |
| PowerUpExact.DeliversIff | src/snes_apu.c:93-217 | From a power-up every upload of every conforming sender arrives, in every interleaving and from every state on the way, if and only if neither the remembered cookie nor the one standing in port 0 is 0xCC, and either the two agree, or the one in port 0 passes for a new block, port 1 is not 0, and the senders are those that write no 0 to it before their init message is acknowledged. |
| PowerUpExact.GoodRunsExecute | src/snes_apu.c:160-238 | From every such power-up fair runs reach EXECUTING as fast as from an agreed one. |
| PowerDown.PowerDownSurvivesIff | src/snes_apu.c:286-290 | In every interleaving after power-down's unlocked write: the state is still STOPPED if and only if the thread has neither left its start-up nor acted on an init or end message since; once lost it is never STOPPED again. |
| PowerDown.PowerDownForeseen | src/snes_apu.c:137-235 | With the ports undisturbed it can be told at the write, from the bytes polled so far and those standing in the ports, at any point of start-up, poll, echo or final wait; where it is not lost the thread comes to its check with the state at STOPPED, or fails its cookie assertion. |
| WriteOrder.SafeIff | src/snes_apu.c:137-143 | For any series of port writes: no poll interleaved with it sees a mixture of old and final bytes under a new cookie if and only if from the first change of port 0 on everything is final. |
| WriteOrder.OrderSafeIff | src/snes_apu.c:137-143 | An order of writing the four ports never lets a message be torn if and only if port 0 comes last. |
| WriteOrder.WordStoreWrites | src/snes_cpu_mne.c:754-760 | A 16-bit STA $2140 writes port 0, then port 1. |
| WriteOrder.WordStoreSafeIff | src/snes_cpu_mne.c:754-760 | It is safe if and only if it leaves one of the two bytes as it was. |
| WriteOrder.TornByteAccepted | src/snes_apu.c:93-187 | Otherwise the receiver can take the new cookie with the old byte in port 1, and stores that byte. |
| UploadTheorems.RunInv | src/snes_apu.c:160-217 | The invariant of the handshake holds in every state of every run. |
| UploadTheorems.ScriptWellFormed | src/snes_apu.c:160-217 | Every block list makes a conforming script: one init, then data and new blocks, closed by the only end. |
| UploadTheorems.DeliverBody | src/snes_apu.c:176-207 | Delivering the transfers of a block list in order leaves in each cell the last byte written to it. |
| UploadTable.TableDelivers | src/snes_apu.c:93-217 | A script encoded as records and offered record by record is decoded by the receiver as that script: EXECUTING, with its bytes in RAM. |
| UploadTable.TableEncodes | src/snes_apu.c:93-135 | Every script has such a table, its cookies conforming. |
| UploadTable.RepeatedPoll | src/snes_apu.c:74-83 | Polling the same bytes again changes nothing, in any state. |
| Upload.ActInv | src/snes_apu.c:160-217 | Classifying and accepting a complete poll keeps the invariant. |
| Upload.ApuStepInv | src/snes_apu.c:137-238 | Each atomic step of the APU thread keeps the invariant. |
| Upload.SenderStepInv | src/snes_apu_port.c:46-57 | Each atomic step of any conforming sender keeps the invariant: it may write ports 1 to 3 in any order, several times and with any bytes in between. |
| Upload.PendingClassified | src/snes_apu.c:93-135 | A pending message is classified as exactly what the sender meant. |
| ApuModel.Apu.GetType | src/snes_apu.c:93-135 | The class of a snapshot, by the cookie and port 1; a change is remembered, an unknown cookie reported. |
| ApuModel.Apu.GetNextData | src/snes_apu.c:137-143 | Reads the four input ports. |
| ApuModel.Apu.UpdateLastData | src/snes_apu.c:69-72 | Remembers a snapshot. |
| ApuModel.Apu.SetState | src/snes_apu.c:145-149 | Changes the state. |
| ApuModel.Apu.TransferHandle | src/snes_apu.c:160-217 | One undisturbed poll does to state, address, RAM and output port what the protocol functions say of the offered snapshot, and nothing else. |
| ApuModel.Apu.StartExecution | src/snes_apu.c:219-238 | The whole thread: 0xAA and 0xBB announced, then for any sequence of polled bytes the state, RAM and ports that `Serve` gives, idle once an upload has ended, until power-down finds it there or between two polls. |
| ApuPorts.ApuPort.Read | src/snes_apu_port.c:46-51 | The CPU reads the output array, ... |
| ApuPorts.ApuPort.Write | src/snes_apu_port.c:53-57 | ... writes only the input array, ... |
| ApuPorts.ApuPort.InternalRead | src/snes_apu_port.c:59-64 | ... which is the one the APU reads, ... |
| ApuPorts.ApuPort.InternalWrite | src/snes_apu_port.c:66-70 | ... while the APU writes only the output array. |
| RamModel.Ram.Read | src/snes_ram.c:40-44 | The byte stored at an address within bounds, as unsigned. |
| RamModel.Ram.Write | src/snes_ram.c:46-50 | Changes exactly that byte, through the signed storage. |
| Bytes.CellRoundTrip | src/snes_ram.c:40-50 | A byte survives the signed storage. |
| AddrDecoder.UpperHalvesOntoRom | src/snes_addrdecoder.c:63-66 | Upper halves of banks 80-FF and ROM [0, 4 MiB) map one-to-one onto each other. |
| AddrDecoder.LowerHalvesOntoSram | src/snes_addrdecoder.c:43-50 | Lower halves of banks F0-FF and SRAM [0, 512 KiB) map one-to-one onto each other. |
| AddrDecoder.MirrorsUpperBanks | src/snes_addrdecoder.c:73-139 | Upper halves of banks 00-7D, and all of the SRAM banks 70-7D, mirror their bank + 0x80. |
| AddrDecoder.WramAddresses | src/snes_addrdecoder.c:52-61 | All addresses of a WRAM byte within 128 KiB, exactly: banks 7E-7F, and for the first 8 KiB each of banks 00-3F. |
| BusMemory.ReadAfterWrites | src/snes_bus.c:51-129 | After any in-range history a read returns the last value written to any alias of the RAM cell, else the initial value; ROM and the ports as the CPU sees them never change. |
| BusMemory.PortAfterWrites | src/snes_bus.c:92-129 | After any in-range history the APU reads from a port the last value written to any alias of it, else the initial value. |
| BusMemory.WriteAllShape | src/snes_bus.c:92-129 | No history of writes changes the ROM, the output ports or any size. |
| BusModel.Bus.Read | src/snes_bus.c:51-90 | The byte of the decoded cell. |
| BusModel.Bus.Write | src/snes_bus.c:92-129 | Changes the decoded RAM cell or input port, in place, and nothing else. |
| DirectPageMirror.DirectPageWraps | src/snes_cpu_addressing_mode.c:173-209 | Direct-page accesses, plain and with an 8-bit index, reach the byte the sum wrapped within bank 0 would reach, for every D and operand. |
| DirectPageMirror.LongIndexWrapsIff | src/snes_cpu_addressing_mode.c:183-209 | With a 16-bit index that holds if and only if the sum stays in bank 0 or lands in a lower half. |
| DirectPageMirror.PointersWrap | src/snes_cpu_addressing_mode.c:211-247 | The pointer bytes of the indirect direct-page modes wrap within bank 0 in the same sense. |
| DirectPageMirror.LongPointersWrap | src/snes_cpu_addressing_mode.c:249-300 | So do the three pointer bytes of [d] and [d],y. |
| DirectPageMirror.StackRelativeWraps | src/snes_cpu_addressing_mode.c:366-396 | So do the stack-relative operand and both pointer bytes of (sr,S),y. |
| DirectPageMirror.MirrorsBankZeroIff | src/snes_addrdecoder.c:73-139 | When an address in banks 00-3F is the same byte as its offset in bank 0. |
| AddressResolver.ReadPointer | src/snes_cpu_addressing_mode.c:91-102 | The two-byte pointer at an address. |
| AddressResolver.ReadLongPointer | src/snes_cpu_addressing_mode.c:104-114 | The three-byte pointer at an address. |
| AddressResolver.ThroughPointer | src/snes_cpu_addressing_mode.c:69-102 | The modes that add a two-byte pointer to a bank and an index. |
| AddressResolver.ThroughLongPointer | src/snes_cpu_addressing_mode.c:249-261 | The modes with a three-byte pointer, with whatever the uninitialised local held. |
| AddressResolver.ResolveAbsolute | src/snes_cpu_addressing_mode.c:20-35 | Absolute, in the data bank, or for JMP and JSR the program bank. |
| AddressResolver.ResolveAbsoluteIndexed | src/snes_cpu_addressing_mode.c:37-67 | Plus X or Y at the register's length, carrying into the bank. |
| AddressResolver.ResolveAbsoluteLongIndexed | src/snes_cpu_addressing_mode.c:124-138 | A long address plus X. |
| AddressResolver.ResolveDirectPage | src/snes_cpu_addressing_mode.c:173-181 | Operand plus D, not wrapped. |
| AddressResolver.ResolveDirectPageIndexed | src/snes_cpu_addressing_mode.c:183-209 | Plus an index, not wrapped. |
| AddressResolver.ResolveRelative | src/snes_cpu_addressing_mode.c:310-322 | PC in the program bank plus the signed byte. |
| AddressResolver.ResolveRelativeLong | src/snes_cpu_addressing_mode.c:324-336 | PC in the program bank plus the signed word. |
| AddressResolver.ResolveBlockMove | src/snes_cpu_addressing_mode.c:148-171 | Source X, destination Y and count A + 1. |
| AddressResolver.Decode | src/snes_cpu_addressing_mode.c:398-468 | Every addressing mode resolves to its effective address. |
| CpuRegisters.FlagsRoundTrip | src/snes_cpu_registers.c:209-251 | Flags to status byte and back. |
| CpuRegisters.ByteRoundTrip | src/snes_cpu_registers.c:209-251 | Status byte to flags and back, for all 256 bytes. |
| CpuRegisters.Registers.constructor | src/snes_cpu_registers.c:21-39 | The registers at power-up. |
| CpuRegisters.Registers.SwitchRegLen | src/snes_cpu_registers.c:46-55 | Both index registers change length; shortening clears their high bytes. |
| CpuRegisters.Registers.SwitchMemLen | src/snes_cpu_registers.c:57-60 | The accumulator changes length. |
| CpuRegisters.Registers.ForceStatus | src/snes_cpu_registers.c:214-224 | The status is replaced; set bits shorten registers, clear bits do not lengthen them. |
| CpuRegisters.Registers.SetStatus | src/snes_cpu_registers.c:226-236 | Sets flags; X and M shorten. |
| CpuRegisters.Registers.ResetStatus | src/snes_cpu_registers.c:238-245 | Resets flags; X and M lengthen, in emulation mode too. |
| CpuRegisters.Registers.Update8 | src/snes_cpu_registers.c:62-73 | Z and N from a byte. |
| CpuRegisters.Registers.Update16 | src/snes_cpu_registers.c:75-86 | Z and N from a word. |
| CpuRegisters.Registers.SetAccumulator | src/snes_cpu_registers.c:88-97 | At 8 bits the high byte survives; Z and N. |
| CpuRegisters.Registers.SetAccumulator16 | src/snes_cpu_registers.c:99-103 | All 16 bits; Z and N. |
| CpuRegisters.Registers.SetX | src/snes_cpu_registers.c:111-118 | All 16 bits are stored; Z and N at the register's length. |
| CpuRegisters.Registers.SetY | src/snes_cpu_registers.c:126-133 | The same for Y. |
| CpuRegisters.Registers.SetDirectPage | src/snes_cpu_registers.c:141-145 | D, Z and N. |
| CpuRegisters.Registers.SetStackPointer | src/snes_cpu_registers.c:153-160 | SP, without flags. |
| CpuRegisters.Registers.SetDataBank | src/snes_cpu_registers.c:196-200 | DBR, Z and N. |
| CpuRegisters.Registers.IncProgramCounter | src/snes_cpu_registers.c:178-182 | PC plus one modulo 65536. |
| CpuRegisters.Registers.SetEmulation | src/snes_cpu_registers.c:253-261 | Emulation mode: page 1 stack, C clear, everything 8 bits long. |
| CpuRegisters.Registers.ResetEmulation | src/snes_cpu_registers.c:263-268 | Native mode with C, X and M set. |
| Widths.ReachableConsistent | src/snes_cpu_registers.c:214-268 | In every state reachable from power-up by any run, PLP and RTI included: M implies 8-bit A, X implies 8-bit X and Y, X and Y have one length, SP is 16 bits long. |
| Widths.ReachableAgreeIff | src/snes_cpu_registers.c:214-268 | On every run from power-up: width bits and lengths agree in native mode in all states if and only if no PLP or RTI clears, in native mode, a bit whose register is short; they agree in emulation mode too if and only if, besides, no REP clears M or X there. |
| Widths.StepAgreesIff | src/snes_cpu_mne.c:962-1156 | Of all instructions exactly those end the agreement. |
| Widths.ReachableImmediatesAgree | src/snes_cpu.c:1601-1701 | On every run without such instructions, PLP and RTI included, the operand bytes of every width-dependent immediate equal the width it executes with. |
| Widths.KeepsConsistent | src/snes_cpu_mne.c:962-1156 | Every instruction keeps the four facts of consistency. |
| Widths.KeepsWidths | src/snes_cpu_mne.c:962-1156 | Every instruction but REP, SEP, XCE, PLP and RTI leaves all widths and width bits alone. |
| Widths.ForceKeepsExactIff | src/snes_cpu_registers.c:214-224 | When PLP and RTI keep either agreement, exactly. |
| Widths.ResetKeepsSyncedIff | src/snes_cpu_registers.c:238-245 | When a REP keeps bits and lengths in step, exactly. |
| Widths.WideningRepBreaksImmediates | src/snes_cpu_registers.c:238-245 | The guest bytes C2 30 A9 at the reset vector, run from power-up: the LDA has one operand byte for a 16-bit A. |
| Widths.PlpBreaksImmediates | src/snes_cpu_registers.c:214-224 | A status of 0 pulled in native mode while A is short: two operand bytes for an 8-bit A. |
| Widths.XceExchanges | src/snes_cpu_mne.c:950-960 | XCE exchanges C and the emulation bit, with the widths and stack page of the new mode. |
| StackRefinement.StackIsLifo | src/snes_cpu_stack.c:39-55 | Any mix of pushes and pulls of depth within SP0 + 1, SP0 in the low 8K, behaves as a last-in first-out sequence and leaves everything above SP0 alone, the push at SP = 0 and its pull through 0x10000 included. |
| StackRefinement.PushPullRoundTrip | src/snes_cpu_mne.c:501-595 | PHA/PLA, PHX/PLX, PHY/PLY, PHD/PLD and PHB/PLB bring back value and SP around anything balanced, when the widths match. |
| StackRefinement.PushedRegisterComesBack | src/snes_cpu_mne.c:501-595 | The same of the stack alone, for a register of either length. |
| CpuStacks.Stack.Push | src/snes_cpu_stack.c:39-46 | The byte goes to SP in bank 0, then SP falls by one modulo 65536. |
| CpuStacks.Stack.Pull | src/snes_cpu_stack.c:48-55 | SP rises modulo 65536, but the address read is SP + 1 without wrapping. |
| Calls.NestedCallsReturn | src/snes_cpu_mne.c:402-408 | In every finite tree of calls whose bodies leave what lies above their entry level alone and balance SP, every JSR is returned from: to the byte after it, SP restored, all caller bytes intact. |
| Calls.CallReturns | src/snes_cpu_mne.c:684-694 | The same of one call with an arbitrary balanced body. |
| Calls.BalancedReturns | src/snes_cpu_mne.c:684-694 | A balanced body returns through the word above its entry level, whatever it calls. |
| Calls.BankReturns | src/snes_cpu_mne.c:402-408 | If the bodies stay in one program bank, so does the return. |
| Calls.BodyIsRun | src/snes_cpu.c:1854-1900 | The call tree is a run of the processor, cut at calls and returns. |
| GuestRanges.CallInRange | src/snes_cpu_mne.c:402-408 | With the stack in the low 8K a JSR of such a tree fails no assertion but that of resolving its target, ... |
| GuestRanges.ReturnInRange | src/snes_cpu_mne.c:684-694 | ... and an RTS none, SP at 0xFFFF included. |
| CallBodies.PlainInstructions | src/snes_cpu_mne.c:962-1156 | What may stand in such a body: arithmetic, loads, branches, register moves not into SP; stores and memory modifications of anything but the caller's stacked bytes; every push that fits the low page; every pull, PLP included, of the body's own bytes. |
| CallBodies.NestedCallIsBalanced | src/snes_cpu_mne.c:402-408 | From guest bytes anywhere off the stack: a JSR to a subroutine that itself calls another is a balanced tree and comes back behind the JSR. |
| CallBodies.LeafCallReturns | src/snes_cpu_mne.c:684-694 | From guest bytes: a JSR to an RTS. |
| ArithmeticOps.AdcMeaning | src/snes_cpu_mne.c:43-111 | Binary ADC at both widths: the sum modulo 2^w, V exactly signed overflow with carry-in, C exactly unsigned carry with a clear result top bit. |
| ArithmeticOps.AdcCarryDeviatesIff | src/snes_cpu_mne.c:63-78 | C differs from the true carry if and only if both operands are in the upper half of their range and the sum with the carry reaches one and a half times the modulus. |
| ArithmeticOps.AdcLosesCarry | src/snes_cpu_mne.c:71-78 | C0 + C0 at 8 bits: 80, and C comes out clear. |
| ArithmeticOps.SbcMeaning | src/snes_cpu_mne.c:696-719 | 16-bit SBC: the difference with borrow, C no borrow, V exactly signed overflow. |
| ArithmeticOps.SbcAtEightBits | src/snes_cpu_mne.c:720-731 | 8-bit SBC of a byte only compares: C is right, V cleared, A, N and Z untouched. |
| ArithmeticOps.CmpMatchesSbc | src/snes_cpu_mne.c:259-284 | CMP leaves in N, Z and C what 16-bit SBC with C set would, and nothing else. |
| ArithmeticOps.CmpMeaning | src/snes_cpu_mne.c:259-284 | CMP at both widths is an unsigned comparison. |
| BitwiseOps.LogicMeaning | src/snes_cpu_mne.c:114-127 | AND, ORA and EOR combine accumulator and operand bit by bit at either width; Z and N describe the result. |
| BitwiseOps.BitTestMeaning | src/snes_cpu_mne.c:171-191 | BIT as written: Z when accumulator and operand do share a bit, N from the operand, nothing else. |
| BitwiseOps.TestBitsMeaning | src/snes_cpu_mne.c:828-886 | TSB sets and TRB clears exactly the memory bits set in A; Z when there was none of them. |
| BitwiseOps.RorMeaning | src/snes_cpu_mne.c:627-653 | ROR as written: the operand halved under the old carry, its old top bit in C. |
| BitwiseOps.CompareIndexMeaning | src/snes_cpu_mne.c:291-343 | CPX and CPY: C compares without sign; N and Z describe the difference, but at 8 bits the operand. |
| ReadModifyWrite.StoredIsFetched | src/snes_cpu_mne.c:9-41 | What store_data puts into A or RAM fetch_data gets back at either width, N and Z describing it. |
| ReadModifyWrite.StoreOverwrites | src/snes_cpu_mne.c:29-41 | Of two stores to one operand the second alone counts. |
| ReadModifyWrite.LsrMeaning | src/snes_cpu_mne.c:431-445 | LSR: the old operand is twice the new one plus C. |
| ReadModifyWrite.AslMeaning | src/snes_cpu_mne.c:129-151 | ASL as written: the operand doubled at its width, its old low bit in C. |
| ReadModifyWrite.StoreRegMeaning | src/snes_cpu_mne.c:754-782 | STA, STX and STY leave the register's one or two bytes in RAM, little-endian. |
| ReadModifyWrite.StzMeaning | src/snes_cpu_mne.c:784-789 | STZ zeroes one byte, or two in native mode with M clear, and not the next. |
| ReadModifyWrite.IncDecCancel | src/snes_cpu_mne.c:345-350 | INC and DEC undo each other, in A and in RAM. |
| ReadModifyWrite.XbaExchanges | src/snes_cpu_mne.c:941-948 | XBA exchanges the halves of A; twice it is the identity. |
| Multiword.MultiwordSubtraction | src/snes_cpu_mne.c:696-719 | LDA/SBC/STA over any n words with C set: the difference modulo 2^(16n) in place, C exactly minuend >= subtrahend, V exactly signed overflow of n words. |
| Multiword.SubChainMeaning | src/snes_cpu_mne.c:696-719 | The same after k of the n words, with any carry going in: result plus borrow is the difference, and only the result words changed. |
| Multiword.MultiwordRotation | src/snes_cpu_mne.c:602-625 | LDA/ROL A/STA over any n words: 2 * value + C modulo 2^(16n), the lost bit in C. |
| MultiwordCode.SubtractionProgram | src/snes_cpu.c:1773-1807 | The guest bytes AD/ED/8D over n words, fetched and executed: after 3n instructions the difference, borrow and overflow are those of the chain, and PC is behind the program. |
| MultiwordCode.RotationProgram | src/snes_cpu.c:1773-1807 | The guest bytes AD/2A/8D over n words: twice the number plus C, likewise. |
| MultiwordRanges.SubtractionStaysInRange | src/snes_bus.c:51-129 | No fetch, read or write of the subtraction program, at any of its 3n instructions, fails an assertion. |
| MultiwordRanges.RotationStaysInRange | src/snes_bus.c:51-129 | Nor does any of the rotation program. |
| Rotation.FullTurn | src/snes_cpu_mne.c:602-625 | 9 times ROL A at 8 bits and 17 times at 16 bits is the identity on (C, A). |
| Rotation.RolTimesRotates | src/snes_cpu_mne.c:602-625 | k times ROL A turns the ring of carry and accumulator bits by k places and changes nothing else but N and Z. |
| CpuCore.FetchDecodesEncoding | src/snes_cpu.c:1773-1794 | An opcode and its little-endian operand come back from the fetch, which advances PC by 1 + size modulo 65536. |
| CpuCore.EncodeThenFetch | src/snes_cpu.c:1773-1794 | The same when the bytes were put into the low page by bus writes. |
| CpuCore.BreakpointAddressIff | src/snes_cpu.c:1836-1843 | The address the breakpoint check computes is the fetch address if and only if PC did not wrap. |
| CpuCore.RunIsTurns | src/snes_cpu.c:1854-1900 | Reading one instruction ahead does not show in a run. |
| Assembly.StepFollowsLines | src/snes_cpu.c:1773-1807 | Assembler correctness: the processor fetching and executing assembled bytes anywhere in bank 0 steps from line to line, branches to their labels, as the lines say; for every program of such lines. |
| Assembly.FetchesLine | src/snes_cpu.c:1773-1794 | At the start of a line exactly that line is read ahead. |
| Assembly.BranchLineLands | src/snes_cpu_addressing_mode.c:310-322 | A branch taken, forward or back, ends where its label's line begins. |
| GuestLoop.LoopFills | src/snes_cpu.c:1773-1807 | The guest bytes 9D lo hi CA D0 FA anywhere in bank 0, A 8 bits long, X = n > 0: after exactly n iterations the n bytes behind the base equal A, all other memory is unchanged, and control leaves through the BNE. |
| GuestLoop.LoopProgress | src/snes_cpu_mne.c:754-760 | After each iteration: exactly the bytes from the top down to the index are filled. |
| GuestLoop.Iteration | src/snes_cpu_mne.c:352-356 | One STA, DEX, BNE, fetched from the guest bytes and executed. |
| GuestLoop.LoadedInLowPage | src/snes_bus.c:92-129 | Writing the program into the low page beside its target makes it ready to run. |
| GuestRanges.LoopStaysInRange | src/snes_bus.c:51-129 | No fetch or write of the loop, to its last instruction, fails an assertion. |
| RunLoop.RunStopsAtBreakpoints | src/snes_cpu.c:1836-1900 | In every interleaving RUN executes no instruction whose computed address was in the table when its scan began; for address 0, the mark of a free slot, no slot held it throughout. |
| RunLoop.StepExecutesAtMostOne | src/snes_cpu.c:1854-1900 | A consumed STEP is followed by at most one instruction before the next command is consumed, ... |
| RunLoop.StepExecutesBeforeReturning | src/snes_cpu.c:1854-1900 | ... and by at least one before the thread waits again. |
| RunLoop.StopIsNotLost | src/snes_cpu.c:1854-1944 | A STOP not overwritten stays in the mailbox, lets at most one more instruction through, and brings the thread closer to its end with each of its steps, ... |
| RunLoop.StopEndsTheThread | src/snes_cpu.c:1854-1944 | ... so that after a bounded number of them it has ended. |
| RunLoop.RunInv | src/snes_cpu.c:1854-1944 | The invariant of the run loop holds in every state of every interleaving. |
| RunLoop.PassIsAlone | src/snes_cpu.c:1854-1900 | Undisturbed steps of the thread from the top back to the top are one pass of the loop as a function. |
| CpuThread.Refines | src/snes_cpu.c:1854-1900 | Every interleaved run of the processor under the loop is a run of the loop machine, its addresses the computed ones. |
| CpuThread.AlwaysInStep | src/snes_cpu.c:1836-1900 | The loop's address is always the one computed for the instruction read ahead, and the processor has run exactly the instructions counted. |
| CpuThread.ExecutesOffBreakpoints | src/snes_cpu.c:1836-1900 | When RUN executes, the processor's computed address was not in the table at the scan. |
| CpuThread.StopsWithinOneInstruction | src/snes_cpu.c:1854-1944 | After a STOP that nothing overwrites the processor changes by at most one instruction. |
| Breakpoints.SetExtends | src/snes_cpu.c:1915-1931 | Setting a breakpoint keeps every slot in use, finds a free slot if there is one, and leaves a full table alone. |
| ProcessorModel.Processor.constructor | src/snes_cpu.c:1704-1745 | Power-up: PC at the reset vector, empty table, empty mailbox, first instruction read ahead. |
| ProcessorModel.Processor.FetchOperand | src/snes_cpu.c:1788-1792 | The operand bytes little-endian from bank 0, PC moving past each. |
| ProcessorModel.Processor.UpdateNextInstruction | src/snes_cpu.c:1773-1794 | Reads ahead the instruction at PC. |
| ProcessorModel.Processor.ExecuteInstruction | src/snes_cpu.c:1796-1807 | Resolves and executes the instruction read ahead. |
| ProcessorModel.Processor.Turn | src/snes_cpu.c:1894-1897 | One turn of the loop is one step of the machine. |
| ProcessorModel.Processor.TakeCommand | src/snes_cpu.c:1861-1886 | The mailbox at the head of a pass. |
| ProcessorModel.Processor.Iterate | src/snes_cpu.c:1854-1900 | One pass of the loop with nobody else running, in place: mailbox, check for STOP, breakpoints, instruction, as the loop machine has it. |
| ProcessorModel.Processor.SetExecutionMode | src/snes_cpu.c:1939-1945 | Puts a command into the mailbox. |
| ProcessorModel.Processor.IsBreakpoint | src/snes_cpu.c:1836-1852 | Whether the computed address of the instruction read ahead is in the table. |
| ProcessorModel.Processor.SetBreakpoint | src/snes_cpu.c:1915-1931 | The first free slot takes the address; -1 for a full table. |
| Mnemonics.Executor.FetchData | src/snes_cpu_mne.c:9-27 | The operand at a width: immediate, accumulator or memory. |
| Mnemonics.Executor.StoreData | src/snes_cpu_mne.c:29-41 | The operand put back at a width, with N and Z. |
| Mnemonics.Executor.UpdateOverflowAdd | src/snes_cpu_mne.c:43-61 | V of an addition. |
| Mnemonics.Executor.UpdateCarryAdd | src/snes_cpu_mne.c:63-78 | C of an addition, as the code has it. |
| Mnemonics.Executor.Adc | src/snes_cpu_mne.c:80-111 | ADC in place: flags, then A. |
| Mnemonics.Executor.Sbc | src/snes_cpu_mne.c:696-732 | SBC in place. |
| Mnemonics.Executor.Cmp | src/snes_cpu_mne.c:259-284 | CMP in place. |
| Mnemonics.Executor.CompareIndex | src/snes_cpu_mne.c:291-343 | CPX and CPY, at 8 bits with N and Z from the operand. |
| Mnemonics.Executor.Logic | src/snes_cpu_mne.c:114-127 | AND in place, and likewise ORA and EOR. |
| Mnemonics.Executor.BitTest | src/snes_cpu_mne.c:171-191 | BIT, with Z as the code sets it. |
| Mnemonics.Executor.TestBits | src/snes_cpu_mne.c:828-886 | TRB and TSB. |
| Mnemonics.Executor.Asl | src/snes_cpu_mne.c:129-151 | ASL, with its carry as the code takes it. |
| Mnemonics.Executor.Lsr | src/snes_cpu_mne.c:431-445 | LSR in place. |
| Mnemonics.Executor.Rol | src/snes_cpu_mne.c:602-625 | ROL, leaving its result in A. |
| Mnemonics.Executor.Ror | src/snes_cpu_mne.c:627-653 | ROR, likewise. |
| Mnemonics.Executor.IncDec | src/snes_cpu_mne.c:376-381 | INC and DEC in place. |
| Mnemonics.Executor.Lda | src/snes_cpu_mne.c:410-415 | LDA at the length of A. |
| Mnemonics.Executor.Ldx | src/snes_cpu_mne.c:417-422 | LDX at the length of X. |
| Mnemonics.Executor.Ldy | src/snes_cpu_mne.c:424-429 | LDY at the length of Y. |
| Mnemonics.Executor.StoreReg | src/snes_cpu_mne.c:754-782 | STA, STX and STY, one or two bytes. |
| Mnemonics.Executor.Stz | src/snes_cpu_mne.c:784-789 | STZ, its width from the status bits. |
| Mnemonics.Executor.PushWord | src/snes_cpu_mne.c:515-520 | A word pushed, high byte first. |
| Mnemonics.Executor.PullWord | src/snes_cpu_mne.c:566-571 | A word pulled, low byte first. |
| Mnemonics.Executor.Branch | src/snes_cpu_mne.c:153-237 | A branch sets PC to the low 16 bits of its target if taken. |
| Mnemonics.Executor.PushReg | src/snes_cpu_mne.c:501-507 | PHA, PHX and PHY, high byte first. |
| Mnemonics.Executor.PullFor | src/snes_cpu_mne.c:550-558 | The pulls of PLA, PLX and PLY. |
| Mnemonics.Executor.Pea | src/snes_cpu_mne.c:477-499 | PEA, PEI and PER push a word. |
| Mnemonics.Executor.Pla | src/snes_cpu_mne.c:550-558 | PLA: what was pulled goes to A with its flags. |
| Mnemonics.Executor.Plx | src/snes_cpu_mne.c:579-586 | PLX, at the length of X. |
| Mnemonics.Executor.Ply | src/snes_cpu_mne.c:588-595 | PLY, at the length of Y. |
| Mnemonics.Executor.Plb | src/snes_cpu_mne.c:560-564 | PLB: the byte goes to DBR with its flags. |
| Mnemonics.Executor.Pld | src/snes_cpu_mne.c:566-571 | PLD: the word goes to D with its flags. |
| Mnemonics.Executor.Plp | src/snes_cpu_mne.c:573-577 | PLP, which does not lengthen registers. |
| Mnemonics.Executor.Jmp | src/snes_cpu_mne.c:395-400 | JMP, the program bank changing only to a bank other than 0. |
| Mnemonics.Executor.Jsr | src/snes_cpu_mne.c:402-408 | JSR pushes the address of its last byte. |
| Mnemonics.Executor.Rts | src/snes_cpu_mne.c:684-694 | RTS returns to the byte after the stacked address. |
| Mnemonics.Executor.Rtl | src/snes_cpu_mne.c:671-682 | RTL pulls the bank as well. |
| Mnemonics.Executor.Rti | src/snes_cpu_mne.c:655-669 | RTI, pulling P last. |
| Mnemonics.Executor.Xba | src/snes_cpu_mne.c:941-948 | XBA in place. |
| Mnemonics.Executor.Xce | src/snes_cpu_mne.c:950-960 | XCE in place. |
| Mnemonics.Executor.Execute | src/snes_cpu_mne.c:962-1156 | Every mnemonic, in place, as the machine function has it. |

## Left out

- ROM files, mapping and header detection, HiROM (rejected by the emulator), console commands, dumps and printing: input and output.
- Cycle counts: nothing reads them. `total_transfered` is only printed (and assigned by `=+`, not accumulated).
- Creating, joining and tearing down threads; NMI and interrupts.
- BRK, COP, MVN, MVP and WDM are stubs in the code and do nothing here; STP stores the status byte, as in the code.
- Low pages of banks 80-BF, APU offsets above 0x2143 and SRAM or ROM beyond what is present fail an assertion or leave the mapping in the code; the methods require that this does not happen.
- Real time, and weak memory: the two threads interleave at single byte accesses and mailbox accesses.
- UploadTheorems.UploadDelivers: assumes that at power-up the remembered snapshot and input port 0 agree and are not 0xCC; the code initialises neither, and `PowerUpExact.DeliversIff` says exactly when that matters.
- UploadTheorems.FairRunsExecute: assumes that each party moves again within a fixed number of steps, since the code has no scheduler to model, and that the sender's preparation of a message ends.
- Calls.NestedCallsReturn: does not pair a long JSR with RTL, which the code does not balance, and takes the stack to lie in the low 8K; whether a body's own instructions stay in range is left to the body.
- GuestLoop.LoopFills: takes the program bank to be 0, since the code fetches operand bytes from bank 0 whatever the program bank is.
- GuestUploadTheorems.GuestUploadDelivers: is about one program, started in native mode with its table in bank 0, and so about at most 16K messages; it makes the power-up assumption of `UploadDelivers`; a port access is one step of its instruction, since the other thread sees nothing else of it.
- Multiword.MultiwordSubtraction: is about 16-bit words; 8-bit SBC does not write A.
- Widths.ReachableImmediatesAgree: excludes exactly the instructions of `ReachableAgreeIff`, after which the two records of width do differ.
- RunLoop.RunStopsAtBreakpoints: leaves open what an instruction does; `CpuThread` puts the processor there.
- ApuModel.Apu.TransferHandle: returns at the head of the wait after END, which is part of `StartExecution`, and takes the ports not to change during the poll; `Upload` takes nothing of the kind.
- ApuModel.Apu.StartExecution: takes the port contents at each poll as a parameter, and has power-down arrive between polls or in the final wait; `PowerDown` says what happens to one that arrives at any other point.
- ProcessorModel.Processor.constructor: takes the reset vector, which comes from the ROM header, as a parameter; lock and condition of the mailbox are in `RunLoop`, not in the object.
- ArithmeticOps.AdcMeaning: is about binary addition; the code fails an assertion in decimal mode.
