# v6emul in Dafny

v6emul emulates the Vector-06C, a home computer built around an Intel 8080. Most of its code is an incremental or
optimised form of something simpler: instructions cut into machine cycles, a frame painted by two fills, a history
kept in a ring of diffs, a matcher that forgets all stars but the last. This project models those parts and proves
that each form means the simple thing, over every input and every run, and says exactly where it does not.

`dafny verify dfyconfig.toml` checks the whole project.

## How it is laid out

| modules | subject |
|---|---|
| `Bytes`, `Memory`, `MemoryUnit` | bytes and words; RAM, RAM-disk mapping and address translation; the memory class |
| `CpuDecode`, `Cpu`, `CpuGroups`, `CpuUnit` | the opcode switch and tables; every handler, one machine cycle at a time, as a function, by group, and in place |
| `Isa` | the reference: the atomic instruction set of chapter 4 of the Intel 8080 manual, decoded from bit fields |
| `CpuFlags`, `CpuLogic`, `IsaLaws` | flags, logic and rotations bit by bit, the stack, independent of any handler |
| `CpuRefinement`, `CpuTheorem`, `CpuPrograms` | the cycles of each handler, of an instruction, of a program, refine the reference |
| `CpuInvariants`, `Interrupts`, `CpuRuns` | reachable states, the interrupt protocol, whole runs with interrupts and halts |
| `MultiByte`, `StepOver` | chained arithmetic, the step-over address |
| `WriteLog`, `MemoryEdits` | the write log, read-only bytes |
| `Recorder`, `RecorderUnit`, `RecorderHistory` | time travel: the ring of diffs, in place, and the list of frames it stands for |
| `Io`, `PortCommits` | the output ports; what a port write does, any number of pixels later |
| `Display`, `DisplayUnit`, `Rasterizer`, `Picture` | painting, the two rasterizers, the picture by the bits of memory |
| `Lockstep`, `BoardTraffic`, `HardwareUnit`, `Attached` | beam and clock, what passes between CPU and ports, the machine built from its units and headless runs, the machine with debugger and recorder |
| `Glob`, `TraceHistory`, `TraceLog` | wildcard matching, the trace ring and its queries |
| `Floppy`, `FloppyUnit`, `FloppyCommands` | the WD1793: transfers, in place, and the other commands |
| `Timer`, `TimerModes`, `TimerUnit`, `Envelope` | one 8253 counter, the AY envelope |
| `Requests`, `Utf8`, `CodePerf` | the two-thread queue, UTF-8, the performance sampler |

Code that changes state in place is a class (`MemoryUnit.Unit`, `CpuUnit.I8080`, `RecorderUnit.Recorder`, `MemoryEdits.Debugger`,
`Io.Unit`, `DisplayUnit.Display`, `HardwareUnit.Hardware`, `TraceLog.TraceLog`, `FloppyUnit.Controller`,
`TimerUnit.CounterUnit`, `Envelope.Generator`, `CodePerf.Record`, `Requests.TQueue`). Each method is tied to a
function on values, and the theorems are about those functions.

## Where the code departs from what one would expect

- Opcode 0x75 (MOV M,L) has one cycle in the table but stores in its second: `CpuPrograms.MovMlRefinesIff`.
- XTHL logs only one of its two writes, so a locked byte under SP is overwritten: `WriteLog.XthlLogExactIff`,
  `MemoryEdits.XthlLockIff`, `MemoryEdits.XthlBreaksLock`.
- The recorder ring steps back wrongly below index 0 unless its size divides 2^64; the shipped size, 3000, does not. On
  every ring reversing is right if and only if the way does not cross index 0 or the size divides:
  `Recorder.ReverseTracksIff`; what the shipped ring does instead: `Recorder.ShippedRingStrays`.
- PlayForward while live drops the live flag without undoing the open frame: `Recorder.ForwardWhileLiveIff`.
- The scroll register is latched at pixel 131 whatever the left border is, but the guard for the slow fill follows the
  border: with a left border from -368 to 112 the fast fill misses scroll changes: `Rasterizer.FaithfulIff`.
- A trace reset keeps the opcode in slot 0, so the first HLT after it may go unrecorded: `TraceHistory.FirstHltIff`,
  with a run in which it does: `TraceHistory.FirstHltLost`.
- The step-over address is wrong after a taken conditional return and on the undocumented aliases:
  `StepOver.TakenReturn`, `StepOver.AliasStops`.
- The floppy watchdog keeps counting after a completed transfer, so that enough polls report lost data although every
  byte went through: `Floppy.LostAfterCompletionIff`.
- The first instruction after a playback is compared with the last one that ran, not with the frame replayed, so it
  usually starts a new frame at once: `RecorderHistory.ResumeRecords`.
- Entering an active edit again does not write over what the program stored since: `MemoryEdits.AddShowsIff`.
- A count of 0 does not stand for 65536 in mode 0 of the timer: `TimerModes.TerminalCount`. Mode 1 starts from the count
  it had: `TimerModes.PeriodicCount`.
- The request queue holds one item more than its limit: `Requests.QueueKeepsNewest`.
- Encoding a surrogate gives bytes that are not UTF-8: `Utf8.EncodeRoundTrip`.

## Model

| member | source | states |
|---|---|---|
| Isa.DecodeAgrees | libs/v6core/src/cpu_i8080.cpp:218-525 | for all 256 opcodes the switch selects the handler of the instruction the manual's bit fields name, and the cycle table gives that handler's number of cycles, 0x75 excepted |
| CpuFlags.ParityIsEven | libs/v6core/src/cpu_i8080.cpp:593-616 | the 256-entry parity table is true exactly for bytes with an even number of one bits |
| CpuFlags.AddMeans | libs/v6core/src/cpu_i8080.cpp:907-914 | the xor form of the carries gives the arithmetic sum, carry and half carry |
| CpuFlags.SubMeans | libs/v6core/src/cpu_i8080.cpp:944-948 | subtraction as addition of the complement gives the difference, borrow and half borrow |
| CpuFlags.CompareMeans | libs/v6core/src/cpu_i8080.cpp:1245-1253 | CMP sets the flags of the difference and leaves A alone |
| CpuFlags.DaaMeans | libs/v6core/src/cpu_i8080.cpp:1091-1112 | DAA is the manual's two-step decimal adjustment |
| CpuLogic.LogicMeans | libs/v6core/src/cpu_i8080.cpp:1114-1242 | ANA, XRA and ORA with a register, M or an immediate: every bit of A from that bit of the two operands, every flag from the bits, and nothing else but PC |
| CpuLogic.PushPswMeans | libs/v6core/src/cpu_i8080.cpp:872-888 | PUSH PSW leaves A above a byte with S, Z, AC, P and C in bits 7, 6, 4, 2 and 0 and the constant bits in place |
| CpuLogic.PopPswMeans | libs/v6core/src/cpu_i8080.cpp:890-905 | POP PSW takes the flags from those bits and repairs the constant ones |
| IsaLaws.RotationMeans | libs/v6core/src/cpu_i8080.cpp:633-664 | RLC, RRC, RAL and RAR move every bit one place, with the bit that leaves in the carry and the right bit coming in |
| IsaLaws.PushPop | libs/v6core/src/cpu_i8080.cpp:872-905 | a PUSH of any pair and a POP of any other, wherever they are, move the first into the second and leave SP where it was |
| IsaLaws.CallReturn | libs/v6core/src/cpu_i8080.cpp:1318-1407 | a taken return that finds the stack as a CALL or RST left it goes on right after the call with SP restored |
| CpuTheorem.HandlerCorrect | libs/v6core/src/cpu_i8080.cpp:632-1437 | every handler except HLT, run for its cycles through TMP, ACT, WZ and MC, has the effect of its atomic instruction on registers, flags, memory and ports |
| CpuUnit.I8080.ExecuteMachineCycle | libs/v6core/src/cpu_i8080.cpp:88-113 | in place on registers, cycle index, memory and write log: latch, acknowledge or fetch, handler, clock, the cycle all CPU theorems are about |
| CpuUnit.I8080.Dispatch | libs/v6core/src/cpu_i8080.cpp:632-1455 | every handler, in place, does the cycle step of the model for each cycle index |
| CpuUnit.I8080.IsInstructionExecuted | libs/v6core/src/cpu_i8080.cpp:115-118 | true at a boundary or when halted |
| CpuUnit.I8080.ExecuteInstruction | libs/v6core/src/cpu_i8080.cpp:88-118 | in place, cycles up to the first executed state, at most six; unless an interrupt is accepted, an instruction other than HLT and 0x75 is exactly one atomic 8080 step in its number of cycles |
| CpuPrograms.InstructionRefines | libs/v6core/src/cpu_i8080.cpp:88-118 | fetch, decode and cycles of the instruction under PC together are one atomic 8080 step, whatever the interrupt line does meanwhile |
| CpuPrograms.InstructionCost | libs/v6core/src/cpu_i8080.cpp:121-149 | 4 clocks per table entry, 16 for an untaken call, 8 for an untaken return |
| CpuPrograms.ProgramRefines | libs/v6core/src/cpu_i8080.cpp:88-113 | for every program and every number of instructions without interrupt, HLT or 0x75, the machine shows what that many atomic steps give |
| CpuPrograms.MovMlSkips | libs/v6core/src/cpu_i8080.cpp:689-699 | 0x75 ends after its first cycle and only moves PC |
| CpuPrograms.MovMlRefinesIff | libs/v6core/src/cpu_i8080.cpp:121-143 | 0x75 agrees with the manual if and only if the byte at HL already equals L |
| CpuInvariants.CycleKeepsInvariant | libs/v6core/src/cpu_i8080.cpp:88-113 | every cycle keeps F bit 1 set, bits 3 and 5 clear, and MC below M_CYCLES[IR] |
| CpuInvariants.ReachableInvariant | libs/v6core/src/cpu_i8080.cpp:78-113 | the same in every state reached from reset, with the clock at 4 per cycle, whatever memory and devices do |
| Interrupts.ReachableProtocol | libs/v6core/src/cpu_i8080.cpp:88-118 | in every reachable state the EI delay pends only right after an EI and a halted CPU sits in HLT |
| Interrupts.LatchStep | libs/v6core/src/cpu_i8080.cpp:88-113 | acceptance clears INTE, IFF and HLTA and starts RST 7; otherwise the latch never loses a request |
| Interrupts.StaysLatched | libs/v6core/src/cpu_i8080.cpp:88-113 | over every run a request seen while enabled stays latched until an RST 7 starts |
| Interrupts.NotRightAfterEi | libs/v6core/src/cpu_i8080.cpp:503-504 | no RST 7 starts in the slot right after an EI |
| Interrupts.AcceptedAtEnd | libs/v6core/src/cpu_i8080.cpp:88-118 | a request latched inside an instruction is accepted in the very cycle after it completes |
| Interrupts.AcceptedAfterEi | libs/v6core/src/cpu_i8080.cpp:92-110 | a request at a boundary is accepted at once or, after an EI, when the next instruction other than EI completes, within 6 cycles |
| Interrupts.AcceptedAfterEis | libs/v6core/src/cpu_i8080.cpp:92-110 | behind a chain of any number of EIs the request stays latched, no RST 7 starts in the chain, and it is accepted when the first other instruction completes |
| Interrupts.UntilExecuted | libs/v6core/src/cpu_i8080.cpp:88-118 | running until the first executed state takes exactly the cycles of the instruction and is one atomic step |
| Interrupts.InterruptCalls38 | libs/v6core/src/cpu_i8080.cpp:1349-1368 | the accepted interrupt pushes PC and jumps to 0x38 with INTE, IFF and HLTA clear |
| Interrupts.HaltedUntilInterrupt | libs/v6core/src/cpu_i8080.cpp:1439-1455 | HLT repeats its second cycle, with nothing else changing, until a request is latched |
| Interrupts.HaltThenInterrupt | libs/v6core/src/cpu_i8080.cpp:1439-1455 | the interrupt that ends a HLT pushes the address one past it |
| CpuRuns.StepRefines | libs/v6core/src/cpu_i8080.cpp:88-118 | from every boundary, a halt included, the machine run for the cycles of the atomic step shows that step: an instruction, an accepted interrupt, a HLT, a wait or the end of one, or the skipping 0x75 |
| CpuRuns.RunRefines | libs/v6core/src/cpu_i8080.cpp:88-118 | for every program, device, interrupt line and number of steps, nothing excluded, the machine goes through the states of the atomic machine that takes interrupts and halts, in its number of cycles and four clocks each |
| MultiByte.AddAllIsSum | libs/v6core/src/cpu_i8080.cpp:907-914 | chained ADD with carry over byte sequences of any length is the multi-byte sum with its carry |
| MultiByte.SubAllIsDifference | libs/v6core/src/cpu_i8080.cpp:944-948 | chained SUB with borrow is the multi-byte difference with its borrow |
| MultiByte.AddDecimalIsSum | libs/v6core/src/cpu_i8080.cpp:1091-1112 | chained ADC and DAA on packed digits is the decimal sum, again packed, with its carry |
| StepOver.StepOverStops | libs/v6core/src/hardware.cpp:978-1022 | the step-over address is the PC after the instruction, or the return address a taken call left on the stack |
| StepOver.StepOverReached | libs/v6core/src/hardware.cpp:978-1022 | on the machine, once the cycles of the instruction have run under any interrupt line, PC is the step-over address, or a taken call has left it on the stack |
| StepOver.TakenReturn | libs/v6core/src/hardware.cpp:978-1022 | on a taken conditional return it is right if and only if the stack holds the next address |
| StepOver.AliasStops | libs/v6core/src/cpu_i8080.cpp:153-216 | on the undocumented aliases it is one byte on, with the exact condition under which that is right |
| MemoryUnit.TranslationLaws | libs/v6core/src/memory.cpp:161-181 | translation stays in range, keeps the low 16 bits, is injective in each space and stays in main memory or the selected disk |
| MemoryUnit.MappingRule | libs/v6core/src/memory.cpp:161-181 | for every control byte, disk, address and space the page is the one the bits name: bit 4 the stack page of bits 2-3, bits 5, 6 and 7 the windows A000-DFFF, 8000-9FFF and E000-FFFF with the page of bits 0-1, else main memory |
| MemoryUnit.OnMeans | libs/v6core/src/memory.cpp:193-204 | a control byte enables its disk exactly when one of bits 4 to 7 is set |
| MemoryUnit.AccessMeans | libs/v6core/src/memory.cpp:110-143 | the CPU model reads the byte of that page, of the ROM exactly when it is on and the global address inside it, and writes RAM there |
| MemoryUnit.FirstOn | libs/v6core/src/memory.cpp:193-204 | the result is the first enabled disk, and none before it is enabled |
| MemoryUnit.Unit.CpuRead | libs/v6core/src/memory.cpp:110-124 | the byte the CPU model reads, which under every control byte is the one in the page its bits name, ROM shadow included |
| MemoryUnit.Unit.CpuWrite | libs/v6core/src/memory.cpp:129-143 | one byte changes, in the page the bits of the control byte name, and the slot of the log holds its address, old and new value |
| MemoryUnit.Unit.SetRamDiskMode | libs/v6core/src/memory.cpp:186-205 | the first enabled disk drives the mapping; the counter tells none, one or a collision |
| MemoryUnit.Unit.IsException | libs/v6core/src/memory.cpp:207-212 | a collision is reported once |
| WriteLog.CycleLogs | libs/v6core/src/memory.cpp:129-143 | every cycle of every instruction but XTHL, accepted interrupts included, keeps the log exact |
| WriteLog.LogIsExact | libs/v6core/src/memory.cpp:129-143 | at the end of an instruction, redoing the log on the memory before gives the memory after, undoing it gives the memory before, even if the mapping changes between cycles |
| WriteLog.XthlLogExactIff | libs/v6core/src/cpu_i8080.cpp:849-870 | the log of an XTHL is exact if and only if the byte under SP already equals L |
| MemoryEdits.RevertKeepsLocked | libs/v6core/src/debugger.cpp:104-129 | after the write check locked bytes are as before the instruction, all others as after it, and the log is again exact |
| MemoryEdits.AddShowsIff | libs/v6core/src/debugger.cpp:397-420 | after an active ADD the byte shows the entered value if and only if the edit is new, revived or changed or the byte showed it already; the first byte seen is kept and nothing else changes |
| MemoryEdits.ReapplyShows | libs/v6core/src/debugger.cpp:463-467 | after a reapply every active edit shows its value, every other byte is untouched, and a second one does nothing |
| MemoryEdits.Debugger.Revert | libs/v6core/src/debugger.cpp:104-129 | the loop over the log does exactly that in place |
| MemoryEdits.Debugger.Debug | libs/v6core/src/debugger.cpp:79-188 | write check then recorder, for any log; with an exact log locked bytes stay and the recorder extends its history consistently |
| MemoryEdits.Debugger.Add | libs/v6core/src/debugger.cpp:397-420 | an edit keeps the byte seen first and pokes only a new, revived or changed value; an address out of range changes nothing |
| MemoryEdits.Debugger.Restore | libs/v6core/src/debugger.cpp:450-461 | the original byte comes back and the edit goes; without an edit nothing changes |
| MemoryEdits.Debugger.Reapply | libs/v6core/src/debugger.cpp:463-467 | every active edit pokes its value again, in whatever order the table is walked, and nothing else changes |
| MemoryEdits.LockedByteStays | libs/v6core/src/debugger.cpp:104-129 | an active read-only byte keeps its value over any run of instructions with exact logs and requests about other bytes, and through a reapply if it shows its entered value |
| MemoryEdits.RestoreUndoesFirstAdd | libs/v6core/src/debugger.cpp:397-461 | RESTORE brings back the byte seen at the first ADD, whatever ran or was entered in between |
| MemoryEdits.XthlLockIff | libs/v6core/src/debugger.cpp:104-129 | over the six cycles of an XTHL, a locked byte under SP survives the write check if and only if it already equals L |
| MemoryEdits.XthlBreaksLock | libs/v6core/src/cpu_i8080.cpp:849-870 | otherwise the locked byte becomes L and the log left behind is not exact |
| Recorder.ExactJoins | libs/v6core/src/recorder.cpp:47-57 | the entries of an exact log join the memory before to the memory after, both ways |
| Recorder.BackIff | libs/v6core/src/recorder.cpp:148-155 | the unsigned index step goes one slot down if and only if index 0 is not crossed or the ring size divides 2^64 |
| Recorder.ShippedRingWraps | libs/v6core/src/recorder.cpp:148-155 | with the shipped 3000 frames the step from index 0 lands on 615 |
| Recorder.FullRingIff | libs/v6core/src/recorder.cpp:59-86 | a ring that has just filled stands on index 0: one reverse step restores the start of the open frame on every ring size, a second reaches the frame before if and only if the size divides 2^64 |
| Recorder.ReverseOneIff | libs/v6core/src/recorder.cpp:139-174 | from any consistent session a reverse step lands on the right frame if and only if it does not cross index 0 or the ring size divides 2^64 |
| Recorder.ReverseTracksIff | libs/v6core/src/recorder.cpp:139-174 | for any number of frames: every frame on the way back is the recorded one if and only if the way does not cross index 0 or the size divides 2^64 |
| Recorder.ShippedRingStrays | libs/v6core/src/recorder.cpp:139-174 | on a full 3000-frame ring, live on index 0, two reverse steps leave the tape on slot 615 with the machine of frame 615 instead of 2999 |
| Recorder.ClearWhileUnfilled | libs/v6core/src/recorder.cpp:11-174 | from Reset, every reverse is right while the ring has not filled, and always if its size divides 2^64 |
| Recorder.UpdateConsistent | libs/v6core/src/recorder.cpp:20-86 | an instruction keeps the tape consistent with the history cut at the cursor and extended by a new frame, and leaves it live with the machine's frame number |
| Recorder.ReverseLands | libs/v6core/src/recorder.cpp:139-174 | reversing any number of frames without crossing index 0, full ring or not, or on a ring whose size divides 2^64, puts machine and memory at the recorded start of the frame that many back, or of the oldest |
| Recorder.ForwardLands | libs/v6core/src/recorder.cpp:102-137 | replaying forward lands on the recorded start of the frame that many ahead, or of the last |
| Recorder.ReverseThenForward | libs/v6core/src/recorder.cpp:102-174 | reverse k then forward k is the identity on tape, machine and memory, full ring or not, when the way back is clear |
| Recorder.ForwardThenReverse | libs/v6core/src/recorder.cpp:102-174 | forward k then reverse k is the identity when the way back does not cross index 0 or the size divides 2^64 |
| Recorder.ForwardWhileLiveIff | libs/v6core/src/recorder.cpp:105-112 | PlayForward while live stays on the history if and only if the machine already is the stored frame start |
| Recorder.ForwardWhileLiveFails | libs/v6core/src/recorder.cpp:105-112 | a one-write session that leaves the history this way |
| Recorder.TimeTravel | libs/v6core/src/recorder.cpp:11-174 | after Reset and any mix of instructions and clear playback, also on a full ring, the machine is the recorded start of the current frame, plus the open diff while live |
| RecorderHistory.TimeTravelRefines | libs/v6core/src/recorder.cpp:11-174 | over every session the ring refines a plain list of frame starts with a cursor, given by the machine states alone: a frame starts exactly when the display frame differs from that of the instruction before, the oldest falls out of a full list, resuming cuts the future off |
| RecorderHistory.RecordsFrameStarts | libs/v6core/src/recorder.cpp:34-86 | after any number of instructions from Reset the recorded frames are the first state and exactly those whose frame number differs from that of the state before, the newest of them on a full ring |
| RecorderHistory.ResumeRecords | libs/v6core/src/recorder.cpp:20-45 | the first instruction after a playback starts a frame exactly when it ends in another display frame than the last instruction that ran |
| RecorderUnit.Recorder.Reset | libs/v6core/src/recorder.cpp:11-18 | one state, consistent with the history of that state alone |
| RecorderUnit.Recorder.StoreMemoryDiff | libs/v6core/src/recorder.cpp:47-57 | the loop appends exactly the logged entries to the current frame, first slot first |
| RecorderUnit.Recorder.Update | libs/v6core/src/recorder.cpp:34-45 | in place, for any log and any ring, the tape becomes the updated tape, live and with the machine's frame number; with an exact log it stays consistent with the extended history |
| RecorderUnit.Recorder.PlayForward | libs/v6core/src/recorder.cpp:102-137 | in place, with its redo loop, for any ring and frame count, the forward playback of the model; on a history what ForwardLands is about |
| RecorderUnit.Recorder.PlayReverse | libs/v6core/src/recorder.cpp:139-174 | in place, with its undo loop, for any ring and frame count, the reverse playback of the model; on a history and a clear way what ReverseLands is about |
| Io.TryTimers | libs/v6core/src/io.cpp:331-353 | a pixel brings each running timer one nearer to zero and leaves stopped ones alone |
| Io.OutsPend | libs/v6core/src/io.cpp:305-329 | any CPU output between two Rasterize calls leaves only output and mode commits that the next sixteen pixels finish, whatever the palette time |
| PortCommits.ElapsedMeans | libs/v6core/src/io.cpp:331-358 | the ports any number of pixels later, for every state and colours under the beam: each timer acts at its own pixel, the output first, then the colour, then the mode, with the registers by the bits of the byte |
| PortCommits.OutMeans | libs/v6core/src/io.cpp:305-329 | what an OUT does at any later pixel: port 2 border and mode, port 3 scroll, ports 0C to 0F the palette entry under the beam, a control word on port 0 clears, nothing else reaches the display |
| Io.Unit.Send | libs/v6core/src/io.cpp:305-329 | the write is latched with its commit timers, 8-bit signed |
| Io.Unit.SendAll | libs/v6core/src/io.cpp:305-329 | the writes of a cycle, in order |
| Io.Unit.TryCommit | libs/v6core/src/io.cpp:331-358 | the three timers in order, in place |
| DisplayUnit.Display.FillBorderPortHandling | libs/v6core/src/display.cpp:117-139 | the border loop: commits, colour, frame turn with the finished frame copied to the back buffer, and interrupt, pixel by pixel |
| DisplayUnit.Display.FillActiveArea | libs/v6core/src/display.cpp:141-165 | the fast fills of both modes paint the bits of the screen planes |
| DisplayUnit.Display.FillActiveAreaPortHandling | libs/v6core/src/display.cpp:167-231 | the port-handling fills of both modes, in place |
| DisplayUnit.Display.Rasterize | libs/v6core/src/display.cpp:68-106 | one call, split between active area and border where the border is not aligned |
| Rasterizer.ColorBits | libs/v6core/src/display.cpp:342-369 | the colour index is one bit of each plane, eight apart in the shifted word, with weights 1, 2, 4, 8; in MODE_512 two planes per pixel |
| Picture.SettledPicture | libs/v6core/src/display.cpp:141-165 | with nothing pending, on active line y in column x the sixteen pixels show the palette at the indices given by the bits, top bit first, of ram[0x8000 + 0x2000 plane + 0x100 x + (scroll - (y - 40)) mod 256], red, green, blue and alpha spelled out, and nothing else of the frame changes |
| Picture.ActivePicture | libs/v6core/src/display.cpp:167-231 | the same for any pending writes: each pixel after the commits due by then, the ports sixteen pixels on, and the scroll register latched at pixel 131 of line 40 |
| Picture.BorderPicture | libs/v6core/src/display.cpp:117-139 | outside the active area each pixel shows the border colour after the commits due by then; the last one ends the frame and hands the finished frame over |
| Picture.MixedPicture | libs/v6core/src/display.cpp:35-65 | the mixed rasterizer shows exactly that picture, keeping only its scroll register where it misses a change |
| Picture.FramePicture | libs/v6core/src/display.cpp:68-139 | a whole frame with memory and ports at rest: every one of the 239616 pixels of the frame handed over shows the bits of memory there or the border colour |
| Rasterizer.RasterizersAgreeIff | libs/v6core/src/display.cpp:35-65 | one call equals the always port-handling one if and only if no scroll change is missed |
| Rasterizer.RasterizeMoves | libs/v6core/src/display.cpp:68-139 | with the left border on the grid and prompt commits, each call moves the beam 16 pixels, turns the frame exactly at its end, and leaves no output or mode commit pending, nor a palette commit due within the chunk |
| Rasterizer.RasterizeTurns | libs/v6core/src/display.cpp:68-106 | whatever the borders, commit times and pending writes, a call moves the beam 16 pixels and turns the frame at its end |
| Rasterizer.RasterizePulses | libs/v6core/src/display.cpp:54-139 | whatever the borders, commit times and pending writes, a call pulses the interrupt if and only if one of its border pixels brings the beam to the interrupt pixel and a timer is not negative or the line is the first or last |
| Rasterizer.RunsAgree | libs/v6core/src/display.cpp:35-257 | over every run both rasterizers have the same frame buffer, scroll, palette, mode and committed writes |
| Rasterizer.FaithfulIff | libs/v6core/src/display.cpp:35-65 | for a left border multiple of 16 they agree over all runs from reset if and only if it is at least 128 or at most -384 |
| Rasterizer.ResetRunDiffers | libs/v6core/src/display.cpp:35-65 | from reset, one OUT 3 before the first active line makes them differ for every other left border multiple of 16 |
| Lockstep.BeamAndClock | libs/v6core/src/hardware.cpp:97-107 | from reset, for every program, device and display setting, 4 cc = frameNum * FRAME_LEN + framebufferIdx after every tick, with the exact frame and pixel of each tick |
| Lockstep.PulseIff | libs/v6core/src/display.cpp:54-139 | from reset, for every setting: the tick whose border pixel reaches the interrupt pixel pulses if and only if its border is painted by the fill that handles the interrupt; no other tick does |
| Lockstep.OnePulsePerFrame | libs/v6core/src/display.cpp:54-139 | for every program, device, left border, interrupt pixel and commit times not negative, the interrupt pulses in exactly one Rasterize of each frame if its pixel exists and is reached from the border, and never otherwise |
| Lockstep.ShippedPulse | libs/v6core/include/core/display.h:77-77 | with the shipped interrupt pixel, over every run and for every left border and all commit times, tick 6 of each frame pulses and no other |
| BoardTraffic.EveryOutCommits | libs/v6core/src/io.cpp:305-358 | over every run, program and display setting with an output time of 1 to 16 pixels, the writes the ports have taken are the OUTs of the program, in order, each once |
| BoardTraffic.FrameInterrupt | libs/v6core/src/hardware.cpp:103-104 | with the shipped interrupt pixel, in every frame the pulse of tick 6 starts an RST 7 or is latched exactly when interrupts are enabled then, and no other tick brings a request |
| BoardTraffic.FrameInterruptServed | libs/v6core/src/cpu_i8080.cpp:88-113 | and an RST 7 starts within six cycles of it, when the instruction in progress is complete |
| Lockstep.InstructionLogExact | libs/v6core/src/hardware.cpp:97-107 | run on the whole machine, an instruction other than XTHL leaves an exact log |
| HardwareUnit.Hardware.Tick | libs/v6core/src/hardware.cpp:103-104 | display unit, memory mapping, CPU unit and port latch in place do the tick all lockstep theorems are about |
| HardwareUnit.Hardware.ExecuteInstruction | libs/v6core/src/hardware.cpp:97-107 | on the units in place: the do-while ends within six cycles, at the first executed state, still in lockstep, and the units show the board that many ticks later |
| HardwareUnit.Hardware.RunHeadless | libs/v6core/src/hardware.cpp:934-976 | terminates at the first instruction that meets a limit; with a frame limit k alone it runs exactly k frames, and from reset 59904 k <= cc <= 59904 k + 20 |
| Attached.StepKeeps | libs/v6core/src/hardware.cpp:97-112 | an instruction run by ticks and followed by the write check and the recorder, or a playback, keeps the machine on the recorded history, in lockstep, with every locked byte in place, here and in every recorded frame |
| Attached.LockedThroughTimeTravel | libs/v6core/src/hardware.cpp:97-112 | over every run of instructions (no XTHL) and clear playback from a recorder reset, under any table of edits, the session is consistent, four pixels per clock, and a locked byte reads as at the start, now and in every recorded frame |
| Glob.GlobMatches | libs/v6core/src/trace_log.cpp:89-113 | terminates and is true exactly for the strings of the pattern's language, up to case |
| Glob.LaterStarIsEnough | libs/v6core/src/trace_log.cpp:101-106 | when a new star is met, every retry of the old one is covered by the new one |
| TraceHistory.HistoryIsNewest | libs/v6core/src/trace_log.cpp:26-45 | the history is the newest min(n, 300000) of the n accepted instructions, repeated HLTs dropped, and slot 0 holds its old opcode until record 300000, then that of the latest record numbered by a multiple of 300000 |
| TraceHistory.FirstHltIff | libs/v6core/src/trace_log.cpp:200-206 | after any instructions and a reset the next HLT is recorded if and only if slot 0 holds no HLT, given by the instructions executed |
| TraceHistory.FirstHltLost | libs/v6core/src/trace_log.cpp:26-45 | 299999 NOPs, an HLT and a reset make the next HLT go unrecorded |
| TraceHistory.GenerationNamesHistory | libs/v6core/src/trace_log.cpp:37-39 | over every run equal generations mean equal histories |
| TraceLog.Pushed | libs/v6core/src/trace_log.cpp:37-44 | writing one slot down keeps the ring and drops the oldest record exactly when full |
| TraceLog.SentinelDelimits | libs/v6core/src/trace_log.cpp:139-142 | scanning from the newest, the sentinel is met exactly at the record count |
| TraceLog.KeptMeans | libs/v6core/src/trace_log.cpp:135-153 | the filter of a list is made of the filters of its parts in order and keeps a record exactly when both its texts are in the languages of their patterns |
| TraceLog.TraceLog.UpdateLogBuffer | libs/v6core/src/trace_log.cpp:26-45 | in place, the history, index and slot 0 take the record unless it repeats an HLT, full ring or not |
| TraceLog.TraceLog.Update | libs/v6core/src/trace_log.cpp:15-24 | the filter expires before the history changes, so an active filter always is that of the current history; the new record holds the operand, for PCHL the address jumped to |
| TraceLog.TraceLog.Reset | libs/v6core/src/trace_log.cpp:200-206 | the history is empty with a new generation; slot 0 keeps its opcode |
| TraceLog.TraceLog.ScanLength | libs/v6core/src/trace_log.cpp:139-142 | the sentinel scan passes as many records as the history count |
| TraceLog.TraceLog.FindCaller | libs/v6core/src/trace_log.cpp:47-70 | the nearest older record outside the range, its successor as entrance, a cursor beyond the given one; errors exactly for bad ranges, stale generations and bad cursors |
| TraceLog.TraceLog.CallerSuccessor | libs/v6core/src/trace_log.cpp:72-80 | the address after the caller's instruction, for a cursor of the current generation only |
| TraceLog.TraceLog.CreateFilter | libs/v6core/src/trace_log.cpp:135-153 | exactly the records whose texts are in the languages of the patterns, newest first |
| TraceLog.TraceLog.GetFilterWindow | libs/v6core/src/trace_log.cpp:155-169 | a contiguous window of what the patterns select from the current history, or an error for an expired filter or a start beyond it |
| Floppy.SectorLaws | libs/v6core/src/fdc_wd1793.cpp:104-118 | sectors lie at 1024 (5 (2 track + side) + sector - 1), inside their track and the disk, and different ones do not overlap |
| Floppy.BusyExactlyWhileBytesRemain | libs/v6core/src/fdc_wd1793.cpp:141-402 | in every reached state BUSY is set exactly while bytes of a transfer remain, and the pointer stays on the disk |
| Floppy.WritesLand | libs/v6core/src/fdc_wd1793.cpp:379-402 | at any point of such a run the bytes put so far are spliced into the image and nothing else changed |
| Floppy.ReadsReturn | libs/v6core/src/fdc_wd1793.cpp:163-192 | at any point of such a run the bytes got so far are those of the image, in order |
| Floppy.WriteSectors | libs/v6core/src/fdc_wd1793.cpp:300-322 | a complete write, its data writes interleaved in any way with fewer polls between accesses than the watchdog allows and with status reads, replaces exactly the addressed bytes, 1024 or with bit 4 all to the end of the track, and ends idle |
| Floppy.ReadSectors | libs/v6core/src/fdc_wd1793.cpp:277-298 | a complete read, interleaved the same way, returns the addressed bytes in order, changes nothing and ends idle |
| Floppy.WriteThenRead | libs/v6core/src/fdc_wd1793.cpp:277-322 | single or multi sector, polled or not, writing and then reading the same sectors returns the bytes written |
| Floppy.OtherSectorsStay | libs/v6core/src/fdc_wd1793.cpp:379-402 | over such a transfer every sector not addressed keeps its bytes |
| Floppy.WatchdogFires | libs/v6core/src/fdc_wd1793.cpp:182-192 | without accesses the watchdog fires at exactly its poll, the 255th after an access, and not before |
| Floppy.LostAfterCompletionIff | libs/v6core/src/fdc_wd1793.cpp:163-192 | the last byte of a read or write leaves the drive idle with the watchdog running on from where the access found it: lost data is reported if and only if at least that many polls follow |
| FloppyCommands.CompletesExactly | libs/v6core/src/fdc_wd1793.cpp:163-181 | a READ or WRITE is complete after exactly 1024 accesses, with bit 4 after exactly 1024 (6 - sector): BUSY and data request until then, the interrupt after, the sector register counting the sectors |
| Floppy.EndsTrack | libs/v6core/src/fdc_wd1793.cpp:277-322 | with bit 4 the last byte moved is the last of the track |
| FloppyCommands.SeekMeans | libs/v6core/src/fdc_wd1793.cpp:233-249 | RESTORE and SEEK put head and track register on track 0 or on that of the data register |
| FloppyCommands.StepsMove | libs/v6core/src/fdc_wd1793.cpp:251-275 | n steps in or out move the head n tracks, out no further than track 0, and plain steps go on in the last direction |
| FloppyCommands.StepMeans | libs/v6core/src/fdc_wd1793.cpp:251-275 | one step by the bits of the command: direction from bit 5 if bit 6 is set, track register if bit 4 is |
| FloppyCommands.SystemMeans | libs/v6core/src/fdc_wd1793.cpp:404-425 | the side of a transfer without side comparison is the inverse of bit 2 of the system port |
| FloppyCommands.ForceMeans | libs/v6core/src/fdc_wd1793.cpp:208-224 | FORCE-INTERRUPT ends any transfer and interrupts if bit 3 asks for it |
| FloppyCommands.BusyRefuses | libs/v6core/src/fdc_wd1793.cpp:225-226 | any other command is refused while BUSY |
| FloppyCommands.AddressMeans | libs/v6core/src/fdc_wd1793.cpp:324-349 | READ-ADDRESS is a transfer of six bytes: track and side under the head, sector 0 and the rest of the header |
| FloppyCommands.FormatMeans | libs/v6core/src/fdc_wd1793.cpp:354-367 | WRITE-TRACK fills both sides of the track with 0xE5 and no other byte |
| FloppyCommands.StatusReadsMean | libs/v6core/src/fdc_wd1793.cpp:145-160 | repeated status reads flip the index bit after head commands, clear lost data after transfers and keep BUSY |
| FloppyUnit.Controller.ReadData | libs/v6core/src/fdc_wd1793.cpp:163-181 | in place, the read step of the model |
| FloppyUnit.Controller.WriteData | libs/v6core/src/fdc_wd1793.cpp:379-402 | in place, the write step of the model |
| FloppyUnit.Controller.ReadReady | libs/v6core/src/fdc_wd1793.cpp:182-192 | in place, the poll of the model |
| FloppyUnit.Controller.StartTransfer | libs/v6core/src/fdc_wd1793.cpp:277-349 | in place, the transfer commands, refused while busy, with the count and the offset their bits name |
| FloppyUnit.Controller.MoveHead | libs/v6core/src/fdc_wd1793.cpp:233-275 | in place, RESTORE, SEEK and the STEP commands |
| Requests.TQueue.Push | libs/v6utils/include/utils/tqueue.h:58-78 | the item is last; the oldest goes only when the queue was already over its limit |
| Requests.TQueue.Pop | libs/v6utils/include/utils/tqueue.h:34-56 | the oldest item, or nothing from an empty queue |
| Requests.QueueKeepsNewest | libs/v6utils/include/utils/tqueue.h:58-78 | a queue no one pops keeps the newest items in order, one more than its limit |
| Requests.EveryRequestAnsweredInOrder | libs/v6core/src/hardware.cpp:211-229 | in every interleaving with one client the k-th response answers the k-th request, one item at most is outstanding, and nothing is dropped |
| Requests.HandlersNeverNest | libs/v6core/src/hardware.cpp:97-128 | a handler that polls the queue again finds it empty |
| Requests.WaitingMakesProgress | libs/v6core/src/hardware.cpp:211-229 | a waiting client is never stuck and its response is exactly three steps away from its request |
| Requests.ReplyIsOwnOutcome | libs/v6core/src/hardware.cpp:672-688 | each response is the outcome of the handler that took its own request, on the normal, exception and unhandled paths |
| Utf8.IpcIsValidUtf8 | app/ipc_request.cpp:69-105 | accepts exactly the strings of the grammar in section 4 of RFC 3629 |
| Utf8.ScriptIsValidUtf8 | libs/v6core/src/scripts.cpp:24-47 | accepts exactly the same strings |
| Utf8.StrWToStr | libs/v6utils/src/str_utils.cpp:59-94 | the encoding of section 3 of RFC 3629, character by character |
| Utf8.EncodeRoundTrip | libs/v6utils/src/str_utils.cpp:59-94 | the encoding is valid if and only if no code point is a surrogate, and then decodes back |
| Utf8.DecodeRoundTrip | libs/v6utils/src/str_utils.cpp:59-94 | every valid string is the encoding of the scalars it decodes to |
| Utf8.BoundedError | libs/v6core/src/scripts.cpp:49-55 | the longest valid prefix within 4096 bytes of an over-long text, 4093 to 4096 bytes if the text was valid |
| Timer.SquareWave | libs/v6core/src/timer_i8253.cpp:137-159 | after SetMode 3 and a two-byte load of any N >= 2, three idle calls return 1 and the j-th after them returns 1 exactly when j mod N < ceil(N / 2) |
| Timer.SquareFrom | libs/v6core/src/timer_i8253.cpp:137-159 | the same however the count was loaded |
| TimerModes.TerminalCount | libs/v6core/src/timer_i8253.cpp:84-104 | mode 0: low for three idle calls and until the N-th call after them, high from then on; a count of 0 returns 2 once and never rises |
| TimerModes.PeriodicCount | libs/v6core/src/timer_i8253.cpp:105-136 | modes 1 and 2: high throughout, the count after j calls at N - j mod N, in mode 1 first down from where it stood and then through N + 1 values; 0 is 65536 |
| TimerModes.LoadMeans | libs/v6core/src/timer_i8253.cpp:172-232 | both bytes, the low or the high one alone: the count written is loaded and waits for three calls |
| TimerModes.DecimalLoad | libs/v6core/src/timer_i8253.cpp:172-232 | in decimal, writing the four digits of a number loads that number |
| TimerModes.SetModeMeans | libs/v6core/src/timer_i8253.cpp:20-61 | the counter stops, a half-written count is forgotten, modes 6 and 7 are 2 and 3, the output of mode 0 starts low and of the others high |
| Timer.BcdRoundTrip | libs/v6core/src/timer_i8253.cpp:276-296 | the decimal conversions undo each other below 10000 |
| TimerUnit.CounterUnit.Clock | libs/v6core/src/timer_i8253.cpp:70-170 | in place, the clock function of modes 0 to 3 |
| TimerUnit.CounterUnit.SetMode | libs/v6core/src/timer_i8253.cpp:20-61 | in place, the mode setting |
| TimerUnit.CounterUnit.Write | libs/v6core/src/timer_i8253.cpp:172-232 | in place, the load with its delays |
| CodePerf.SamplerIsExact | libs/v6core/include/core/code_perf.h:57-81 | for every trace the count is the number of completed samples capped at 20000 and the average is their exact mean |
| CodePerf.FrozenAtCap | libs/v6core/include/core/code_perf.h:57-60 | at the cap nothing changes any more |
| CodePerf.Record.CheckPerf | libs/v6core/include/core/code_perf.h:57-81 | in place, one event |
| CodePerf.Record.Edit | libs/v6core/include/core/code_perf.h:38-55 | new end points start over; switching only drops the open sample |
| Envelope.EnvelopeShape | libs/v6core/include/core/sound_ay8910.h:78-87 | for every value written to register 13 and every k, the k-th step returns the shape its bits CONT, ATTACK, ALTERNATE and HOLD name, in closed form, within 0 to 15 |
| Envelope.Generator.Put | libs/v6core/include/core/sound_ay8910.h:136-156 | the masked register write, and the envelope restart of register 13 |
| Envelope.Generator.Step | libs/v6core/include/core/sound_ay8910.h:78-87 | in place, one envelope step |

## Left out

- CpuUnit.I8080: a register pair is one field holding its two bytes; the read log and the opcode bytes kept for the debugger are not modelled.
- HardwareUnit.Hardware.ExecuteInstruction: the audio clock, the mapping exception and request handling after the instruction; the write check and recorder of Debug are in Attached.
- HardwareUnit.Hardware.RunHeadless: needs a frame or cycle limit; with the halt exit alone the loop of the code need not end.
- MemoryUnit.Unit.CpuRead: does not fill the read log, which only watchpoints and access statistics use.
- MemoryEdits.Debugger.Debug: only the write check and the recorder; watchpoints, breakpoints, scripts, access statistics and trace output are not modelled.
- FloppyUnit.Controller.StartTransfer: for tracks and sectors on the disk; beyond them the code forms a pointer outside the image.
- Requests.TQueue.Pop: the blocking and timed waits are not modelled.
- Clock, frame, generation and filter counters: unbounded; their 64-bit wrap-around is not modelled. The recorder's index arithmetic is.
- Input devices: IN reads any function of the port traffic so far; keyboard, joystick and the ports that do not reach the display are not modelled.
- RAM-disk mapping during a headless run: any function of the port writes committed so far; the mapping rule itself is MemoryUnit.Unit.SetRamDiskMode.
- Attached.LockedThroughTimeTravel: playback restores the committed writes and with them every disk's mapping byte; in the code only the mapping in force is recorded, so after playback the next RAM-disk write combines with the bytes of the other disks as they were before it.
- Display settings: fixed over a run; a client's change between two calls is covered by the theorems about one call.
- Recorder: snapshots of CPU, I/O and display are opaque except for the frame number (concrete in Attached); Serialize, Deserialize and the saved RAM copy are not modelled, and a ring of zero frames is excluded.
- Display: GPU buffer, cropping, colour formats and the full repaint after playback; the 256 and 512 fills share a method with a mode parameter.
- Picture.ActivePicture: for a left border that is a multiple of 16 pixels, so that no column is cut by a call; for other borders only the moves of the beam, the commits and the pulse are stated.
- Rasterizer.RunsAgree: for an out commit time of 1 to 16 pixels and a mode time of at most 16, as shipped; with an out time of 0 a mode commit could pend alone. The palette time, the only one a client can set, is free.
- TraceLog: the disassembly text of an entry is a parameter; the log file and GetDisasm are not modelled.
- Floppy: one selected disk, tracks up to 81 and sectors 1 to 5; drive changes and dismounts are not modelled, READ-TRACK does nothing as in the code, WRITE-TRACK formatting is modelled on values only.
- Timer: Latch, Read, and modes 4 and 5, which are empty in the code; the square wave is stated for counts of at least 2.
- CodePerf: the average is over real numbers; rounding of doubles is not modelled.
- Envelope: tone, noise, mixing and the amplitude table.
- Requests: one client thread; wall-clock waits, the exit grace period and what each request does are not modelled.
- Utf8.StrWToStr: code points up to U+10FFFF, all the code promises to handle; larger 32-bit values are not modelled.
- Sockets, MessagePack, the JSON field checks, argument parsing, Lua execution, labels, screenshots and audio mixing.
