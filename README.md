# 6502 execution engine

A Dafny model of the execution engine of a C# emulator of the MOS 6502
processor, in its three generations:

- `LA6502/CPU.cs`, the current engine (module `Cpu`);
- `6502/src/CPU.cs` with `6502/src/Memory.cs`, an earlier snapshot (module `SrcCpu`);
- `6502/Program.cs`, the earliest single-file version (module `EarlyCpu`).

Each engine has a `CPU` with a 16-bit program counter and five 8-bit
registers: stack pointer, accumulator, X, Y and status. Each engine also has
a 64 KiB `Memory` and an unsigned 32-bit cycle counter. The C# passes that
counter by `ref` through the bus primitives. `Execute` repeats
`while (cycles > 0)`: fetch an opcode, then run its `case` of a `switch`.

Files:

- `outcomes.dfy`: the `Option`, `Result` and `Outcome` datatypes.
- `words.dfy`: bytes, 16-bit words and 32-bit counters as bounded integers.
  - The C# casts and unchecked `++`/`--` become explicit `Wrap…` functions.
  - Little-endian word assembly and the page test live here too.
- `flags.dfy`: the flag bit positions, and the status byte read as an 8-bit bit-vector.
  - The pure bit expressions of `IsFlagSet`, `IsBitSet`, `SetFlag`, `ClearFlag` and `ToggleFlag`.
- `opcodes.dfy`: the opcode table.
  - An injective byte encoding of the 41 handled opcodes.
  - Each opcode's operation and addressing mode, and its cycle cost.
  - The four-opcode decoder of the earlier engines.
- `memory.dfy`: the bounds-checked `Memory` with its indexer and `Initialize`.
  - The three C# copies of this struct are identical, so one class stands for all three.
- `machine.dfy`: the engine as values.
  - The state (registers, memory, counter) and every addressing-mode resolver.
  - One instruction (`Step`) for each engine generation.
  - A bounded run of the `Execute` loop (`Run`).
- `cpu.dfy`, `src_cpu.dfy`, `early_cpu.dfy`: the three `CPU` structs as classes.
  - The status register is a `Byte` field; the flag helpers read it as a bit-vector.
  - Each `case` group of the dispatcher is a method of its own, called from `Step`.
  - Their methods update the register fields and the memory array in place.
  - Each method is proved to have the effect the value model gives it.
  - The `Step` of each class (one turn of the `Execute` loop) equals `Machine.Step` for that engine.
  - Its `Execute` ends in the state `Machine.Run` computes.
- `properties.dfy`: properties of the engine, proved about the value model. They therefore hold of the classes as well.

Behaviour that the code has and the model keeps:

- **`SetFlag`, `ClearFlag` and `ToggleFlag` act on a copy.** Their parameter `StatusFlags` is passed by value and shadows the field. So `SetZeroAndNegativeFlags` never changes the CPU, and the status register changes only through PLP and `Reset`.
- **`IsBitSet` ignores its register argument.** It tests the status field instead.
- **`PopFromStack` reads before it increments SP.**
  - It reads `0x0100 + SP` and only then increments SP.
  - So a PHA followed by a PLA restores SP, but loads A from the cell below the pushed one.
  - The stack tests agree with this: PLA with SP = 0xFE reads 0x01FE.
  - A push followed by a pull is sometimes described as a round trip. The model follows the code, and `Properties.PushThenPull` states what the code does.
- **Page crossings.**
  - In the current engine a page crossing costs nothing: `RequestCycle` then `CycleTick`.
  - Only a resolver call without `variableCycles` pays its one fixed extra cycle.
  - In the earlier engines a crossing costs exactly one cycle.
- **The cycle counter wraps.** Once an instruction overspends the budget, the counter wraps to a large value and `Execute` goes on.
- **`ReadWord` increments its address as a 16-bit value.** A zero-page pointer at 0xFF takes its high byte from 0x0100.
- **The unhandled-opcode error is reported at `PC - 1`.**
  - The subtraction is done in C# `int` arithmetic on the already advanced 16-bit PC.
  - So an opcode fetched at 0xFFFF is reported at address -1.
- **Opcode values.**
  - The source names only the four LDA values 0xA9, 0xA5, 0xB5 and 0xAD.
  - The other 37 opcodes use the standard MOS 6502 encodings; these are an assumption of the model.
  - `Opcodes.Cycles` is derived from the code of the dispatcher. `Properties.CyclesAgreeWithResolvers` proves that it agrees with what the resolvers and bus primitives spend.

## Model

| member | source | states |
|---|---|---|
| Words.MakeWord | LA6502/CPU.cs:113-125 | the word assembled from a low and a high byte gives those bytes back |
| Words.WordRoundTrip | LA6502/CPU.cs:138-151 | splitting a word into low and high byte and reassembling it is the identity |
| Words.Page | LA6502/CPU.cs:216-223 | `address & 0xFF00` keeps the high byte and clears the low byte |
| Words.PageCrossedIffCarry | LA6502/CPU.cs:216-238 | the high byte changes when an index is added exactly when the low byte plus the index carries |
| Words.ZeroPageIndexed | LA6502/CPU.cs:187-195 | `(byte)(operand + index)` is the sum modulo 0x100 and lies in page 0 |
| Words.ZeroPageIndexedInjective | LA6502/CPU.cs:187-206 | for one operand, two indexes give the same zero-page address exactly when they are equal |
| Words.Signed | LA6502/CPU.cs:319-329 | the `(sbyte)` cast lies in -128..127 and is congruent to the byte modulo 0x100 |
| Words.Displace | LA6502/CPU.cs:319-329 | PC plus a signed offset: forward for offsets below 0x80, backward by 0x100 minus the offset otherwise, modulo 0x10000 |
| Flags.BitPosition | LA6502/Types.cs:5-14 | flag bit positions are below 8 and skip bit 5 |
| Flags.BitIsShift | LA6502/CPU.cs:45-48 | the bit of position k is `1 << k` |
| Flags.Mask | LA6502/CPU.cs:45-48 | the mask of a flag is the bit of its position |
| Flags.MasksDisjoint | LA6502/Types.cs:5-14 | distinct flags have disjoint masks |
| Flags.IsBitSet | LA6502/CPU.cs:51-54 | bit 7 tested is the N flag of the status byte, whatever register is passed; positions 8..31 are never set |
| Flags.SetFlagEffect | LA6502/CPU.cs:57-60 | after `SetFlag` the flag is set and every other bit of the byte is kept |
| Flags.ClearFlagEffect | LA6502/CPU.cs:63-66 | after `ClearFlag` the flag is clear and every other bit of the byte is kept |
| Flags.ToggleFlagEffect | LA6502/CPU.cs:69-72 | after `ToggleFlag` the flag is inverted and every other bit of the byte is kept |
| Flags.KeptOutside | LA6502/CPU.cs:44-72 | a byte that keeps every bit outside one flag's mask keeps the state of every other flag |
| Flags.SetKeepsOthers | LA6502/CPU.cs:57-60 | setting one flag leaves every other flag's state unchanged |
| Flags.ClearKeepsOthers | LA6502/CPU.cs:63-66 | clearing one flag leaves every other flag's state unchanged |
| Flags.ToggleKeepsOthers | LA6502/CPU.cs:69-72 | toggling one flag leaves every other flag's state unchanged |
| Flags.ToggleTwice | LA6502/CPU.cs:69-72 | toggling a flag twice gives the original byte back |
| Flags.SetTwice | LA6502/CPU.cs:57-60 | setting a flag twice is setting it once |
| Flags.ClearTwice | LA6502/CPU.cs:63-66 | clearing a flag twice is clearing it once |
| Flags.ClearAfterSet | LA6502/CPU.cs:57-66 | clearing a flag after setting it is clearing it |
| Opcodes.DecodeEncode | LA6502/Types.cs:16-22 | decoding the byte of an opcode gives that opcode |
| Opcodes.EncodeDecode | LA6502/CPU.cs:338-739 | every byte the dispatcher handles is the encoding of the opcode it decodes to |
| Opcodes.EncodeInjective | LA6502/CPU.cs:338-739 | distinct opcodes have distinct bytes |
| Opcodes.OperandBytes | LA6502/CPU.cs:340-734 | no instruction reads more than two operand bytes |
| Opcodes.Cycles | LA6502/CPU.cs:340-734 | every instruction costs between two and six cycles |
| Opcodes.LegacyDecode | 6502/src/Core.cs:20-26 | the earlier engines handle exactly 0xA9, 0xA5, 0xB5 and 0xAD, decoded as the current engine decodes them |
| MainMemory.Zeroed | 6502/src/Memory.cs:35-41 | 65536 cells, all zero |
| MainMemory.Memory.constructor | 6502/src/Memory.cs:14-17 | a fresh array of exactly 65536 zero cells |
| MainMemory.Memory.Get | 6502/src/Memory.cs:21-26 | the cell at an address below 65536, and the index error at or above it |
| MainMemory.Memory.Set | 6502/src/Memory.cs:27-32 | below 65536 only the addressed cell changes, to the written value; at or above it the error and no change |
| MainMemory.Memory.Initialize | 6502/src/Memory.cs:35-41 | every cell is 0 afterwards, whatever it held, so a second call changes nothing |
| Machine.Spend | LA6502/CPU.cs:39-42 | n decrements of the unsigned counter: c - n when c >= n, c - n + 2^32 otherwise |
| Machine.ZeroPageAt | LA6502/CPU.cs:180-184 | the zero-page address lies in page 0 |
| Machine.ZeroPageIndexedAt | LA6502/CPU.cs:187-206 | the address is operand plus index modulo 0x100 |
| Machine.AbsoluteAt | LA6502/CPU.cs:209-213 | the address is the little-endian operand word |
| Machine.AbsoluteIndexedAt | LA6502/CPU.cs:216-262 | operand word plus index modulo 0x10000; two cycles with `variableCycles`, three without, crossing or not |
| Machine.IndirectXAt | LA6502/CPU.cs:277-289 | the word at the zero-page pointer operand plus X modulo 0x100 |
| Machine.IndirectYAt | LA6502/CPU.cs:292-316 | the word at the pointer, plus Y modulo 0x10000; three cycles with `variableCycles`, four without |
| Machine.RelativeAt | LA6502/CPU.cs:319-329 | the program counter after the operand, plus the signed operand, modulo 0x10000 |
| Machine.LegacyAbsoluteIndexedAt | 6502/src/CPU.cs:170-200 | operand word plus index modulo 0x10000; three cycles when a page is crossed, two otherwise |
| Machine.TruncatedIndirectYAt | 6502/src/CPU.cs:227-244 | the pointer word plus Y modulo 0x100; the extra cycle is charged exactly when the pointer word's high byte is nonzero |
| Machine.WithValue | LA6502/CPU.cs:428-734 | writing a register sets that register and keeps every other one and PC |
| Machine.StepDecoded | LA6502/CPU.cs:336-338 | a decoded opcode does not fault, and its `case` runs on the state after the fetch |
| Machine.RunOneStep | LA6502/CPU.cs:334-340 | with budget and fuel left, a run is one step and then either the fault or the rest of the run |
| Machine.RunStops | LA6502/CPU.cs:334 | a run with a zero budget halts where it is; without fuel it stops where it is |
| Cpu.CPU.constructor | LA6502/CPU.cs:10-17 | a new CPU has every register 0 |
| Cpu.CPU.Reset | LA6502/CPU.cs:20-30 | PC 0xFFFC, SP 0xFF, A, X, Y and status 0, and all 65536 memory cells 0 |
| Cpu.CPU.RequestCycle | LA6502/CPU.cs:33-36 | the counter goes up by one and wraps from 2^32 - 1 to 0 |
| Cpu.CPU.CycleTick | LA6502/CPU.cs:39-42 | the counter goes down by one and wraps from 0 to 2^32 - 1 |
| Cpu.CPU.SetZeroAndNegativeFlags | LA6502/CPU.cs:88-99 | no register of the CPU changes |
| Cpu.CPU.FetchByte | LA6502/CPU.cs:102-110 | the byte at PC; PC plus one modulo 0x10000; one cycle |
| Cpu.CPU.FetchWord | LA6502/CPU.cs:113-125 | the little-endian word at PC; PC plus two modulo 0x10000; two cycles |
| Cpu.CPU.ReadByte | LA6502/CPU.cs:128-135 | the byte at the address; PC untouched; one cycle |
| Cpu.CPU.ReadWord | LA6502/CPU.cs:138-151 | the byte at the address plus 0x100 times the byte at the address plus one modulo 0x10000; two cycles |
| Cpu.CPU.WriteByte | LA6502/CPU.cs:154-159 | only the addressed cell changes, to the value; one cycle |
| Cpu.CPU.PushToStack | LA6502/CPU.cs:162-167 | the value is written at 0x0100 + SP, then SP minus one modulo 0x100; two cycles |
| Cpu.CPU.PopFromStack | LA6502/CPU.cs:170-177 | returns the byte at 0x0100 + SP read before SP plus one modulo 0x100; two cycles |
| Cpu.CPU.AddressZeroPage | LA6502/CPU.cs:180-184 | the result and the new PC and counter are those of `Machine.ZeroPageAt` |
| Cpu.CPU.AddressZeroPageX | LA6502/CPU.cs:187-195 | the result and the new PC and counter are those of `Machine.ZeroPageIndexedAt` with X |
| Cpu.CPU.AddressZeroPageY | LA6502/CPU.cs:198-206 | the result and the new PC and counter are those of `Machine.ZeroPageIndexedAt` with Y |
| Cpu.CPU.AddressAbsolute | LA6502/CPU.cs:209-213 | the result and the new PC and counter are those of `Machine.AbsoluteAt` |
| Cpu.CPU.AddressAbsoluteX | LA6502/CPU.cs:216-238 | the result and the new PC and counter are those of `Machine.AbsoluteIndexedAt` with X |
| Cpu.CPU.AddressAbsoluteY | LA6502/CPU.cs:241-262 | the result and the new PC and counter are those of `Machine.AbsoluteIndexedAt` with Y |
| Cpu.CPU.AddressIndirect | LA6502/CPU.cs:265-274 | the word at the operand word; PC plus two; four cycles |
| Cpu.CPU.AddressIndirectX | LA6502/CPU.cs:277-289 | the result and the new PC and counter are those of `Machine.IndirectXAt` |
| Cpu.CPU.AddressIndirectY | LA6502/CPU.cs:292-316 | the result and the new PC and counter are those of `Machine.IndirectYAt` |
| Cpu.CPU.AddressRelative | LA6502/CPU.cs:319-329 | the result and the new PC and counter are those of `Machine.RelativeAt` |
| Cpu.CPU.LoadAccumulator | LA6502/CPU.cs:340-382 | LDA immediate, zero page, zero page,X and absolute have the effect of `Machine.Apply` |
| Cpu.CPU.LoadAccumulatorIndexed | LA6502/CPU.cs:384-404 | LDA absolute,X and absolute,Y have the effect of `Machine.Apply` |
| Cpu.CPU.LoadAccumulatorIndirect | LA6502/CPU.cs:406-426 | LDA (indirect,X) and (indirect),Y have the effect of `Machine.Apply` |
| Cpu.CPU.LoadX | LA6502/CPU.cs:428-481 | the five LDX cases have the effect of `Machine.Apply` |
| Cpu.CPU.LoadY | LA6502/CPU.cs:483-536 | the five LDY cases have the effect of `Machine.Apply` |
| Cpu.CPU.StoreAccumulator | LA6502/CPU.cs:538-562 | STA zero page, zero page,X and absolute have the effect of `Machine.Apply` |
| Cpu.CPU.StoreAccumulatorIndexed | LA6502/CPU.cs:564-578 | STA absolute,X and absolute,Y have the effect of `Machine.Apply` |
| Cpu.CPU.StoreAccumulatorIndirect | LA6502/CPU.cs:580-594 | STA (indirect,X) and (indirect),Y have the effect of `Machine.Apply` |
| Cpu.CPU.StoreX | LA6502/CPU.cs:596-620 | the three STX cases have the effect of `Machine.Apply` |
| Cpu.CPU.StoreY | LA6502/CPU.cs:622-646 | the three STY cases have the effect of `Machine.Apply` |
| Cpu.CPU.TransferRegister | LA6502/CPU.cs:648-700 | the six transfer cases have the effect of `Machine.Apply` |
| Cpu.CPU.StackOperation | LA6502/CPU.cs:702-734 | PHA, PHP, PLA and PLP have the effect of `Machine.Apply` |
| Cpu.CPU.Step | LA6502/CPU.cs:336-739 | one turn of the loop is `Machine.Step` of the current engine, including the fault with the opcode and `PC - 1` |
| Cpu.CPU.Execute | LA6502/CPU.cs:332-743 | stop reason, registers and memory are those of `Machine.Run` of the current engine |
| SrcCpu.CPU.Reset | 6502/src/CPU.cs:19-29 | PC 0xFFFC, SP 0xFF, A, X, Y and status 0, and all memory cells 0 |
| SrcCpu.CPU.SetZeroAndNegativeFlags | 6502/src/CPU.cs:76-87 | no register of the CPU changes |
| SrcCpu.CPU.FetchByte | 6502/src/CPU.cs:89-96 | the byte at PC; PC plus one modulo 0x10000; one cycle |
| SrcCpu.CPU.FetchWord | 6502/src/CPU.cs:98-110 | the little-endian word at PC; PC plus two; two cycles taken at once |
| SrcCpu.CPU.ReadByte | 6502/src/CPU.cs:112-118 | the byte at the address; PC untouched; one cycle |
| SrcCpu.CPU.ReadWord | 6502/src/CPU.cs:120-130 | the little-endian word at the address, second byte at the address plus one modulo 0x10000; two cycles |
| SrcCpu.CPU.WriteByte | 6502/src/CPU.cs:132-136 | only the addressed cell changes; one cycle |
| SrcCpu.CPU.AddressZeroPage | 6502/src/CPU.cs:138-142 | the result and the new PC and counter are those of `Machine.ZeroPageAt` |
| SrcCpu.CPU.AddressZeroPageX | 6502/src/CPU.cs:144-152 | operand plus X modulo 0x100; two cycles |
| SrcCpu.CPU.AddressZeroPageY | 6502/src/CPU.cs:154-162 | operand plus Y modulo 0x100; two cycles |
| SrcCpu.CPU.AddressAbsolute | 6502/src/CPU.cs:164-168 | the result and the new PC and counter are those of `Machine.AbsoluteAt` |
| SrcCpu.CPU.AddressAbsoluteX | 6502/src/CPU.cs:170-184 | the result and the new PC and counter are those of `Machine.LegacyAbsoluteIndexedAt` with X |
| SrcCpu.CPU.AddressAbsoluteY | 6502/src/CPU.cs:186-200 | the result and the new PC and counter are those of `Machine.LegacyAbsoluteIndexedAt` with Y |
| SrcCpu.CPU.AddressIndirect | 6502/src/CPU.cs:202-211 | the word at the operand word; four cycles |
| SrcCpu.CPU.AddressIndirectX | 6502/src/CPU.cs:213-225 | the result and the new PC and counter are those of `Machine.IndirectXAt` |
| SrcCpu.CPU.AddressIndirectY | 6502/src/CPU.cs:227-244 | the result and the new PC and counter are those of `Machine.TruncatedIndirectYAt` |
| SrcCpu.CPU.LoadAccumulator | 6502/src/CPU.cs:254-295 | the four LDA cases have the effect of `Machine.Apply` |
| SrcCpu.CPU.Step | 6502/src/CPU.cs:248-301 | one turn of the loop is `Machine.Step` of this engine: four LDA opcodes, any other byte faults |
| SrcCpu.CPU.Execute | 6502/src/CPU.cs:246-304 | stop reason, registers and memory are those of `Machine.Run` of this engine |
| EarlyCpu.CPU.Reset | 6502/Program.cs:40-50 | PC 0xFFFC, SP 0xFF, A, X, Y and status 0, and all memory cells 0 |
| EarlyCpu.CPU.SetZeroAndNegativeFlags | 6502/Program.cs:97-108 | no register of the CPU changes |
| EarlyCpu.CPU.FetchByte | 6502/Program.cs:110-117 | the byte at PC; PC plus one modulo 0x10000; one cycle |
| EarlyCpu.CPU.FetchWord | 6502/Program.cs:119-131 | the little-endian word at PC; PC plus two; two cycles |
| EarlyCpu.CPU.ReadByte | 6502/Program.cs:133-139 | the byte at the address; PC untouched; one cycle |
| EarlyCpu.CPU.AddressZeroPage | 6502/Program.cs:141-145 | the result and the new PC and counter are those of `Machine.ZeroPageAt` |
| EarlyCpu.CPU.AddressZeroPageX | 6502/Program.cs:147-155 | operand plus X modulo 0x100; two cycles |
| EarlyCpu.CPU.AddressZeroPageY | 6502/Program.cs:157-165 | operand plus X, not Y, modulo 0x100; two cycles |
| EarlyCpu.CPU.AddressAbsolute | 6502/Program.cs:167-171 | the result and the new PC and counter are those of `Machine.AbsoluteAt` |
| EarlyCpu.CPU.AddressAbsoluteX | 6502/Program.cs:173-187 | the result and the new PC and counter are those of `Machine.LegacyAbsoluteIndexedAt` with X |
| EarlyCpu.CPU.AddressAbsoluteY | 6502/Program.cs:189-203 | the result and the new PC and counter are those of `Machine.LegacyAbsoluteIndexedAt` with Y |
| EarlyCpu.CPU.LoadAccumulator | 6502/Program.cs:213-253 | the four LDA cases have the effect of `Machine.Apply` |
| EarlyCpu.CPU.Step | 6502/Program.cs:207-259 | one turn of the loop is `Machine.Step` of this engine: four LDA opcodes, any other byte faults |
| EarlyCpu.CPU.Execute | 6502/Program.cs:205-262 | stop reason, registers and memory are those of `Machine.Run` of this engine |
| Properties.SpendSpend | LA6502/CPU.cs:39-42 | spending a cycles and then b is spending a + b, wrap-around included, for a + b up to 2^32 |
| Properties.RequestThenTick | LA6502/CPU.cs:224-229 | `RequestCycle` followed by `CycleTick` leaves the counter unchanged, also at the wrap point |
| Properties.AdvanceAdvance | LA6502/CPU.cs:102-125 | advancing PC by a and then by b is advancing it by a + b modulo 0x10000, for a + b up to 0x10000 |
| Properties.LocateCost | LA6502/CPU.cs:180-316 | every resolver spends a fixed number of cycles, independent of page crossing, and moves PC past its operand |
| Properties.CyclesAgreeWithResolvers | LA6502/CPU.cs:340-734 | the cost table equals fetch plus resolver plus access for every opcode |
| Properties.AccessCost | LA6502/CPU.cs:180-316 | a resolver followed by one data access spends the resolver's cycles plus one |
| Properties.PerformCost | LA6502/CPU.cs:340-734 | after the opcode fetch each kind of operation spends its cost minus one and moves PC past its operand |
| Properties.ApplyCost | LA6502/CPU.cs:340-734 | after the opcode fetch an instruction spends its table cost minus one and moves PC past its operand |
| Properties.FetchThenRest | LA6502/CPU.cs:102-110 | the opcode fetch plus the rest of an instruction add up in the counter and in PC |
| Properties.InstructionCost | LA6502/CPU.cs:336-734 | fetching and applying an opcode spends exactly its table cost and moves PC past the opcode and its operand |
| Properties.StepCost | LA6502/CPU.cs:336-734 | a handled opcode never faults, spends exactly its table cost and leaves PC after its operand |
| Properties.StepCountsDown | LA6502/CPU.cs:334-340 | the counter goes down by the cost, and wraps to the cost below 2^32 plus the budget when the budget is smaller |
| Properties.ExactBudgetRunsOne | LA6502/CPU.cs:332-743 | `Execute` with exactly an instruction's cost runs that instruction and halts with the counter at 0 |
| Properties.OverspentBudgetKeepsRunning | LA6502/CPU.cs:334 | a budget below the instruction's cost wraps to at least 2^32 - cost + 1, and the loop continues |
| Properties.LoadChangesOnlyTarget | LA6502/CPU.cs:340-536 | a load puts the operand byte into its target and changes no other register and no memory |
| Properties.StoreWritesOneCell | LA6502/CPU.cs:538-646 | a store writes its source register to the operand address only, and changes no register but PC |
| Properties.TransferCopies | LA6502/CPU.cs:648-700 | a transfer copies source into target and changes no other register and no memory |
| Properties.PerformKeepsStatus | LA6502/CPU.cs:88-99 | an operation that does not pull into the status register leaves it unchanged |
| Properties.WithValueKeepsStatus | LA6502/CPU.cs:428-726 | writing any register other than the status register keeps the status register |
| Properties.OnlyPlpTargetsStatus | LA6502/CPU.cs:728-734 | among the opcodes that write a register, PLP alone writes the status register |
| Properties.StatusOnlyFromPlp | LA6502/CPU.cs:88-99 | every instruction but PLP, and the fault, leave the status register as it was; PLP sets it to the byte at 0x0100 + SP |
| Properties.LoadOfZeroLeavesZeroFlag | LA6502/CPU.cs:341-348 | LDA #0 loads 0 and leaves the Z flag as it was |
| Properties.PushBody | LA6502/CPU.cs:702-708 | PHA writes A at 0x0100 + SP, decrements SP with wrap, and spends two cycles after the fetch |
| Properties.PullBody | LA6502/CPU.cs:718-725 | PLA loads A from 0x0100 + SP before incrementing SP with wrap, and spends three cycles after the fetch |
| Properties.PushThenPull | LA6502/CPU.cs:162-177 | PHA then PLA restores SP and loads A from 0x0100 + SP - 1, not the pushed byte; the pushed byte stays in memory |
| Properties.PullReturnsPushedOnlyByCoincidence | LA6502/CPU.cs:170-177 | the round trip gives back A exactly when the cell below the top already held it |
| Properties.UnhandledOpcode | LA6502/CPU.cs:736-739 | an unhandled byte faults with the byte and PC - 1, which is -1 for an opcode at 0xFFFF; only PC and counter move, and the run stops |
| Properties.CurrentHandlesTable | LA6502/CPU.cs:338-739 | the current engine faults on a byte exactly when no opcode encodes to it |
| Properties.LegacyAgreesWithCurrent | 6502/src/CPU.cs:252-301 | the earlier engines behave like the current one on 0xA9, 0xA5, 0xB5 and 0xAD and fault on every other byte |
| Properties.LegacyCosts | 6502/Program.cs:211-258 | the earlier engines' LDA opcodes cost 2, 3, 4 and 4 cycles and change only A, PC and the counter |
| Properties.ZeroPagePointerAtTop | LA6502/CPU.cs:138-151 | a pointer at 0xFF takes its high byte from 0x0100 |
| Properties.CrossingIsFree | LA6502/CPU.cs:216-316 | in the current engine the indexed resolvers' cycles do not depend on page crossing |
| Properties.LegacyCrossingCharge | 6502/src/CPU.cs:170-200 | in the earlier engines the third cycle is charged exactly when the low byte of the base plus the index carries |
| Properties.TruncatedIndirectYDiffers | 6502/src/CPU.cs:227-244 | the truncating (Indirect),Y address is the correct address modulo 0x100, equal to it exactly when it is in page 0 |
| Properties.TruncatedIndirectYExample | 6502Tests/AddressingModeTests.cs:196-221 | pointer word 0x1000 and Y 0x20: the correct address is 0x1020, the truncating one 0x20 |
| Properties.ZeroPageYWithX | 6502/Program.cs:157-165 | indexing with X gives the zero page,Y address exactly when X equals Y |
| Properties.ZeroPageYWithXExample | 6502/Program.cs:157-165 | X 0, Y 5, operand 0x42: the file's resolver gives 0x42, the intended one 0x47 |

## Left out

- `Cpu.CPU.Execute`, `SrcCpu.CPU.Execute`, `EarlyCpu.CPU.Execute`: run for at most `fuel` instructions and then report `OutOfFuel`.
  - The C# loop has no such bound.
  - Because the counter wraps, the loop need not end for an arbitrary budget.
- The fault is a `Fault` value returned from `Step`, and `Execute` stops with it. The C# throws an `IndexOutOfRangeException`. Its message text (the opcode and address formatted in hexadecimal) is not modelled.
- The C# `ref uint32 cycles` is an in-parameter plus an out-parameter `cycles'`, and the `Byte`/`Word` casts are written out as wraps.
- `SetFlag`, `ClearFlag` and `ToggleFlag` of each `CPU` change nothing visible, so they carry no contract.
  - What they compute on their copy is `Flags.SetFlag`, `Flags.ClearFlag` and `Flags.ToggleFlag`; `Flags.SetFlagEffect`, `Flags.ClearFlagEffect`, `Flags.ToggleFlagEffect` and the `…KeepsOthers` lemmas state what that copy holds.
  - `IsFlagSet` and `IsBitSet` are the functions `Flags.IsFlagSet` and `Flags.IsBitSet`, which take the status byte explicitly.
- `SetStatus` (LA6502/CPU.cs:75-85, 6502/src/CPU.cs:56-74, 6502/Program.cs:77-95) is never called; it does what `SetZeroAndNegativeFlags` does for the accumulator.
- The unused local `e` in `AddressRelative` (LA6502/CPU.cs:323) has no effect.
- `Memory` is a C# struct that wraps a shared array, and here it is a class. Copies of the struct share the array just as references to the class do.
- The memory indexer's error is modelled (`Get`/`Set` return it), but the CPU classes never meet it: their addresses are 16-bit, and the store has 65536 cells.
- The cycle tables `Timing.OpcodeCycles` and `Clock.OpcodeCycles`, and the enum members for the opcodes other than the four LDA values, are not part of this model. The cost table is derived from the dispatcher, and the 37 other byte values are the standard MOS 6502 encodings.
- The demo drivers (`Program.Main` in 6502/Program.cs:301-316, LA6502/Program.cs and 6502/src/Program.cs) only poke bytes and call `Execute`.

## Findings

| source | as written | input that shows it | evidently intended | confidence | as-written member | corrected member |
|---|---|---|---|---|---|---|
| 6502/src/CPU.cs:234 | `(Indirect),Y` casts pointer word plus Y to a byte, so the address never leaves page 0, and the page test then charges a cycle whenever the pointer word is outside page 0 | pointer word 0x1000 at the zero-page operand, Y = 0x20: address 0x20 (the addressing-mode test expects 0x1020) | the 16-bit sum, as the current engine computes it | high, not executed | SrcCpu.CPU.AddressIndirectY, Properties.TruncatedIndirectYExample | Cpu.CPU.AddressIndirectY, Machine.IndirectYAt |
| 6502/Program.cs:160 | `AddressZeroPageY` adds X to the operand | X = 0, Y = 5, operand 0x42: address 0x42 | operand plus Y modulo 0x100 (0x47), as both later engines compute it | high, not executed | EarlyCpu.CPU.AddressZeroPageY, Properties.ZeroPageYWithXExample | SrcCpu.CPU.AddressZeroPageY, Properties.ZeroPageYWithX |
