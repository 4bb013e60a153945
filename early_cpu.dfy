/** The earliest engine, the single file `6502/Program.cs`: read-only bus
    primitives, the zero-page and absolute resolvers, and a dispatcher for
    four LDA opcodes.  Its `AddressZeroPageY` indexes with X. */
module EarlyCpu {
  import opened Words
  import opened Outcomes
  import Flags
  import opened MainMemory
  import opened Opcodes
  import Machine

  class CPU {
    var PC: Word
    var SP: Byte
    var A: Byte
    var X: Byte
    var Y: Byte
    var StatusFlags: Byte

    /** The register file as a value. */
    ghost function Registers(): Machine.Registers
      reads this
    {
      Machine.Registers(PC, SP, A, X, Y, StatusFlags)
    }

    /** Registers, memory and counter as a value. */
    ghost function State(memory: Memory, cycles: U32): Machine.State
      reads this, memory.data
      requires memory.Valid()
    {
      Machine.State(Registers(), memory.Cells(), cycles)
    }

    /** `new CPU()`: a C# struct starts with every field 0. */
    constructor ()
      ensures Registers() == Machine.Registers(0, 0, 0, 0, 0, 0)
    {
      PC, SP, A, X, Y, StatusFlags := 0, 0, 0, 0, 0, 0;
    }

    /** `Reset`: the power-on register values, and zeroed memory. */
    method Reset(memory: Memory)
      requires memory.Valid()
      modifies this, memory.data
      ensures Registers() == Machine.RESET_REGISTERS
      ensures memory.Cells() == Zeroed()
    {
      PC := 0xFFFC;
      SP := 0xFF;
      A := 0x00;
      X := 0x00;
      Y := 0x00;
      StatusFlags := 0x00;

      memory.Initialize();
    }

    /** `SetFlag`: the C# parameter `StatusFlags` shadows the field and is
        passed by value, so only the copy is changed. */
    method SetFlag(statusFlags: Byte, bitPosition: Flags.ProcessorFlag)
    {
      var copy := Flags.SetFlag(statusFlags as Flags.Status, bitPosition);
    }

    /** `ClearFlag`: changes only its by-value copy, like `SetFlag`. */
    method ClearFlag(statusFlags: Byte, bitPosition: Flags.ProcessorFlag)
    {
      var copy := Flags.ClearFlag(statusFlags as Flags.Status, bitPosition);
    }

    /** `ToggleFlag`: changes only its by-value copy, like `SetFlag`. */
    method ToggleFlag(statusFlags: Byte, bitPosition: Flags.ProcessorFlag)
    {
      var copy := Flags.ToggleFlag(statusFlags as Flags.Status, bitPosition);
    }

    /** `SetZeroAndNegativeFlags`: tests A for zero and the status byte
        (through `IsBitSet`) for bit 7, and calls `SetFlag`, which only
        changes a copy; the CPU is left as it was. */
    method SetZeroAndNegativeFlags()
      ensures Registers() == old(Registers())
    {
      if A == 0 {
        SetFlag(StatusFlags, Flags.Z);
      }

      if Flags.IsBitSet(StatusFlags as Flags.Status, A, 7) {
        SetFlag(StatusFlags, Flags.N);
      }
    }

    /** `FetchByte`: the byte at PC; PC moves on by one (16-bit wrap);
        `cycles--` on the unsigned counter. */
    method FetchByte(cycles: U32, memory: Memory) returns (data: Byte, cycles': U32)
      requires memory.Valid()
      modifies this`PC
      ensures data == memory.Cells()[old(PC)]
      ensures PC == WrapWord(old(PC) + 1)
      ensures cycles' == Machine.Spend(cycles, 1)
    {
      var cell := memory.Get(PC);
      data := cell.value;
      PC := WrapWord(PC + 1);
      cycles' := WrapU32(cycles - 1);
    }

    /** `FetchWord`: the little-endian word at PC; PC moves on by two;
        `cycles -= 2` in one step. */
    method FetchWord(cycles: U32, memory: Memory) returns (data: Word, cycles': U32)
      requires memory.Valid()
      modifies this`PC
      ensures data == Machine.WordAt(memory.Cells(), old(PC))
      ensures PC == WrapWord(old(PC) + 2)
      ensures cycles' == Machine.Spend(cycles, 2)
    {
      var lowByte := memory.Get(PC);
      PC := WrapWord(PC + 1);

      var highByte := memory.Get(PC);
      PC := WrapWord(PC + 1);

      cycles' := WrapU32(cycles - 2);

      data := MakeWord(lowByte.value, highByte.value);
    }

    /** `ReadByte`: the byte at `address`; PC is not moved; `cycles--`. */
    method ReadByte(cycles: U32, memory: Memory, address: Word) returns (data: Byte, cycles': U32)
      requires memory.Valid()
      ensures data == memory.Cells()[address]
      ensures cycles' == Machine.Spend(cycles, 1)
    {
      var cell := memory.Get(address);
      data := cell.value;
      cycles' := WrapU32(cycles - 1);
    }

    /** `AddressZeroPage`. */
    method AddressZeroPage(cycles: U32, memory: Memory) returns (address: Byte, cycles': U32)
      requires memory.Valid()
      modifies this`PC
      ensures Machine.Access(address, PC, cycles') == Machine.ZeroPageAt(old(Registers()), memory.Cells(), cycles)
    {
      address, cycles' := FetchByte(cycles, memory);
    }

    /** `AddressZeroPageX`. */
    method AddressZeroPageX(cycles: U32, memory: Memory) returns (address: Byte, cycles': U32)
      requires memory.Valid()
      modifies this`PC
      ensures Machine.Access(address, PC, cycles') == Machine.ZeroPageIndexedAt(old(Registers()), memory.Cells(), cycles, X)
    {
      address, cycles' := FetchByte(cycles, memory);
      address := WrapByte(address + X);

      cycles' := WrapU32(cycles' - 1);
    }

    /** `AddressZeroPageY`: the sum is formed with X, not Y. */
    method AddressZeroPageY(cycles: U32, memory: Memory) returns (address: Byte, cycles': U32)
      requires memory.Valid()
      modifies this`PC
      ensures Machine.Access(address, PC, cycles') == Machine.ZeroPageIndexedAt(old(Registers()), memory.Cells(), cycles, X)
    {
      address, cycles' := FetchByte(cycles, memory);
      address := WrapByte(address + X);

      cycles' := WrapU32(cycles' - 1);
    }

    /** `AddressAbsolute`. */
    method AddressAbsolute(cycles: U32, memory: Memory) returns (address: Word, cycles': U32)
      requires memory.Valid()
      modifies this`PC
      ensures Machine.Access(address, PC, cycles') == Machine.AbsoluteAt(old(Registers()), memory.Cells(), cycles)
    {
      address, cycles' := FetchWord(cycles, memory);
    }

    /** `AddressAbsoluteX`: one `cycles--` exactly when the page changes. */
    method AddressAbsoluteX(cycles: U32, memory: Memory) returns (address: Word, cycles': U32)
      requires memory.Valid()
      modifies this`PC
      ensures Machine.Access(address, PC, cycles') == Machine.LegacyAbsoluteIndexedAt(old(Registers()), memory.Cells(), cycles, X)
    {
      address, cycles' := FetchWord(cycles, memory);
      var originalHighByte := Page(address);
      address := WrapWord(address + X);

      if Page(address) != originalHighByte {
        cycles' := WrapU32(cycles' - 1);
      }
    }

    /** `AddressAbsoluteY`: one `cycles--` exactly when the page changes. */
    method AddressAbsoluteY(cycles: U32, memory: Memory) returns (address: Word, cycles': U32)
      requires memory.Valid()
      modifies this`PC
      ensures Machine.Access(address, PC, cycles') == Machine.LegacyAbsoluteIndexedAt(old(Registers()), memory.Cells(), cycles, Y)
    {
      address, cycles' := FetchWord(cycles, memory);
      var originalHighByte := Page(address);
      address := WrapWord(address + Y);

      if Page(address) != originalHighByte {
        cycles' := WrapU32(cycles' - 1);
      }
    }

    /** The four `case`s of the dispatcher, all LDA: immediate, zero page,
        zero page,X and absolute. */
    method LoadAccumulator(op: Opcode, cycles: U32, memory: Memory) returns (cycles': U32)
      requires memory.Valid()
      requires op.LdaIm? || op.LdaZp? || op.LdaZpX? || op.LdaAbs?
      modifies this
      ensures State(memory, cycles') == Machine.Apply(op, old(State(memory, cycles)))
    {
      cycles' := cycles;
      match op
      case LdaIm =>
        var operand;
        operand, cycles' := FetchByte(cycles', memory);
        A := operand;

        SetZeroAndNegativeFlags();
      case LdaZp =>
        var address: Byte, operand;
        address, cycles' := AddressZeroPage(cycles', memory);
        operand, cycles' := ReadByte(cycles', memory, address);

        A := operand;

        SetZeroAndNegativeFlags();
      case LdaZpX =>
        var address: Byte, operand;
        address, cycles' := AddressZeroPageX(cycles', memory);
        operand, cycles' := ReadByte(cycles', memory, address);

        A := operand;

        SetZeroAndNegativeFlags();
      case LdaAbs =>
        var address: Word, operand;
        address, cycles' := AddressAbsolute(cycles', memory);
        operand, cycles' := ReadByte(cycles', memory, address);

        A := operand;

        SetZeroAndNegativeFlags();
      case _ =>
        assert false;
    }

    /** One pass through the body of the `Execute` loop: fetch the opcode and
        run its `case`, or report the `default` branch's exception.  Only the
        four LDA opcodes of the file's own `Opcodes` enum are handled. */
    method Step(cycles: U32, memory: Memory) returns (cycles': U32, fault: Option<Machine.Fault>)
      requires memory.Valid()
      modifies this
      ensures Machine.Step(Machine.Early, old(State(memory, cycles))) == Machine.Transition(fault, State(memory, cycles'))
    {
      var instruction;
      instruction, cycles' := FetchByte(cycles, memory);
      fault := None;

      match LegacyDecode(instruction)
      case Some(op) =>
        cycles' := LoadAccumulator(op, cycles', memory);
      case None =>
        fault := Some(Machine.UnhandledOpcode(instruction, PC - 1));
    }

    /** `Execute`: `while (cycles > 0)` run one instruction, for at most
        `fuel` instructions; an unhandled opcode ends the run with its fault.
        The registers and memory afterwards are those of `Machine.Run`. */
    method Execute(cycles: U32, memory: Memory, fuel: nat) returns (stop: Machine.Stop)
      requires memory.Valid()
      modifies this
      ensures var run := Machine.Run(Machine.Early, old(State(memory, cycles)), fuel);
        run.stop == stop && run.state.regs == Registers() && run.state.mem == memory.Cells()
    {
      var remaining := cycles;
      var steps := 0;
      ghost var run := Machine.Run(Machine.Early, State(memory, cycles), fuel);
      while remaining > 0 && steps < fuel
        invariant steps <= fuel
        invariant run == Machine.Run(Machine.Early, State(memory, remaining), fuel - steps)
        decreases fuel - steps
      {
        ghost var before := State(memory, remaining);
        var fault;
        remaining, fault := Step(remaining, memory);
        ghost var after := State(memory, remaining);
        Machine.RunOneStep(Machine.Early, before, fuel - steps, Machine.Transition(fault, after));
        if fault.Some? {
          return Machine.Faulted(fault.value);
        }
        steps := steps + 1;
      }
      Machine.RunStops(Machine.Early, State(memory, remaining), fuel - steps);
      stop := if remaining == 0 then Machine.Halted else Machine.OutOfFuel;
    }
  }
}
