/** The current engine of `LA6502/CPU.cs`: the `CPU` struct as a class whose
    fields are the registers.  The C# `ref uint32 cycles` parameter becomes an
    in-parameter `cycles` and an out-parameter `cycles'`; the memory is the
    shared `Memory` object, whose cells the methods update in place. */
module Cpu {
  import opened Words
  import opened Outcomes
  import Flags
  import opened Opcodes
  import opened MainMemory
  import Machine

  class CPU {
    var PC: Word
    var SP: Byte
    var A: Byte
    var X: Byte
    var Y: Byte
    var StatusFlags: Byte

    /** The register file as a value. */
    ghost function Registers(): Machine.Registers
      reads this
    {
      Machine.Registers(PC, SP, A, X, Y, StatusFlags)
    }

    /** Registers, memory and counter as a value. */
    ghost function State(memory: Memory, cycles: U32): Machine.State
      reads this, memory.data
      requires memory.Valid()
    {
      Machine.State(Registers(), memory.Cells(), cycles)
    }

    /** `new CPU()`: a C# struct starts with every field 0. */
    constructor ()
      ensures Registers() == Machine.Registers(0, 0, 0, 0, 0, 0)
    {
      PC, SP, A, X, Y, StatusFlags := 0, 0, 0, 0, 0, 0;
    }

    /** `Reset`: the power-on register values, and zeroed memory. */
    method Reset(memory: Memory)
      requires memory.Valid()
      modifies this, memory.data
      ensures Registers() == Machine.RESET_REGISTERS
      ensures memory.Cells() == Zeroed()
    {
      PC := 0xFFFC;
      SP := 0xFF;
      A := 0x00;
      X := 0x00;
      Y := 0x00;
      StatusFlags := 0x00;

      memory.Initialize();
    }

    /** `RequestCycle`: `cycles++` on an unsigned 32-bit counter. */
    method RequestCycle(cycles: U32) returns (cycles': U32)
      ensures cycles < U32_RANGE - 1 ==> cycles' == cycles + 1
      ensures cycles == U32_RANGE - 1 ==> cycles' == 0
    {
      cycles' := WrapU32(cycles + 1);
    }

    /** `CycleTick`: `cycles--` on an unsigned 32-bit counter; at 0 it wraps
        to the largest value instead of stopping. */
    method CycleTick(cycles: U32) returns (cycles': U32)
      ensures cycles' == Machine.Spend(cycles, 1)
      ensures cycles > 0 ==> cycles' == cycles - 1
      ensures cycles == 0 ==> cycles' == U32_RANGE - 1
    {
      cycles' := WrapU32(cycles - 1);
    }

    /** `SetFlag`: the C# parameter `StatusFlags` shadows the field and is
        passed by value, so only the copy is changed. */
    method SetFlag(statusFlags: Byte, bitPosition: Flags.ProcessorFlag)
    {
      var copy := Flags.SetFlag(statusFlags as Flags.Status, bitPosition);
    }

    /** `ClearFlag`: changes only its by-value copy, like `SetFlag`. */
    method ClearFlag(statusFlags: Byte, bitPosition: Flags.ProcessorFlag)
    {
      var copy := Flags.ClearFlag(statusFlags as Flags.Status, bitPosition);
    }

    /** `ToggleFlag`: changes only its by-value copy, like `SetFlag`. */
    method ToggleFlag(statusFlags: Byte, bitPosition: Flags.ProcessorFlag)
    {
      var copy := Flags.ToggleFlag(statusFlags as Flags.Status, bitPosition);
    }

    /** `SetZeroAndNegativeFlags`: tests the register for zero and the status
        byte (through `IsBitSet`) for bit 7, and calls `SetFlag`, which only
        changes a copy; the CPU is left as it was. */
    method SetZeroAndNegativeFlags(register: Byte)
      ensures Registers() == old(Registers())
    {
      if register == 0 {
        SetFlag(StatusFlags, Flags.Z);
      }

      if Flags.IsBitSet(StatusFlags as Flags.Status, register, 7) {
        SetFlag(StatusFlags, Flags.N);
      }
    }

    /** `FetchByte`: the byte at PC; PC moves on by one (16-bit wrap); one cycle. */
    method FetchByte(cycles: U32, memory: Memory) returns (data: Byte, cycles': U32)
      requires memory.Valid()
      modifies this`PC
      ensures data == memory.Cells()[old(PC)]
      ensures PC == WrapWord(old(PC) + 1)
      ensures cycles' == Machine.Spend(cycles, 1)
    {
      var cell := memory.Get(PC);
      data := cell.value;
      PC := WrapWord(PC + 1);

      cycles' := CycleTick(cycles);
    }

    /** `FetchWord`: the little-endian word at PC; PC moves on by two; two cycles. */
    method FetchWord(cycles: U32, memory: Memory) returns (data: Word, cycles': U32)
      requires memory.Valid()
      modifies this`PC
      ensures data == Machine.WordAt(memory.Cells(), old(PC))
      ensures PC == WrapWord(old(PC) + 2)
      ensures cycles' == Machine.Spend(cycles, 2)
    {
      var lowByte := memory.Get(PC);
      PC := WrapWord(PC + 1);
      cycles' := CycleTick(cycles);

      var highByte := memory.Get(PC);
      PC := WrapWord(PC + 1);
      cycles' := CycleTick(cycles');

      data := MakeWord(lowByte.value, highByte.value);
    }

    /** `ReadByte`: the byte at `address`; PC is not moved; one cycle. */
    method ReadByte(cycles: U32, memory: Memory, address: Word) returns (data: Byte, cycles': U32)
      requires memory.Valid()
      ensures data == memory.Cells()[address]
      ensures cycles' == Machine.Spend(cycles, 1)
    {
      var cell := memory.Get(address);
      data := cell.value;

      cycles' := CycleTick(cycles);
    }

    /** `ReadWord`: the little-endian word at `address`, the second byte from
        `address + 1` with 16-bit wrap; PC is not moved; two cycles. */
    method ReadWord(cycles: U32, memory: Memory, address: Word) returns (data: Word, cycles': U32)
      requires memory.Valid()
      ensures data as int == memory.Cells()[address] as int + 0x100 * memory.Cells()[WrapWord(address + 1)] as int
      ensures data == Machine.WordAt(memory.Cells(), address)
      ensures cycles' == Machine.Spend(cycles, 2)
    {
      var lowByte := memory.Get(address);
      cycles' := CycleTick(cycles);

      var next := WrapWord(address + 1);

      var highByte := memory.Get(next);
      cycles' := CycleTick(cycles');

      data := MakeWord(lowByte.value, highByte.value);
    }

    /** `WriteByte`: overwrite the cell at `address`; one cycle. */
    method WriteByte(cycles: U32, memory: Memory, address: Word, data: Byte) returns (cycles': U32)
      requires memory.Valid()
      modifies memory.data
      ensures memory.Cells() == old(memory.Cells())[address := data]
      ensures cycles' == Machine.Spend(cycles, 1)
    {
      var written := memory.Set(address, data);

      cycles' := CycleTick(cycles);
    }

    /** `PushToStack`: write at `0x0100 + SP`, then SP goes down by one with
        8-bit wrap; two cycles. */
    method PushToStack(cycles: U32, memory: Memory, data: Byte) returns (cycles': U32)
      requires memory.Valid()
      modifies this`SP, memory.data
      ensures memory.Cells() == old(memory.Cells())[Machine.StackAddress(old(SP)) := data]
      ensures SP == WrapByte(old(SP) - 1)
      ensures cycles' == Machine.Spend(cycles, 2)
    {
      cycles' := WriteByte(cycles, memory, Machine.STACK_PAGE + SP, data);
      SP := WrapByte(SP - 1);
      cycles' := CycleTick(cycles');
    }

    /** `PopFromStack`: read at `0x0100 + SP` BEFORE SP goes up by one with
        8-bit wrap; two cycles. */
    method PopFromStack(cycles: U32, memory: Memory) returns (data: Byte, cycles': U32)
      requires memory.Valid()
      modifies this`SP
      ensures data == memory.Cells()[Machine.StackAddress(old(SP))]
      ensures SP == WrapByte(old(SP) + 1)
      ensures cycles' == Machine.Spend(cycles, 2)
    {
      data, cycles' := ReadByte(cycles, memory, Machine.STACK_PAGE + SP);
      SP := WrapByte(SP + 1);
      cycles' := CycleTick(cycles');
    }

    /** `AddressZeroPage`. */
    method AddressZeroPage(cycles: U32, memory: Memory) returns (address: Byte, cycles': U32)
      requires memory.Valid()
      modifies this`PC
      ensures Machine.Access(address, PC, cycles') == Machine.ZeroPageAt(old(Registers()), memory.Cells(), cycles)
    {
      address, cycles' := FetchByte(cycles, memory);
    }

    /** `AddressZeroPageX`. */
    method AddressZeroPageX(cycles: U32, memory: Memory) returns (address: Byte, cycles': U32)
      requires memory.Valid()
      modifies this`PC
      ensures Machine.Access(address, PC, cycles') == Machine.ZeroPageIndexedAt(old(Registers()), memory.Cells(), cycles, X)
    {
      address, cycles' := FetchByte(cycles, memory);
      address := WrapByte(address + X);

      cycles' := CycleTick(cycles');
    }

    /** `AddressZeroPageY`. */
    method AddressZeroPageY(cycles: U32, memory: Memory) returns (address: Byte, cycles': U32)
      requires memory.Valid()
      modifies this`PC
      ensures Machine.Access(address, PC, cycles') == Machine.ZeroPageIndexedAt(old(Registers()), memory.Cells(), cycles, Y)
    {
      address, cycles' := FetchByte(cycles, memory);
      address := WrapByte(address + Y);

      cycles' := CycleTick(cycles');
    }

    /** `AddressAbsolute`. */
    method AddressAbsolute(cycles: U32, memory: Memory) returns (address: Word, cycles': U32)
      requires memory.Valid()
      modifies this`PC
      ensures Machine.Access(address, PC, cycles') == Machine.AbsoluteAt(old(Registers()), memory.Cells(), cycles)
    {
      address, cycles' := FetchWord(cycles, memory);
    }

    /** `AddressAbsoluteX`: on a page crossing, `RequestCycle` then
        `CycleTick`; without `variableCycles`, one more `CycleTick`. */
    method AddressAbsoluteX(cycles: U32, memory: Memory, variableCycles: bool := false) returns (address: Word, cycles': U32)
      requires memory.Valid()
      modifies this`PC
      ensures Machine.Access(address, PC, cycles') == Machine.AbsoluteIndexedAt(old(Registers()), memory.Cells(), cycles, X, variableCycles)
    {
      address, cycles' := FetchWord(cycles, memory);
      var originalHighByte := Page(address);
      address := WrapWord(address + X);

      if Page(address) != originalHighByte {
        cycles' := RequestCycle(cycles');

        cycles' := CycleTick(cycles');
      }

      if !variableCycles {
        cycles' := CycleTick(cycles');
      }
    }

    /** `AddressAbsoluteY`: as `AddressAbsoluteX` with Y. */
    method AddressAbsoluteY(cycles: U32, memory: Memory, variableCycles: bool := false) returns (address: Word, cycles': U32)
      requires memory.Valid()
      modifies this`PC
      ensures Machine.Access(address, PC, cycles') == Machine.AbsoluteIndexedAt(old(Registers()), memory.Cells(), cycles, Y, variableCycles)
    {
      address, cycles' := FetchWord(cycles, memory);
      var originalHighByte := Page(address);
      address := WrapWord(address + Y);

      if Page(address) != originalHighByte {
        cycles' := RequestCycle(cycles');

        cycles' := CycleTick(cycles');
      }

      if !variableCycles {
        cycles' := CycleTick(cycles');
      }
    }

    /** `AddressIndirect`: the operand word is a pointer to the address. */
    method AddressIndirect(cycles: U32, memory: Memory) returns (address: Word, cycles': U32)
      requires memory.Valid()
      modifies this`PC
      ensures Machine.Access(address, PC, cycles') == Machine.IndirectAt(old(Registers()), memory.Cells(), cycles)
    {
      var pointerAddress;
      pointerAddress, cycles' := AddressAbsolute(cycles, memory);

      address, cycles' := ReadWord(cycles', memory, pointerAddress);
    }

    /** `AddressIndirectX`. */
    method AddressIndirectX(cycles: U32, memory: Memory) returns (address: Word, cycles': U32)
      requires memory.Valid()
      modifies this`PC
      ensures Machine.Access(address, PC, cycles') == Machine.IndirectXAt(old(Registers()), memory.Cells(), cycles)
    {
      var zeroPageAddress: Word;
      zeroPageAddress, cycles' := FetchByte(cycles, memory);
      zeroPageAddress := WrapByte(zeroPageAddress + X);

      cycles' := CycleTick(cycles');

      address, cycles' := ReadWord(cycles', memory, zeroPageAddress);
    }

    /** `AddressIndirectY`: crossing and fixed-cycle rule as `AddressAbsoluteY`. */
    method AddressIndirectY(cycles: U32, memory: Memory, variableCycles: bool := false) returns (address: Word, cycles': U32)
      requires memory.Valid()
      modifies this`PC
      ensures Machine.Access(address, PC, cycles') == Machine.IndirectYAt(old(Registers()), memory.Cells(), cycles, variableCycles)
    {
      var zeroPageAddress: Word;
      zeroPageAddress, cycles' := FetchByte(cycles, memory);
      address, cycles' := ReadWord(cycles', memory, zeroPageAddress);

      var originalHighByte := Page(address);
      address := WrapWord(address + Y);

      if Page(address) != originalHighByte {
        cycles' := RequestCycle(cycles');

        cycles' := CycleTick(cycles');
      }

      if !variableCycles {
        cycles' := CycleTick(cycles');
      }
    }

    /** `AddressRelative`: PC after the operand plus the signed operand. */
    method AddressRelative(cycles: U32, memory: Memory) returns (address: Word, cycles': U32)
      requires memory.Valid()
      modifies this`PC
      ensures Machine.Access(address, PC, cycles') == Machine.RelativeAt(old(Registers()), memory.Cells(), cycles)
    {
      var offset;
      offset, cycles' := FetchByte(cycles, memory);

      address := Displace(PC, offset);

      cycles' := CycleTick(cycles');
    }


    /** The `case`s of the dispatcher for LDA immediate, zero page, zero page,X and absolute. */
    method LoadAccumulator(op: Opcode, cycles: U32, memory: Memory) returns (cycles': U32)
      requires memory.Valid()
      requires op.LdaIm? || op.LdaZp? || op.LdaZpX? || op.LdaAbs?
      modifies this
      ensures State(memory, cycles') == Machine.Apply(op, old(State(memory, cycles)))
    {
      match op
      case LdaIm =>
        var operand;
        operand, cycles' := FetchByte(cycles, memory);
        A := operand;

        SetZeroAndNegativeFlags(A);
      case LdaZp =>
        var address: Byte, operand;
        address, cycles' := AddressZeroPage(cycles, memory);
        operand, cycles' := ReadByte(cycles', memory, address);

        A := operand;

        SetZeroAndNegativeFlags(A);
      case LdaZpX =>
        var address: Byte, operand;
        address, cycles' := AddressZeroPageX(cycles, memory);
        operand, cycles' := ReadByte(cycles', memory, address);

        A := operand;

        SetZeroAndNegativeFlags(A);
      case LdaAbs =>
        var address: Word, operand;
        address, cycles' := AddressAbsolute(cycles, memory);
        operand, cycles' := ReadByte(cycles', memory, address);

        A := operand;

        SetZeroAndNegativeFlags(A);
      case _ =>
        assert false;
    }

    /** The `case`s of the dispatcher for LDA absolute,X and absolute,Y; the resolvers are called with variable cycles. */
    method LoadAccumulatorIndexed(op: Opcode, cycles: U32, memory: Memory) returns (cycles': U32)
      requires memory.Valid()
      requires op.LdaAbsX? || op.LdaAbsY?
      modifies this
      ensures State(memory, cycles') == Machine.Apply(op, old(State(memory, cycles)))
    {
      match op
      case LdaAbsX =>
        var address: Word, operand;
        address, cycles' := AddressAbsoluteX(cycles, memory, variableCycles := true);
        operand, cycles' := ReadByte(cycles', memory, address);

        A := operand;

        SetZeroAndNegativeFlags(A);
      case LdaAbsY =>
        var address: Word, operand;
        address, cycles' := AddressAbsoluteY(cycles, memory, variableCycles := true);
        operand, cycles' := ReadByte(cycles', memory, address);

        A := operand;

        SetZeroAndNegativeFlags(A);
      case _ =>
        assert false;
    }

    /** The `case`s of the dispatcher for LDA (indirect,X) and (indirect),Y; the second resolver is called with variable cycles. */
    method LoadAccumulatorIndirect(op: Opcode, cycles: U32, memory: Memory) returns (cycles': U32)
      requires memory.Valid()
      requires op.LdaIndX? || op.LdaIndY?
      modifies this
      ensures State(memory, cycles') == Machine.Apply(op, old(State(memory, cycles)))
    {
      match op
      case LdaIndX =>
        var address: Word, operand;
        address, cycles' := AddressIndirectX(cycles, memory);
        operand, cycles' := ReadByte(cycles', memory, address);

        A := operand;

        SetZeroAndNegativeFlags(A);
      case LdaIndY =>
        var address: Word, operand;
        address, cycles' := AddressIndirectY(cycles, memory, variableCycles := true);
        operand, cycles' := ReadByte(cycles', memory, address);

        A := operand;

        SetZeroAndNegativeFlags(A);
      case _ =>
        assert false;
    }

    /** The `case`s of the dispatcher for LDX in its five addressing modes. */
    method LoadX(op: Opcode, cycles: U32, memory: Memory) returns (cycles': U32)
      requires memory.Valid()
      requires op.LdxIm? || op.LdxZp? || op.LdxZpY? || op.LdxAbs? || op.LdxAbsY?
      modifies this
      ensures State(memory, cycles') == Machine.Apply(op, old(State(memory, cycles)))
    {
      match op
      case LdxIm =>
        var operand;
        operand, cycles' := FetchByte(cycles, memory);
        X := operand;

        SetZeroAndNegativeFlags(X);
      case LdxZp =>
        var address: Byte, operand;
        address, cycles' := AddressZeroPage(cycles, memory);
        operand, cycles' := ReadByte(cycles', memory, address);

        X := operand;

        SetZeroAndNegativeFlags(X);
      case LdxZpY =>
        var address: Byte, operand;
        address, cycles' := AddressZeroPageY(cycles, memory);
        operand, cycles' := ReadByte(cycles', memory, address);

        X := operand;

        SetZeroAndNegativeFlags(X);
      case LdxAbs =>
        var address: Word, operand;
        address, cycles' := AddressAbsolute(cycles, memory);
        operand, cycles' := ReadByte(cycles', memory, address);

        X := operand;

        SetZeroAndNegativeFlags(X);
      case LdxAbsY =>
        var address: Word, operand;
        address, cycles' := AddressAbsoluteY(cycles, memory, variableCycles := true);
        operand, cycles' := ReadByte(cycles', memory, address);

        X := operand;

        SetZeroAndNegativeFlags(X);
      case _ =>
        assert false;
    }

    /** The `case`s of the dispatcher for LDY in its five addressing modes. */
    method LoadY(op: Opcode, cycles: U32, memory: Memory) returns (cycles': U32)
      requires memory.Valid()
      requires op.LdyIm? || op.LdyZp? || op.LdyZpX? || op.LdyAbs? || op.LdyAbsX?
      modifies this
      ensures State(memory, cycles') == Machine.Apply(op, old(State(memory, cycles)))
    {
      match op
      case LdyIm =>
        var operand;
        operand, cycles' := FetchByte(cycles, memory);
        Y := operand;

        SetZeroAndNegativeFlags(Y);
      case LdyZp =>
        var address: Byte, operand;
        address, cycles' := AddressZeroPage(cycles, memory);
        operand, cycles' := ReadByte(cycles', memory, address);

        Y := operand;

        SetZeroAndNegativeFlags(Y);
      case LdyZpX =>
        var address: Byte, operand;
        address, cycles' := AddressZeroPageX(cycles, memory);
        operand, cycles' := ReadByte(cycles', memory, address);

        Y := operand;

        SetZeroAndNegativeFlags(Y);
      case LdyAbs =>
        var address: Word, operand;
        address, cycles' := AddressAbsolute(cycles, memory);
        operand, cycles' := ReadByte(cycles', memory, address);

        Y := operand;

        SetZeroAndNegativeFlags(Y);
      case LdyAbsX =>
        var address: Word, operand;
        address, cycles' := AddressAbsoluteX(cycles, memory, variableCycles := true);
        operand, cycles' := ReadByte(cycles', memory, address);

        Y := operand;

        SetZeroAndNegativeFlags(Y);
      case _ =>
        assert false;
    }

    /** The `case`s of the dispatcher for STA zero page, zero page,X and absolute. */
    method StoreAccumulator(op: Opcode, cycles: U32, memory: Memory) returns (cycles': U32)
      requires memory.Valid()
      requires op.StaZp? || op.StaZpX? || op.StaAbs?
      modifies this, memory.data
      ensures State(memory, cycles') == Machine.Apply(op, old(State(memory, cycles)))
    {
      match op
      case StaZp =>
        var address: Byte;
        address, cycles' := AddressZeroPage(cycles, memory);
        var data := A;
        cycles' := WriteByte(cycles', memory, address, data);
      case StaZpX =>
        var address: Byte;
        address, cycles' := AddressZeroPageX(cycles, memory);
        var data := A;
        cycles' := WriteByte(cycles', memory, address, data);
      case StaAbs =>
        var address: Word;
        address, cycles' := AddressAbsolute(cycles, memory);
        var data := A;
        cycles' := WriteByte(cycles', memory, address, data);
      case _ =>
        assert false;
    }

    /** The `case`s of the dispatcher for STA absolute,X and absolute,Y; the resolvers are called with the fixed extra cycle. */
    method StoreAccumulatorIndexed(op: Opcode, cycles: U32, memory: Memory) returns (cycles': U32)
      requires memory.Valid()
      requires op.StaAbsX? || op.StaAbsY?
      modifies this, memory.data
      ensures State(memory, cycles') == Machine.Apply(op, old(State(memory, cycles)))
    {
      match op
      case StaAbsX =>
        var address: Word;
        address, cycles' := AddressAbsoluteX(cycles, memory);
        var data := A;
        cycles' := WriteByte(cycles', memory, address, data);
      case StaAbsY =>
        var address: Word;
        address, cycles' := AddressAbsoluteY(cycles, memory);
        var data := A;
        cycles' := WriteByte(cycles', memory, address, data);
      case _ =>
        assert false;
    }

    /** The `case`s of the dispatcher for STA (indirect,X) and (indirect),Y; the second resolver is called with the fixed extra cycle. */
    method StoreAccumulatorIndirect(op: Opcode, cycles: U32, memory: Memory) returns (cycles': U32)
      requires memory.Valid()
      requires op.StaIndX? || op.StaIndY?
      modifies this, memory.data
      ensures State(memory, cycles') == Machine.Apply(op, old(State(memory, cycles)))
    {
      match op
      case StaIndX =>
        var address: Word;
        address, cycles' := AddressIndirectX(cycles, memory);
        var data := A;
        cycles' := WriteByte(cycles', memory, address, data);
      case StaIndY =>
        var address: Word;
        address, cycles' := AddressIndirectY(cycles, memory);
        var data := A;
        cycles' := WriteByte(cycles', memory, address, data);
      case _ =>
        assert false;
    }

    /** The `case`s of the dispatcher for STX in its three addressing modes. */
    method StoreX(op: Opcode, cycles: U32, memory: Memory) returns (cycles': U32)
      requires memory.Valid()
      requires op.StxZp? || op.StxZpY? || op.StxAbs?
      modifies this, memory.data
      ensures State(memory, cycles') == Machine.Apply(op, old(State(memory, cycles)))
    {
      match op
      case StxZp =>
        var address: Byte;
        address, cycles' := AddressZeroPage(cycles, memory);
        var data := X;
        cycles' := WriteByte(cycles', memory, address, data);
      case StxZpY =>
        var address: Byte;
        address, cycles' := AddressZeroPageY(cycles, memory);
        var data := X;
        cycles' := WriteByte(cycles', memory, address, data);
      case StxAbs =>
        var address: Word;
        address, cycles' := AddressAbsolute(cycles, memory);
        var data := X;
        cycles' := WriteByte(cycles', memory, address, data);
      case _ =>
        assert false;
    }

    /** The `case`s of the dispatcher for STY in its three addressing modes. */
    method StoreY(op: Opcode, cycles: U32, memory: Memory) returns (cycles': U32)
      requires memory.Valid()
      requires op.StyZp? || op.StyZpX? || op.StyAbs?
      modifies this, memory.data
      ensures State(memory, cycles') == Machine.Apply(op, old(State(memory, cycles)))
    {
      match op
      case StyZp =>
        var address: Byte;
        address, cycles' := AddressZeroPage(cycles, memory);
        var data := Y;
        cycles' := WriteByte(cycles', memory, address, data);
      case StyZpX =>
        var address: Byte;
        address, cycles' := AddressZeroPageX(cycles, memory);
        var data := Y;
        cycles' := WriteByte(cycles', memory, address, data);
      case StyAbs =>
        var address: Word;
        address, cycles' := AddressAbsolute(cycles, memory);
        var data := Y;
        cycles' := WriteByte(cycles', memory, address, data);
      case _ =>
        assert false;
    }

    /** The `case`s of the dispatcher for the six register transfers; TYA and TXS pass X to `SetZeroAndNegativeFlags`, which changes nothing either way. */
    method TransferRegister(op: Opcode, cycles: U32, memory: Memory) returns (cycles': U32)
      requires memory.Valid()
      requires op.Tax? || op.Tay? || op.Txa? || op.Tya? || op.Tsx? || op.Txs?
      modifies this
      ensures State(memory, cycles') == Machine.Apply(op, old(State(memory, cycles)))
    {
      match op
      case Tax =>
        X := A;
        cycles' := CycleTick(cycles);
        SetZeroAndNegativeFlags(X);
      case Tay =>
        Y := A;
        cycles' := CycleTick(cycles);
        SetZeroAndNegativeFlags(Y);
      case Txa =>
        A := X;
        cycles' := CycleTick(cycles);
        SetZeroAndNegativeFlags(A);
      case Tya =>
        A := Y;
        cycles' := CycleTick(cycles);
        SetZeroAndNegativeFlags(X);
      case Tsx =>
        X := SP;
        cycles' := CycleTick(cycles);
        SetZeroAndNegativeFlags(X);
      case Txs =>
        SP := X;
        cycles' := CycleTick(cycles);
        SetZeroAndNegativeFlags(X);
      case _ =>
        assert false;
    }

    /** The `case`s of the dispatcher for the four stack operations: a push costs two cycles, a pull three. */
    method StackOperation(op: Opcode, cycles: U32, memory: Memory) returns (cycles': U32)
      requires memory.Valid()
      requires op.Pha? || op.Php? || op.Pla? || op.Plp?
      modifies this, memory.data
      ensures State(memory, cycles') == Machine.Apply(op, old(State(memory, cycles)))
    {
      match op
      case Pha =>
        var data := A;
        cycles' := PushToStack(cycles, memory, data);
      case Php =>
        var data := StatusFlags;
        cycles' := PushToStack(cycles, memory, data);
      case Pla =>
        var data;
        data, cycles' := PopFromStack(cycles, memory);
        A := data;
        cycles' := CycleTick(cycles');
      case Plp =>
        var data;
        data, cycles' := PopFromStack(cycles, memory);
        StatusFlags := data;
        cycles' := CycleTick(cycles');
      case _ =>
        assert false;
    }

    /** One pass through the body of the `Execute` loop: fetch the opcode and
        run its `case`, or report the `default` branch's exception. */
    method Step(cycles: U32, memory: Memory) returns (cycles': U32, fault: Option<Machine.Fault>)
      requires memory.Valid()
      modifies this, memory.data
      ensures Machine.Step(Machine.Current, old(State(memory, cycles))) == Machine.Transition(fault, State(memory, cycles'))
    {
      var instruction;
      instruction, cycles' := FetchByte(cycles, memory);
      fault := None;

      match Decode(instruction)
      case None =>
        fault := Some(Machine.UnhandledOpcode(instruction, PC - 1));
      case Some(op) =>
          if op.LdaIm? || op.LdaZp? || op.LdaZpX? || op.LdaAbs? {
            cycles' := LoadAccumulator(op, cycles', memory);
          } else if op.LdaAbsX? || op.LdaAbsY? {
            cycles' := LoadAccumulatorIndexed(op, cycles', memory);
          } else if op.LdaIndX? || op.LdaIndY? {
            cycles' := LoadAccumulatorIndirect(op, cycles', memory);
          } else if op.LdxIm? || op.LdxZp? || op.LdxZpY? || op.LdxAbs? || op.LdxAbsY? {
            cycles' := LoadX(op, cycles', memory);
          } else if op.LdyIm? || op.LdyZp? || op.LdyZpX? || op.LdyAbs? || op.LdyAbsX? {
            cycles' := LoadY(op, cycles', memory);
          } else if op.StaZp? || op.StaZpX? || op.StaAbs? {
            cycles' := StoreAccumulator(op, cycles', memory);
          } else if op.StaAbsX? || op.StaAbsY? {
            cycles' := StoreAccumulatorIndexed(op, cycles', memory);
          } else if op.StaIndX? || op.StaIndY? {
            cycles' := StoreAccumulatorIndirect(op, cycles', memory);
          } else if op.StxZp? || op.StxZpY? || op.StxAbs? {
            cycles' := StoreX(op, cycles', memory);
          } else if op.StyZp? || op.StyZpX? || op.StyAbs? {
            cycles' := StoreY(op, cycles', memory);
          } else if op.Tax? || op.Tay? || op.Txa? || op.Tya? || op.Tsx? || op.Txs? {
            cycles' := TransferRegister(op, cycles', memory);
          } else if op.Pha? || op.Php? || op.Pla? || op.Plp? {
            cycles' := StackOperation(op, cycles', memory);
          } else {
            assert false;
          }
    }

    /** `Execute`: `while (cycles > 0)` run one instruction, for at most
        `fuel` instructions; an unhandled opcode ends the run with its fault.
        The registers and memory afterwards are those of `Machine.Run`. */
    method Execute(cycles: U32, memory: Memory, fuel: nat) returns (stop: Machine.Stop)
      requires memory.Valid()
      modifies this, memory.data
      ensures var run := Machine.Run(Machine.Current, old(State(memory, cycles)), fuel);
        run.stop == stop && run.state.regs == Registers() && run.state.mem == memory.Cells()
    {
      var remaining := cycles;
      var steps := 0;
      ghost var run := Machine.Run(Machine.Current, State(memory, cycles), fuel);
      while remaining > 0 && steps < fuel
        invariant steps <= fuel
        invariant run == Machine.Run(Machine.Current, State(memory, remaining), fuel - steps)
        decreases fuel - steps
      {
        ghost var before := State(memory, remaining);
        var fault;
        remaining, fault := Step(remaining, memory);
        ghost var after := State(memory, remaining);
        Machine.RunOneStep(Machine.Current, before, fuel - steps, Machine.Transition(fault, after));
        if fault.Some? {
          return Machine.Faulted(fault.value);
        }
        steps := steps + 1;
      }
      Machine.RunStops(Machine.Current, State(memory, remaining), fuel - steps);
      stop := if remaining == 0 then Machine.Halted else Machine.OutOfFuel;
    }
  }
}
