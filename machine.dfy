/** The execution engine as values: the register file, the cycle counter, the
    net effect of every bus primitive and addressing-mode resolver, one
    instruction step and a run of the `Execute` loop.  The imperative CPU
    classes are proved to agree with these definitions, and the properties of
    the engine are proved about them. */
module Machine {
  import opened Words
  import opened Outcomes
  import Flags
  import opened Opcodes
  import opened MainMemory

  /** The six registers of the `CPU` struct. */
  datatype Registers = Registers(pc: Word, sp: Byte, a: Byte, x: Byte, y: Byte, status: Byte)

  /** Registers, memory contents and the remaining cycle budget. */
  datatype State = State(regs: Registers, mem: Ram, cycles: U32)

  /** `Reset`: PC at 0xFFFC, SP at 0xFF, everything else 0. */
  const RESET_REGISTERS: Registers := Registers(0xFFFC, 0xFF, 0, 0, 0, 0)

  /** The stack occupies page 1: `0x0100 + SP`. */
  const STACK_PAGE: Word := 0x0100

  /** `n` applications of `cycles--` to an unsigned 32-bit counter. */
  function Spend(c: U32, n: nat): (r: U32)
    ensures c >= n ==> r == c - n
    ensures c < n <= U32_RANGE ==> r == c - n + U32_RANGE
  {
    WrapU32(c - n)
  }

  /** `ReadWord`: the little-endian word at `address` and `address + 1`.  The
      second address is incremented as a 16-bit value, so a pointer at 0xFF
      takes its high byte from 0x0100, not from 0x0000. */
  function WordAt(mem: Ram, address: Word): Word
  {
    MakeWord(mem[address], mem[WrapWord(address + 1)])
  }

  /** What an addressing-mode resolver produces: the effective address, the
      program counter after the operand, and the counter after its cycles. */
  datatype Access = Access(address: Word, pc: Word, cycles: U32)

  /** Zero page: the operand byte is the address; one fetch. */
  function ZeroPageAt(r: Registers, mem: Ram, c: U32): (acc: Access)
    ensures acc.address < 0x100
  {
    Access(mem[r.pc], WrapWord(r.pc + 1), Spend(c, 1))
  }

  /** Zero page,X and zero page,Y: operand plus index with 8-bit wrap; one
      fetch and one cycle for the add. */
  function ZeroPageIndexedAt(r: Registers, mem: Ram, c: U32, index: Byte): (acc: Access)
    ensures acc.address == (mem[r.pc] + index) % 0x100
  {
    Access(ZeroPageIndexed(mem[r.pc], index), WrapWord(r.pc + 1), Spend(c, 2))
  }

  /** Absolute: the little-endian operand word; two fetches. */
  function AbsoluteAt(r: Registers, mem: Ram, c: U32): (acc: Access)
    ensures acc.address == mem[r.pc] as int + 0x100 * mem[WrapWord(r.pc + 1)] as int
  {
    Access(WordAt(mem, r.pc), WrapWord(r.pc + 2), Spend(c, 2))
  }

  /** Absolute,X and absolute,Y in the current engine: operand word plus index
      with 16-bit wrap.  A page crossing requests a cycle and ticks it away
      again, so it costs nothing; a caller that does not ask for variable
      cycles pays one fixed extra cycle. */
  function AbsoluteIndexedAt(r: Registers, mem: Ram, c: U32, index: Byte, variableCycles: bool): (acc: Access)
    ensures acc.address == (AbsoluteAt(r, mem, c).address + index) % 0x1_0000
    ensures acc.cycles == Spend(c, if variableCycles then 2 else 3)
  {
    var base := WordAt(mem, r.pc);
    var address := WrapWord(base + index);
    var afterFetch := Spend(c, 2);
    var afterCrossing := if PageCrossed(base, index) then WrapU32(WrapU32(afterFetch + 1) - 1) else afterFetch;
    Access(address, WrapWord(r.pc + 2), if variableCycles then afterCrossing else Spend(afterCrossing, 1))
  }

  /** Indirect: the operand word points at the word holding the address. */
  function IndirectAt(r: Registers, mem: Ram, c: U32): Access
  {
    Access(WordAt(mem, WordAt(mem, r.pc)), WrapWord(r.pc + 2), Spend(c, 4))
  }

  /** (Indirect,X): operand plus X with 8-bit wrap is a pointer whose word is
      the address; one fetch, one cycle for the add, two reads. */
  function IndirectXAt(r: Registers, mem: Ram, c: U32): (acc: Access)
    ensures acc.address == WordAt(mem, (mem[r.pc] + r.x) % 0x100)
  {
    Access(WordAt(mem, ZeroPageIndexed(mem[r.pc], r.x)), WrapWord(r.pc + 1), Spend(c, 4))
  }

  /** (Indirect),Y in the current engine: the word at the zero-page pointer,
      plus Y with 16-bit wrap; crossing is free, the fixed-cycle variant pays
      one extra cycle. */
  function IndirectYAt(r: Registers, mem: Ram, c: U32, variableCycles: bool): (acc: Access)
    ensures acc.address == (WordAt(mem, mem[r.pc]) + r.y) % 0x1_0000
    ensures acc.cycles == Spend(c, if variableCycles then 3 else 4)
  {
    var base := WordAt(mem, mem[r.pc]);
    var afterReads := Spend(c, 3);
    var afterCrossing := if PageCrossed(base, r.y) then WrapU32(WrapU32(afterReads + 1) - 1) else afterReads;
    Access(WrapWord(base + r.y), WrapWord(r.pc + 1), if variableCycles then afterCrossing else Spend(afterCrossing, 1))
  }

  /** Relative: the operand is a signed displacement from the program
      counter after the operand; one fetch and one cycle for the add. */
  function RelativeAt(r: Registers, mem: Ram, c: U32): (acc: Access)
    ensures acc.pc == WrapWord(r.pc + 1)
    ensures acc.address == WrapWord(r.pc + 1 + Signed(mem[r.pc]))
  {
    var pc := WrapWord(r.pc + 1);
    Access(Displace(pc, mem[r.pc]), pc, Spend(c, 2))
  }

  /** Absolute,X and absolute,Y in the two earlier engines: one extra cycle
      exactly when the index moves the address to another page. */
  function LegacyAbsoluteIndexedAt(r: Registers, mem: Ram, c: U32, index: Byte): (acc: Access)
    ensures acc.address == (AbsoluteAt(r, mem, c).address + index) % 0x1_0000
    ensures acc.cycles == Spend(c, if PageCrossed(WordAt(mem, r.pc), index) then 3 else 2)
  {
    var base := WordAt(mem, r.pc);
    Access(WrapWord(base + index), WrapWord(r.pc + 2), Spend(Spend(c, 2), if PageCrossed(base, index) then 1 else 0))
  }

  /** (Indirect),Y in the `6502/src` engine: the sum is cast to a byte, so
      the address never leaves page 0, and the page test then charges a cycle
      whenever the pointed-to word is not itself in page 0. */
  function TruncatedIndirectYAt(r: Registers, mem: Ram, c: U32): (acc: Access)
    ensures acc.address == (WordAt(mem, mem[r.pc]) + r.y) % 0x100
    ensures acc.cycles == Spend(c, if HighByte(WordAt(mem, mem[r.pc])) != 0 then 4 else 3)
  {
    var base := WordAt(mem, mem[r.pc]);
    var address := WrapByte(base + r.y);
    Access(address, WrapWord(r.pc + 1), Spend(Spend(c, 3), if Page(address) != Page(base) then 1 else 0))
  }

  /** The address an addressing mode resolves to in the current engine. */
  function Locate(mode: Mode, r: Registers, mem: Ram, c: U32, variableCycles: bool): Access
  {
    match mode
    case ZeroPage => ZeroPageAt(r, mem, c)
    case ZeroPageX => ZeroPageIndexedAt(r, mem, c, r.x)
    case ZeroPageY => ZeroPageIndexedAt(r, mem, c, r.y)
    case Absolute => AbsoluteAt(r, mem, c)
    case AbsoluteX => AbsoluteIndexedAt(r, mem, c, r.x, variableCycles)
    case AbsoluteY => AbsoluteIndexedAt(r, mem, c, r.y, variableCycles)
    case IndirectX => IndirectXAt(r, mem, c)
    case IndirectY => IndirectYAt(r, mem, c, variableCycles)
  }

  /** The value of a named register. */
  function ValueOf(r: Registers, reg: Register): Byte
  {
    match reg
    case A => r.a
    case X => r.x
    case Y => r.y
    case SP => r.sp
    case P => r.status
  }

  /** The register file with one named register replaced. */
  function WithValue(r: Registers, reg: Register, v: Byte): (r': Registers)
    ensures ValueOf(r', reg) == v
    ensures forall other :: other != reg ==> ValueOf(r', other) == ValueOf(r, other)
    ensures r'.pc == r.pc
  {
    match reg
    case A => r.(a := v)
    case X => r.(x := v)
    case Y => r.(y := v)
    case SP => r.(sp := v)
    case P => r.(status := v)
  }

  /** The address of the current top-of-stack cell, `0x0100 + SP`. */
  function StackAddress(sp: Byte): Word
  {
    STACK_PAGE + sp
  }

  /** The effect of an operation once its opcode byte has been fetched.
      Loads resolve their address with variable cycles, stores with the fixed
      extra cycle; `SetZeroAndNegativeFlags` changes nothing, so no operation
      touches the status register except a pull into it. */
  function Perform(o: Operation, s: State): State
  {
    var r := s.regs;
    var mem := s.mem;
    match o
    case LoadImmediate(t) =>
      State(WithValue(r, t, mem[r.pc]).(pc := WrapWord(r.pc + 1)), mem, Spend(s.cycles, 1))
    case Load(t, mode) =>
      var acc := Locate(mode, r, mem, s.cycles, true);
      State(WithValue(r, t, mem[acc.address]).(pc := acc.pc), mem, Spend(acc.cycles, 1))
    case Store(source, mode) =>
      var acc := Locate(mode, r, mem, s.cycles, false);
      State(r.(pc := acc.pc), mem[acc.address := ValueOf(r, source)], Spend(acc.cycles, 1))
    case Transfer(source, t) =>
      State(WithValue(r, t, ValueOf(r, source)), mem, Spend(s.cycles, 1))
    case Push(source) =>
      State(r.(sp := WrapByte(r.sp - 1)), mem[StackAddress(r.sp) := ValueOf(r, source)], Spend(s.cycles, 2))
    case Pull(t) =>
      var v := mem[StackAddress(r.sp)];
      State(WithValue(r.(sp := WrapByte(r.sp + 1)), t, v), mem, Spend(s.cycles, 3))
  }

  /** The `case` of the dispatcher for an opcode. */
  function Apply(op: Opcode, s: State): State
  {
    Perform(OperationOf(op), s)
  }

  /** The exception of the dispatcher's `default` branch: the opcode byte and
      `PC - 1`, computed in C# `int` arithmetic from the advanced 16-bit PC. */
  datatype Fault = UnhandledOpcode(opcode: Byte, address: int)

  /** One pass through the body of the `Execute` loop. */
  datatype Transition = Transition(fault: Option<Fault>, state: State)

  /** The three generations of the dispatcher: `6502/Program.cs`,
      `6502/src/CPU.cs` and `LA6502/CPU.cs`. */
  datatype Engine = Early | Snapshot | Current

  function DecodeFor(e: Engine, b: Byte): Option<Opcode>
  {
    if e == Current then Decode(b) else LegacyDecode(b)
  }

  /** The state after the opcode fetch: PC one further, one cycle spent. */
  function Fetched(s: State): State
  {
    State(s.regs.(pc := WrapWord(s.regs.pc + 1)), s.mem, Spend(s.cycles, 1))
  }

  /** Fetch the opcode byte (one cycle) and dispatch on it. */
  function Step(e: Engine, s: State): Transition
  {
    var opcode := s.mem[s.regs.pc];
    var fetched := Fetched(s);
    match DecodeFor(e, opcode)
    case None => Transition(Some(UnhandledOpcode(opcode, fetched.regs.pc - 1)), fetched)
    case Some(op) => Transition(None, Apply(op, fetched))
  }

  /** Why a run of the `Execute` loop stopped: the budget reached zero, an
      opcode was not handled, or the step bound of the model ran out. */
  datatype Stop = Halted | Faulted(fault: Fault) | OutOfFuel

  datatype RunResult = RunResult(stop: Stop, state: State)

  /** `while (cycles > 0)` over `Step`, for at most `fuel` instructions.  The
      counter is unsigned and wraps, so an overspent budget does not stop the
      loop; the bound is what makes the run a total function. */
  function Run(e: Engine, s: State, fuel: nat): RunResult
    decreases fuel
  {
    if s.cycles == 0 then RunResult(Halted, s)
    else if fuel == 0 then RunResult(OutOfFuel, s)
    else
      var t := Step(e, s);
      if t.fault.Some? then RunResult(Faulted(t.fault.value), t.state)
      else Run(e, t.state, fuel - 1)
  }

  /** An opcode the engine decodes is applied to the fetched state. */
  lemma StepDecoded(e: Engine, s: State, op: Opcode)
    requires DecodeFor(e, s.mem[s.regs.pc]) == Some(op)
    ensures Step(e, s) == Transition(None, Apply(op, Fetched(s)))
  {
  }

  /** One turn of the `Execute` loop, stated for a given transition. */
  lemma RunOneStep(e: Engine, s: State, fuel: nat, t: Transition)
    requires s.cycles != 0 && fuel != 0 && t == Step(e, s)
    ensures Run(e, s, fuel) == if t.fault.Some? then RunResult(Faulted(t.fault.value), t.state) else Run(e, t.state, fuel - 1)
  {
  }

  /** A run with no budget left, or no fuel left, stops where it is. */
  lemma RunStops(e: Engine, s: State, fuel: nat)
    requires s.cycles == 0 || fuel == 0
    ensures Run(e, s, fuel) == RunResult(if s.cycles == 0 then Halted else OutOfFuel, s)
  {
  }
}
