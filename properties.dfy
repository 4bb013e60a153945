/** Properties of the execution engine, proved about the value-level
    definitions in `Machine`; the three CPU classes are proved equal to those
    definitions, so every property here holds of them as well. */
module Properties {
  import opened Words
  import opened Outcomes
  import Flags
  import opened Opcodes
  import opened MainMemory
  import opened Machine

  // ---------------------------------------------------------------------
  // Counter and program-counter arithmetic

  /** Spending `a` cycles and then `b` is spending `a + b`, for any number
      of cycles up to a full turn of the counter. */
  lemma SpendSpend(c: U32, a: nat, b: nat)
    requires a + b <= U32_RANGE
    ensures Spend(Spend(c, a), b) == Spend(c, a + b)
  {
    if c >= a {
      assert Spend(c, a) == c - a;
    } else {
      assert Spend(c, a) == c - a + U32_RANGE;
    }
  }

  /** `RequestCycle` followed by `CycleTick` leaves the counter unchanged,
      also at the wrap-around point. */
  lemma RequestThenTick(c: U32)
    ensures WrapU32(WrapU32(c + 1) - 1) == c
  {
  }

  /** Advancing PC by `a` and then by `b` is advancing it by `a + b`, for
      any advance up to a full turn of the address space. */
  lemma AdvanceAdvance(pc: Word, a: nat, b: nat)
    requires a + b <= WORD_RANGE
    ensures WrapWord(WrapWord(pc + a) + b) == WrapWord(pc + a + b)
  {
    if pc + a < WORD_RANGE {
      assert WrapWord(pc + a) == pc + a;
    } else {
      assert WrapWord(pc + a) == pc + a - WORD_RANGE;
    }
  }

  // ---------------------------------------------------------------------
  // The cost table against the resolvers

  /** Cycles a resolver consumes, operand fetches included. */
  function ModeCycles(mode: Mode, variableCycles: bool): (n: nat)
    ensures 1 <= n <= 4
  {
    match mode
    case ZeroPage => 1
    case ZeroPageX | ZeroPageY => 2
    case Absolute => 2
    case AbsoluteX | AbsoluteY => if variableCycles then 2 else 3
    case IndirectX => 4
    case IndirectY => if variableCycles then 3 else 4
  }

  /** Every resolver of the current engine consumes a fixed number of cycles,
      whether or not a page is crossed, and moves PC past its operand. */
  lemma LocateCost(mode: Mode, r: Registers, mem: Ram, c: U32, variableCycles: bool)
    ensures Locate(mode, r, mem, c, variableCycles).cycles == Spend(c, ModeCycles(mode, variableCycles))
    ensures Locate(mode, r, mem, c, variableCycles).pc == WrapWord(r.pc + ModeOperandBytes(mode))
  {
    match mode
    case ZeroPage =>
    case ZeroPageX =>
    case ZeroPageY =>
    case Absolute =>
    case AbsoluteX =>
    case AbsoluteY =>
    case IndirectX =>
    case IndirectY =>
  }

  /** A resolver followed by the one data access of a load or store. */
  lemma AccessCost(mode: Mode, r: Registers, mem: Ram, c: U32, variableCycles: bool)
    ensures Spend(Locate(mode, r, mem, c, variableCycles).cycles, 1) == Spend(c, ModeCycles(mode, variableCycles) + 1)
    ensures Locate(mode, r, mem, c, variableCycles).pc == WrapWord(r.pc + ModeOperandBytes(mode))
  {
    LocateCost(mode, r, mem, c, variableCycles);
    SpendSpend(c, ModeCycles(mode, variableCycles), 1);
  }

  /** An operation's cost: the opcode fetch, its resolver and one cycle for
      the data access; a push spends two more, a pull three. */
  function OperationCycles(o: Operation): nat
  {
    match o
    case LoadImmediate(_) => 2
    case Load(_, mode) => 1 + ModeCycles(mode, true) + 1
    case Store(_, mode) => 1 + ModeCycles(mode, false) + 1
    case Transfer(_, _) => 2
    case Push(_) => 3
    case Pull(_) => 4
  }

  /** The cycle table agrees with what the resolvers and bus primitives add
      up to: loads resolve with variable cycles, stores with the fixed one. */
  lemma {:induction false} CyclesAgreeWithResolvers(op: Opcode)
    ensures Cycles(op) == OperationCycles(OperationOf(op))
    ensures Cycles(op) >= 2
  {
    match op
    case LdaIm =>   case LdaZp =>   case LdaZpX =>  case LdaAbs =>
    case LdaAbsX => case LdaAbsY => case LdaIndX => case LdaIndY =>
    case LdxIm =>   case LdxZp =>   case LdxZpY =>  case LdxAbs =>  case LdxAbsY =>
    case LdyIm =>   case LdyZp =>   case LdyZpX =>  case LdyAbs =>  case LdyAbsX =>
    case StaZp =>   case StaZpX =>  case StaAbs =>  case StaAbsX =>
    case StaAbsY => case StaIndX => case StaIndY =>
    case StxZp =>   case StxZpY =>  case StxAbs =>
    case StyZp =>   case StyZpX =>  case StyAbs =>
    case Tax =>     case Tay =>     case Txa =>     case Tya =>     case Tsx =>   case Txs =>
    case Pha =>     case Php =>     case Pla =>     case Plp =>
  }

  /** After the opcode fetch, an operation consumes the rest of its cost and
      moves PC past its operand. */
  lemma PerformCost(o: Operation, s: State)
    ensures OperationCycles(o) >= 2
    ensures Perform(o, s).cycles == Spend(s.cycles, OperationCycles(o) - 1)
    ensures Perform(o, s).regs.pc == WrapWord(s.regs.pc + OperandLength(o))
  {
    var r := s.regs;
    match o
    case LoadImmediate(t) =>
    case Load(t, mode) =>
      AccessCost(mode, r, s.mem, s.cycles, true);
    case Store(source, mode) =>
      AccessCost(mode, r, s.mem, s.cycles, false);
    case Transfer(source, t) =>
      assert Perform(o, s).regs.pc == r.pc;
    case Push(source) =>
    case Pull(t) =>
  }

  /** After its opcode has been fetched, an instruction consumes the rest of
      its table cost and moves PC past its operand. */
  lemma ApplyCost(op: Opcode, s: State)
    ensures Cycles(op) >= 2
    ensures Apply(op, s).cycles == Spend(s.cycles, Cycles(op) - 1)
    ensures Apply(op, s).regs.pc == WrapWord(s.regs.pc + OperandBytes(op))
  {
    CyclesAgreeWithResolvers(op);
    PerformCost(OperationOf(op), s);
  }

  /** Fetching an opcode and applying it costs the table cycles and moves PC
      past the opcode and its operand. */
  lemma InstructionCost(op: Opcode, s: State)
    ensures Cycles(op) >= 2
    ensures Apply(op, Fetched(s)).cycles == Spend(s.cycles, Cycles(op))
    ensures Apply(op, Fetched(s)).regs.pc == WrapWord(s.regs.pc + 1 + OperandBytes(op))
  {
    ApplyCost(op, Fetched(s));
    var after := Apply(op, Fetched(s));
    FetchThenRest(s.cycles, s.regs.pc, Cycles(op), OperandBytes(op), after.cycles, after.regs.pc);
  }

  /** The opcode fetch followed by the rest of an instruction adds up. */
  lemma FetchThenRest(c: U32, pc: Word, n: nat, k: nat, c': U32, pc': Word)
    requires 1 <= n <= U32_RANGE && k < WORD_RANGE
    requires c' == Spend(Spend(c, 1), n - 1)
    requires pc' == WrapWord(WrapWord(pc + 1) + k)
    ensures c' == Spend(c, n)
    ensures pc' == WrapWord(pc + 1 + k)
  {
    SpendSpend(c, 1, n - 1);
    AdvanceAdvance(pc, 1, k);
  }

  /** One instruction of the current engine: a decodable opcode never
      faults, costs exactly its table cycles (the counter wraps when the
      budget is smaller) and leaves PC after its operand. */
  lemma StepCost(s: State, op: Opcode)
    requires Decode(s.mem[s.regs.pc]) == Some(op)
    ensures Cycles(op) >= 2
    ensures Step(Current, s).fault == None
    ensures Step(Current, s).state.cycles == Spend(s.cycles, Cycles(op))
    ensures Step(Current, s).state.regs.pc == WrapWord(s.regs.pc + 1 + OperandBytes(op))
  {
    StepDecoded(Current, s, op);
    InstructionCost(op, s);
  }

  /** The counter goes down by the instruction's cost, and wraps past zero
      to a large value when the budget is smaller than the cost. */
  lemma {:induction false} StepCountsDown(s: State, op: Opcode)
    requires Decode(s.mem[s.regs.pc]) == Some(op)
    ensures s.cycles >= Cycles(op) ==> Step(Current, s).state.cycles == s.cycles - Cycles(op)
    ensures s.cycles < Cycles(op) ==> Step(Current, s).state.cycles == s.cycles - Cycles(op) + U32_RANGE
  {
    StepCost(s, op);
  }

  /** `Execute` given exactly an instruction's cost runs that one
      instruction and stops with the counter at 0. */
  lemma {:induction false} ExactBudgetRunsOne(s: State, op: Opcode, fuel: nat)
    requires Decode(s.mem[s.regs.pc]) == Some(op)
    requires s.cycles == Cycles(op) && fuel >= 1
    ensures Run(Current, s, fuel) == RunResult(Halted, Step(Current, s).state)
    ensures Run(Current, s, fuel).state.cycles == 0
  {
    StepCost(s, op);
    StepCountsDown(s, op);
    RunOneStep(Current, s, fuel, Step(Current, s));
    RunStops(Current, Step(Current, s).state, fuel - 1);
  }

  /** A budget smaller than the instruction's cost wraps the counter to a
      large positive value, so `while (cycles > 0)` goes on. */
  lemma {:induction false} OverspentBudgetKeepsRunning(s: State, op: Opcode)
    requires Decode(s.mem[s.regs.pc]) == Some(op)
    requires 0 < s.cycles < Cycles(op)
    ensures Step(Current, s).state.cycles >= U32_RANGE - Cycles(op) + 1
    ensures Run(Current, s, 2) == Run(Current, Step(Current, s).state, 1)
  {
    StepCost(s, op);
    StepCountsDown(s, op);
    RunOneStep(Current, s, 2, Step(Current, s));
  }

  // ---------------------------------------------------------------------
  // Effects on registers and memory

  /** The cell a load or store accesses: the byte after the opcode for an
      immediate load, otherwise the resolver's effective address. */
  function OperandAddress(s: State, op: Opcode): Word
    requires OperationOf(op).LoadImmediate? || OperationOf(op).Load? || OperationOf(op).Store?
  {
    var f := Fetched(s);
    match OperationOf(op)
    case LoadImmediate(_) => f.regs.pc
    case Load(_, mode) => Locate(mode, f.regs, f.mem, f.cycles, true).address
    case Store(_, mode) => Locate(mode, f.regs, f.mem, f.cycles, false).address
  }

  /** A load puts the addressed byte into its target register and changes no
      other register (besides PC) and no memory cell. */
  lemma LoadChangesOnlyTarget(s: State, op: Opcode)
    requires Decode(s.mem[s.regs.pc]) == Some(op)
    requires OperationOf(op).LoadImmediate? || OperationOf(op).Load?
    ensures ValueOf(Step(Current, s).state.regs, OperationOf(op).target) == s.mem[OperandAddress(s, op)]
    ensures forall reg :: reg != OperationOf(op).target ==> ValueOf(Step(Current, s).state.regs, reg) == ValueOf(s.regs, reg)
    ensures Step(Current, s).state.mem == s.mem
  {
  }

  /** A store writes its source register to exactly one cell, the operand
      address, and changes no register except PC. */
  lemma StoreWritesOneCell(s: State, op: Opcode)
    requires Decode(s.mem[s.regs.pc]) == Some(op)
    requires OperationOf(op).Store?
    ensures Step(Current, s).state.mem == s.mem[OperandAddress(s, op) := ValueOf(s.regs, OperationOf(op).source)]
    ensures Step(Current, s).state.regs == s.regs.(pc := Step(Current, s).state.regs.pc)
  {
  }

  /** A transfer copies its source register into its target and changes no
      other register (besides PC) and no memory cell. */
  lemma TransferCopies(s: State, op: Opcode)
    requires Decode(s.mem[s.regs.pc]) == Some(op)
    requires OperationOf(op).Transfer?
    ensures ValueOf(Step(Current, s).state.regs, OperationOf(op).target) == ValueOf(s.regs, OperationOf(op).source)
    ensures forall reg :: reg != OperationOf(op).target ==> ValueOf(Step(Current, s).state.regs, reg) == ValueOf(s.regs, reg)
    ensures Step(Current, s).state.mem == s.mem
  {
  }

  /** The status register is the target of PLP alone. */
  lemma {:induction false} OnlyPlpTargetsStatus(op: Opcode)
    ensures OperationOf(op).LoadImmediate? || OperationOf(op).Load? || OperationOf(op).Transfer? || OperationOf(op).Pull? ==>
      (OperationOf(op).target == P <==> op == Plp)
  {
    match op
    case LdaIm =>   case LdaZp =>   case LdaZpX =>  case LdaAbs =>
    case LdaAbsX => case LdaAbsY => case LdaIndX => case LdaIndY =>
    case LdxIm =>   case LdxZp =>   case LdxZpY =>  case LdxAbs =>  case LdxAbsY =>
    case LdyIm =>   case LdyZp =>   case LdyZpX =>  case LdyAbs =>  case LdyAbsX =>
    case StaZp =>   case StaZpX =>  case StaAbs =>  case StaAbsX =>
    case StaAbsY => case StaIndX => case StaIndY =>
    case StxZp =>   case StxZpY =>  case StxAbs =>
    case StyZp =>   case StyZpX =>  case StyAbs =>
    case Tax =>     case Tay =>     case Txa =>     case Tya =>     case Tsx =>   case Txs =>
    case Pha =>     case Php =>     case Pla =>     case Plp =>
  }

  /** An operation that does not pull into the status register leaves it
      as it was. */
  lemma PerformKeepsStatus(o: Operation, s: State)
    requires o.LoadImmediate? || o.Load? || o.Transfer? || o.Pull? ==> o.target != P
    ensures Perform(o, s).regs.status == s.regs.status
  {
    var r := s.regs;
    match o
    case LoadImmediate(t) =>
      WithValueKeepsStatus(r, t, s.mem[r.pc]);
    case Load(t, mode) =>
      WithValueKeepsStatus(r, t, s.mem[Locate(mode, r, s.mem, s.cycles, true).address]);
    case Store(source, mode) =>
    case Transfer(source, t) =>
      WithValueKeepsStatus(r, t, ValueOf(r, source));
    case Push(source) =>
    case Pull(t) =>
      WithValueKeepsStatus(r.(sp := WrapByte(r.sp + 1)), t, s.mem[StackAddress(r.sp)]);
  }

  lemma WithValueKeepsStatus(r: Registers, t: Register, v: Byte)
    requires t != P
    ensures WithValue(r, t, v).status == r.status
  {
  }

  /** `SetZeroAndNegativeFlags` changes nothing, so the status register is
      written by PLP alone, with the byte it pulls; every other instruction,
      and the fault, leave it as it was. */
  lemma StatusOnlyFromPlp(s: State)
    ensures Decode(s.mem[s.regs.pc]) != Some(Plp) ==> Step(Current, s).state.regs.status == s.regs.status
    ensures Decode(s.mem[s.regs.pc]) == Some(Plp) ==>
      Step(Current, s).state.regs.status == s.mem[StackAddress(s.regs.sp)]
  {
    match Decode(s.mem[s.regs.pc])
    case None =>
    case Some(op) =>
      StepDecoded(Current, s, op);
      if op != Plp {
        OnlyPlpTargetsStatus(op);
        PerformKeepsStatus(OperationOf(op), Fetched(s));
      }
  }

  /** The flag helpers never reach the CPU: whatever `SetFlag` would compute,
      no load leaves Z set for a zero operand unless it was set before. */
  lemma {:induction false} LoadOfZeroLeavesZeroFlag(s: State)
    requires s.mem[s.regs.pc] == Encode(LdaIm) && s.mem[WrapWord(s.regs.pc + 1)] == 0
    ensures Step(Current, s).state.regs.a == 0
    ensures Flags.IsFlagSet(Step(Current, s).state.regs.status as Flags.Status, Flags.Z) == Flags.IsFlagSet(s.regs.status as Flags.Status, Flags.Z)
  {
    DecodeEncode(LdaIm);
    StatusOnlyFromPlp(s);
  }

  // ---------------------------------------------------------------------
  // Stack

  /** The body of PHA: the accumulator goes to `0x0100 + SP`, then SP goes
      down by one with 8-bit wrap; two cycles. */
  lemma PushBody(s: State)
    ensures Apply(Pha, s) == State(s.regs.(sp := WrapByte(s.regs.sp - 1)), s.mem[StackAddress(s.regs.sp) := s.regs.a], Spend(s.cycles, 2))
  {
  }

  /** The body of PLA: the accumulator receives the byte at `0x0100 + SP`,
      read before SP goes up by one with 8-bit wrap; three cycles. */
  lemma PullBody(s: State)
    ensures Apply(Pla, s) == State(s.regs.(sp := WrapByte(s.regs.sp + 1), a := s.mem[StackAddress(s.regs.sp)]), s.mem, Spend(s.cycles, 3))
  {
  }

  /** PHA then PLA, once their opcodes are fetched: SP comes back to where
      it was, and A receives the byte at `0x0100 + SP - 1` rather than the
      byte just pushed, because the pull reads before it increments SP.  The
      pushed byte stays in memory; the two bodies cost five cycles. */
  lemma {:induction false} PushThenPull(s: State)
    ensures var after := Apply(Pla, Apply(Pha, s));
      && after.regs == s.regs.(a := s.mem[StackAddress(WrapByte(s.regs.sp - 1))])
      && after.mem == s.mem[StackAddress(s.regs.sp) := s.regs.a]
      && after.cycles == Spend(s.cycles, 5)
  {
    var sp := s.regs.sp;
    var below := WrapByte(sp as int - 1);
    if sp == 0 {
      assert below == 0xFF;
    } else {
      assert below == sp - 1;
    }
    assert WrapByte(below as int + 1) == sp;
    var mem1 := s.mem[StackAddress(sp) := s.regs.a];
    PushBody(s);
    var pushed := Apply(Pha, s);
    assert pushed == State(s.regs.(sp := below), mem1, Spend(s.cycles, 2));
    PullBody(pushed);
    assert mem1[StackAddress(below)] == s.mem[StackAddress(below)];
    SpendSpend(s.cycles, 2, 3);
  }

  /** Consequently the round trip of a push and a pull returns the pushed
      value only when the cell below the top already held it. */
  lemma {:induction false} PullReturnsPushedOnlyByCoincidence(s: State)
    ensures Apply(Pla, Apply(Pha, s)).regs.a == s.regs.a
        <==> s.mem[StackAddress(WrapByte(s.regs.sp - 1))] == s.regs.a
  {
    PushThenPull(s);
  }

  // ---------------------------------------------------------------------
  // Faults

  /** An opcode the engine does not handle raises the fault with the opcode
      byte and `PC - 1` taken after the fetch: the opcode's own address, or
      -1 when it was fetched from 0xFFFF.  Only PC and the counter move. */
  lemma UnhandledOpcode(e: Engine, s: State)
    requires DecodeFor(e, s.mem[s.regs.pc]) == None
    ensures Step(e, s).fault == Some(Machine.UnhandledOpcode(s.mem[s.regs.pc], if s.regs.pc == 0xFFFF then -1 else s.regs.pc))
    ensures Step(e, s).state == State(s.regs.(pc := WrapWord(s.regs.pc + 1)), s.mem, Spend(s.cycles, 1))
    ensures s.cycles != 0 ==> forall fuel: nat :: fuel >= 1 ==>
      Run(e, s, fuel) == RunResult(Faulted(Step(e, s).fault.value), Step(e, s).state)
  {
  }

  /** The current engine handles exactly the bytes of the opcode table. */
  lemma {:induction false} CurrentHandlesTable(b: Byte)
    ensures Decode(b) == None <==> forall op :: Encode(op) != b
  {
    if Decode(b) == None {
      forall op | true
        ensures Encode(op) != b
      {
        DecodeEncode(op);
      }
    } else {
      EncodeDecode(b);
    }
  }

  // ---------------------------------------------------------------------
  // The earlier engines

  /** The two earlier engines agree with the current one on the four LDA
      opcodes they handle, and fault on every other byte. */
  lemma LegacyAgreesWithCurrent(e: Engine, s: State)
    requires e != Current
    ensures s.mem[s.regs.pc] in {0xA9, 0xA5, 0xB5, 0xAD} ==> Step(e, s) == Step(Current, s)
    ensures s.mem[s.regs.pc] !in {0xA9, 0xA5, 0xB5, 0xAD} ==> Step(e, s).fault.Some?
  {
  }

  /** The earlier engines' four opcodes cost 2, 3, 4 and 4 cycles and load
      A without touching the status register. */
  lemma {:induction false} LegacyCosts(e: Engine, s: State)
    requires e != Current
    requires s.mem[s.regs.pc] in {0xA9, 0xA5, 0xB5, 0xAD}
    ensures var t := Step(e, s).state;
      && t.cycles == Spend(s.cycles, if s.mem[s.regs.pc] == 0xA9 then 2 else if s.mem[s.regs.pc] == 0xA5 then 3 else 4)
      && t.regs.status == s.regs.status
      && t.regs == s.regs.(pc := t.regs.pc, a := t.regs.a)
  {
    LegacyAgreesWithCurrent(e, s);
    var op := Decode(s.mem[s.regs.pc]).value;
    StepCost(s, op);
    StatusOnlyFromPlp(s);
    LoadChangesOnlyTarget(s, op);
  }

  // ---------------------------------------------------------------------
  // Addressing details

  /** `ReadWord` does not stay in the zero page: a pointer at 0xFF takes its
      high byte from 0x0100, the bottom of the stack page. */
  lemma ZeroPagePointerAtTop(mem: Ram)
    ensures WordAt(mem, 0xFF) == mem[0xFF] as int + 0x100 * mem[0x100] as int
  {
  }

  /** Crossing a page costs nothing in the current engine: the address is
      the wrapped sum either way and the cycles do not depend on it. */
  lemma {:induction false} CrossingIsFree(r: Registers, mem: Ram, c: U32, index: Byte, variableCycles: bool)
    ensures AbsoluteIndexedAt(r, mem, c, index, variableCycles).cycles
         == Spend(AbsoluteAt(r, mem, c).cycles, if variableCycles then 0 else 1)
    ensures IndirectYAt(r, mem, c, variableCycles).cycles == Spend(c, if variableCycles then 3 else 4)
  {
    SpendSpend(c, 2, if variableCycles then 0 else 1);
  }

  /** In the earlier engines the extra cycle of absolute,X and absolute,Y is
      charged exactly when the low byte of the base plus the index carries. */
  lemma {:induction false} LegacyCrossingCharge(r: Registers, mem: Ram, c: U32, index: Byte)
    requires c >= 3
    ensures LegacyAbsoluteIndexedAt(r, mem, c, index).cycles == c - 3
        <==> LowByte(WordAt(mem, r.pc)) + index >= BYTE_RANGE
  {
    PageCrossedIffCarry(WordAt(mem, r.pc), index);
  }

  // ---------------------------------------------------------------------
  // Defects of the earlier engines

  /** `6502/src/CPU.cs` casts the (Indirect),Y sum to a byte: its address is
      the correct address modulo 0x100, and the two agree exactly when the
      correct address lies in the zero page. */
  lemma TruncatedIndirectYDiffers(r: Registers, mem: Ram, c: U32)
    ensures TruncatedIndirectYAt(r, mem, c).address == IndirectYAt(r, mem, c, true).address % 0x100
    ensures TruncatedIndirectYAt(r, mem, c).address == IndirectYAt(r, mem, c, true).address
        <==> IndirectYAt(r, mem, c, true).address < 0x100
  {
  }

  /** The case of the addressing-mode test: pointer word 0x1000 and Y = 0x20
      should give 0x1020; the truncating resolver gives 0x20. */
  lemma {:induction false} TruncatedIndirectYExample(r: Registers, mem: Ram, c: U32)
    requires WordAt(mem, mem[r.pc]) == 0x1000 && r.y == 0x20
    ensures IndirectYAt(r, mem, c, true).address == 0x1020
    ensures TruncatedIndirectYAt(r, mem, c).address == 0x20
  {
    TruncatedIndirectYDiffers(r, mem, c);
  }

  /** `6502/Program.cs` indexes zero page,Y with X: the result agrees with
      the intended zero page,Y address exactly when X equals Y. */
  lemma {:induction false} ZeroPageYWithX(r: Registers, mem: Ram, c: U32)
    ensures ZeroPageIndexedAt(r, mem, c, r.x) == ZeroPageIndexedAt(r, mem, c, r.y) <==> r.x == r.y
  {
    ZeroPageIndexedInjective(mem[r.pc], r.x, r.y);
  }

  /** The concrete case: X = 0, Y = 5, operand 0x42 gives 0x42, not 0x47. */
  lemma {:induction false} ZeroPageYWithXExample(r: Registers, mem: Ram, c: U32)
    requires r.x == 0 && r.y == 5 && mem[r.pc] == 0x42
    ensures ZeroPageIndexedAt(r, mem, c, r.x).address == 0x42
    ensures ZeroPageIndexedAt(r, mem, c, r.y).address == 0x47
  {
  }
}
