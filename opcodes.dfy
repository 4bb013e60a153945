/** The instruction set handled by the dispatcher: one tag per opcode, the
    byte encoding of each tag, and the table that says what each opcode does
    and what it costs.

    Only four byte values appear in the enumerations of the repository
    (LDA immediate 0xA9, zero page 0xA5, zero page,X 0xB5, absolute 0xAD).
    The other encodings are ASSUMED to be the standard MOS 6502 ones. */
module Opcodes {
  import opened Words
  import opened Outcomes

  datatype Opcode =
    | LdaIm | LdaZp | LdaZpX | LdaAbs | LdaAbsX | LdaAbsY | LdaIndX | LdaIndY
    | LdxIm | LdxZp | LdxZpY | LdxAbs | LdxAbsY
    | LdyIm | LdyZp | LdyZpX | LdyAbs | LdyAbsX
    | StaZp | StaZpX | StaAbs | StaAbsX | StaAbsY | StaIndX | StaIndY
    | StxZp | StxZpY | StxAbs
    | StyZp | StyZpX | StyAbs
    | Tax | Tay | Txa | Tya | Tsx | Txs
    | Pha | Php | Pla | Plp

  /** The byte value of each opcode. */
  function Encode(op: Opcode): Byte
  {
    match op
    case LdaIm => 0xA9   case LdaZp => 0xA5   case LdaZpX => 0xB5  case LdaAbs => 0xAD
    case LdaAbsX => 0xBD case LdaAbsY => 0xB9 case LdaIndX => 0xA1 case LdaIndY => 0xB1
    case LdxIm => 0xA2   case LdxZp => 0xA6   case LdxZpY => 0xB6  case LdxAbs => 0xAE
    case LdxAbsY => 0xBE
    case LdyIm => 0xA0   case LdyZp => 0xA4   case LdyZpX => 0xB4  case LdyAbs => 0xAC
    case LdyAbsX => 0xBC
    case StaZp => 0x85   case StaZpX => 0x95  case StaAbs => 0x8D  case StaAbsX => 0x9D
    case StaAbsY => 0x99 case StaIndX => 0x81 case StaIndY => 0x91
    case StxZp => 0x86   case StxZpY => 0x96  case StxAbs => 0x8E
    case StyZp => 0x84   case StyZpX => 0x94  case StyAbs => 0x8C
    case Tax => 0xAA     case Tay => 0xA8     case Txa => 0x8A     case Tya => 0x98
    case Tsx => 0xBA     case Txs => 0x9A
    case Pha => 0x48     case Php => 0x08     case Pla => 0x68     case Plp => 0x28
  }

  /** The `switch (instruction)` of the current dispatcher: the opcode a byte
      selects, or None for a byte that reaches the `default` branch. */
  function Decode(b: Byte): Option<Opcode>
  {
    match b
    case 0xA9 => Some(LdaIm)   case 0xA5 => Some(LdaZp)   case 0xB5 => Some(LdaZpX)
    case 0xAD => Some(LdaAbs)  case 0xBD => Some(LdaAbsX) case 0xB9 => Some(LdaAbsY)
    case 0xA1 => Some(LdaIndX) case 0xB1 => Some(LdaIndY)
    case 0xA2 => Some(LdxIm)   case 0xA6 => Some(LdxZp)   case 0xB6 => Some(LdxZpY)
    case 0xAE => Some(LdxAbs)  case 0xBE => Some(LdxAbsY)
    case 0xA0 => Some(LdyIm)   case 0xA4 => Some(LdyZp)   case 0xB4 => Some(LdyZpX)
    case 0xAC => Some(LdyAbs)  case 0xBC => Some(LdyAbsX)
    case 0x85 => Some(StaZp)   case 0x95 => Some(StaZpX)  case 0x8D => Some(StaAbs)
    case 0x9D => Some(StaAbsX) case 0x99 => Some(StaAbsY) case 0x81 => Some(StaIndX)
    case 0x91 => Some(StaIndY)
    case 0x86 => Some(StxZp)   case 0x96 => Some(StxZpY)  case 0x8E => Some(StxAbs)
    case 0x84 => Some(StyZp)   case 0x94 => Some(StyZpX)  case 0x8C => Some(StyAbs)
    case 0xAA => Some(Tax)     case 0xA8 => Some(Tay)     case 0x8A => Some(Txa)
    case 0x98 => Some(Tya)     case 0xBA => Some(Tsx)     case 0x9A => Some(Txs)
    case 0x48 => Some(Pha)     case 0x08 => Some(Php)     case 0x68 => Some(Pla)
    case 0x28 => Some(Plp)
    case _ => None
  }

  /** Decoding inverts encoding: every opcode is selected by its own byte. */
  lemma DecodeEncode(op: Opcode)
    ensures Decode(Encode(op)) == Some(op)
  {
  }

  /** A byte that decodes is the encoding of the opcode it decodes to. */
  lemma EncodeDecode(b: Byte)
    ensures Decode(b).Some? ==> Encode(Decode(b).value) == b
  {
    if Decode(b).Some? {
      match Decode(b).value
        case LdaIm => case LdaZp => case LdaZpX => case LdaAbs => case LdaAbsX => case LdaAbsY =>
        case LdaIndX => case LdaIndY => case LdxIm => case LdxZp => case LdxZpY => case LdxAbs =>
        case LdxAbsY => case LdyIm => case LdyZp => case LdyZpX => case LdyAbs => case LdyAbsX =>
        case StaZp => case StaZpX => case StaAbs => case StaAbsX => case StaAbsY => case StaIndX =>
        case StaIndY => case StxZp => case StxZpY => case StxAbs => case StyZp => case StyZpX =>
        case StyAbs => case Tax => case Tay => case Txa => case Tya => case Tsx =>
        case Txs => case Pha => case Php => case Pla => case Plp =>
    }
  }

  /** No two opcodes share a byte. */
  lemma {:induction false} EncodeInjective(op1: Opcode, op2: Opcode)
    ensures Encode(op1) == Encode(op2) ==> op1 == op2
  {
    DecodeEncode(op1);
    DecodeEncode(op2);
  }

  /** The four opcodes of the two earlier dispatchers (LDA immediate, zero
      page, zero page,X and absolute); every other byte is unhandled there. */
  function LegacyDecode(b: Byte): (r: Option<Opcode>)
    ensures r.Some? <==> b in {0xA9, 0xA5, 0xB5, 0xAD}
    ensures r.Some? ==> r == Decode(b)
  {
    match b
    case 0xA9 => Some(LdaIm)
    case 0xA5 => Some(LdaZp)
    case 0xB5 => Some(LdaZpX)
    case 0xAD => Some(LdaAbs)
    case _ => None
  }

  /** The registers an instruction names.  `P` is the status register. */
  datatype Register = A | X | Y | SP | P

  /** Addressing modes that resolve an effective address. */
  datatype Mode =
    | ZeroPage | ZeroPageX | ZeroPageY
    | Absolute | AbsoluteX | AbsoluteY
    | IndirectX | IndirectY

  /** What an opcode does, independent of how the dispatcher spells it out. */
  datatype Operation =
    | LoadImmediate(target: Register)
    | Load(target: Register, mode: Mode)
    | Store(source: Register, mode: Mode)
    | Transfer(source: Register, target: Register)
    | Push(source: Register)
    | Pull(target: Register)

  /** The opcode table: mnemonic and addressing mode of every opcode. */
  function OperationOf(op: Opcode): Operation
  {
    match op
    case LdaIm => LoadImmediate(A)
    case LdaZp => Load(A, ZeroPage)     case LdaZpX => Load(A, ZeroPageX)
    case LdaAbs => Load(A, Absolute)    case LdaAbsX => Load(A, AbsoluteX)
    case LdaAbsY => Load(A, AbsoluteY)  case LdaIndX => Load(A, IndirectX)
    case LdaIndY => Load(A, IndirectY)
    case LdxIm => LoadImmediate(X)
    case LdxZp => Load(X, ZeroPage)     case LdxZpY => Load(X, ZeroPageY)
    case LdxAbs => Load(X, Absolute)    case LdxAbsY => Load(X, AbsoluteY)
    case LdyIm => LoadImmediate(Y)
    case LdyZp => Load(Y, ZeroPage)     case LdyZpX => Load(Y, ZeroPageX)
    case LdyAbs => Load(Y, Absolute)    case LdyAbsX => Load(Y, AbsoluteX)
    case StaZp => Store(A, ZeroPage)    case StaZpX => Store(A, ZeroPageX)
    case StaAbs => Store(A, Absolute)   case StaAbsX => Store(A, AbsoluteX)
    case StaAbsY => Store(A, AbsoluteY) case StaIndX => Store(A, IndirectX)
    case StaIndY => Store(A, IndirectY)
    case StxZp => Store(X, ZeroPage)    case StxZpY => Store(X, ZeroPageY)
    case StxAbs => Store(X, Absolute)
    case StyZp => Store(Y, ZeroPage)    case StyZpX => Store(Y, ZeroPageX)
    case StyAbs => Store(Y, Absolute)
    case Tax => Transfer(A, X)  case Tay => Transfer(A, Y)  case Txa => Transfer(X, A)
    case Tya => Transfer(Y, A)  case Tsx => Transfer(SP, X) case Txs => Transfer(X, SP)
    case Pha => Push(A)  case Php => Push(P)  case Pla => Pull(A)  case Plp => Pull(P)
  }

  /** Bytes of operand that follow each opcode in memory. */
  function OperandBytes(op: Opcode): (n: nat)
    ensures n <= 2
  {
    OperandLength(OperationOf(op))
  }

  /** Bytes of operand an operation reads after its opcode. */
  function OperandLength(o: Operation): (n: nat)
    ensures n <= 2
  {
    match o
    case LoadImmediate(_) => 1
    case Load(_, mode) => ModeOperandBytes(mode)
    case Store(_, mode) => ModeOperandBytes(mode)
    case _ => 0
  }

  function ModeOperandBytes(mode: Mode): (n: nat)
    ensures 1 <= n <= 2
  {
    match mode
    case Absolute | AbsoluteX | AbsoluteY => 2
    case _ => 1
  }

  /** Clock cycles each opcode consumes in the current engine, opcode fetch
      included.  Indexed loads are listed at their base cost: the engine
      charges nothing extra when a page is crossed. */
  function Cycles(op: Opcode): (n: nat)
    ensures 2 <= n <= 6
  {
    match op
    case LdaIm | LdxIm | LdyIm => 2
    case LdaZp | LdxZp | LdyZp => 3
    case LdaZpX | LdxZpY | LdyZpX => 4
    case LdaAbs | LdxAbs | LdyAbs => 4
    case LdaAbsX | LdaAbsY | LdxAbsY | LdyAbsX => 4
    case LdaIndX => 6
    case LdaIndY => 5
    case StaZp | StxZp | StyZp => 3
    case StaZpX | StxZpY | StyZpX => 4
    case StaAbs | StxAbs | StyAbs => 4
    case StaAbsX | StaAbsY => 5
    case StaIndX | StaIndY => 6
    case Tax | Tay | Txa | Tya | Tsx | Txs => 2
    case Pha | Php => 3
    case Pla | Plp => 4
  }
}
