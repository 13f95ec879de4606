/** The opcode table: the `Opcode` enum with its `#[repr(u8)]` discriminants,
    the total decoding of a byte into an opcode, and the `Instruction` record. */
module Instructions {
  import opened Ints

  /** The opcodes in declaration order; the discriminant of each is its index. */
  datatype Opcode =
    | HLT | LOAD | ADD | SUB | MUL | DIV | JMP | JMPF | JMPB
    | EQ | NEQ | GT | LT | GTEQ | LTEQ | JEQ | ALLOC | ILGL

  /** Every variant, in declaration order. */
  const DECLARATION_ORDER: seq<Opcode> :=
    [HLT, LOAD, ADD, SUB, MUL, DIV, JMP, JMPF, JMPB,
     EQ, NEQ, GT, LT, GTEQ, LTEQ, JEQ, ALLOC, ILGL]

  /** `op as u8`: the discriminant the enum declaration assigns. */
  function ToByte(op: Opcode): (b: byte)
    ensures b < |DECLARATION_ORDER| && DECLARATION_ORDER[b] == op
  {
    match op
    case HLT => 0
    case LOAD => 1
    case ADD => 2
    case SUB => 3
    case MUL => 4
    case DIV => 5
    case JMP => 6
    case JMPF => 7
    case JMPB => 8
    case EQ => 9
    case NEQ => 10
    case GT => 11
    case LT => 12
    case GTEQ => 13
    case LTEQ => 14
    case JEQ => 15
    case ALLOC => 16
    case ILGL => 17
  }

  /** `Opcode::from(u8)`: total, every byte outside 0..16 decodes to ILGL. */
  function FromByte(b: byte): (op: Opcode)
    ensures b < 17 ==> op == DECLARATION_ORDER[b]
    ensures b >= 17 ==> op == ILGL
  {
    if b == 0 then HLT
    else if b == 1 then LOAD
    else if b == 2 then ADD
    else if b == 3 then SUB
    else if b == 4 then MUL
    else if b == 5 then DIV
    else if b == 6 then JMP
    else if b == 7 then JMPF
    else if b == 8 then JMPB
    else if b == 9 then EQ
    else if b == 10 then NEQ
    else if b == 11 then GT
    else if b == 12 then LT
    else if b == 13 then GTEQ
    else if b == 14 then LTEQ
    else if b == 15 then JEQ
    else if b == 16 then ALLOC
    else ILGL
  }

  /** Decoding undoes the discriminant cast for every variant, ILGL (17) included. */
  lemma FromByteToByte(op: Opcode)
    ensures FromByte(ToByte(op)) == op
  {
  }

  /** The discriminant cast is injective and its values are exactly 0..17. */
  lemma ToByteInjective(a: Opcode, b: Opcode)
    ensures ToByte(a) == ToByte(b) ==> a == b
    ensures ToByte(a) <= 17
  {
    FromByteToByte(a);
    FromByteToByte(b);
  }

  /** Every byte 0..17 is the discriminant of some variant, and decoding then
      re-encoding is the identity on 0..17 while every larger byte becomes 17. */
  lemma ToByteFromByte(b: byte)
    ensures b <= 17 ==> ToByte(FromByte(b)) == b
    ensures b > 17 ==> ToByte(FromByte(b)) == 17
  {
  }

  /** `Instruction { opcode }`; `Instruction::new(op)` is this constructor,
      so `Instruction::new(op).opcode == op` holds by construction. */
  datatype Instruction = Instruction(opcode: Opcode)
}
