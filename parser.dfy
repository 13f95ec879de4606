/** The token-driven assembler: turns the lexer's tokens into 4-byte
    instruction words for LOAD, ADD and SUB.

    As with the lexer, a pure function of the lexer position (`…At`) gives the
    meaning of each parsing step, returning the result and the position the
    lexer is left at, and the `Parser` class is proved to follow it. The
    lexer's behaviour (it stays on the last character of each token, and reads
    every literal as 0) decides what the parser can produce; the lemmas at the
    end work that out. */
module Parser {
  import opened Ints
  import opened Results
  import opened Instructions
  import opened Tokens
  import Vm

  const INTEGER_FOR_REGISTER := "syntax error: expected register, found integer"
  const OPERATOR_FOR_REGISTER := "syntax error: expected register, found operator"
  const REGISTER_FOR_INTEGER := "syntax error: expected integer, found register"
  const OPERATOR_FOR_INTEGER := "syntax error: expected integer, found operator"
  const EOF_ERROR := "EOF"

  type Word = Vm.Word

  /** `parse_integer`: the high and low byte of the value truncated to 16 bits. */
  function ParseInteger(i: i32): (r: (byte, byte))
    ensures Vm.Join16(r.0, r.1) == i % 0x1_0000
    ensures 0 <= i < 0x1_0000 ==> Vm.Join16(r.0, r.1) == i
  {
    var right := I32AsU16(i);
    (right / 256, right % 256)
  }

  /** What a parsing step produced and where it left the lexer. */
  datatype Parsed<T> = Parsed(result: Result<T, string>, pos: nat)

  /** `register`: the next token must be a register. */
  function RegisterOperandAt(input: string, pos: nat): Parsed<byte> {
    var l := Scan(input, pos);
    match l.token
    case Register(address) => Parsed(Ok(address), l.pos)
    case Integer(_) => Parsed(Err(INTEGER_FOR_REGISTER), l.pos)
    case Operator(_) => Parsed(Err(OPERATOR_FOR_REGISTER), l.pos)
    case EOF => Parsed(Err(EOF_ERROR), l.pos)
  }

  /** `integer`: the next token must be an integer, split into two bytes. */
  function IntegerOperandAt(input: string, pos: nat): Parsed<(byte, byte)> {
    var l := Scan(input, pos);
    match l.token
    case Integer(value) => Parsed(Ok(ParseInteger(value)), l.pos)
    case Register(_) => Parsed(Err(REGISTER_FOR_INTEGER), l.pos)
    case Operator(_) => Parsed(Err(OPERATOR_FOR_INTEGER), l.pos)
    case EOF => Parsed(Err(EOF_ERROR), l.pos)
  }

  /** `integer_op`: `[op, register, high byte, low byte]`; the first error wins. */
  function IntegerOpAt(input: string, pos: nat, op: Opcode): Parsed<Word> {
    var r := RegisterOperandAt(input, pos);
    if r.result.Err? then Parsed(Err(r.result.error), r.pos)
    else
      var n := IntegerOperandAt(input, r.pos);
      if n.result.Err? then Parsed(Err(n.result.error), n.pos)
      else Parsed(Ok([ToByte(op), r.result.value, n.result.value.0, n.result.value.1]), n.pos)
  }

  /** `nullary_op`: the opcode followed by three zero bytes; reads no token. */
  function NullaryOp(op: Opcode): (r: Result<Word, string>)
    ensures r.Ok? && FromByte(r.value[0]) == op && r.value[1..] == [0, 0, 0]
  {
    FromByteToByte(op);
    var w: Word := [ToByte(op), 0, 0, 0];
    Ok(w)
  }

  /** `binary_op`: `[op, left, right, destination]`, three registers in a row. */
  function BinaryOpAt(input: string, pos: nat, op: Opcode): Parsed<Word> {
    var a := RegisterOperandAt(input, pos);
    if a.result.Err? then Parsed(Err(a.result.error), a.pos)
    else
      var b := RegisterOperandAt(input, a.pos);
      if b.result.Err? then Parsed(Err(b.result.error), b.pos)
      else
        var d := RegisterOperandAt(input, b.pos);
        if d.result.Err? then Parsed(Err(d.result.error), d.pos)
        else Parsed(Ok([ToByte(op), a.result.value, b.result.value, d.result.value]), d.pos)
  }

  /** `next_instruction`: dispatch on the operator; anything but LOAD, ADD and
      SUB is reported as "EOF". */
  function NextInstructionAt(input: string, pos: nat): Parsed<Word> {
    var l := Scan(input, pos);
    if l.token == Operator(LOAD) then IntegerOpAt(input, l.pos, LOAD)
    else if l.token == Operator(ADD) then BinaryOpAt(input, l.pos, ADD)
    else if l.token == Operator(SUB) then BinaryOpAt(input, l.pos, SUB)
    else Parsed(Err(EOF_ERROR), l.pos)
  }

  // ---------------------------------------------------------------------------
  // Properties.

  /** The two bytes of `parse_integer`, placed after LOAD and a register, make
      the virtual machine load the value modulo 2^16: every value in 0..65535
      comes back unchanged. */
  lemma LoadRoundTrip(r: byte, v: i32)
    requires r < Vm.REGISTER_COUNT
    ensures var (hi, lo) := ParseInteger(v);
      var s := Vm.Loaded([ToByte(LOAD), r, hi, lo]);
      var t := Vm.Step(s);
      && t.signal == Vm.Continue
      && t.next.registers[r] == v % 0x1_0000
      && (0 <= v < 0x1_0000 ==> t.next.registers[r] == v)
      && t.next.pc == 4
  {
    var (hi, lo) := ParseInteger(v);
    var s := Vm.Loaded([ToByte(LOAD), r, hi, lo]);
    Vm.StepLoad(s);
  }

  /** The parser never produces a LOAD: after reading the register, the lexer
      answers `Register(0)` or `Operator(ILGL)` where an integer is expected. */
  lemma IntegerOpNeverSucceeds(input: string, pos: nat, op: Opcode)
    ensures var p := IntegerOpAt(input, pos, op);
      && p.result.Err?
      && (Scan(input, pos).token.Register? ==>
            p.result.error in {REGISTER_FOR_INTEGER, OPERATOR_FOR_INTEGER})
  {
    SecondTokenRepeats(input, pos);
  }

  /** A binary instruction is accepted exactly when the first two tokens are
      registers, and then every operand is register 0 and the lexer has not
      moved past the second token. */
  lemma BinaryOpOutcome(input: string, pos: nat, op: Opcode)
    ensures var p := BinaryOpAt(input, pos, op);
      var l1 := Scan(input, pos);
      && (p.result.Ok? <==> l1.token.Register? && Scan(input, l1.pos).token.Register?)
      && (p.result.Ok? ==> p.result.value == [ToByte(op), 0, 0, 0] && p.pos == l1.pos)
  {
    var l1 := Scan(input, pos);
    SecondTokenRepeats(input, pos);
    LiteralsReadAsZero(input, pos);
    LiteralsReadAsZero(input, l1.pos);
  }

  /** `next_instruction` never succeeds: after LOAD, ADD or SUB the lexer
      reads the mnemonic's last letter again as an operator where a register
      is expected; every other start is reported as "EOF". */
  lemma NextInstructionNeverSucceeds(input: string, pos: nat)
    ensures var p := NextInstructionAt(input, pos);
      var t := Scan(input, pos).token;
      && p.result.Err?
      && (t in {Operator(LOAD), Operator(ADD), Operator(SUB)} ==>
            p.result.error == OPERATOR_FOR_REGISTER)
      && (t !in {Operator(LOAD), Operator(ADD), Operator(SUB)} ==>
            p.result.error == EOF_ERROR)
  {
    var t := Scan(input, pos).token;
    if t.Operator? {
      OperatorThenStuck(input, pos);
    }
  }

  /** A single `$` is read three times over and makes a complete ADD whose
      operands are all register 0. */
  lemma BinaryOpOnSigil()
    ensures var p := BinaryOpAt("$ ", 0, ADD);
      p.result.Ok? && p.result.value == [2, 0, 0, 0] && p.pos == 0
  {
    var input := "$ ";
    assert WhitespaceEnd(input, 0) == 0;
    assert RunEnd(input, 0, IsDigit) == 0;
    assert input[0..1] == "$";
    assert Scan(input, 0) == Lexed(Register(0), 0);
  }

  /** "load $1 #500" is rejected: the second token is the 'd' of "load". */
  lemma LoadTextRejected()
    ensures NextInstructionAt("load $1 #500", 0) == Parsed(Err(OPERATOR_FOR_REGISTER), 3)
  {
    var input := "load $1 #500";
    assert WhitespaceEnd(input, 0) == 0;
    assert RunEnd(input, 0, IsLetter) == 3 by {
      assert RunEnd(input, 3, IsLetter) == 3;
      assert RunEnd(input, 2, IsLetter) == 3;
      assert RunEnd(input, 1, IsLetter) == 3;
    }
    assert input[0..4] == "load";
    assert Scan(input, 0) == Lexed(Operator(LOAD), 3);
    OperatorThenStuck(input, 0);
  }

  // ---------------------------------------------------------------------------
  // The parser object.

  class Parser {
    const lexer: Lexer

    ghost predicate Valid()
      reads this, lexer
    {
      lexer.Valid()
    }

    /** `Parser::new`. */
    constructor (input: string)
      ensures Valid() && fresh(lexer) && lexer.input == input && lexer.pos == 0
    {
      lexer := new Lexer(input);
    }

    /** `register`. */
    method RegisterOperand() returns (r: Result<byte, string>)
      requires Valid()
      modifies lexer
      ensures Valid() && Parsed(r, lexer.pos) == RegisterOperandAt(lexer.input, old(lexer.pos))
    {
      var tok := lexer.NextToken();
      match tok
      case Register(address) => r := Ok(address);
      case Integer(_) => r := Err(INTEGER_FOR_REGISTER);
      case Operator(_) => r := Err(OPERATOR_FOR_REGISTER);
      case EOF => r := Err(EOF_ERROR);
    }

    /** `integer`. */
    method IntegerOperand() returns (r: Result<(byte, byte), string>)
      requires Valid()
      modifies lexer
      ensures Valid() && Parsed(r, lexer.pos) == IntegerOperandAt(lexer.input, old(lexer.pos))
    {
      var tok := lexer.NextToken();
      match tok
      case Integer(value) => r := Ok(ParseInteger(value));
      case Register(_) => r := Err(REGISTER_FOR_INTEGER);
      case Operator(_) => r := Err(OPERATOR_FOR_INTEGER);
      case EOF => r := Err(EOF_ERROR);
    }

    /** `integer_op`. */
    method IntegerOp(op: Opcode) returns (r: Result<Word, string>)
      requires Valid()
      modifies lexer
      ensures Valid() && Parsed(r, lexer.pos) == IntegerOpAt(lexer.input, old(lexer.pos), op)
    {
      var address :- RegisterOperand();
      var bytes :- IntegerOperand();
      r := Ok([ToByte(op), address, bytes.0, bytes.1]);
    }

    /** `binary_op`. */
    method BinaryOp(op: Opcode) returns (r: Result<Word, string>)
      requires Valid()
      modifies lexer
      ensures Valid() && Parsed(r, lexer.pos) == BinaryOpAt(lexer.input, old(lexer.pos), op)
    {
      var left :- RegisterOperand();
      var right :- RegisterOperand();
      var output :- RegisterOperand();
      r := Ok([ToByte(op), left, right, output]);
    }

    /** `next_instruction`. */
    method NextInstruction() returns (r: Result<Word, string>)
      requires Valid()
      modifies lexer
      ensures Valid() && Parsed(r, lexer.pos) == NextInstructionAt(lexer.input, old(lexer.pos))
      ensures r.Err?
    {
      ghost var start := lexer.pos;
      NextInstructionNeverSucceeds(lexer.input, start);
      var tok := lexer.NextToken();
      if tok == Operator(LOAD) {
        r := IntegerOp(LOAD);
      } else if tok == Operator(ADD) {
        r := BinaryOp(ADD);
      } else if tok == Operator(SUB) {
        r := BinaryOp(SUB);
      } else {
        r := Err(EOF_ERROR);
      }
    }

    /** `Iterator::next`: a word, or a panic carrying the error message, which
        is represented here by `Err`. Every call panics. */
    method Next() returns (item: Result<Word, string>)
      requires Valid()
      modifies lexer
      ensures Valid() && Parsed(item, lexer.pos) == NextInstructionAt(lexer.input, old(lexer.pos))
      ensures item.Err?
    {
      item := NextInstruction();
    }
  }
}
