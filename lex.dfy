/** The variable-length assembler: an instruction is an operator token and up
    to three operand tokens, encoded as the opcode byte followed by one byte
    per register and two bytes (high, low) per integer. */
module Lex {
  import opened Ints
  import opened Results
  import opened Instructions
  import opened Tokens
  import Parser
  import Vm

  const OPERATOR_IN_OPERAND := "syntax error: operator in operand position"
  const OPERAND_IN_OPERATOR := "syntax error: opedand in operator position"
  const UNIMPLEMENTED := "unimplemented"

  /** The three operand slots of an instruction. */
  type Operands = s: seq<Option<Token>> | |s| == 3 witness [None, None, None]

  datatype Instruction = Instruction(operator: Token, operands: Operands)

  datatype Program = Program(instructions: seq<Instruction>)

  /** `Operands::from_iter` on the items an iterator yields: the first three
      fill the slots, and a slot with no item left is `None`. */
  function FromIter(items: seq<Option<Token>>): (o: Operands)
    ensures |items| >= 3 ==> o == items[..3]
    ensures |items| < 3 ==> o == items + seq(3 - |items|, _ => None)
  {
    seq(3, i requires 0 <= i < 3 => if i < |items| then items[i] else None)
  }

  // ---------------------------------------------------------------------------
  // Encoding, as functions.

  /** The bytes `parse_operand` appends for one token. */
  function OperandBytes(t: Token): Result<seq<byte>, string> {
    match t
    case Register(address) => Ok([address])
    case Integer(value) =>
      var (hi, lo) := Parser.ParseInteger(value);
      Ok([hi, lo])
    case _ => Err(OPERATOR_IN_OPERAND)
  }

  /** The bytes of a run of slots, left to right; the first bad slot's error wins. */
  function EncodeOperands(slots: seq<Option<Token>>): Result<seq<byte>, string> {
    if slots == [] then Ok([])
    else
      var init :- EncodeOperands(slots[..|slots| - 1]);
      var last := slots[|slots| - 1];
      if last.None? then Ok(init)
      else
        var bytes :- OperandBytes(last.value);
        Ok(init + bytes)
  }

  /** `to_bytes`. */
  function Encode(ins: Instruction): Result<seq<byte>, string> {
    if ins.operator.Operator? then
      var operands :- EncodeOperands(ins.operands);
      Ok([ToByte(ins.operator.op)] + operands)
    else Err(OPERAND_IN_OPERATOR)
  }

  /** A slot that `to_bytes` accepts: empty, a register or an integer. */
  predicate Encodable(slot: Option<Token>) {
    slot.None? || slot.value.Register? || slot.value.Integer?
  }

  function RegisterCount(slots: seq<Option<Token>>): nat {
    if slots == [] then 0
    else RegisterCount(slots[..|slots| - 1])
         + (var last := slots[|slots| - 1]; if last.Some? && last.value.Register? then 1 else 0)
  }

  function IntegerCount(slots: seq<Option<Token>>): nat {
    if slots == [] then 0
    else IntegerCount(slots[..|slots| - 1])
         + (var last := slots[|slots| - 1]; if last.Some? && last.value.Integer? then 1 else 0)
  }

  // ---------------------------------------------------------------------------
  // Properties of the encoding.

  /** The slots encode exactly when every slot is encodable; otherwise the
      error is the operator-in-operand one. */
  lemma {:induction false} EncodeOperandsOk(slots: seq<Option<Token>>)
    ensures EncodeOperands(slots).Ok? <==> forall i :: 0 <= i < |slots| ==> Encodable(slots[i])
    ensures EncodeOperands(slots).Err? ==> EncodeOperands(slots).error == OPERATOR_IN_OPERAND
  {
    if slots != [] {
      var init := slots[..|slots| - 1];
      EncodeOperandsOk(init);
      assert forall i :: 0 <= i < |init| ==> init[i] == slots[i];
    }
  }

  /** Each register takes one byte and each integer two; nothing is padded. */
  lemma {:induction false} EncodeOperandsLength(slots: seq<Option<Token>>)
    requires EncodeOperands(slots).Ok?
    ensures |EncodeOperands(slots).value| == RegisterCount(slots) + 2 * IntegerCount(slots)
  {
    if slots != [] {
      EncodeOperandsLength(slots[..|slots| - 1]);
    }
  }

  /** `to_bytes` succeeds exactly when the operator slot holds an operator and
      every operand slot is empty, a register or an integer. The result starts
      with the opcode byte and is `1 + registers + 2 * integers` long. */
  lemma EncodeOutcome(ins: Instruction)
    ensures Encode(ins).Ok? <==>
      ins.operator.Operator? && forall i :: 0 <= i < 3 ==> Encodable(ins.operands[i])
    ensures !ins.operator.Operator? ==> Encode(ins) == Err(OPERAND_IN_OPERATOR)
    ensures ins.operator.Operator? && Encode(ins).Err? ==> Encode(ins).error == OPERATOR_IN_OPERAND
    ensures Encode(ins).Ok? ==>
      && Encode(ins).value[0] == ToByte(ins.operator.op)
      && |Encode(ins).value| == 1 + RegisterCount(ins.operands) + 2 * IntegerCount(ins.operands)
  {
    EncodeOperandsOk(ins.operands);
    if Encode(ins).Ok? {
      EncodeOperandsLength(ins.operands);
    }
  }

  /** An instruction with operator LOAD and operands `Register(r)`,
      `Integer(v)` encodes to the four bytes the virtual machine's LOAD reads,
      and running them loads `v` modulo 2^16 into register `r`. */
  lemma EncodeLoadRuns(r: byte, v: i32)
    requires r < Vm.REGISTER_COUNT
    ensures var e := Encode(Instruction.Instruction(Operator(LOAD), [Some(Register(r)), Some(Integer(v)), None]));
      var (hi, lo) := Parser.ParseInteger(v);
      && e.Ok? && e.value == [1, r, hi, lo]
      && Vm.Step(Vm.Loaded(e.value)).signal == Vm.Continue
      && Vm.Step(Vm.Loaded(e.value)).next.registers[r] == v % 0x1_0000
  {
    var ops: Operands := [Some(Register(r)), Some(Integer(v)), None];
    var (hi, lo) := Parser.ParseInteger(v);
    var one, two := ops[..2][..1], ops[..2];
    assert one[..0] == [] && two[..1] == one && ops[..2] == two;
    assert EncodeOperands(one).Ok? && EncodeOperands(one).value == [r];
    assert EncodeOperands(two).Ok? && EncodeOperands(two).value == [r, hi, lo];
    Parser.LoadRoundTrip(r, v);
  }

  /** Three register operands give the same `[op, left, right, destination]`
      layout as the fixed-width assembler. */
  lemma EncodeThreeRegisters(op: Opcode, a: byte, b: byte, d: byte)
    ensures var e := Encode(Instruction.Instruction(Operator(op), [Some(Register(a)), Some(Register(b)), Some(Register(d))]));
      e.Ok? && e.value == [ToByte(op), a, b, d]
  {
    var ops: Operands := [Some(Register(a)), Some(Register(b)), Some(Register(d))];
    var one, two := ops[..2][..1], ops[..2];
    assert one[..0] == [] && two[..1] == one && ops[..2] == two;
    assert EncodeOperands(one).Ok? && EncodeOperands(one).value == [a];
    assert EncodeOperands(two).Ok? && EncodeOperands(two).value == [a, b];
  }

  // ---------------------------------------------------------------------------
  // Reading an instruction from the lexer.

  /** `read_instruction` from lexer position `pos`: a leading LOAD, then the
      next token as the operator and the three tokens after it as operands;
      any other start panics, which is represented by `Err`. */
  function ReadInstructionAt(input: string, pos: nat): Parser.Parsed<Instruction> {
    var l := Scan(input, pos);
    if l.token != Operator(LOAD) then Parser.Parsed(Err(UNIMPLEMENTED), l.pos)
    else
      var o := Scan(input, l.pos);
      var a := Scan(input, o.pos);
      var b := Scan(input, a.pos);
      var c := Scan(input, b.pos);
      Parser.Parsed(Ok(Instruction.Instruction(o.token, FromIter([Item(a.token), Item(b.token), Item(c.token)]))), c.pos)
  }

  /** What `read_instruction` can produce: since the lexer is stuck after the
      mnemonic, the operator and all three operands are `Operator(ILGL)`, the
      position stays on the last letter of "load", and `to_bytes` rejects it. */
  lemma ReadInstructionOutcome(input: string, pos: nat)
    ensures var p := ReadInstructionAt(input, pos);
      var l := Scan(input, pos);
      && (p.result.Ok? <==> l.token == Operator(LOAD))
      && (p.result.Err? ==> p.result.error == UNIMPLEMENTED)
      && (p.result.Ok? ==>
            && p.result.value.operator == Operator(ILGL)
            && p.result.value.operands == [Some(Operator(ILGL)), Some(Operator(ILGL)), Some(Operator(ILGL))]
            && p.pos == l.pos
            && Encode(p.result.value) == Err(OPERATOR_IN_OPERAND))
  {
    var l := Scan(input, pos);
    if l.token == Operator(LOAD) {
      OperatorThenStuck(input, pos);
      var ins := ReadInstructionAt(input, pos).result.value;
      EncodeOutcome(ins);
      assert !Encodable(ins.operands[0]);
    }
  }

  // ---------------------------------------------------------------------------
  // The imperative encoder.

  /** A growable byte buffer (`Vec<u8>`). */
  class ByteVec {
    var elems: seq<byte>

    constructor (init: seq<byte>)
      ensures elems == init
    {
      elems := init;
    }

    method Push(b: byte)
      modifies this
      ensures elems == old(elems) + [b]
    {
      elems := elems + [b];
    }
  }

  /** `parse_operand`: push the token's bytes, or fail and push nothing. */
  method ParseOperand(t: Token, operands: ByteVec) returns (r: Result<(), string>)
    modifies operands
    ensures match OperandBytes(t)
      case Ok(bytes) => r.Ok? && operands.elems == old(operands.elems) + bytes
      case Err(e) => r == Err(e) && operands.elems == old(operands.elems)
  {
    match t {
      case Register(address) =>
        operands.Push(address);
      case Integer(value) =>
        var (left, right) := Parser.ParseInteger(value);
        operands.Push(left);
        operands.Push(right);
      case _ =>
        return Err(OPERATOR_IN_OPERAND);
    }
    r := Ok(());
  }

  /** `to_bytes`: the opcode byte, then each occupied slot's bytes in order. */
  method ToBytes(ins: Instruction) returns (r: Result<seq<byte>, string>)
    ensures r == Encode(ins)
  {
    if ins.operator.Operator? {
      var bytes := new ByteVec([ToByte(ins.operator.op)]);
      var ops := ins.operands;
      for i := 0 to 3
        invariant EncodeOperands(ops[..i]).Ok?
        invariant bytes.elems == [ToByte(ins.operator.op)] + EncodeOperands(ops[..i]).value
      {
        assert ops[..i + 1][..i] == ops[..i];
        if ops[i].Some? {
          var pushed := ParseOperand(ops[i].value, bytes);
          if pushed.Err? {
            assert EncodeOperands(ops[..i + 1]) == Err(pushed.error);
            EncodeOperandsPrefix(ops, i + 1);
            return Err(pushed.error);
          }
        }
      }
      assert ops[..3] == ops;
      r := Ok(bytes.elems);
    } else {
      r := Err(OPERAND_IN_OPERATOR);
    }
  }

  /** Once a prefix of the slots fails, the whole run fails with the same error. */
  lemma {:induction false} EncodeOperandsPrefix(slots: seq<Option<Token>>, n: nat)
    requires n <= |slots| && EncodeOperands(slots[..n]).Err?
    ensures EncodeOperands(slots) == EncodeOperands(slots[..n])
    decreases |slots| - n
  {
    if n < |slots| {
      var next := slots[..n + 1];
      assert next[..n] == slots[..n];
      assert EncodeOperands(next) == EncodeOperands(slots[..n]);
      EncodeOperandsPrefix(slots, n + 1);
    } else {
      assert slots[..n] == slots;
    }
  }

  /** `read_instruction` on a lexer. */
  method ReadInstruction(lexer: Lexer) returns (r: Result<Instruction, string>)
    requires lexer.Valid()
    modifies lexer
    ensures lexer.Valid()
    ensures Parser.Parsed(r, lexer.pos) == ReadInstructionAt(lexer.input, old(lexer.pos))
  {
    var token := lexer.NextToken();
    if token == Operator(LOAD) {
      var operator := lexer.NextToken();
      var a := lexer.Next();
      var b := lexer.Next();
      var c := lexer.Next();
      r := Ok(Instruction.Instruction(operator, FromIter([a, b, c])));
    } else {
      r := Err(UNIMPLEMENTED);
    }
  }
}
