/** The VM execution engine: 32 i32 registers, a byte-offset program counter,
    an equality flag, a u32 remainder, the index of the last written register,
    a heap and the program bytes.

    The first half of the module gives the meaning of one step as a function on
    a `State` value (`Step`), one function per opcode handler. The second half
    is the `VM` class, whose methods update the fields in place the way the
    handlers do, each proved to agree with the function that specifies it.

    A Rust panic (an index out of bounds, an arithmetic overflow, a division by
    zero, a heap resize past the address space) is an explicit `Fault`; the
    model then says which fault, and nothing about the fields left behind. */
module Vm {
  import opened Ints
  import opened Results
  import opened Instructions

  const REGISTER_COUNT: nat := 32

  datatype Fault =
    | ProgramOverrun       // `program[pc]` past the end of the program
    | RegisterOutOfRange   // `registers[i]` with i >= 32
    | ArithmeticOverflow   // i32 add/sub/mul/div overflow, usize overflow of `pc`
    | DivideByZero
    | CapacityOverflow     // `heap.resize` to a negative i32 cast to usize

  /** What `execute_instruction` reports: true, false, or a panic. */
  datatype Signal = Continue | Stop | Panic(fault: Fault)

  datatype State = State(
    registers: seq<i32>,
    remainder: u32,
    eqFlag: bool,
    stdout: nat,
    heap: seq<byte>,
    pc: nat,
    program: seq<byte>)

  predicate WellFormed(s: State) {
    |s.registers| == REGISTER_COUNT
  }

  datatype Transition = Transition(next: State, signal: Signal)

  /** A VM as `VM::new` builds it, with `program` already filled in; the
      register file is the literal `[0; 32]`. */
  function Loaded(program: seq<byte>): (s: State)
    ensures WellFormed(s)
  {
    var zeros := [0, 0, 0, 0, 0, 0, 0, 0, 0, 0, 0, 0, 0, 0, 0, 0,
                  0, 0, 0, 0, 0, 0, 0, 0, 0, 0, 0, 0, 0, 0, 0, 0];
    State(zeros, 0, false, 0, [], 0, program)
  }

  /** `Loaded` is the state `VM::new` builds, every register 0, with only the
      program filled in. */
  lemma LoadedIsNew(program: seq<byte>)
    ensures Loaded(program) == State(seq(REGISTER_COUNT, _ => 0), 0, false, 0, [], 0, program)
  {
    assert Loaded(program).registers == seq(REGISTER_COUNT, _ => 0);
  }

  // ---------------------------------------------------------------------------
  // Operand decoding. In every handler `s.pc` is the offset just after the
  // opcode byte.

  /** `(hi as u16) << 8 | lo as u16`, the big-endian join of `next_16_bits`;
      the two bytes occupy disjoint bits, so the OR is a sum. */
  function Join16(hi: byte, lo: byte): u16 {
    hi * 256 + lo
  }

  /** The register named by the operand byte at `pc + k`: reading the byte can
      run past the program, indexing the register file can fail. */
  function RegisterAt(s: State, k: nat): (r: Result<nat, Fault>)
    ensures r.Ok? <==> s.pc + k < |s.program| && s.program[s.pc + k] < REGISTER_COUNT
    ensures r.Ok? ==> r.value == s.program[s.pc + k]
    ensures r.Err? && s.pc + k >= |s.program| ==> r.error == ProgramOverrun
    ensures r.Err? && s.pc + k < |s.program| ==> r.error == RegisterOutOfRange
  {
    if s.pc + k >= |s.program| then Err(ProgramOverrun)
    else if s.program[s.pc + k] >= REGISTER_COUNT then Err(RegisterOutOfRange)
    else Ok(s.program[s.pc + k])
  }

  /** `read`: the value of the register named at `pc + k`. */
  function Operand(s: State, k: nat): Result<i32, Fault>
    requires WellFormed(s)
  {
    var i :- RegisterAt(s, k);
    Ok(s.registers[i])
  }

  /** `read_two`: the values of the registers named at `pc` and `pc + 1`. */
  function OperandPair(s: State): Result<(i32, i32), Fault>
    requires WellFormed(s)
  {
    var x :- Operand(s, 0);
    var y :- Operand(s, 1);
    Ok((x, y))
  }

  // ---------------------------------------------------------------------------
  // One function per opcode handler.

  /** `load`: register byte, then a 16-bit big-endian immediate, zero-extended. */
  function LoadOp(s: State): Result<State, Fault>
    requires WellFormed(s)
  {
    if s.pc + 3 > |s.program| then Err(ProgramOverrun)
    else
      var r := s.program[s.pc];
      if r >= REGISTER_COUNT then Err(RegisterOutOfRange)
      else
        var n := Join16(s.program[s.pc + 1], s.program[s.pc + 2]);
        Ok(s.(registers := s.registers[r := n], stdout := r, pc := s.pc + 3))
  }

  datatype ArithKind = Plus | Minus | Times

  /** i32 `+`, `-`, `*` in a debug build: overflow panics. */
  function Compute(kind: ArithKind, x: i32, y: i32): (r: Result<i32, Fault>)
    ensures r.Err? ==> r.error == ArithmeticOverflow
  {
    var v := match kind
      case Plus => x + y
      case Minus => x - y
      case Times => x * y;
    if InI32(v) then Ok(v) else Err(ArithmeticOverflow)
  }

  /** `add`, `sub`, `mul`: read two registers, then `write` the result. */
  function ArithOp(s: State, kind: ArithKind): Result<State, Fault>
    requires WellFormed(s)
  {
    var (x, y) :- OperandPair(s);
    var v :- Compute(kind, x, y);
    var d :- RegisterAt(s, 2);
    Ok(s.(registers := s.registers[d := v], stdout := d, pc := s.pc + 3))
  }

  /** `div`: the truncated quotient goes to the destination register, then
      `(x % y) as u32` to the remainder. */
  function DivOp(s: State): Result<State, Fault>
    requires WellFormed(s)
  {
    var (x, y) :- OperandPair(s);
    if y == 0 then Err(DivideByZero)
    else if x == I32_MIN && y == -1 then Err(ArithmeticOverflow)
    else
      DivFitsI32(x, y);
      var d :- RegisterAt(s, 2);
      Ok(s.(registers := s.registers[d := TruncDiv(x, y)], stdout := d, pc := s.pc + 3,
            remainder := I32AsU32(TruncRem(x, y))))
  }

  datatype JumpKind = Absolute | Forward | Backward

  /** `jump`, `jump_forward`, `jump_back`: the register value, cast to usize,
      replaces `pc` or is added to / subtracted from the offset after the
      register byte. */
  function JumpOp(s: State, kind: JumpKind): Result<State, Fault>
    requires WellFormed(s)
  {
    var v :- Operand(s, 0);
    var offset := I32AsUsize(v);
    var after := s.pc + 1;
    match kind
    case Absolute => Ok(s.(pc := offset))
    case Forward =>
      if after + offset >= USIZE_LIMIT then Err(ArithmeticOverflow)
      else Ok(s.(pc := after + offset))
    case Backward =>
      if offset > after then Err(ArithmeticOverflow)
      else Ok(s.(pc := after - offset))
  }

  datatype Relation = Equal | NotEqual | Greater | Less | GreaterEqual | LessEqual

  function Holds(rel: Relation, x: int, y: int): bool {
    match rel
    case Equal => x == y
    case NotEqual => x != y
    case Greater => x > y
    case Less => x < y
    case GreaterEqual => x >= y
    case LessEqual => x <= y
  }

  /** `eq` .. `lteq`: compare two registers into the flag, then skip one byte. */
  function CompareOp(s: State, rel: Relation): Result<State, Fault>
    requires WellFormed(s)
  {
    var (x, y) :- OperandPair(s);
    if s.pc + 2 >= |s.program| then Err(ProgramOverrun)
    else Ok(s.(eqFlag := Holds(rel, x, y), pc := s.pc + 3))
  }

  /** `jeq`: an absolute jump when the flag is set; otherwise nothing, not even
      the register byte is consumed. */
  function JeqOp(s: State): Result<State, Fault>
    requires WellFormed(s)
  {
    if s.eqFlag then JumpOp(s, Absolute) else Ok(s)
  }

  /** `Vec::resize(n, 0)`: truncate, or pad with zero bytes. */
  function Resize(heap: seq<byte>, n: nat): (r: seq<byte>)
    ensures |r| == n
    ensures forall i :: 0 <= i < n && i < |heap| ==> r[i] == heap[i]
    ensures forall i :: |heap| <= i < n ==> r[i] == 0
  {
    if n <= |heap| then heap[..n] else heap + seq(n - |heap|, _ => 0)
  }

  /** `alloc`: `heap.len() as i32 + bytes`, then `heap.resize(new_end as usize, 0)`.
      It is defined here but `execute_instruction` never calls it. */
  function AllocOp(s: State): Result<State, Fault>
    requires WellFormed(s)
  {
    var bytes :- Operand(s, 0);
    var newEnd := UsizeAsI32(|s.heap|) + bytes;
    if !InI32(newEnd) then Err(ArithmeticOverflow)
    else if newEnd < 0 then Err(CapacityOverflow)
    else Ok(s.(heap := Resize(s.heap, newEnd), pc := s.pc + 1))
  }

  // ---------------------------------------------------------------------------
  // Dispatch and the run loop.

  /** `continue_after`: a handler that returns normally continues execution. */
  function ContinueAfter(r: Result<State, Fault>, s: State): Transition {
    match r
    case Ok(next) => Transition(next, Continue)
    case Err(f) => Transition(s, Panic(f))
  }

  /** `execute_instruction`: decode the opcode at `pc`, step past it and
      dispatch. ALLOC and ILGL fall into the `_` arm and stop like HLT. */
  function Step(s: State): (t: Transition)
    requires WellFormed(s)
    ensures WellFormed(t.next)
    ensures t.next.program == s.program && t.next.heap == s.heap
    ensures s.stdout < REGISTER_COUNT ==> t.next.stdout < REGISTER_COUNT
  {
    if s.pc >= |s.program| then Transition(s, Panic(ProgramOverrun))
    else
      var s1 := s.(pc := s.pc + 1);
      match FromByte(s.program[s.pc])
      case HLT => Transition(s1, Stop)
      case LOAD => ContinueAfter(LoadOp(s1), s)
      case ADD => ContinueAfter(ArithOp(s1, Plus), s)
      case SUB => ContinueAfter(ArithOp(s1, Minus), s)
      case MUL => ContinueAfter(ArithOp(s1, Times), s)
      case DIV => ContinueAfter(DivOp(s1), s)
      case JMP => ContinueAfter(JumpOp(s1, Absolute), s)
      case JMPF => ContinueAfter(JumpOp(s1, Forward), s)
      case JMPB => ContinueAfter(JumpOp(s1, Backward), s)
      case EQ => ContinueAfter(CompareOp(s1, Equal), s)
      case NEQ => ContinueAfter(CompareOp(s1, NotEqual), s)
      case GT => ContinueAfter(CompareOp(s1, Greater), s)
      case LT => ContinueAfter(CompareOp(s1, Less), s)
      case GTEQ => ContinueAfter(CompareOp(s1, GreaterEqual), s)
      case LTEQ => ContinueAfter(CompareOp(s1, LessEqual), s)
      case JEQ => ContinueAfter(JeqOp(s1), s)
      case _ => Transition(s1, Stop)
  }

  /** `should_run`: step only while `pc` is inside the program. */
  function GuardedStep(s: State): (t: Transition)
    requires WellFormed(s)
    ensures WellFormed(t.next)
  {
    if s.pc < |s.program| then Step(s) else Transition(s, Stop)
  }

  /** `run`, cut off after `fuel` iterations of its loop; a `Continue` result
      means the fuel ran out. */
  function RunFor(s: State, fuel: nat): (t: Transition)
    requires WellFormed(s)
    ensures WellFormed(t.next)
    decreases fuel, 0
  {
    if fuel == 0 then Transition(s, Continue) else Iteration(s, fuel - 1)
  }

  /** One iteration of `run`'s loop, `run = self.should_run()`, followed by
      `rest` more. */
  function Iteration(s: State, rest: nat): (t: Transition)
    requires WellFormed(s)
    ensures WellFormed(t.next)
    decreases rest, 1
  {
    var t := GuardedStep(s);
    if t.signal == Continue then RunFor(t.next, rest) else t
  }

  /** One iteration of `run`'s loop, unfolded. */
  lemma RunForUnfold(s: State, fuel: nat)
    requires WellFormed(s) && fuel > 0
    ensures GuardedStep(s).signal == Continue ==> RunFor(s, fuel) == RunFor(GuardedStep(s).next, fuel - 1)
    ensures GuardedStep(s).signal != Continue ==> RunFor(s, fuel) == GuardedStep(s)
  { }

  /** A run of `a + b` iterations is a run of `a` followed, if that one has not
      stopped, by a run of `b` from where it left off. */
  lemma {:induction false} RunForSplit(s: State, a: nat, b: nat)
    requires WellFormed(s)
    ensures RunFor(s, a).signal == Continue ==> RunFor(s, a + b) == RunFor(RunFor(s, a).next, b)
    ensures RunFor(s, a).signal != Continue ==> RunFor(s, a + b) == RunFor(s, a)
    decreases a
  {
    if a > 0 {
      var g := GuardedStep(s);
      if g.signal == Continue {
        RunForSplit(g.next, a - 1, b);
      }
    }
  }

  /** Four-byte instruction words, as the `[u8; 4]` variant of `stdin` takes them. */
  type Word = w: seq<byte> | |w| == 4 witness [0, 0, 0, 0]

  function Flatten(words: seq<Word>): seq<byte> {
    if words == [] then [] else words[0] + Flatten(words[1..])
  }

  /** A method result agrees with the transition its specification computes:
      same signal, and the same state unless the step panicked. */
  predicate Agrees(signal: Signal, now: State, t: Transition) {
    signal == t.signal && (!signal.Panic? ==> now == t.next)
  }

  /** A handler's result agrees with the function that specifies it. */
  predicate HandlerAgrees(fault: Option<Fault>, now: State, r: Result<State, Fault>) {
    match r
    case Ok(next) => fault == None && now == next
    case Err(f) => fault == Some(f)
  }

  // ---------------------------------------------------------------------------
  // The VM object.

  class VM {
    const registers: array<i32>
    var remainder: u32
    var eqFlag: bool
    var stdout: nat
    var heap: seq<byte>
    var pc: nat
    var program: seq<byte>

    ghost predicate Valid() {
      registers.Length == REGISTER_COUNT
    }

    /** The fields, read as a `State`. */
    ghost function View(): (s: State)
      reads this, registers
      requires Valid()
      ensures WellFormed(s)
    {
      State(registers[..], remainder, eqFlag, stdout, heap, pc, program)
    }

    /** `VM::new`: every register 0, empty program and heap, flag false. */
    constructor ()
      ensures Valid() && fresh(registers)
      ensures registers[..] == seq(REGISTER_COUNT, _ => 0)
      ensures pc == 0 && program == [] && heap == []
      ensures !eqFlag && remainder == 0 && stdout == 0
    {
      registers := new i32[REGISTER_COUNT](_ => 0);
      pc, program, heap := 0, [], [];
      eqFlag, remainder, stdout := false, 0, 0;
    }

    /** `stdout`: the last written register, or the flag when `stdout` is 33;
        any other index panics. */
    method Stdout() returns (r: Result<i32, Fault>)
      ensures stdout == 33 ==> r == Ok(if eqFlag then 1 else 0)
      ensures stdout != 33 && stdout < registers.Length ==> r == Ok(registers[stdout])
      ensures stdout != 33 && stdout >= registers.Length ==> r == Err(RegisterOutOfRange)
    {
      if stdout == 33 {
        r := Ok(if eqFlag then 1 else 0);
      } else if stdout < registers.Length {
        r := Ok(registers[stdout]);
      } else {
        r := Err(RegisterOutOfRange);
      }
    }

    /** `opcode`: decode the byte at `pc` and step past it. */
    method NextOpcode() returns (r: Result<Opcode, Fault>)
      modifies this`pc
      ensures old(pc) < |program| ==> r == Ok(FromByte(program[old(pc)])) && pc == old(pc) + 1
      ensures old(pc) >= |program| ==> r == Err(ProgramOverrun) && pc == old(pc)
    {
      if pc >= |program| {
        return Err(ProgramOverrun);
      }
      r := Ok(FromByte(program[pc]));
      pc := pc + 1;
    }

    /** `next_8_bits`. */
    method Next8Bits() returns (r: Result<byte, Fault>)
      modifies this`pc
      ensures old(pc) < |program| ==> r == Ok(program[old(pc)]) && pc == old(pc) + 1
      ensures old(pc) >= |program| ==> r == Err(ProgramOverrun) && pc == old(pc)
    {
      if pc >= |program| {
        return Err(ProgramOverrun);
      }
      r := Ok(program[pc]);
      pc := pc + 1;
    }

    /** `next_16_bits`: two bytes, big-endian. */
    method Next16Bits() returns (r: Result<u16, Fault>)
      modifies this`pc
      ensures old(pc) + 1 < |program| ==>
        r == Ok(program[old(pc)] as int * 256 + program[old(pc) + 1]) && pc == old(pc) + 2
      ensures old(pc) + 1 >= |program| ==> r == Err(ProgramOverrun) && pc == old(pc)
    {
      if pc + 1 >= |program| {
        return Err(ProgramOverrun);
      }
      r := Ok(Join16(program[pc], program[pc + 1]));
      pc := pc + 2;
    }

    method Load() returns (fault: Option<Fault>)
      requires Valid()
      modifies this`pc, this`stdout, registers
      ensures HandlerAgrees(fault, View(), LoadOp(old(View())))
    {
      var r := Next8Bits();
      if r.Err? {
        return Some(r.error);
      }
      var n := Next16Bits();
      if n.Err? {
        return Some(n.error);
      }
      if r.value >= registers.Length {
        return Some(RegisterOutOfRange);
      }
      registers[r.value] := n.value;
      stdout := r.value;
      fault := None;
    }

    /** `read`: the register named by the next byte. */
    method Read() returns (r: Result<i32, Fault>)
      requires Valid()
      modifies this`pc
      ensures r == Operand(old(View()), 0)
      ensures r.Ok? ==> pc == old(pc) + 1
    {
      var i := Next8Bits();
      if i.Err? {
        return Err(i.error);
      }
      if i.value >= registers.Length {
        return Err(RegisterOutOfRange);
      }
      r := Ok(registers[i.value]);
    }

    method ReadTwo() returns (r: Result<(i32, i32), Fault>)
      requires Valid()
      modifies this`pc
      ensures r == OperandPair(old(View()))
      ensures r.Ok? ==> pc == old(pc) + 2
    {
      var x := Read();
      if x.Err? {
        return Err(x.error);
      }
      var y := Read();
      if y.Err? {
        return Err(y.error);
      }
      r := Ok((x.value, y.value));
    }

    /** `write`: store `v` in the register named by the next byte and mark it
        as the last written one. */
    method Write(v: i32) returns (fault: Option<Fault>)
      requires Valid()
      modifies this`pc, this`stdout, registers
      ensures match RegisterAt(old(View()), 0)
        case Err(f) => fault == Some(f)
        case Ok(d) => fault == None && registers[..] == old(registers[..])[d := v]
                      && stdout == d && pc == old(pc) + 1
    {
      var d := Next8Bits();
      if d.Err? {
        return Some(d.error);
      }
      if d.value >= registers.Length {
        return Some(RegisterOutOfRange);
      }
      registers[d.value] := v;
      stdout := d.value;
      fault := None;
    }

    method Add() returns (fault: Option<Fault>)
      requires Valid()
      modifies this`pc, this`stdout, registers
      ensures HandlerAgrees(fault, View(), ArithOp(old(View()), Plus))
    {
      var xy := ReadTwo();
      if xy.Err? {
        return Some(xy.error);
      }
      var (x, y) := xy.value;
      if !InI32(x + y) {
        return Some(ArithmeticOverflow);
      }
      fault := Write(x + y);
    }

    method Sub() returns (fault: Option<Fault>)
      requires Valid()
      modifies this`pc, this`stdout, registers
      ensures HandlerAgrees(fault, View(), ArithOp(old(View()), Minus))
    {
      var xy := ReadTwo();
      if xy.Err? {
        return Some(xy.error);
      }
      var (x, y) := xy.value;
      if !InI32(x - y) {
        return Some(ArithmeticOverflow);
      }
      fault := Write(x - y);
    }

    method Mul() returns (fault: Option<Fault>)
      requires Valid()
      modifies this`pc, this`stdout, registers
      ensures HandlerAgrees(fault, View(), ArithOp(old(View()), Times))
    {
      var xy := ReadTwo();
      if xy.Err? {
        return Some(xy.error);
      }
      var (x, y) := xy.value;
      if !InI32(x * y) {
        return Some(ArithmeticOverflow);
      }
      fault := Write(x * y);
    }

    method Div() returns (fault: Option<Fault>)
      requires Valid()
      modifies this`pc, this`stdout, this`remainder, registers
      ensures HandlerAgrees(fault, View(), DivOp(old(View())))
    {
      var xy := ReadTwo();
      if xy.Err? {
        return Some(xy.error);
      }
      var (x, y) := xy.value;
      if y == 0 {
        return Some(DivideByZero);
      }
      if x == I32_MIN && y == -1 {
        return Some(ArithmeticOverflow);
      }
      DivFitsI32(x, y);
      fault := Write(TruncDiv(x, y));
      if fault.Some? {
        return;
      }
      remainder := I32AsU32(TruncRem(x, y));
    }

    method Jump() returns (fault: Option<Fault>)
      requires Valid()
      modifies this`pc
      ensures HandlerAgrees(fault, View(), JumpOp(old(View()), Absolute))
    {
      var v := Read();
      if v.Err? {
        return Some(v.error);
      }
      pc := I32AsUsize(v.value);
      fault := None;
    }

    /** `jump_forward`: `pc += read() as usize`, the read happening first. */
    method JumpForward() returns (fault: Option<Fault>)
      requires Valid()
      modifies this`pc
      ensures HandlerAgrees(fault, View(), JumpOp(old(View()), Forward))
    {
      var v := Read();
      if v.Err? {
        return Some(v.error);
      }
      var target := pc + I32AsUsize(v.value);
      if target >= USIZE_LIMIT {
        return Some(ArithmeticOverflow);
      }
      pc := target;
      fault := None;
    }

    /** `jump_back`: `pc -= read() as usize`, the read happening first. */
    method JumpBack() returns (fault: Option<Fault>)
      requires Valid()
      modifies this`pc
      ensures HandlerAgrees(fault, View(), JumpOp(old(View()), Backward))
    {
      var v := Read();
      if v.Err? {
        return Some(v.error);
      }
      var offset := I32AsUsize(v.value);
      if offset > pc {
        return Some(ArithmeticOverflow);
      }
      pc := pc - offset;
      fault := None;
    }

    /** The six comparison handlers share this body; only the relation differs. */
    method Compare(rel: Relation) returns (fault: Option<Fault>)
      requires Valid()
      modifies this`pc, this`eqFlag
      ensures HandlerAgrees(fault, View(), CompareOp(old(View()), rel))
    {
      var xy := ReadTwo();
      if xy.Err? {
        return Some(xy.error);
      }
      var (x, y) := xy.value;
      eqFlag := Holds(rel, x, y);
      var skipped := Next8Bits();
      if skipped.Err? {
        return Some(skipped.error);
      }
      fault := None;
    }

    method Jeq() returns (fault: Option<Fault>)
      requires Valid()
      modifies this`pc
      ensures HandlerAgrees(fault, View(), JeqOp(old(View())))
    {
      fault := None;
      if eqFlag {
        var v := Read();
        if v.Err? {
          return Some(v.error);
        }
        pc := I32AsUsize(v.value);
      }
    }

    method Alloc() returns (fault: Option<Fault>)
      requires Valid()
      modifies this`pc, this`heap
      ensures HandlerAgrees(fault, View(), AllocOp(old(View())))
    {
      var r := Next8Bits();
      if r.Err? {
        return Some(r.error);
      }
      if r.value >= registers.Length {
        return Some(RegisterOutOfRange);
      }
      var bytes := registers[r.value];
      var newEnd := UsizeAsI32(|heap|) + bytes;
      if !InI32(newEnd) {
        return Some(ArithmeticOverflow);
      }
      if newEnd < 0 {
        return Some(CapacityOverflow);
      }
      heap := Resize(heap, newEnd);
      fault := None;
    }

    /** `execute_instruction`. */
    method ExecuteInstruction() returns (signal: Signal)
      requires Valid()
      modifies this, registers
      ensures Agrees(signal, View(), Step(old(View())))
    {
      var op := NextOpcode();
      if op.Err? {
        return Panic(op.error);
      }
      var fault: Option<Fault>;
      match op.value {
        case HLT => return Stop;
        case LOAD => fault := Load();
        case ADD => fault := Add();
        case SUB => fault := Sub();
        case MUL => fault := Mul();
        case DIV => fault := Div();
        case JMP => fault := Jump();
        case JMPF => fault := JumpForward();
        case JMPB => fault := JumpBack();
        case EQ => fault := Compare(Equal);
        case NEQ => fault := Compare(NotEqual);
        case GT => fault := Compare(Greater);
        case LT => fault := Compare(Less);
        case GTEQ => fault := Compare(GreaterEqual);
        case LTEQ => fault := Compare(LessEqual);
        case JEQ => fault := Jeq();
        case _ => return Stop;
      }
      signal := if fault.Some? then Panic(fault.value) else Continue;
    }

    /** `is_not_done`. */
    method IsNotDone() returns (b: bool)
      ensures b <==> pc < |program|
    {
      b := pc < |program|;
    }

    /** `should_run`. */
    method ShouldRun() returns (signal: Signal)
      requires Valid()
      modifies this, registers
      ensures Agrees(signal, View(), GuardedStep(old(View())))
    {
      var notDone := IsNotDone();
      if notDone {
        signal := ExecuteInstruction();
      } else {
        signal := Stop;
      }
    }

    /** `run`, with at most `fuel` iterations of its loop. */
    method Run(fuel: nat) returns (signal: Signal)
      requires Valid()
      modifies this, registers
      ensures Agrees(signal, View(), RunFor(old(View()), fuel))
    {
      ghost var target := RunFor(View(), fuel);
      var remaining: nat := fuel;
      var run := true;
      signal := Continue;
      while run && remaining > 0
        invariant Valid()
        invariant run ==> signal == Continue && RunFor(View(), remaining) == target
        invariant !run ==> Agrees(signal, View(), target)
        decreases remaining
      {
        signal := RunIteration(target, remaining);
        run := signal == Continue;
        remaining := remaining - 1;
      }
    }

    /** One iteration of `run`'s loop, measured against what the remaining fuel leads to. */
    method RunIteration(ghost target: Transition, remaining: nat) returns (signal: Signal)
      requires Valid() && remaining > 0 && RunFor(View(), remaining) == target
      modifies this, registers
      ensures Valid()
      ensures signal == Continue ==> RunFor(View(), remaining - 1) == target
      ensures signal != Continue ==> Agrees(signal, View(), target)
    {
      RunForUnfold(View(), remaining);
      signal := ShouldRun();
    }

    /** `run_once`; the signal is returned so that a panic is visible. */
    method RunOnce() returns (signal: Signal)
      requires Valid()
      modifies this, registers
      ensures Agrees(signal, View(), GuardedStep(old(View())))
    {
      signal := ShouldRun();
    }

    /** `program()`. */
    method Program() returns (p: seq<byte>)
      ensures p == program
    {
      p := program;
    }

    /** `registers()`. */
    method Registers() returns (r: seq<i32>)
      requires Valid()
      ensures |r| == REGISTER_COUNT && r == registers[..]
    {
      r := registers[..];
    }

    /** `Stdin<u8>::stdin`: append the bytes to the program. */
    method Stdin(bytes: seq<byte>)
      modifies this`program
      ensures program == old(program) + bytes
    {
      program := program + bytes;
    }

    /** `Stdin<[u8; 4]>::stdin`: append each word's bytes in order. */
    method StdinWords(words: seq<Word>)
      modifies this`program
      ensures program == old(program) + Flatten(words)
    {
      for i := 0 to |words|
        invariant program == old(program) + Flatten(words[..i])
      {
        FlattenSnoc(words[..i], words[i]);
        assert words[..i + 1] == words[..i] + [words[i]];
        Stdin(words[i]);
      }
      assert words[..|words|] == words;
    }
  }

  // ---------------------------------------------------------------------------
  // Lemmas.

  lemma {:induction false} FlattenSnoc(words: seq<Word>, w: Word)
    ensures Flatten(words + [w]) == Flatten(words) + w
  {
    if words == [] {
      assert words + [w] == [w];
    } else {
      assert (words + [w])[1..] == words[1..] + [w];
      FlattenSnoc(words[1..], w);
    }
  }

  /** The word variant of `stdin` appends exactly four bytes per word. */
  lemma {:induction false} FlattenLength(words: seq<Word>)
    ensures |Flatten(words)| == 4 * |words|
  {
    if words != [] {
      FlattenLength(words[1..]);
    }
  }

  /** HLT, ALLOC and every byte of 17 or more stop: `pc` moves past the opcode
      byte and nothing else changes. */
  lemma StepStops(s: State)
    requires WellFormed(s) && s.pc < |s.program|
    requires s.program[s.pc] == 0 || s.program[s.pc] >= 16
    ensures Step(s) == Transition(s.(pc := s.pc + 1), Stop)
  {
  }

  /** `[1, r, hi, lo]` loads `hi * 256 + lo`, a value in 0..65535, into register
      `r`, marks `r` as last written and moves `pc` to the next instruction. */
  lemma StepLoad(s: State)
    requires WellFormed(s) && s.pc + 4 <= |s.program|
    requires s.program[s.pc] == 1 && s.program[s.pc + 1] < REGISTER_COUNT
    ensures var r: int, hi: int, lo: int := s.program[s.pc + 1], s.program[s.pc + 2], s.program[s.pc + 3];
      && 0 <= hi * 256 + lo <= 65535
      && Step(s) == Transition(s.(registers := s.registers[r := hi * 256 + lo], stdout := r,
                                  pc := s.pc + 4), Continue)
  {
  }

  /** `[op, x, y, d]` for ADD, SUB and MUL: register `d` receives the sum,
      difference or product when it fits in i32, otherwise the step panics. */
  lemma StepArith(s: State)
    requires WellFormed(s) && s.pc + 4 <= |s.program|
    requires 2 <= s.program[s.pc] <= 4
    requires s.program[s.pc + 1] < REGISTER_COUNT && s.program[s.pc + 2] < REGISTER_COUNT
    requires s.program[s.pc + 3] < REGISTER_COUNT
    ensures var op, d := s.program[s.pc], s.program[s.pc + 3];
      var x, y := s.registers[s.program[s.pc + 1]], s.registers[s.program[s.pc + 2]];
      var v: int := if op == 2 then x as int + y else if op == 3 then x as int - y else x as int * y;
      && (InI32(v) ==>
            Step(s) == Transition(s.(registers := s.registers[d := v], stdout := d,
                                     pc := s.pc + 4), Continue))
      && (!InI32(v) ==> Step(s).signal == Panic(ArithmeticOverflow))
  {
  }

  /** `[5, x, y, d]`: register `d` receives the quotient truncated toward zero
      and the remainder register the remainder with the dividend's sign, read
      as u32; together they rebuild the dividend. A zero divisor panics. */
  lemma StepDiv(s: State)
    requires WellFormed(s) && s.pc + 4 <= |s.program|
    requires s.program[s.pc] == 5
    requires s.program[s.pc + 1] < REGISTER_COUNT && s.program[s.pc + 2] < REGISTER_COUNT
    requires s.program[s.pc + 3] < REGISTER_COUNT
    ensures var d := s.program[s.pc + 3];
      var x, y := s.registers[s.program[s.pc + 1]], s.registers[s.program[s.pc + 2]];
      && (y == 0 ==> Step(s).signal == Panic(DivideByZero))
      && (y == -1 && x == I32_MIN ==> Step(s).signal == Panic(ArithmeticOverflow))
      && (y != 0 && !(y == -1 && x == I32_MIN) ==>
            var t := Step(s);
            && t.signal == Continue
            && t.next.registers == s.registers[d := t.next.registers[d]]
            && x == y * t.next.registers[d] + TruncRem(x, y)
            && Abs(TruncRem(x, y)) < Abs(y)
            && (x >= 0 ==> t.next.remainder == TruncRem(x, y))
            && (x < 0 ==> t.next.remainder == TruncRem(x, y) % U32_LIMIT)
            && t.next.stdout == d && t.next.pc == s.pc + 4 && t.next.eqFlag == s.eqFlag)
  {
    var x, y := s.registers[s.program[s.pc + 1]], s.registers[s.program[s.pc + 2]];
    if y != 0 {
      TruncDivision(x, y);
    }
  }

  /** Jumps from an instruction starting at `pc`, with `v` the register value
      read as usize (`v + 2^64` when negative): JMP sets `pc` to it, JMPF adds
      it to `pc + 2` and JMPB subtracts it from `pc + 2`, either panicking when
      `pc` would leave usize; only `pc` changes. A program is a `Vec`, shorter
      than 2^63 bytes, so a negative value always makes JMPB panic and makes
      JMPF land inside usize only when it is below `-(pc + 2)`. */
  lemma StepJump(s: State)
    requires WellFormed(s) && s.pc + 2 <= |s.program| < USIZE_LIMIT / 2
    requires 6 <= s.program[s.pc] <= 8 && s.program[s.pc + 1] < REGISTER_COUNT
    ensures var op, v := s.program[s.pc], s.registers[s.program[s.pc + 1]];
      var u := I32AsUsize(v);
      && (op == 6 ==> Step(s) == Transition(s.(pc := u), Continue))
      && (op == 7 && s.pc + 2 + u < USIZE_LIMIT ==>
            Step(s) == Transition(s.(pc := s.pc + 2 + u), Continue))
      && (op == 7 && s.pc + 2 + u >= USIZE_LIMIT ==> Step(s).signal == Panic(ArithmeticOverflow))
      && (op == 8 && u <= s.pc + 2 ==> Step(s) == Transition(s.(pc := s.pc + 2 - u), Continue))
      && (op == 8 && u > s.pc + 2 ==> Step(s).signal == Panic(ArithmeticOverflow))
      && (v < 0 ==> (op == 8 ==> Step(s).signal == Panic(ArithmeticOverflow))
                    && (op == 7 ==> (Step(s).signal == Continue <==> v < -(s.pc + 2))))
  {
  }

  /** `[op, x, y, _]` for EQ .. LTEQ: the flag becomes the relation between the
      two registers, the registers stay as they are and `pc` moves by 4. */
  lemma StepCompare(s: State)
    requires WellFormed(s) && s.pc + 4 <= |s.program|
    requires 9 <= s.program[s.pc] <= 14
    requires s.program[s.pc + 1] < REGISTER_COUNT && s.program[s.pc + 2] < REGISTER_COUNT
    ensures var op := s.program[s.pc];
      var x, y := s.registers[s.program[s.pc + 1]], s.registers[s.program[s.pc + 2]];
      var t := Step(s);
      && t.signal == Continue && t.next == s.(eqFlag := t.next.eqFlag, pc := s.pc + 4)
      && (op == 9 ==> (t.next.eqFlag <==> x == y))
      && (op == 10 ==> (t.next.eqFlag <==> x != y))
      && (op == 11 ==> (t.next.eqFlag <==> x > y))
      && (op == 12 ==> (t.next.eqFlag <==> x < y))
      && (op == 13 ==> (t.next.eqFlag <==> x >= y))
      && (op == 14 ==> (t.next.eqFlag <==> x <= y))
  {
  }

  /** JEQ with the flag set jumps to the register value; with the flag clear it
      consumes only its opcode byte. */
  lemma StepJeq(s: State)
    requires WellFormed(s) && s.pc < |s.program| && s.program[s.pc] == 15
    ensures !s.eqFlag ==> Step(s) == Transition(s.(pc := s.pc + 1), Continue)
    ensures s.eqFlag && s.pc + 1 < |s.program| && s.program[s.pc + 1] < REGISTER_COUNT ==>
      Step(s) == Transition(s.(pc := I32AsUsize(s.registers[s.program[s.pc + 1]])), Continue)
  {
  }

  /** ALLOC's handler, were it dispatched: with `n` in the named register and a
      heap shorter than 2^31 - n bytes, the heap grows by exactly `n` zero bytes. */
  lemma AllocGrows(s: State)
    requires WellFormed(s) && s.pc < |s.program| && s.program[s.pc] < REGISTER_COUNT
    requires var n := s.registers[s.program[s.pc]]; n >= 0 && |s.heap| + n <= I32_MAX
    ensures var n := s.registers[s.program[s.pc]];
      AllocOp(s) == Ok(s.(heap := s.heap + seq(n, _ => 0), pc := s.pc + 1))
  {
    var n := s.registers[s.program[s.pc]];
    var r := Resize(s.heap, |s.heap| + n);
    assert r == s.heap + seq(n, _ => 0);
  }

  /** `should_run` stops exactly when `pc` is past the program or the step stops,
      and past the program it changes nothing. */
  lemma GuardedStepStops(s: State)
    requires WellFormed(s)
    ensures GuardedStep(s).signal == Stop <==> s.pc >= |s.program| || Step(s).signal == Stop
    ensures s.pc >= |s.program| ==> GuardedStep(s) == Transition(s, Stop)
  {
  }

  /** Running never changes the program or the heap, and keeps `stdout` a valid
      register index, so `stdout()` never takes its flag branch. */
  lemma {:induction false} RunForPreserves(s: State, fuel: nat)
    requires WellFormed(s)
    ensures RunFor(s, fuel).next.program == s.program
    ensures RunFor(s, fuel).next.heap == s.heap
    ensures s.stdout < REGISTER_COUNT ==> RunFor(s, fuel).next.stdout < REGISTER_COUNT
    decreases fuel
  {
    if fuel > 0 {
      var t := GuardedStep(s);
      if t.signal == Continue {
        RunForPreserves(t.next, fuel - 1);
      }
    }
  }

  /** A run that stopped stays stopped at a state past the end, once `pc` has
      left the program. */
  lemma {:induction false} RunForPastEnd(s: State, fuel: nat)
    requires WellFormed(s) && s.pc >= |s.program| && fuel > 0
    ensures RunFor(s, fuel) == Transition(s, Stop)
  {
  }
}
