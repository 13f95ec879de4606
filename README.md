# iridii register VM, modelled in Dafny

This is a model of the non-interactive toolchain of iridii, a small register virtual machine, with proofs about it. It has three parts:

- **The execution engine** (`src/vm.rs`).
  - The state is 32 `i32` registers, a byte-offset program counter, an equality flag, a `u32` remainder, the index of the last written register (`stdout`), a heap and the program bytes.
  - `execute_instruction` decodes one opcode byte and dispatches to a handler. Each handler consumes its operand bytes and updates the fields.
  - `run` calls `should_run` until it returns false, and `run_once` calls it once.
- **The opcode table** (`src/instructions.rs`): the `#[repr(u8)]` enum and the total decoding of a byte into an opcode.
- **The assembler pipeline** (`src/assembler/`):
  - the mnemonic table and the character-cursor lexer (`token.rs`);
  - the fixed 4-byte assembler for LOAD, ADD and SUB (`parser.rs`);
  - the variable-length encoder `to_bytes` and `read_instruction` (`lex.rs`).

Files:

| file | module | contents |
|---|---|---|
| `results.dfy` | `Results` | `Option` and `Result` |
| `ints.dfy` | `Ints` | `byte`, `u16`, `i32`, `u32`; the `as` casts; Rust's truncating `/` and `%` |
| `instructions.dfy` | `Instructions` | `Opcode`, `ToByte` (`op as u8`), `FromByte` (`Opcode::from(u8)`), `Instruction` |
| `vm.dfy` | `Vm` | `State` and the pure `Step`, `GuardedStep` and `RunFor`; the class `VM`, whose handlers update the fields in place and are proved to agree with the functions; per-opcode lemmas |
| `vm_examples.dfy` | `VmExamples` | the VM's unit tests, stated as lemmas |
| `token.dfy` | `Tokens` | `Token`, `FromMnemonic`, the scanner as a function of the position (`Scan`), the class `Lexer` proved to follow it, and the consequences of the lexer's behaviour |
| `parser.dfy` | `Parser` | `ParseInteger`, the parsing steps as functions of the lexer position, the class `Parser`, and what the parser can and cannot produce |
| `lex.dfy` | `Lex` | `Operands`, `Encode` (`to_bytes` as a function), the imperative `ToBytes` and `ParseOperand` over a `ByteVec`, `ReadInstruction` |

How the model treats the source:

- **Panics.** A Rust panic is the explicit value `Fault`. This covers:
  - an index past the program or the register file;
  - i32 overflow, which panics in a debug build;
  - division by zero;
  - `usize` overflow of `pc` in a jump;
  - a heap resize to a negative length.

  `Step` then returns `Panic(fault)`. The model says nothing about the fields left behind, because the program is gone once it panics. `usize` is taken to be 64 bits wide.
- **Quirks.** The quirks of the source are reproduced, not corrected:
  - ALLOC is never dispatched.
  - JEQ with the flag clear consumes only its opcode byte.
  - LOAD zero-extends its 16-bit immediate.
  - The mnemonic table sends "lt" and "gteq" to GT, and "jeq" to LTEQ.
  - The lexer stays on the last character of each token.
  - A register or integer span starts at its sigil, so every literal reads as 0.
- **Consequences of the lexer quirks, proved as lemmas:**
  - the lexer answers the same token forever from its second token on;
  - `next_instruction` never returns `Ok`;
  - `read_instruction` never builds an instruction that `to_bytes` accepts.

Behaviours of the code worth knowing:

- LOAD zero-extends the immediate (`u16 as i32`). It does not sign-extend.
- JEQ with the flag clear does not consume its register byte.
- ALLOC falls into the stop arm of `execute_instruction` instead of growing the heap. Its handler is modelled anyway (`AllocOp`, `VM.Alloc`, `AllocGrows`).
- An unknown opcode moves `pc` past its byte.
- The lexer does not read `$<digits>` and `#<digits>` as their values.

## Model

| member | source | states |
|---|---|---|
| Ints.I32AsUsize | src/vm.rs:110-120 | `v as usize` is `v` for non-negative `v` and `v + 2^64` for negative `v` (sign extension to 64 bits), always below 2^64 and at least 2^63 when `v` is negative |
| Ints.I32AsU32 | src/vm.rs:107 | `n as u32` is `n` for non-negative `n`; a negative `n` becomes `n + 2^32` |
| Ints.UsizeAsI32 | src/vm.rs:166 | `len as i32` keeps lengths up to i32::MAX and otherwise agrees with the length modulo 2^32 |
| Ints.I32AsU16 | src/assembler/parser.rs:13 | `i as u16` is `i` on 0..65535 and agrees with `i` modulo 2^16 |
| Ints.TruncDivision | src/vm.rs:104-108 | Rust's `/` and `%` are truncated division: `x == y*q + r`, `|r| < |y|`, and `r` never has the opposite sign of `x` |
| Ints.DivFitsI32 | src/vm.rs:104-108 | the quotient and the remainder of two i32 values fit in i32 unless the division is i32::MIN / -1 |
| Instructions.ToByte | src/instructions.rs:1-22 | `op as u8` is the index of `op` in the declaration order |
| Instructions.FromByte | src/instructions.rs:35-58 | `Opcode::from(b)` is the b-th variant for b in 0..16 and ILGL for every b >= 17 |
| Instructions.FromByteToByte | src/instructions.rs:1-58 | `Opcode::from(op as u8) == op` for every variant, ILGL included |
| Instructions.ToByteInjective | src/instructions.rs:1-22 | the discriminant cast is injective and its values lie in 0..17 |
| Instructions.ToByteFromByte | src/instructions.rs:35-58 | decoding then re-encoding is the identity on 0..17; every larger byte becomes 17 (ILGL) |
| Vm.Loaded | src/vm.rs:17-27 | the state of a new VM whose program is given is well formed (32 registers) |
| Vm.LoadedIsNew | src/vm.rs:17-27 | that state is the one `VM::new` builds: all 32 registers 0, `pc` 0, flag false, remainder 0, `stdout` 0, empty heap, with only `program` filled in |
| Vm.RegisterAt | src/vm.rs:73-75 | an operand byte names a register exactly when it lies inside the program and below 32; otherwise the fault says which index failed |
| Vm.Compute | src/vm.rs:89-102 | i32 `+`, `-`, `*` can only fail by overflow |
| Vm.Resize | src/vm.rs:167 | `Vec::resize(n, 0)` gives length `n`, keeps the old bytes below `n` and zero-fills the rest |
| Vm.Step | src/vm.rs:180-202 | one `execute_instruction` keeps 32 registers, never changes the program or the heap, and keeps `stdout` a register index |
| Vm.GuardedStep | src/vm.rs:208-210 | `should_run` keeps the register file well formed |
| Vm.RunFor | src/vm.rs:212-217 | `run`, cut off after `fuel` loop iterations, keeps the register file well formed |
| Vm.Iteration | src/vm.rs:213-216 | one loop iteration followed by the rest of the run keeps the register file well formed |
| Vm.RunForSplit | src/vm.rs:212-217 | a run of `a + b` iterations is a run of `a`, followed, unless it stopped, by a run of `b` from where it left off |
| Vm.RunForUnfold | src/vm.rs:213-216 | a run that continues after one `should_run` is the rest of the run from the new state; one that stops ends with that step's result |
| Vm.VM.constructor | src/vm.rs:17-27 | `VM::new`: all 32 registers 0, `pc` 0, empty program and heap, flag false, remainder 0, `stdout` 0 |
| Vm.VM.Stdout | src/vm.rs:30-36 | `stdout()` is the flag as 0/1 when the index is 33, the last written register when it is below 32, and a panic otherwise |
| Vm.VM.NextOpcode | src/vm.rs:46-50 | `opcode()` decodes the byte at `pc` and advances `pc` by one, or panics past the program |
| Vm.VM.Next8Bits | src/vm.rs:52-56 | `next_8_bits` returns the byte at `pc` and advances by one, or panics past the program |
| Vm.VM.Next16Bits | src/vm.rs:58-64 | `next_16_bits` returns the big-endian join of two bytes and advances by two, or panics past the program |
| Vm.VM.Load | src/vm.rs:66-71 | `load` leaves the fields exactly as `LoadOp` says, or reports the same fault |
| Vm.VM.Read | src/vm.rs:73-75 | `read` returns the value of the register named by the next byte, consuming it |
| Vm.VM.ReadTwo | src/vm.rs:77-81 | `read_two` returns the two operand registers' values in order, consuming two bytes |
| Vm.VM.Write | src/vm.rs:83-87 | `write` stores `v` only in the named register, marks it last written, advances by one, or fails with the operand's fault |
| Vm.VM.Add | src/vm.rs:89-92 | `add` agrees with `ArithOp(Plus)` |
| Vm.VM.Sub | src/vm.rs:94-97 | `sub` agrees with `ArithOp(Minus)` |
| Vm.VM.Mul | src/vm.rs:99-102 | `mul` agrees with `ArithOp(Times)` |
| Vm.VM.Div | src/vm.rs:104-108 | `div` agrees with `DivOp`: truncated quotient written, `(x % y) as u32` in the remainder, faults on zero and on i32::MIN / -1 |
| Vm.VM.Jump | src/vm.rs:110-112 | `jump` agrees with `JumpOp(Absolute)` |
| Vm.VM.JumpForward | src/vm.rs:114-116 | `jump_forward` agrees with `JumpOp(Forward)`, the register read happening before the addition |
| Vm.VM.JumpBack | src/vm.rs:118-120 | `jump_back` agrees with `JumpOp(Backward)`, underflow being a fault |
| Vm.VM.Compare | src/vm.rs:122-155 | each of `eq` .. `lteq` agrees with `CompareOp` for its relation |
| Vm.VM.Jeq | src/vm.rs:157-161 | `jeq` agrees with `JeqOp` |
| Vm.VM.Alloc | src/vm.rs:163-168 | `alloc` agrees with `AllocOp` |
| Vm.VM.ExecuteInstruction | src/vm.rs:180-202 | the signal and the new fields are those of `Step` on the old fields |
| Vm.VM.IsNotDone | src/vm.rs:204-206 | true exactly when `pc` is inside the program |
| Vm.VM.ShouldRun | src/vm.rs:208-210 | the signal and new fields are those of `GuardedStep` |
| Vm.VM.Run | src/vm.rs:212-217 | the loop ends in the state and with the signal of `RunFor` on the starting state |
| Vm.VM.RunIteration | src/vm.rs:213-216 | one iteration of the loop moves the VM one step along the run the remaining fuel leads to |
| Vm.VM.RunOnce | src/vm.rs:219-221 | `run_once` agrees with `GuardedStep` |
| Vm.VM.Program | src/vm.rs:223-225 | `program()` exposes the program bytes |
| Vm.VM.Registers | src/vm.rs:227-229 | `registers()` exposes the register values in order, exactly 32 of them |
| Vm.VM.Stdin | src/vm.rs:237-241 | `stdin` of bytes appends exactly them to the program |
| Vm.VM.StdinWords | src/vm.rs:243-248 | `stdin` of 4-byte words appends their bytes, word by word, in order |
| Vm.FlattenLength | src/vm.rs:243-248 | the word variant of `stdin` appends exactly 4 bytes per word |
| Vm.StepStops | src/vm.rs:180-202 | HLT, ALLOC and every byte >= 17 stop with `pc` moved past the opcode byte and nothing else changed |
| Vm.StepLoad | src/vm.rs:66-71 | `[1, r, hi, lo]` loads `hi*256 + lo`, a value in 0..65535, into register `r` only, marks `r` as last written and moves `pc` by 4 |
| Vm.StepArith | src/vm.rs:89-102 | ADD, SUB and MUL write the exact sum, difference or product to the destination only, mark it, move `pc` by 4, and panic on i32 overflow |
| Vm.StepDiv | src/vm.rs:104-108 | DIV writes a quotient that with the remainder rebuilds the dividend, with the remainder smaller than the divisor, stores the remainder as u32, moves `pc` by 4, and faults on zero and on i32::MIN / -1 |
| Vm.StepJump | src/vm.rs:110-120 | from an instruction at `s`, with `u` the register value `v` as usize: JMP sets `pc` to `u`, JMPF to `s + 2 + u` or panics past 2^64, JMPB to `s + 2 - u` or panics on underflow; nothing else changes. A negative `v` always makes JMPB panic and lets JMPF continue only when `v < -(s + 2)` |
| Vm.StepCompare | src/vm.rs:122-155 | EQ .. LTEQ set the flag to exactly the relation between the two registers, leave everything else, and move `pc` by 4 |
| Vm.StepJeq | src/vm.rs:157-161 | JEQ with the flag set jumps to the register value; with it clear it moves `pc` by one only |
| Vm.AllocGrows | src/vm.rs:163-168 | the ALLOC handler grows the heap by exactly `n` zero bytes when the register holds `n >= 0` and the result fits in i32 |
| Vm.GuardedStepStops | src/vm.rs:204-210 | `should_run` stops exactly when `pc` is past the program or the step stops, and past the program changes nothing |
| Vm.RunForPreserves | src/vm.rs:30-36 | a run never changes the program or the heap and keeps `stdout` a register index, so the `stdout == 33` branch is never taken |
| Vm.RunForPastEnd | src/vm.rs:204-217 | a run from a state past the program stops at once and changes nothing |
| VmExamples.NewTestVm | src/vm.rs:256-258 | `new_test_vm()` followed by `vm.program = bytes` leaves a VM whose fields are `Loaded(bytes)`, the start of every lemma below |
| VmExamples.HaltAdvancesOneByte | src/vm.rs:267-273 | HLT stops with `pc` at 1 |
| VmExamples.IllegalAdvancesOneByte | src/vm.rs:275-281 | byte 200 stops with `pc` at 1 |
| VmExamples.LoadFiveHundred | src/vm.rs:284-290 | `[1, 0, 1, 244]` leaves 500 in register 0 and marks it last written |
| VmExamples.HaltDoesNotLoad | src/vm.rs:293-299 | `[0, 0, 1, 244]` does not load 500 |
| VmExamples.AddProgram | src/vm.rs:302-313 | loading 500 twice and adding stops with 1000 in register 2 |
| VmExamples.SubProgram | src/vm.rs:316-327 | 500 - 244 stops with 256 in register 2 |
| VmExamples.MulProgram | src/vm.rs:330-341 | 2 * 255 stops with 510 in register 2 |
| VmExamples.DivProgram | src/vm.rs:344-355 | the whole `run()` of the division test stops with 122 in register 2 and remainder 0 |
| VmExamples.DivProgramLoads | src/vm.rs:344-355 | the two LOADs of the division test leave 244 and 2 in registers 0 and 1, `pc` at 8 |
| VmExamples.DivProgramDivides | src/vm.rs:344-355 | from the state those LOADs reach, the rest of the run stops with 122 in register 2 and remainder 0 |
| VmExamples.DivWithRemainderProgram | src/vm.rs:357-369 | the whole `run()` of the remainder test stops with 122 in register 2 and remainder 1 |
| VmExamples.DivWithRemainderLoads | src/vm.rs:357-369 | the two LOADs leave 245 and 2 in registers 0 and 1, `pc` at 8 |
| VmExamples.DivWithRemainderDivides | src/vm.rs:357-369 | from the state those LOADs reach, the rest of the run stops with 122 in register 2 and remainder 1 |
| VmExamples.JumpToThree | src/vm.rs:372-380 | JMP with 3 in register 0 sets `pc` to 3 |
| VmExamples.JumpForwardToSix | src/vm.rs:383-391 | JMPF with 4 sets `pc` to 6 |
| VmExamples.JumpBackToZero | src/vm.rs:394-404 | JMPB with 2 sets `pc` to 0, twice in a row |
| VmExamples.JumpForwardThenBack | src/vm.rs:407-421 | JMPF by 2 then JMPB by 4 leaves `pc` at 4 and then 2 |
| VmExamples.EqualThenUnequal | src/vm.rs:424-440 | EQ on 10, 10 sets the flag; EQ on 10, 5 clears it |
| VmExamples.NotEqualThenUnequal | src/vm.rs:443-459 | NEQ on 10, 10 clears the flag; NEQ on 10, 5 sets it |
| VmExamples.JeqTaken | src/vm.rs:462-473 | JEQ with the flag set and 7 in register 0 sets `pc` to 7 |
| Tokens.FromMnemonic | src/assembler/token.rs:18-41 | the mnemonic table `Opcode::from(&str)`, with its misroutes; what it maps is stated by MnemonicTable, UnknownMnemonic and UnreachableOpcodes |
| Tokens.MnemonicTable | src/assembler/token.rs:18-61 | each mnemonic names the opcode with its index as discriminant, except "lt" and "gteq" (GT) and "jeq" (LTEQ) |
| Tokens.UnknownMnemonic | src/assembler/token.rs:18-41 | a string is ILGL exactly when it is none of the 16 mnemonics, so "ilgl" and "alloc" are ILGL |
| Tokens.UnreachableOpcodes | src/assembler/token.rs:18-41 | no text is read as LT, GTEQ, JEQ or ALLOC |
| Tokens.IsLetter | src/assembler/token.rs:68-70 | `is_letter`: an ASCII letter or '_' |
| Tokens.IsDigit | src/assembler/token.rs:72-74 | `is_digit`: '0' to '9' |
| Tokens.IsWhitespace | src/assembler/token.rs:76-78 | `is_whitespace`: space, tab, LF or CR |
| Tokens.DigitsStartWithDigit | src/assembler/token.rs:137-149 | only text that starts with a digit reads as a decimal number |
| Tokens.ParseU8 | src/assembler/token.rs:144-149 | `parse::<u8>` succeeds only on text starting with a digit or '+' |
| Tokens.ParseI32 | src/assembler/token.rs:137-142 | `parse::<i32>` succeeds only on text starting with a digit or a sign |
| Tokens.WhitespaceEnd | src/assembler/token.rs:151-155 | `skip_whitespace` stops at the first non-whitespace character at or after the position, skipping only whitespace |
| Tokens.RunEnd | src/assembler/token.rs:120-129 | `read_while` stops on the last character of the run whose following characters satisfy the predicate, and stays inside the input |
| Tokens.LiteralSpan | src/assembler/token.rs:137-149 | a register or integer span is its sigil followed by every digit after it, and neither `parse::<u8>` nor `parse::<i32>` accepts it |
| Tokens.Item | src/assembler/token.rs:169-177 | the lexer's iterator yields `None` exactly for EOF and the token itself otherwise |
| Tokens.ScanAdvances | src/assembler/token.rs:157-166 | `next_token` never moves the position backwards, and leaves it no earlier than the first non-whitespace character |
| Tokens.EofAbsorbing | src/assembler/token.rs:157-163 | at the end of input `next_token` answers EOF without moving, so EOF repeats |
| Tokens.FallbackDoesNotConsume | src/assembler/token.rs:164 | a character that starts no token gives `Operator(ILGL)` without being consumed |
| Tokens.LiteralsReadAsZero | src/assembler/token.rs:137-149 | every register and integer token carries 0, since the span starts at the sigil |
| Tokens.ScanStaysOnToken | src/assembler/token.rs:120-166 | the lexer is left on the last character of the token it read: from the first non-whitespace position `p`, an identifier's letters run from `p` to the new position and the next character is not a letter; a literal's digits run from after the sigil to the new position and the next character is not a digit; any other character leaves the position at `p`; the new position is on a non-whitespace character, inside the input unless the token is EOF |
| Tokens.OperatorThenStuck | src/assembler/token.rs:120-166 | after any operator the next token is `Operator(ILGL)` at the same position |
| Tokens.SecondTokenRepeats | src/assembler/token.rs:120-166 | from the second token on the lexer answers the same token at the same position forever: EOF, `Operator(ILGL)`, `Register(0)` or `Integer(0)` |
| Tokens.Lexer.constructor | src/assembler/token.rs:95-107 | `Lexer::new` reads the first character: the lexer is on position 0 of its input |
| Tokens.Lexer.ReadChar | src/assembler/token.rs:109-118 | `read_char` makes `pos` catch up with `next_pos`, which moves one further, so `next_pos == pos + 1` and `pos` grows |
| Tokens.Lexer.ReadWhile | src/assembler/token.rs:120-129 | `read_while` returns the span from the current position to one past the run's last character, and leaves the lexer on that character |
| Tokens.Lexer.ReadIdentifier | src/assembler/token.rs:131-135 | `read_identifier` agrees with `LexIdentifier` |
| Tokens.Lexer.ReadInteger | src/assembler/token.rs:137-142 | `read_integer` agrees with `LexInteger` |
| Tokens.Lexer.ReadRegister | src/assembler/token.rs:144-149 | `read_register` agrees with `LexRegister` |
| Tokens.Lexer.SkipWhitespace | src/assembler/token.rs:151-155 | `skip_whitespace` leaves the lexer at `WhitespaceEnd`, on a character that is not whitespace |
| Tokens.Lexer.NextToken | src/assembler/token.rs:157-166 | `next_token` returns the token and new position of `Scan` |
| Tokens.Lexer.Next | src/assembler/token.rs:172-177 | the iterator's `next` is `Item` of the scanned token |
| Parser.ParseInteger | src/assembler/parser.rs:12-16 | `parse_integer(i)` gives `(hi, lo)` with `hi*256 + lo == i mod 2^16`, and `== i` on 0..65535 |
| Parser.NullaryOp | src/assembler/parser.rs:64-67 | `nullary_op` always yields a word that decodes to `op` followed by three zeros |
| Parser.LoadRoundTrip | src/assembler/parser.rs:12-16 | the bytes of `parse_integer` after LOAD and a register make the VM load the value modulo 2^16, every value in 0..65535 unchanged |
| Parser.IntegerOpNeverSucceeds | src/assembler/parser.rs:57-62 | `integer_op` never returns a word; after a register the error is one of the two "expected integer" messages |
| Parser.BinaryOpOutcome | src/assembler/parser.rs:69-75 | `binary_op` succeeds exactly when the first two tokens are registers, and then yields `[op, 0, 0, 0]` |
| Parser.NextInstructionNeverSucceeds | src/assembler/parser.rs:77-86 | `next_instruction` always fails: "expected register, found operator" after LOAD, ADD or SUB, "EOF" after anything else |
| Parser.BinaryOpOnSigil | src/assembler/parser.rs:69-75 | a lone `$` is read three times and makes a complete ADD of register 0 |
| Parser.LoadTextRejected | src/assembler/parser.rs:77-86 | "load $1 #500" is rejected at position 3, the 'd' of "load" |
| Parser.Parser.constructor | src/assembler/parser.rs:33-37 | `Parser::new` owns a fresh lexer at position 0 of the input |
| Parser.Parser.RegisterOperand | src/assembler/parser.rs:39-46 | `register` agrees with `RegisterOperandAt`: a register, or the specific mismatch error, or "EOF" |
| Parser.Parser.IntegerOperand | src/assembler/parser.rs:48-55 | `integer` agrees with `IntegerOperandAt` |
| Parser.Parser.IntegerOp | src/assembler/parser.rs:57-62 | `integer_op` agrees with `IntegerOpAt`, the first error aborting the instruction |
| Parser.Parser.BinaryOp | src/assembler/parser.rs:69-75 | `binary_op` agrees with `BinaryOpAt`, the first error aborting the instruction |
| Parser.Parser.NextInstruction | src/assembler/parser.rs:77-86 | `next_instruction` agrees with `NextInstructionAt` and always fails |
| Parser.Parser.Next | src/assembler/parser.rs:24-29 | the iterator's `next` always reaches its panic, shown as the error it carries |
| Lex.FromIter | src/assembler/lex.rs:16-22 | `Operands::from_iter` keeps the first three items and pads missing slots with `None` |
| Lex.EncodeOperandsOk | src/assembler/lex.rs:47-76 | the operand slots encode exactly when each is empty, a register or an integer; otherwise the error is the operator-in-operand one |
| Lex.EncodeOperandsLength | src/assembler/lex.rs:47-76 | encoded operands take one byte per register and two per integer, with no padding |
| Lex.EncodeOutcome | src/assembler/lex.rs:62-77 | `to_bytes` succeeds exactly when the operator slot holds an operator and every operand is encodable; it starts with the opcode byte and is `1 + registers + 2*integers` long; each error case gives its own message |
| Lex.EncodeLoadRuns | src/assembler/lex.rs:62-77 | an instruction with operator LOAD and operands `Register(r)`, `Integer(v)` encodes to `[1, r, hi, lo]`, which the VM runs to load `v` modulo 2^16 into register `r` |
| Lex.EncodeThreeRegisters | src/assembler/lex.rs:62-77 | three register operands give `[op, left, right, dest]`, the fixed-width layout |
| Lex.ReadInstructionOutcome | src/assembler/lex.rs:25-36 | `read_instruction` succeeds exactly after a leading LOAD, and then builds an ILGL instruction of three ILGL operands that `to_bytes` rejects |
| Lex.ByteVec.constructor | src/assembler/lex.rs:65 | `vec![...]` holds exactly its initial bytes |
| Lex.ByteVec.Push | src/assembler/lex.rs:50-54 | `push` appends one byte |
| Lex.ParseOperand | src/assembler/lex.rs:47-60 | `parse_operand` pushes one byte for a register and `(hi, lo)` for an integer; any other token fails and pushes nothing |
| Lex.ToBytes | src/assembler/lex.rs:62-77 | the loop's result is `Encode` of the instruction |
| Lex.EncodeOperandsPrefix | src/assembler/lex.rs:66-71 | once a prefix of the slots fails, the whole encoding fails with the same error, so `?` may return early |
| Lex.ReadInstruction | src/assembler/lex.rs:25-36 | `read_instruction` agrees with `ReadInstructionAt` |

## Left out

- The interactive driver (`src/repl`, `src/main.rs`): console I/O. The VM operations it calls (`program`, `registers`, `stdin`, `run_once`, `stdout`) are modelled as `VM.Program`, `VM.Registers`, `VM.Stdin`, `VM.RunOnce` and `VM.Stdout`.
- The `println!` in `stop` and the `sdtout_string` formatting: only the returned signal and values are modelled.
- Vm.VM.Run: takes a fuel bound on the loop's iterations, because the source loop need not terminate; a `Continue` result means the fuel ran out.
- Vm.Step: after a panic the model states which fault was raised, not the partly updated fields.
- Arithmetic follows a debug build, where i32 and usize overflow panic; release-build wrap-around is not modelled. `usize` is 64 bits wide.
- `Vec` capacity and allocation failure are not modelled. Only the heap's contents are.
- The lexer's `col` and `ln` bookkeeping is left out. The input is ASCII text, so a character index and a byte index coincide.
- The panics of the parser's `Iterator::next` and of `read_instruction` are shown as `Err` carrying the panic message.
- `parse_operand`'s `&mut Vec<u8>` is the `ByteVec` class. `Instruction::new` is the constructor of the `Instructions.Instruction` datatype, so `Instruction::new(op).opcode == op` holds by construction.
- The `parse_integer` of `lex.rs` (lines 41-45) has the same body as the one in `parser.rs`, and the model defines it once, as `Parser.ParseInteger`.
- Tokens.FromMnemonic: the match arms are grouped by the mnemonic's length. No two arms share a mnemonic, so every string meets the same arm.
- Lex.ReadInstruction: `Operands::from_iter` is given the three items the iterator yields, so an unbounded iterator is not modelled.
- `Program` (`lex.rs` line 39) is only a datatype. No code in the source builds or reads one.
