/** Tokens, the mnemonic table and the lexer of the assembly text.

    The lexer is a character cursor: `ch` is the current character, `pos` its
    index, `nextPos` the index of the next one and `cursor` the characters not
    yet read. Its whole state is fixed by `pos`, so the pure function `Scan`
    gives the meaning of `next_token` as a map from a position to a token and a
    new position, and the `Lexer` class is proved to follow it.

    Input is ASCII text: a character index and a byte index coincide. */
module Tokens {
  import opened Ints
  import opened Results
  import opened Instructions

  datatype Token = Operator(op: Opcode) | Register(index: byte) | Integer(value: i32) | EOF

  // ---------------------------------------------------------------------------
  // The mnemonic table.

  /** The mnemonic constants that the table matches, in declaration order; the
      i-th one is spelled after the opcode with discriminant i. */
  const MNEMONICS: seq<string> :=
    ["hlt", "load", "add", "sub", "mul", "div", "jmp", "jmpf", "jmpb",
     "eq", "neq", "gt", "lt", "gteq", "lteq", "jeq"]

  /** `Opcode::from(&str)`. The arms are grouped by the mnemonic's length;
      no two arms share a mnemonic, so the grouping does not change which arm
      a string meets. Note "lt" and "gteq" give GT and "jeq" gives LTEQ. */
  function FromMnemonic(s: string): Opcode {
    if |s| == 2 then
      if s == "eq" then EQ
      else if s == "gt" then GT
      else if s == "lt" then GT
      else ILGL
    else if |s| == 3 then
      if s == "hlt" then HLT
      else if s == "add" then ADD
      else if s == "sub" then SUB
      else if s == "mul" then MUL
      else if s == "div" then DIV
      else if s == "jmp" then JMP
      else if s == "neq" then NEQ
      else if s == "jeq" then LTEQ
      else ILGL
    else if |s| == 4 then
      if s == "load" then LOAD
      else if s == "jmpf" then JMPF
      else if s == "jmpb" then JMPB
      else if s == "gteq" then GT
      else if s == "lteq" then LTEQ
      else ILGL
    else ILGL
  }

  /** Each mnemonic names the opcode whose discriminant is its index, except
      that "lt" and "gteq" go to GT and "jeq" to LTEQ. */
  lemma MnemonicTable(i: nat)
    requires i < |MNEMONICS|
    ensures i != 12 && i != 13 && i != 15 ==> FromMnemonic(MNEMONICS[i]) == FromByte(i)
    ensures i == 12 || i == 13 ==> FromMnemonic(MNEMONICS[i]) == GT
    ensures i == 15 ==> FromMnemonic(MNEMONICS[i]) == LTEQ
  {
  }

  /** The lookup is total: every other string, "ilgl" and "alloc" included, is ILGL. */
  lemma UnknownMnemonic(s: string)
    ensures s !in MNEMONICS <==> FromMnemonic(s) == ILGL
  {
  }

  /** No text names LT, GTEQ, JEQ or ALLOC. */
  lemma UnreachableOpcodes(s: string)
    ensures FromMnemonic(s) !in {LT, GTEQ, JEQ, ALLOC}
  {
  }

  // ---------------------------------------------------------------------------
  // Character classes and number parsing.

  predicate IsLetter(c: char) {
    'a' <= c <= 'z' || 'A' <= c <= 'Z' || c == '_'
  }

  predicate IsDigit(c: char) {
    '0' <= c <= '9'
  }

  predicate IsWhitespace(c: char) {
    c == ' ' || c == '\t' || c == '\n' || c == '\r'
  }

  /** The value of `s` read as decimal digits, or None when `s` is empty or
      holds anything but digits. */
  function Digits(s: string): Option<nat> {
    if s == [] || !IsDigit(s[|s| - 1]) then None
    else
      var d := s[|s| - 1] as int - '0' as int;
      if |s| == 1 then Some(d)
      else match Digits(s[..|s| - 1])
        case None => None
        case Some(v) => Some(v * 10 + d)
  }

  /** Only text that starts with a digit is a number. */
  lemma {:induction false} DigitsStartWithDigit(s: string)
    ensures Digits(s).Some? ==> |s| > 0 && IsDigit(s[0])
  {
    if |s| > 1 {
      DigitsStartWithDigit(s[..|s| - 1]);
    }
  }

  /** `str::parse::<u8>`: an optional '+', then decimal digits, at most 255. */
  function ParseU8(s: string): (r: Option<byte>)
    ensures r.Some? ==> |s| > 0 && (IsDigit(s[0]) || s[0] == '+')
  {
    var digits := if |s| > 1 && s[0] == '+' then s[1..] else s;
    DigitsStartWithDigit(digits);
    match Digits(digits)
    case Some(v) => if v < 256 then Some(v) else None
    case None => None
  }

  /** `str::parse::<i32>`: an optional sign, then decimal digits, within i32. */
  function ParseI32(s: string): (r: Option<i32>)
    ensures r.Some? ==> |s| > 0 && (IsDigit(s[0]) || s[0] == '+' || s[0] == '-')
  {
    var signed := |s| > 1 && (s[0] == '+' || s[0] == '-');
    var digits := if signed then s[1..] else s;
    DigitsStartWithDigit(digits);
    match Digits(digits)
    case Some(v) =>
      var n: int := if signed && s[0] == '-' then -(v as int) else v;
      if InI32(n) then Some(n) else None
    case None => None
  }

  // ---------------------------------------------------------------------------
  // The scanner as a function of the position.

  /** The character at `i`, or '\0' once the input is exhausted (`unwrap_or('\0')`). */
  function CharAt(input: string, i: nat): char {
    if i < |input| then input[i] else '\0'
  }

  /** Where `skip_whitespace` leaves the cursor: the first position from `pos`
      on whose character is not whitespace. */
  function WhitespaceEnd(input: string, pos: nat): (p: nat)
    ensures pos <= p && !IsWhitespace(CharAt(input, p))
    ensures forall k :: pos <= k < p ==> IsWhitespace(CharAt(input, k))
    decreases |input| - pos
  {
    if IsWhitespace(CharAt(input, pos)) then WhitespaceEnd(input, pos + 1) else pos
  }

  /** Where `read_while(pred)` leaves the cursor: on the last character of the
      run that starts at `pos` and continues while the next character satisfies
      `pred`. */
  function RunEnd(input: string, pos: nat, pred: char -> bool): (e: nat)
    requires !pred('\0')
    ensures pos <= e
    ensures forall k :: pos < k <= e ==> pred(CharAt(input, k))
    ensures !pred(CharAt(input, e + 1))
    ensures pos < |input| ==> e < |input|
    decreases |input| - pos
  {
    if pred(CharAt(input, pos + 1)) then RunEnd(input, pos + 1, pred) else pos
  }

  /** A token and the position the lexer is left at. */
  datatype Lexed = Lexed(token: Token, pos: nat)

  /** `next_token` from position `pos`: skip whitespace, then read a token. */
  function Scan(input: string, pos: nat): Lexed {
    ScanToken(input, WhitespaceEnd(input, pos))
  }

  /** The token that starts at `p`. The lexer stays on the last character of
      each token. */
  function ScanToken(input: string, p: nat): Lexed {
    var c := CharAt(input, p);
    if c == '$' then LexRegister(input, p)
    else if c == '#' then LexInteger(input, p)
    else if IsLetter(c) then LexIdentifier(input, p)
    else if c == '\0' then Lexed(EOF, p)
    else Lexed(Operator(ILGL), p)
  }

  /** A register token for a span, 0 when the span is not a u8. */
  function RegisterToken(span: string): Token {
    Register(ParseU8(span).GetOr(0))
  }

  /** An operator token for a span: the table lookup of the mnemonic. */
  function IdentifierToken(span: string): Token {
    Operator(FromMnemonic(span))
  }

  /** An integer token for a span, 0 when the span is not an i32. */
  function IntegerToken(span: string): Token {
    Integer(ParseI32(span).GetOr(0))
  }

  /** `read_register` at `p`: the span starts at the sigil itself. */
  function LexRegister(input: string, p: nat): Lexed
    requires p < |input|
  {
    var e := RunEnd(input, p, IsDigit);
    Lexed(RegisterToken(input[p..e + 1]), e)
  }

  /** `read_integer` at `p`: the span starts at the sigil itself. */
  function LexInteger(input: string, p: nat): Lexed
    requires p < |input|
  {
    var e := RunEnd(input, p, IsDigit);
    Lexed(IntegerToken(input[p..e + 1]), e)
  }

  /** `read_identifier` at `p`: the mnemonic is looked up in the table. */
  function LexIdentifier(input: string, p: nat): Lexed
    requires p < |input|
  {
    var e := RunEnd(input, p, IsLetter);
    Lexed(IdentifierToken(input[p..e + 1]), e)
  }

  /** The three readers, spelled out for a span that ends at `e` (a helper for
      the `Lexer` methods below). */
  lemma LexedSpan(input: string, p: nat, e: nat)
    requires p < |input|
    ensures e == RunEnd(input, p, IsDigit) ==>
      && LexRegister(input, p) == Lexed(RegisterToken(input[p..e + 1]), e)
      && LexInteger(input, p) == Lexed(IntegerToken(input[p..e + 1]), e)
    ensures e == RunEnd(input, p, IsLetter) ==>
      LexIdentifier(input, p) == Lexed(IdentifierToken(input[p..e + 1]), e)
  {
  }

  /** A register or integer span is its sigil followed by every digit after
      it; the sigil is neither a digit nor a sign, so neither number parser
      accepts the span. */
  lemma LiteralSpan(input: string, p: nat)
    requires p < |input| && (input[p] == '$' || input[p] == '#')
    ensures var e := RunEnd(input, p, IsDigit); var span := input[p..e + 1];
      && span[0] == input[p]
      && (forall k :: 1 <= k < |span| ==> IsDigit(span[k]))
      && !IsDigit(CharAt(input, e + 1))
      && ParseU8(span) == None && ParseI32(span) == None
  {
    var e := RunEnd(input, p, IsDigit);
    var span := input[p..e + 1];
    forall k | 1 <= k < |span|
      ensures IsDigit(span[k])
    {
      assert p < p + k <= e;
      assert span[k] == CharAt(input, p + k);
    }
    assert span[0] == input[p] && !IsDigit(span[0]);
    assert ParseU8(span).None? && ParseI32(span).None?;
    assert !IsDigit(CharAt(input, e + 1));
  }

  /** The lexer's `Iterator::next`: EOF ends the iteration. */
  function Item(t: Token): (r: Option<Token>)
    ensures r.None? <==> t == EOF
    ensures r.Some? ==> r.value == t
  {
    if t == EOF then None else Some(t)
  }

  // ---------------------------------------------------------------------------
  // Properties of the scanner.

  /** The position never moves backwards, and the lexer is left no earlier
      than the first non-whitespace character. */
  lemma ScanAdvances(input: string, pos: nat)
    ensures Scan(input, pos).pos >= WhitespaceEnd(input, pos) >= pos
  {
  }

  /** At the end of the input `next_token` answers EOF and changes nothing, so
      EOF repeats forever. */
  lemma EofAbsorbing(input: string, pos: nat)
    ensures CharAt(input, pos) == '\0' ==> Scan(input, pos) == Lexed(EOF, pos)
    ensures var l := Scan(input, pos); l.token == EOF ==> Scan(input, l.pos) == l
  {
  }

  /** A character that starts no token gives `Operator(ILGL)` and is not
      consumed, so the same answer repeats forever. */
  lemma FallbackDoesNotConsume(input: string, pos: nat)
    requires var c := CharAt(input, WhitespaceEnd(input, pos));
      c != '$' && c != '#' && !IsLetter(c) && c != '\0'
    ensures var p := WhitespaceEnd(input, pos);
      Scan(input, pos) == Lexed(Operator(ILGL), p) && Scan(input, p) == Scan(input, pos)
  {
  }

  /** A literal's span starts at its sigil, which no number parser accepts, so
      every register and integer token carries 0. */
  lemma LiteralsReadAsZero(input: string, pos: nat)
    ensures Scan(input, pos).token.Register? ==> Scan(input, pos).token.index == 0
    ensures Scan(input, pos).token.Integer? ==> Scan(input, pos).token.value == 0
  {
  }

  /** The lexer stays on the last character of the token it read: an
      identifier ends on its last letter, a literal on its last digit (or on
      the sigil when no digit follows), and any other token does not move past
      its first character. The next token therefore starts exactly where this
      one ended, with no whitespace skipped. */
  lemma ScanStaysOnToken(input: string, pos: nat)
    ensures var p := WhitespaceEnd(input, pos); var l := Scan(input, pos); var c := CharAt(input, p);
      && p <= l.pos
      && (IsLetter(c) ==>
            (forall k :: p <= k <= l.pos ==> IsLetter(CharAt(input, k)))
            && !IsLetter(CharAt(input, l.pos + 1)))
      && ((c == '$' || c == '#') ==>
            (forall k :: p < k <= l.pos ==> IsDigit(CharAt(input, k)))
            && !IsDigit(CharAt(input, l.pos + 1)))
      && (!IsLetter(c) && c != '$' && c != '#' ==> l.pos == p)
    ensures var l := Scan(input, pos);
      WhitespaceEnd(input, l.pos) == l.pos
      && (l.token != EOF ==> l.pos < |input|)
  {
  }

  /** After any operator the lexer is stuck: the next token is `Operator(ILGL)`
      (the last letter read again, or the same unknown character) and the
      position does not move. */
  lemma OperatorThenStuck(input: string, pos: nat)
    requires Scan(input, pos).token.Operator?
    ensures var l := Scan(input, pos); Scan(input, l.pos) == Lexed(Operator(ILGL), l.pos)
  {
    var p := WhitespaceEnd(input, pos);
    var l := Scan(input, pos);
    if IsLetter(CharAt(input, p)) {
      var e := l.pos;
      assert IsLetter(CharAt(input, e));
      assert RunEnd(input, e, IsLetter) == e;
      assert |input[e..e + 1]| == 1;
    }
  }

  /** Only the first token carries information: from the second one on, the
      lexer answers the same token at the same position forever, and that
      token is EOF, `Operator(ILGL)`, `Register(0)` or `Integer(0)`. */
  lemma SecondTokenRepeats(input: string, pos: nat)
    ensures var l1 := Scan(input, pos); var l2 := Scan(input, l1.pos);
      && l2.pos == l1.pos && Scan(input, l2.pos) == l2
      && l2.token in {EOF, Operator(ILGL), Register(0), Integer(0)}
  {
    var l1 := Scan(input, pos);
    var e := l1.pos;
    ScanStaysOnToken(input, pos);
    LiteralsReadAsZero(input, e);
    if l1.token.Operator? {
      OperatorThenStuck(input, pos);
    } else if l1.token.Register? || l1.token.Integer? {
      var c := CharAt(input, e);
      assert c == '$' || c == '#' || IsDigit(c);
      if c == '$' || c == '#' {
        assert RunEnd(input, e, IsDigit) == e;
      }
    }
  }

  // ---------------------------------------------------------------------------
  // The lexer object.

  function Min(a: nat, b: nat): nat {
    if a <= b then a else b
  }

  /** `Chars::next` without the unwrap: the first character, or '\0' once empty. */
  function Head(chars: string): char {
    if chars == [] then '\0' else chars[0]
  }

  function Tail(chars: string): string {
    if chars == [] then [] else chars[1..]
  }

  class Lexer {
    const input: string
    var cursor: string
    var pos: nat
    var nextPos: nat
    var ch: char

    /** The cursor holds what comes after the first `nextPos` characters. */
    ghost predicate Synced()
      reads this
    {
      cursor == input[Min(nextPos, |input|)..]
    }

    ghost predicate Valid()
      reads this
    {
      Synced() && nextPos == pos + 1 && ch == CharAt(input, pos)
    }

    /** `Lexer::new`: reads the first character. */
    constructor (input: string)
      ensures Valid() && this.input == input && pos == 0
    {
      this.input := input;
      cursor := input;
      pos, nextPos := 0, 0;
      ch := '\0';
      new;
      ReadChar();
    }

    /** `read_char`: the next character becomes current; `pos` catches up with
        `nextPos`, which moves one further. */
    method ReadChar()
      requires Synced()
      modifies this`ch, this`pos, this`nextPos, this`cursor
      ensures Valid()
      ensures pos == old(nextPos) && nextPos == old(nextPos) + 1
    {
      ch := Head(cursor);
      cursor := Tail(cursor);
      pos := nextPos;
      nextPos := nextPos + 1;
    }

    /** `read_while`: peek through a copy of the cursor and advance while the
        next character satisfies `pred`; the span is `start .. end`. */
    method ReadWhile(pred: char -> bool) returns (start: nat, end: nat)
      requires Valid() && !pred('\0')
      modifies this`ch, this`pos, this`nextPos, this`cursor
      ensures Valid()
      ensures start == old(pos) && pos == RunEnd(input, old(pos), pred) && end == pos + 1
    {
      start := pos;
      var peek := cursor;
      while pred(Head(peek))
        invariant Valid() && peek == cursor && start <= pos
        invariant RunEnd(input, pos, pred) == RunEnd(input, start, pred)
        decreases |input| - pos
      {
        peek := Tail(peek);
        ReadChar();
      }
      end := nextPos;
    }

    method ReadIdentifier() returns (tok: Token)
      requires Valid() && pos < |input|
      modifies this`ch, this`pos, this`nextPos, this`cursor
      ensures Valid() && Lexed(tok, pos) == LexIdentifier(input, old(pos))
    {
      var start, end := ReadWhile(IsLetter);
      tok := IdentifierToken(input[start..end]);
      LexedSpan(input, start, pos);
    }

    method ReadInteger() returns (tok: Token)
      requires Valid() && pos < |input|
      modifies this`ch, this`pos, this`nextPos, this`cursor
      ensures Valid() && Lexed(tok, pos) == LexInteger(input, old(pos))
    {
      var start, end := ReadWhile(IsDigit);
      tok := IntegerToken(input[start..end]);
      LexedSpan(input, start, pos);
    }

    method ReadRegister() returns (tok: Token)
      requires Valid() && pos < |input|
      modifies this`ch, this`pos, this`nextPos, this`cursor
      ensures Valid() && Lexed(tok, pos) == LexRegister(input, old(pos))
    {
      var start, end := ReadWhile(IsDigit);
      tok := RegisterToken(input[start..end]);
      LexedSpan(input, start, pos);
    }

    method SkipWhitespace()
      requires Valid()
      modifies this`ch, this`pos, this`nextPos, this`cursor
      ensures Valid() && pos == WhitespaceEnd(input, old(pos))
      ensures !IsWhitespace(ch)
    {
      while IsWhitespace(ch)
        invariant Valid() && WhitespaceEnd(input, pos) == WhitespaceEnd(input, old(pos))
        decreases |input| - pos
      {
        ReadChar();
      }
    }

    /** `next_token`. */
    method NextToken() returns (tok: Token)
      requires Valid()
      modifies this`ch, this`pos, this`nextPos, this`cursor
      ensures Valid() && Lexed(tok, pos) == Scan(input, old(pos))
    {
      SkipWhitespace();
      if ch == '$' {
        tok := ReadRegister();
      } else if ch == '#' {
        tok := ReadInteger();
      } else if IsLetter(ch) {
        tok := ReadIdentifier();
      } else if ch == '\0' {
        tok := EOF;
      } else {
        tok := Operator(ILGL);
      }
    }

    /** `Iterator::next`. */
    method Next() returns (item: Option<Token>)
      requires Valid()
      modifies this`ch, this`pos, this`nextPos, this`cursor
      ensures Valid()
      ensures var l := Scan(input, old(pos)); pos == l.pos && item == Item(l.token)
    {
      var tok := NextToken();
      item := Item(tok);
    }
  }
}
