/** `AsmParser` as the object it is: the tokenizer's cursor moves as tokens
    are read and put back, the emitter's label table grows and the calls
    made on the emitter accumulate. Each method is proved to compute what
    the function of the same part of the grammar specifies. */
module Parser {
  import opened Base
  import opened Registers
  import opened Keywords
  import opened Operands
  import opened Fixup
  import opened Statements

  class AsmParser {
    /** The emitter's target and collaborators. */
    const env: Env
    /** The tokenizer: its input, as tokens, and the index of the next one. */
    var toks: seq<Token>
    var pos: nat
    /** The emitter: its named labels and the calls made on it so far. */
    var labels: LabelTable
    var trace: seq<Event>

    constructor(env: Env)
      ensures this.env == env
      ensures toks == [] && pos == 0
      ensures labels == map[] && trace == []
    {
      this.env := env;
      toks := [];
      pos := 0;
      labels := map[];
      trace := [];
    }

    /** The tokenizer's `next`: the token at the cursor, End past the end. */
    method Next() returns (t: Token)
      modifies this
      ensures t == TokenAt(toks, old(pos))
      ensures pos == old(pos) + 1
      ensures toks == old(toks)
      ensures labels == old(labels)
      ensures trace == old(trace)
    {
      t := TokenAt(toks, pos);
      pos := pos + 1;
    }

    // -------------------------------------------------------------------
    // Memory operands

    /** The displacement loop, entered with the operator `opType` just
      read. */
    method ParseDisp(opType: Token, disp0: u64) returns (closed: bool, disp: u64)
      requires pos >= 1 && opType == TokenAt(toks, pos - 1)
      modifies this
      ensures toks == old(toks)
      ensures labels == old(labels)
      ensures trace == old(trace)
      ensures var d := DispLoop(toks, old(pos) - 1, disp0);
              closed == d.closed && (closed ==> disp == d.disp && pos == d.pos)
    {
      var op := opType;
      disp := disp0;
      while true
        invariant pos >= 1 && op == TokenAt(toks, pos - 1)
        invariant toks == old(toks) && labels == old(labels) && trace == old(trace)
        invariant DispLoop(toks, pos - 1, disp) == DispLoop(toks, old(pos) - 1, disp0)
        decreases Remaining(toks, pos)
      {
        if op == RBracket {
          return true, disp;
        }
        if op != Add && op != Sub {
          return false, disp;
        }
        var t := Next();
        if !t.U64? {
          return false, disp;
        }
        disp := if op == Add then Unsigned64(disp + t.value) else Unsigned64(disp - t.value);
        op := Next();
      }
    }

    /** The displacement loop and the `]` branch that builds the operand. */
    method ParseAddressDisp(opType: Token, base: Option<Reg>, index: Option<Reg>, shift: nat, disp0: u64,
                            size: nat, abs: bool, seg: Option<Reg>) returns (err: Error, op: Operand)
      requires BuildArgsOk(base, index, shift)
      requires pos >= 1 && opType == TokenAt(toks, pos - 1)
      modifies this
      ensures toks == old(toks)
      ensures labels == old(labels)
      ensures trace == old(trace)
      ensures err == AddressDisp(toks, old(pos) - 1, base, index, shift, disp0, size, abs, seg).err
      ensures err == Ok ==> MemResult(err, op, pos) == AddressDisp(toks, old(pos) - 1, base, index, shift, disp0, size, abs, seg)
    {
      var closed, disp := ParseDisp(opType, disp0);
      if !closed {
        return InvalidAddress, NoOp;
      }
      err, op := Ok, BuildMem(base, index, shift, disp, size, abs, seg);
    }

    /** Label MemMul: the scale factor, then the displacement loop. */
    method ParseScale(base: Option<Reg>, index: Reg, size: nat, abs: bool, seg: Option<Reg>)
      returns (err: Error, op: Operand)
      requires base.Some? ==> ValidReg(base.value)
      requires ValidReg(index)
      modifies this
      ensures toks == old(toks)
      ensures labels == old(labels)
      ensures trace == old(trace)
      ensures err == AddressScale(toks, old(pos), base, index, size, abs, seg).err
      ensures err == Ok ==> MemResult(err, op, pos) == AddressScale(toks, old(pos), base, index, size, abs, seg)
    {
      var t := Next();
      if !t.U64? || ScaleShift(t.value).None? {
        return InvalidAddress, NoOp;
      }
      var opType := Next();
      err, op := ParseAddressDisp(opType, base, Some(index), ScaleShift(t.value).value, 0, size, abs, seg);
    }

    /** The address expression after a base register, `+` and an index
      register. */
    method ParseAfterIndex(base: Reg, index: Reg, size: nat, abs: bool, seg: Option<Reg>) returns (err: Error, op: Operand)
      requires ValidReg(base) && ValidReg(index)
      modifies this
      ensures toks == old(toks)
      ensures labels == old(labels)
      ensures trace == old(trace)
      ensures err == AddressAfterIndex(toks, old(pos), base, index, size, abs, seg).err
      ensures err == Ok ==> MemResult(err, op, pos) == AddressAfterIndex(toks, old(pos), base, index, size, abs, seg)
    {
      var opType := Next();
      if opType == Mul {
        err, op := ParseScale(Some(base), index, size, abs, seg);
      } else {
        err, op := ParseAddressDisp(opType, Some(base), Some(index), 0, 0, size, abs, seg);
      }
    }

    /** The address expression after its first register. */
    method ParseAfterRegister(reg: Reg, size: nat, abs: bool, seg: Option<Reg>) returns (err: Error, op: Operand)
      requires ValidReg(reg)
      modifies this
      ensures toks == old(toks)
      ensures labels == old(labels)
      ensures trace == old(trace)
      ensures err == AddressAfterRegister(toks, old(pos), reg, size, abs, seg).err
      ensures err == Ok ==> MemResult(err, op, pos) == AddressAfterRegister(toks, old(pos), reg, size, abs, seg)
    {
      var opType := Next();
      if opType == Mul {
        err, op := ParseScale(None, reg, size, abs, seg);
      } else if opType == Add {
        var t := Next();
        if t.Sym? {
          var index := ParseRegister(t.text);
          if index.None? {
            return InvalidAddress, NoOp;
          }
          err, op := ParseAfterIndex(reg, index.value, size, abs, seg);
        } else if t.U64? {
          var opType2 := Next();
          err, op := ParseAddressDisp(opType2, Some(reg), None, 0, t.value, size, abs, seg);
        } else {
          return InvalidAddress, NoOp;
        }
      } else if opType == Sub || opType == RBracket {
        err, op := ParseAddressDisp(opType, Some(reg), None, 0, 0, size, abs, seg);
      } else {
        return InvalidAddress, NoOp;
      }
    }

    /** Labels MemOp and MemRepeat: the memory operand after `[`; `abs`
      may come first, once. */
    method ParseMemory(size: nat, seg: Option<Reg>) returns (err: Error, op: Operand)
      modifies this
      ensures toks == old(toks)
      ensures labels == old(labels)
      ensures trace == old(trace)
      ensures err == Address(toks, old(pos), size, seg).err
      ensures err == Ok ==> MemResult(err, op, pos) == Address(toks, old(pos), size, seg)
    {
      var t := Next();
      var abs := false;
      if StartsAbs(t) {
        abs := true;
        t := Next();
      }
      err, op := ParseAddressTerm(t, size, seg, abs);
    }

    /** The address expression from its first term `t`, just read. */
    method ParseAddressTerm(t: Token, size: nat, seg: Option<Reg>, abs: bool) returns (err: Error, op: Operand)
      requires pos >= 1 && t == TokenAt(toks, pos - 1)
      modifies this
      ensures toks == old(toks)
      ensures labels == old(labels)
      ensures trace == old(trace)
      ensures err == AddressTerm(toks, old(pos) - 1, size, seg, abs).err
      ensures err == Ok ==> MemResult(err, op, pos) == AddressTerm(toks, old(pos) - 1, size, seg, abs)
    {
      if t.Sym? {
        var reg := ParseRegister(t.text);
        if reg.None? {
          return InvalidAddress, NoOp;
        }
        err, op := ParseAfterRegister(reg.value, size, abs, seg);
      } else if t == Add || t == Sub {
        err, op := ParseAddressDisp(t, None, None, 0, 0, size, abs, seg);
      } else if t.U64? {
        var opType := Next();
        err, op := ParseAddressDisp(opType, None, None, 0, t.value, size, abs, seg);
      } else {
        return InvalidAddress, NoOp;
      }
    }

    // -------------------------------------------------------------------
    // One operand

    /** The tokens after a size keyword: an optional `ptr`, then `[` or a
      segment prefix and `[`, then the memory operand. */
    method ParseSizedMemory(size: nat) returns (err: Error, op: Operand)
      modifies this
      ensures toks == old(toks)
      ensures labels == old(labels)
      ensures trace == old(trace)
      ensures err == SizedMemory(toks, old(pos), size).err
      ensures err == Ok ==> MemResult(err, op, pos) == SizedMemory(toks, old(pos), size)
    {
      var t := Next();
      if IsPtrKeyword(t) {
        t := Next();
      }
      if t == LBracket {
        err, op := ParseMemory(size, None);
        return;
      }
      if t.Sym? {
        err, op := ParseSegmentedMemory(t.text, size);
        return;
      }
      return InvalidAddress, NoOp;
    }

    /** A segment register `x`, `:` and `[` after a size keyword, then the
      memory operand. */
    method ParseSegmentedMemory(x: string, size: nat) returns (err: Error, op: Operand)
      modifies this
      ensures toks == old(toks)
      ensures labels == old(labels)
      ensures trace == old(trace)
      ensures err == SegmentedMemory(toks, old(pos), x, size).err
      ensures err == Ok ==> MemResult(err, op, pos) == SegmentedMemory(toks, old(pos), x, size)
    {
      var sreg := ParseRegister(x);
      if sreg.None? || !IsSegReg(sreg.value) {
        return InvalidAddress, NoOp;
      }
      var t := Next();
      if t != Colon {
        return InvalidAddress, NoOp;
      }
      t := Next();
      if t != LBracket {
        return InvalidAddress, NoOp;
      }
      err, op := ParseMemory(size, sreg);
    }

    /** An operand starting with the symbol `x`: a register, a segment
      register and perhaps a memory operand (what was read after it is put
      back otherwise), a sized memory operand, or a label, which is looked
      up and created when new. */
    method ParseSymbolOperand(x: string) returns (err: Error, op: Operand)
      modifies this
      ensures toks == old(toks)
      ensures trace == old(trace)
      ensures err == SymbolOperand(toks, x, old(pos), old(labels), env.capacity).err
      ensures labels == SymbolOperand(toks, x, old(pos), old(labels), env.capacity).labels
      ensures err == Ok ==> OperandResult(err, op, pos, labels) == SymbolOperand(toks, x, old(pos), old(labels), env.capacity)
    {
      var reg := ParseRegister(x);
      if reg.Some? {
        if !IsSegReg(reg.value) {
          return Ok, RegOp(reg.value);
        }
        var mark := pos;
        var t := Next();
        if t == Colon {
          var t2 := Next();
          if t2 == LBracket {
            err, op := ParseMemory(0, reg);
            return;
          }
        }
        pos := mark;
        return Ok, RegOp(reg.value);
      }
      var size := ParseSize(x);
      if size != 0 {
        err, op := ParseSizedMemory(size);
        return;
      }
      var h := HandleSymbol(labels, x, env.capacity);
      labels := h.labels;
      return h.err, LabelOp(h.handle);
    }

    /** `x86ParseOperand` for the token `tok` just read. */
    method ParseOperand(tok: Token) returns (err: Error, op: Operand)
      modifies this
      ensures toks == old(toks)
      ensures trace == old(trace)
      ensures err == OperandAt(toks, tok, old(pos), old(labels), env.capacity).err
      ensures labels == OperandAt(toks, tok, old(pos), old(labels), env.capacity).labels
      ensures err == Ok ==> OperandResult(err, op, pos, labels) == OperandAt(toks, tok, old(pos), old(labels), env.capacity)
    {
      if tok.Sym? {
        err, op := ParseSymbolOperand(tok.text);
      } else if tok == LBracket {
        err, op := ParseMemory(0, None);
      } else if tok.U64? {
        return Ok, Imm(Signed64(tok.value));
      } else if tok == Sub {
        var t := Next();
        if !t.U64? {
          return InvalidState, NoOp;
        }
        return Ok, Imm(Signed64(-Signed64(t.value)));
      } else {
        return InvalidState, NoOp;
      }
    }

    // -------------------------------------------------------------------
    // Decorators and the operand loop

    /** The `{}` groups after operand `current` at index `opIndex`, entered
      after the first `{`; returns the options and extra operand they leave
      and the token read after the last group. */
    method ParseDecorators(opIndex: nat, current: Operand, options0: set<Flag>, opExtra0: Operand)
      returns (err: Error, options: set<Flag>, opExtra: Operand, last: Token)
      modifies this
      ensures toks == old(toks)
      ensures labels == old(labels)
      ensures trace == old(trace)
      ensures err == DecoratorGroups(toks, old(pos), opIndex, current, options0, opExtra0).err
      ensures err == Ok ==>
                GroupsResult(err, options, opExtra, last, pos) == DecoratorGroups(toks, old(pos), opIndex, current, options0, opExtra0)
    {
      options, opExtra := options0, opExtra0;
      while true
        invariant toks == old(toks) && labels == old(labels) && trace == old(trace)
        invariant DecoratorGroups(toks, pos, opIndex, current, options, opExtra) ==
                  DecoratorGroups(toks, old(pos), opIndex, current, options0, opExtra0)
        decreases Remaining(toks, pos)
      {
        var t := Next();
        if !(t.Sym? || t.NSym?) {
          return InvalidState, options, opExtra, t;
        }
        var d := ClassifyDecorator(t.text);
        if !Allowed(d, opIndex, current, options, opExtra) {
          return InvalidState, options, opExtra, t;
        }
        options := options + Added(d);
        if d.Mask? {
          opExtra := RegOp(Reg(K, d.k));
        }
        t := Next();
        if t != RCurl {
          return InvalidState, options, opExtra, t;
        }
        t := Next();
        if t != LCurl {
          return Ok, options, opExtra, t;
        }
      }
    }

    /** The decorator groups after operand `current`, if a `{` follows;
      returns the token read after them. */
    method ParseDecorations(opIndex: nat, current: Operand, options0: set<Flag>, opExtra0: Operand)
      returns (err: Error, options: set<Flag>, opExtra: Operand, last: Token)
      modifies this
      ensures toks == old(toks)
      ensures labels == old(labels)
      ensures trace == old(trace)
      ensures err == Decorations(toks, old(pos), opIndex, current, options0, opExtra0).err
      ensures err == Ok ==>
                GroupsResult(err, options, opExtra, last, pos) == Decorations(toks, old(pos), opIndex, current, options0, opExtra0)
    {
      options, opExtra := options0, opExtra0;
      err := Ok;
      last := Next();
      if last == LCurl {
        err, options, opExtra, last := ParseDecorators(opIndex, current, options, opExtra);
      }
    }

    /** One operand whose first token `t` was just read, and its decorator
      groups. */
    method ParseOperandStep(t: Token, opIndex: nat, options0: set<Flag>, opExtra0: Operand)
      returns (err: Error, op: Operand, options: set<Flag>, opExtra: Operand, last: Token)
      modifies this
      ensures toks == old(toks)
      ensures trace == old(trace)
      ensures err == OperandStep(toks, t, old(pos), env.capacity, old(labels), opIndex, options0, opExtra0).err
      ensures labels == OperandStep(toks, t, old(pos), env.capacity, old(labels), opIndex, options0, opExtra0).labels
      ensures err == Ok ==>
                StepResult(err, op, options, opExtra, labels, last, pos) ==
                OperandStep(toks, t, old(pos), env.capacity, old(labels), opIndex, options0, opExtra0)
    {
      err, op := ParseOperand(t);
      if err != Ok {
        return err, NoOp, options0, opExtra0, t;
      }
      err, options, opExtra, last := ParseDecorations(opIndex, op, options0, opExtra0);
    }

    /** The operand loop, writing the operands into `opArray` and returning
      how many there are. */
    method ParseOperands(opArray: array<Operand>, options0: set<Flag>)
      returns (err: Error, opCount: nat, options: set<Flag>, opExtra: Operand, last: Token)
      requires opArray.Length == MaxOperands
      modifies this, opArray
      ensures toks == old(toks)
      ensures trace == old(trace)
      ensures err == OperandLoop(toks, old(pos), env.capacity, old(labels), [], options0, NoOp).err
      ensures labels == OperandLoop(toks, old(pos), env.capacity, old(labels), [], options0, NoOp).labels
      ensures err == Ok ==> opCount <= MaxOperands
      ensures err == Ok ==>
                LoopResult(err, opArray[..opCount], options, opExtra, labels, last, pos) ==
                OperandLoop(toks, old(pos), env.capacity, old(labels), [], options0, NoOp)
    {
      opCount, options, opExtra := 0, options0, NoOp;
      while true
        invariant opCount < MaxOperands
        invariant toks == old(toks) && trace == old(trace)
        invariant OperandLoop(toks, pos, env.capacity, labels, opArray[..opCount], options, opExtra) ==
                  OperandLoop(toks, old(pos), env.capacity, old(labels), [], options0, NoOp)
        decreases MaxOperands - opCount
      {
        var t := Next();
        if (t == NL || t == End) && opCount == 0 {
          return Ok, 0, options, opExtra, t;
        }
        ghost var ops := opArray[..opCount];
        var op;
        err, op, options, opExtra, last := ParseOperandStep(t, opCount, options, opExtra);
        if err != Ok {
          return;
        }
        opArray[opCount] := op;
        opCount := opCount + 1;
        assert opArray[..opCount] == ops + [op];
        if last == Comma {
          if opCount == MaxOperands {
            return InvalidState, opCount, options, opExtra, last;
          }
        } else if last == NL || last == End {
          return;
        } else {
          return InvalidState, opCount, options, opExtra, last;
        }
      }
    }

    /** The slots after the last operand are reset to empty ones. */
    method ResetOperands(opArray: array<Operand>, opCount: nat)
      requires opArray.Length == MaxOperands && opCount <= MaxOperands
      modifies opArray
      ensures opArray[..] == Pad(old(opArray[..opCount]))
    {
      for i := opCount to MaxOperands
        invariant opArray[..opCount] == old(opArray[..opCount])
        invariant forall j :: opCount <= j < i ==> opArray[j].NoOp?
      {
        opArray[i] := NoOp;
      }
      PaddedSlots(opArray[..], opCount);
    }

    // -------------------------------------------------------------------
    // Statements

    /** `x86ParseInstruction`: lower-case the mnemonic into a 32-byte
      buffer, try it as an alias, then as an instruction, then as an option
      that must be followed by another symbol. */
    method ParseInstruction(tok: Token) returns (err: Error, id: nat, options: set<Flag>)
      requires tok.Sym?
      modifies this
      ensures toks == old(toks)
      ensures labels == old(labels)
      ensures trace == old(trace)
      ensures err == ResolveInstruction(env, toks, tok, old(pos), {}).err
      ensures err == Ok ==> InstResult(err, id, options, pos) == ResolveInstruction(env, toks, tok, old(pos), {})
    {
      var t := tok;
      options := {};
      var lower := new char[MaxMnemonic];
      while true
        invariant t.Sym?
        invariant toks == old(toks) && labels == old(labels) && trace == old(trace)
        invariant ResolveInstruction(env, toks, t, pos, options) == ResolveInstruction(env, toks, tok, old(pos), {})
        decreases Remaining(toks, pos)
      {
        var x := t.text;
        if |x| > lower.Length {
          return InvalidInstruction, InvalidInst, options;
        }
        StrToLower(lower, x);
        var name := lower[..|x|];
        id := ParseAlias(env.ids, name);
        if id != InvalidInst {
          return Ok, id, options;
        }
        id := IdByName(env.names, name);
        if id != InvalidInst {
          return Ok, id, options;
        }
        var option := ParseOption(name);
        if option.None? || option.value in options {
          return InvalidInstruction, InvalidInst, options;
        }
        options := options + {option.value};
        t := Next();
        if !t.Sym? {
          return InvalidInstruction, InvalidInst, options;
        }
      }
    }

    /** An instruction statement whose mnemonic `tok` was just read:
      resolve it, parse the operands into a six-slot array, rewrite,
      validate, then make the setter calls and `_emit`. */
    method ParseInstructionStatement(tok: Token) returns (err: Error, last: Token)
      requires tok.Sym?
      modifies this
      ensures toks == old(toks)
      ensures err == InstructionStatement(env, toks, tok, old(pos), old(labels), old(trace)).err
      ensures labels == InstructionStatement(env, toks, tok, old(pos), old(labels), old(trace)).labels
      ensures trace == InstructionStatement(env, toks, tok, old(pos), old(labels), old(trace)).trace
      ensures err == Ok ==> StmtResult(err, labels, trace, last, pos) == InstructionStatement(env, toks, tok, old(pos), old(labels), old(trace))
    {
      var id, options;
      err, id, options := ParseInstruction(tok);
      if err != Ok {
        return err, End;
      }
      var opArray := new Operand[MaxOperands];
      var opCount, opExtra;
      err, opCount, options, opExtra, last := ParseOperands(opArray, options);
      if err != Ok {
        return;
      }
      ResetOperands(opArray, opCount);
      var newId, newCount := FixupInstruction(env.ids, env.x64, id, opArray, opCount);
      err := env.validate(env.x64, newId, options, opExtra, opArray[..newCount]);
      if err != Ok {
        return;
      }
      err := EmitInstruction(newId, options, opExtra, opArray, newCount);
    }

    /** The setter calls and `_emit` for a validated instruction. */
    method EmitInstruction(id: nat, options: set<Flag>, opExtra: Operand, opArray: array<Operand>, count: nat)
      returns (err: Error)
      requires opArray.Length == MaxOperands
      modifies this
      ensures toks == old(toks)
      ensures labels == old(labels)
      ensures pos == old(pos)
      ensures err == Statements.EmitInstruction(env, old(trace), id, options, opExtra, opArray[..], count).err
      ensures trace == Statements.EmitInstruction(env, old(trace), id, options, opExtra, opArray[..], count).trace
    {
      trace := trace + [SetOptions(options)];
      if !opExtra.NoOp? {
        trace := trace + [SetOpExtra(opExtra)];
      }
      if count > 4 {
        trace := trace + [SetOp4(opArray[4])];
      }
      if count > 5 {
        trace := trace + [SetOp5(opArray[5])];
      }
      assert trace == old(trace) + SetterCalls(options, opExtra, opArray[..], count);
      var emit := Emit(id, opArray[0], opArray[1], opArray[2], opArray[3]);
      err := env.status(trace, emit);
      trace := trace + [emit];
    }

    /** A label definition whose colon was just read: find or create the
      label, bind it, and read the token after it. */
    method ParseLabel(name: string) returns (err: Error, last: Token)
      modifies this
      ensures toks == old(toks)
      ensures err == LabelStatement(env, name, toks, old(pos), old(labels), old(trace)).err
      ensures labels == LabelStatement(env, name, toks, old(pos), old(labels), old(trace)).labels
      ensures trace == LabelStatement(env, name, toks, old(pos), old(labels), old(trace)).trace
      ensures err == Ok ==> StmtResult(err, labels, trace, last, pos) == LabelStatement(env, name, toks, old(pos), old(labels), old(trace))
    {
      var h := HandleSymbol(labels, name, env.capacity);
      labels := h.labels;
      if h.err != Ok {
        return h.err, End;
      }
      var bind := Bind(h.handle);
      err := env.status(trace, bind);
      trace := trace + [bind];
      if err != Ok {
        return err, End;
      }
      last := Next();
    }

    /** One statement: a label definition, an instruction (the token read
      to tell them apart is put back), or any other token. */
    method ParseStatement() returns (err: Error, last: Token)
      modifies this
      ensures toks == old(toks)
      ensures err == Statement(env, toks, old(pos), old(labels), old(trace)).err
      ensures labels == Statement(env, toks, old(pos), old(labels), old(trace)).labels
      ensures trace == Statement(env, toks, old(pos), old(labels), old(trace)).trace
      ensures err == Ok ==> StmtResult(err, labels, trace, last, pos) == Statement(env, toks, old(pos), old(labels), old(trace))
    {
      var t := Next();
      if !t.Sym? {
        return Ok, t;
      }
      var tmp := Next();
      if tmp == Colon {
        err, last := ParseLabel(t.text);
      } else {
        pos := pos - 1;
        err, last := ParseInstructionStatement(t);
      }
    }

    /** `AsmParser::parse`: statements separated by newlines until the end
      of `input`; the first error ends the parse. */
    method Parse(input: seq<Token>) returns (err: Error)
      modifies this
      ensures toks == input
      ensures err == ParseFrom(env, input, 0, old(labels), old(trace)).err
      ensures labels == ParseFrom(env, input, 0, old(labels), old(trace)).labels
      ensures trace == ParseFrom(env, input, 0, old(labels), old(trace)).trace
    {
      toks, pos := input, 0;
      while true
        invariant toks == input
        invariant ParseFrom(env, toks, pos, labels, trace) == ParseFrom(env, input, 0, old(labels), old(trace))
        decreases Remaining(toks, pos)
      {
        var last;
        err, last := ParseStatement();
        if err != Ok {
          return;
        }
        if last == End {
          return Ok;
        }
        if last != NL {
          return InvalidState;
        }
      }
    }
  }
}
