/** Operands and the grammar of one operand (`asmHandleSymbol` and
    `x86ParseOperand`), as functions of the token stream and a cursor.
    Cursor arguments are the tokenizer position: `q` is the index of the
    next token `next` would return. */
module Operands {
  import opened Base
  import opened Registers
  import opened Keywords

  /** The four memory-operand constructors the parser uses. `disp` is the
      32-bit displacement; `addr` is the 64-bit absolute address
      `uint64_t(disp32)` that the two base-less constructors take. */
  datatype MemForm =
    | BaseDisp(base: Reg, disp: int)
    | BaseIndexDisp(base: Reg, index: Reg, shift: nat, disp: int)
    | IndexAddr(addr: u64, index: Reg, shift: nat)
    | AbsAddr(addr: u64)

  /** An operand: none (a reset slot), a register, a memory reference with
      its size (0 when unknown), absolute flag and optional segment, an
      immediate (a signed 64-bit value) or a label handle. */
  datatype Operand =
    | NoOp
    | RegOp(reg: Reg)
    | MemOp(form: MemForm, size: nat, abs: bool, seg: Option<Reg>)
    | Imm(value: int)
    | LabelOp(handle: nat)

  predicate IsInt32(x: int)
  {
    -0x8000_0000 <= x < 0x8000_0000
  }

  /** A memory operand as the parser builds it: recognised registers, a
      scale shift of at most 3 and a displacement that fits in 32 signed
      bits (for the base-less forms: an address that is the sign extension
      of one). */
  predicate WellFormedMem(op: Operand)
  {
    op.MemOp? &&
    match op.form
    case BaseDisp(b, d) => ValidReg(b) && IsInt32(d)
    case BaseIndexDisp(b, i, sh, d) => ValidReg(b) && ValidReg(i) && sh <= 3 && IsInt32(d)
    case IndexAddr(a, i, sh) => ValidReg(i) && sh <= 3 && IsInt32(Signed64(a))
    case AbsAddr(a) => IsInt32(Signed64(a))
  }

  predicate WellFormed(op: Operand)
  {
    match op
    case NoOp => true
    case RegOp(r) => ValidReg(r)
    case MemOp(_, _, _, seg) => WellFormedMem(op) && (seg.Some? ==> ValidReg(seg.value) && IsSegReg(seg.value))
    case Imm(v) => -TWO63 <= v < TWO63
    case LabelOp(_) => true
  }

  /** A sign-extended 32-bit value read back as a signed 64-bit value. */
  lemma {:induction false} SignExtendRoundTrip(y: int)
    requires IsInt32(y)
    ensures Signed64(Unsigned64(y)) == y
  {
    if y < 0 {
      assert y % TWO64 == y + TWO64;
    } else {
      assert y % TWO64 == y;
    }
  }

  // ---------------------------------------------------------------------
  // Labels

  /** The emitter's table of named labels: name to label handle. */
  type LabelTable = map<string, nat>

  /** `b` keeps every label of `a` under the same handle. */
  predicate Extends(a: LabelTable, b: LabelTable)
  {
    forall n :: n in a ==> n in b && b[n] == a[n]
  }

  datatype SymResult = SymResult(err: Error, handle: nat, labels: LabelTable)

  /** `asmHandleSymbol`: find the label of that name, or create it. Creating
      fails with NoHeapMemory when the table already holds `capacity`
      labels; a new label takes the next handle. */
  function HandleSymbol(labels: LabelTable, name: string, capacity: nat): (r: SymResult)
    ensures r.err == Ok || r.err == NoHeapMemory
    ensures r.err == Ok ==> name in r.labels
    ensures r.err == Ok ==> r.labels[name] == r.handle
    ensures r.err == Ok ==> r.labels.Keys == labels.Keys + {name}
    ensures Extends(labels, r.labels)
    ensures r.err == NoHeapMemory <==> name !in labels && |labels| >= capacity
    ensures r.err == NoHeapMemory ==> r.labels == labels
  {
    if name in labels then SymResult(Ok, labels[name], labels)
    else if |labels| < capacity then SymResult(Ok, |labels|, labels[name := |labels|])
    else SymResult(NoHeapMemory, 0, labels)
  }

  /** Looking a name up a second time finds the label the first lookup
      found or created, and changes nothing. */
  lemma {:induction false} HandleSymbolIdempotent(labels: LabelTable, name: string, capacity: nat)
    requires HandleSymbol(labels, name, capacity).err == Ok
    ensures var r := HandleSymbol(labels, name, capacity);
            HandleSymbol(r.labels, name, capacity) == SymResult(Ok, r.handle, r.labels)
  {
  }

  // ---------------------------------------------------------------------
  // Memory operands

  datatype MemResult = MemResult(err: Error, op: Operand, pos: nat)

  /** The `]` branch: truncate the displacement to 32 bits and pick one of
      the four constructors by which registers are present. */
  function BuildMem(base: Option<Reg>, index: Option<Reg>, shift: nat, disp: u64,
                    size: nat, abs: bool, seg: Option<Reg>): (op: Operand)
    ensures op.MemOp?
    ensures op.size == size
    ensures op.abs == abs
    ensures op.seg == seg
  {
    var disp32 := Signed32(disp);
    var form :=
      if base.Some? && index.None? then BaseDisp(base.value, disp32)
      else if base.Some? && index.Some? then BaseIndexDisp(base.value, index.value, shift, disp32)
      else if base.None? && index.Some? then IndexAddr(Unsigned64(disp32), index.value, shift)
      else AbsAddr(Unsigned64(disp32));
    MemOp(form, size, abs, seg)
  }

  /** The constructor depends only on which registers are present, and
      each carries the registers, the shift and the 32-bit truncation of
      the displacement. */
  lemma {:induction false} BuildMemForm(base: Option<Reg>, index: Option<Reg>, shift: nat, disp: u64,
                     size: nat, abs: bool, seg: Option<Reg>)
    ensures var f := BuildMem(base, index, shift, disp, size, abs, seg).form;
            (f.BaseDisp? <==> base.Some? && index.None?) &&
            (f.BaseIndexDisp? <==> base.Some? && index.Some?) &&
            (f.IndexAddr? <==> base.None? && index.Some?) &&
            (f.AbsAddr? <==> base.None? && index.None?) &&
            ((f.BaseDisp? || f.BaseIndexDisp?) ==> f.base == base.value && f.disp == Signed32(disp)) &&
            ((f.BaseIndexDisp? || f.IndexAddr?) ==> f.index == index.value && f.shift == shift) &&
            ((f.IndexAddr? || f.AbsAddr?) ==> Signed64(f.addr) == Signed32(disp))
  {
    SignExtendRoundTrip(Signed32(disp));
  }

  predicate BuildArgsOk(base: Option<Reg>, index: Option<Reg>, shift: nat)
  {
    (base.Some? ==> ValidReg(base.value)) && (index.Some? ==> ValidReg(index.value)) && shift <= 3
  }

  lemma {:induction false} BuildMemWellFormed(base: Option<Reg>, index: Option<Reg>, shift: nat, disp: u64,
                           size: nat, abs: bool, seg: Option<Reg>)
    requires BuildArgsOk(base, index, shift)
    ensures WellFormedMem(BuildMem(base, index, shift, disp, size, abs, seg))
  {
    SignExtendRoundTrip(Signed32(disp));
  }

  /** Where the displacement loop stops: whether it reached `]`, the
      displacement accumulated so far and the cursor after the last token it
      consumed. */
  datatype DispResult = DispResult(closed: bool, disp: u64, pos: nat)

  /** The displacement loop (the `for (;;)` at line 468). The token at `q`
      is the operator read last (`opType`): `]` ends the loop, `+` and `-`
      must be followed by an integer, which is added to or subtracted from
      the 64-bit displacement with wrap-around. */
  function DispLoop(toks: seq<Token>, q: nat, disp: u64): (r: DispResult)
    ensures r.closed ==> r.pos > q
    ensures r.closed ==> TokenAt(toks, r.pos - 1) == RBracket
    decreases Remaining(toks, q)
  {
    var opType := TokenAt(toks, q);
    if opType == RBracket then DispResult(true, disp, q + 1)
    else if opType != Add && opType != Sub then DispResult(false, disp, q)
    else
      var t := TokenAt(toks, q + 1);
      if !t.U64? then DispResult(false, disp, q)
      else DispLoop(toks, q + 2, if opType == Add then Unsigned64(disp + t.value) else Unsigned64(disp - t.value))
  }

  /** The displacement loop followed by the `]` branch that builds the
      operand; anything else where an operator is expected is an invalid
      address. */
  function AddressDisp(toks: seq<Token>, q: nat, base: Option<Reg>, index: Option<Reg>, shift: nat,
                       disp: u64, size: nat, abs: bool, seg: Option<Reg>): (r: MemResult)
    requires BuildArgsOk(base, index, shift)
    ensures r.err == Ok || r.err == InvalidAddress
    ensures r.err == Ok ==> r.pos > q
    ensures r.err == Ok ==> TokenAt(toks, r.pos - 1) == RBracket
    ensures r.err == Ok ==> r.pos <= |toks|
    ensures r.err == Ok ==> WellFormedMem(r.op)
    ensures r.err == Ok ==> r.op.size == size
    ensures r.err == Ok ==> r.op.abs == abs
    ensures r.err == Ok ==> r.op.seg == seg
  {
    var d := DispLoop(toks, q, disp);
    if !d.closed then MemResult(InvalidAddress, NoOp, q)
    else
      BuildMemWellFormed(base, index, shift, d.disp, size, abs, seg);
      MemResult(Ok, BuildMem(base, index, shift, d.disp, size, abs, seg), d.pos)
  }

  /** The shift a scale factor selects: 1, 2, 4, 8 give 0, 1, 2, 3. */
  function ScaleShift(scale: nat): Option<nat>
  {
    if scale == 1 then Some(0)
    else if scale == 2 then Some(1)
    else if scale == 4 then Some(2)
    else if scale == 8 then Some(3)
    else None
  }

  /** Label MemMul: the token at `q` must be the scale factor. */
  function AddressScale(toks: seq<Token>, q: nat, base: Option<Reg>, index: Reg,
                        size: nat, abs: bool, seg: Option<Reg>): (r: MemResult)
    requires base.Some? ==> ValidReg(base.value)
    requires ValidReg(index)
    ensures r.err == Ok || r.err == InvalidAddress
    ensures r.err == Ok ==> r.pos > q
    ensures r.err == Ok ==> r.pos <= |toks|
    ensures r.err == Ok ==> WellFormedMem(r.op)
    ensures r.err == Ok ==> r.op.size == size
    ensures r.err == Ok ==> r.op.abs == abs
    ensures r.err == Ok ==> r.op.seg == seg
  {
    var t := TokenAt(toks, q);
    if !t.U64? || ScaleShift(t.value).None? then MemResult(InvalidAddress, NoOp, q)
    else AddressDisp(toks, q + 1, base, Some(index), ScaleShift(t.value).value, 0, size, abs, seg)
  }

  predicate IsAbsKeyword(x: string)
  {
    |x| == 3 && LowerStr(x) == "abs"
  }

  /** After `base +` and an index register `index` at `q - 1`: an optional
      `* scale`, then the displacement loop. */
  function AddressAfterIndex(toks: seq<Token>, q: nat, base: Reg, index: Reg, size: nat, abs: bool, seg: Option<Reg>): (r: MemResult)
    requires ValidReg(base) && ValidReg(index)
    ensures r.err == Ok || r.err == InvalidAddress
    ensures r.err == Ok ==> r.pos > q
    ensures r.err == Ok ==> r.pos <= |toks|
    ensures r.err == Ok ==> WellFormedMem(r.op)
    ensures r.err == Ok ==> r.op.size == size
    ensures r.err == Ok ==> r.op.abs == abs
    ensures r.err == Ok ==> r.op.seg == seg
  {
    if TokenAt(toks, q) == Mul then AddressScale(toks, q + 1, Some(base), index, size, abs, seg)
    else AddressDisp(toks, q, Some(base), Some(index), 0, 0, size, abs, seg)
  }

  /** The address expression once its first register `reg` has been read
      at `q - 1`: `*` makes it the index; `+` may bring the index register
      or an integer; `-` and `]` go straight to the displacement loop. */
  function AddressAfterRegister(toks: seq<Token>, q: nat, reg: Reg, size: nat, abs: bool, seg: Option<Reg>): (r: MemResult)
    requires ValidReg(reg)
    ensures r.err == Ok || r.err == InvalidAddress
    ensures r.err == Ok ==> r.pos > q
    ensures r.err == Ok ==> r.pos <= |toks|
    ensures r.err == Ok ==> WellFormedMem(r.op)
    ensures r.err == Ok ==> r.op.size == size
    ensures r.err == Ok ==> r.op.abs == abs
    ensures r.err == Ok ==> r.op.seg == seg
  {
    var opType := TokenAt(toks, q);
    if opType == Mul then AddressScale(toks, q + 1, None, reg, size, abs, seg)
    else if opType == Add then
      var t2 := TokenAt(toks, q + 1);
      if t2.Sym? then
        var index := ParseRegister(t2.text);
        if index.None? then MemResult(InvalidAddress, NoOp, q)
        else AddressAfterIndex(toks, q + 2, reg, index.value, size, abs, seg)
      else if t2.U64? then AddressDisp(toks, q + 2, Some(reg), None, 0, t2.value, size, abs, seg)
      else MemResult(InvalidAddress, NoOp, q)
    else if opType == Sub || opType == RBracket then AddressDisp(toks, q, Some(reg), None, 0, 0, size, abs, seg)
    else MemResult(InvalidAddress, NoOp, q)
  }

  /** The address expression from its first term on, `abs` having been
      read or not: a register, or `+`/`-`, or an integer; all terms after
      the registers are integers. */
  function AddressTerm(toks: seq<Token>, q: nat, size: nat, seg: Option<Reg>, abs: bool): (r: MemResult)
    ensures r.err == Ok || r.err == InvalidAddress
    ensures r.err == Ok ==> r.pos > q
    ensures r.err == Ok ==> r.pos <= |toks|
    ensures r.err == Ok ==> WellFormedMem(r.op)
    ensures r.err == Ok ==> r.op.size == size
    ensures r.err == Ok ==> r.op.seg == seg
    ensures r.err == Ok ==> r.op.abs == abs
  {
    var t := TokenAt(toks, q);
    if t.Sym? then
      var reg := ParseRegister(t.text);
      if reg.None? then MemResult(InvalidAddress, NoOp, q)
      else AddressAfterRegister(toks, q + 1, reg.value, size, abs, seg)
    else if t == Add || t == Sub then AddressDisp(toks, q, None, None, 0, 0, size, abs, seg)
    else if t.U64? then AddressDisp(toks, q + 1, None, None, 0, t.value, size, abs, seg)
    else MemResult(InvalidAddress, NoOp, q)
  }

  /** The lexeme that makes an address absolute: `abs` in any letter case
      (it names no register). */
  predicate StartsAbs(t: Token)
  {
    t.Sym? && ParseRegister(t.text).None? && IsAbsKeyword(t.text)
  }

  /** Labels MemOp/MemRepeat: the address expression after `[`, up to and
      including `]`. `abs` may come first, once (a second one is not a
      register and is refused as the first term). */
  function Address(toks: seq<Token>, q: nat, size: nat, seg: Option<Reg>): (r: MemResult)
    ensures r.err == Ok || r.err == InvalidAddress
    ensures r.err == Ok ==> r.pos > q
    ensures r.err == Ok ==> r.pos <= |toks|
    ensures r.err == Ok ==> WellFormedMem(r.op)
    ensures r.err == Ok ==> r.op.size == size
    ensures r.err == Ok ==> r.op.seg == seg
    ensures r.err == Ok ==> (r.op.abs <==> StartsAbs(TokenAt(toks, q)))
  {
    if StartsAbs(TokenAt(toks, q)) then AddressTerm(toks, q + 1, size, seg, true)
    else AddressTerm(toks, q, size, seg, false)
  }

  // ---------------------------------------------------------------------
  // One operand

  datatype OperandResult = OperandResult(err: Error, op: Operand, pos: nat, labels: LabelTable)

  function FromMem(m: MemResult, labels: LabelTable): OperandResult
  {
    OperandResult(m.err, m.op, m.pos, labels)
  }

  predicate IsPtrKeyword(t: Token)
  {
    t.Sym? && |t.text| == 3 && LowerStr(t.text) == "ptr"
  }

  /** A memory operand after a size keyword (and `ptr`) and the symbol
      `x`, the tokenizer being at `q`: `x` must name a segment register,
      followed by `:` and `[`. */
  function SegmentedMemory(toks: seq<Token>, q: nat, x: string, size: nat): (r: MemResult)
    ensures r.err == Ok || r.err == InvalidAddress
    ensures r.err == Ok ==> r.pos >= q
    ensures r.err == Ok ==> WellFormedMem(r.op)
    ensures r.err == Ok ==> r.op.size == size
  {
    var sreg := ParseRegister(x);
    if sreg.None? || !IsSegReg(sreg.value) then MemResult(InvalidAddress, NoOp, q)
    else if TokenAt(toks, q) != Colon then MemResult(InvalidAddress, NoOp, q)
    else if TokenAt(toks, q + 1) == LBracket then Address(toks, q + 2, size, sreg)
    else MemResult(InvalidAddress, NoOp, q)
  }

  /** A memory operand after the size keyword giving `size`, the tokenizer
      being at `q`: an optional `ptr`, then `[`, or a segment register, `:`
      and `[`. */
  function SizedMemory(toks: seq<Token>, q: nat, size: nat): (r: MemResult)
    ensures r.err == Ok || r.err == InvalidAddress
    ensures r.err == Ok ==> r.pos >= q
    ensures r.err == Ok ==> WellFormedMem(r.op)
    ensures r.err == Ok ==> r.op.size == size
  {
    var t := TokenAt(toks, q);
    var q1 := if IsPtrKeyword(t) then q + 2 else q + 1;
    var t1 := if IsPtrKeyword(t) then TokenAt(toks, q + 1) else t;
    if t1 == LBracket then Address(toks, q1, size, None)
    else if t1.Sym? then SegmentedMemory(toks, q1, t1.text, size)
    else MemResult(InvalidAddress, NoOp, q)
  }

  /** An operand that starts with the symbol `x`, the tokenizer being at
      `q`: a register; a segment register followed by `:[`, which starts a
      memory operand with that segment; a size keyword and a memory operand;
      otherwise a label. A segment register that is not followed by `:[` is
      handed back with the cursor just after it (`back`). */
  function SymbolOperand(toks: seq<Token>, x: string, q: nat, labels: LabelTable, capacity: nat): (r: OperandResult)
    ensures r.err == Ok ==> r.pos >= q
    ensures r.err == Ok ==> WellFormed(r.op)
    ensures r.err == Ok ==> r.op != NoOp
    ensures r.err != Ok && r.err != NoHeapMemory ==> r.labels == labels
  {
    var reg := ParseRegister(x);
    if reg.Some? then
      if !IsSegReg(reg.value) then OperandResult(Ok, RegOp(reg.value), q, labels)
      else if TokenAt(toks, q) == Colon && TokenAt(toks, q + 1) == LBracket then
        FromMem(Address(toks, q + 2, 0, reg), labels)
      else OperandResult(Ok, RegOp(reg.value), q, labels)
    else
      var size := ParseSize(x);
      if size != 0 then FromMem(SizedMemory(toks, q, size), labels)
      else
        var h := HandleSymbol(labels, x, capacity);
        OperandResult(h.err, LabelOp(h.handle), q, h.labels)
  }

  /** `x86ParseOperand` for the token `tok` just read, the tokenizer being at
      `q`: an operand starting with a symbol; a memory operand; an integer,
      or `-` and an integer, as an immediate (the negation wraps around in
      64 bits). */
  function OperandAt(toks: seq<Token>, tok: Token, q: nat, labels: LabelTable, capacity: nat): (r: OperandResult)
    ensures r.err == Ok ==> r.pos >= q
    ensures r.err == Ok ==> WellFormed(r.op)
    ensures r.err == Ok ==> r.op != NoOp
    ensures r.err != Ok && r.err != NoHeapMemory ==> r.labels == labels
  {
    match tok
    case Sym(x) => SymbolOperand(toks, x, q, labels, capacity)
    case LBracket => FromMem(Address(toks, q, 0, None), labels)
    case U64(v) => OperandResult(Ok, Imm(Signed64(v)), q, labels)
    case Sub =>
      var t := TokenAt(toks, q);
      if t.U64? then OperandResult(Ok, Imm(Signed64(-Signed64(t.value))), q + 1, labels)
      else OperandResult(InvalidState, NoOp, q, labels)
    case _ => OperandResult(InvalidState, NoOp, q, labels)
  }
}

/** Properties of the operand grammar: what each accepted address shape
    denotes, what is rejected, and how immediates and registers come out. */
module OperandLaws {
  import opened Base
  import opened Registers
  import opened Keywords
  import opened Operands

  // ---------------------------------------------------------------------
  // Arithmetic facts about the fixed-width conversions

  lemma {:induction false} Signed64Congruent(a: int, b: int)
    requires (a - b) % TWO64 == 0
    ensures Signed64(a) == Signed64(b)
  {
    assert a % TWO64 == b % TWO64;
  }

  lemma {:induction false} Signed32Congruent(a: int, b: int)
    requires (a - b) % TWO64 == 0
    ensures Signed32(a) == Signed32(b)
  {
    assert a % TWO32 == b % TWO32;
  }

  lemma {:induction false} Unsigned64Add(a: int, b: int)
    ensures Unsigned64(Unsigned64(a) + b) == Unsigned64(a + b)
  {
    assert (Unsigned64(a) + b) % TWO64 == (a + b) % TWO64;
  }

  // ---------------------------------------------------------------------
  // Displacement terms

  /** One `+ n` or `- n` term of an address expression. */
  datatype Term = Plus(v: u64) | Minus(v: u64)

  function TermOp(t: Term): Token
  {
    if t.Plus? then Add else Sub
  }

  function TermValue(t: Term): int
  {
    if t.Plus? then t.v as int else -(t.v as int)
  }

  /** The exact (unbounded) value of a run of terms. */
  function TermSum(terms: seq<Term>): int
  {
    if terms == [] then 0 else TermValue(terms[0]) + TermSum(terms[1..])
  }

  /** The stream holds the run of terms `terms` from position `q` on: an
      operator and an integer token per term. */
  predicate TermsAt(toks: seq<Token>, q: nat, terms: seq<Term>)
    decreases |terms|
  {
    terms == [] ||
    (TokenAt(toks, q) == TermOp(terms[0]) && TokenAt(toks, q + 1) == U64(terms[0].v) &&
     TermsAt(toks, q + 2, terms[1..]))
  }

  /** One turn of the displacement loop. */
  lemma {:induction false} DispStep(toks: seq<Token>, q: nat, disp: u64, t: Term)
    requires TokenAt(toks, q) == TermOp(t) && TokenAt(toks, q + 1) == U64(t.v)
    ensures DispLoop(toks, q, disp) == DispLoop(toks, q + 2, Unsigned64(disp + TermValue(t)))
  {
  }

  /** Adding the terms one at a time with wrap-around gives the exact sum
      modulo 2^64. */
  lemma {:induction false} SumStep(disp: u64, terms: seq<Term>)
    requires terms != []
    ensures Unsigned64(Unsigned64(disp + TermValue(terms[0])) + TermSum(terms[1..])) ==
            Unsigned64(disp + TermSum(terms))
  {
    Unsigned64Add(disp + TermValue(terms[0]), TermSum(terms[1..]));
  }

  /** The displacement loop over a run of terms accumulates their exact sum
      modulo 2^64 and carries on where the run ends. */
  lemma {:induction false} DispTerms(toks: seq<Token>, q: nat, terms: seq<Term>, disp: u64)
    requires TermsAt(toks, q, terms)
    ensures DispLoop(toks, q, disp) == DispLoop(toks, q + 2 * |terms|, Unsigned64(disp + TermSum(terms)))
    decreases |terms|
  {
    if terms == [] {
      assert Unsigned64(disp + 0) == disp;
    } else {
      var rest, d1 := terms[1..], Unsigned64(disp + TermValue(terms[0]));
      calc {
        DispLoop(toks, q, disp);
        { DispStep(toks, q, disp, terms[0]); }
        DispLoop(toks, q + 2, d1);
        { DispTerms(toks, q + 2, rest, d1); }
        DispLoop(toks, q + 2 + 2 * |rest|, Unsigned64(d1 + TermSum(rest)));
        { SumStep(disp, terms); }
        DispLoop(toks, q + 2 * |terms|, Unsigned64(disp + TermSum(terms)));
      }
    }
  }

  lemma {:induction false} DispBracket(toks: seq<Token>, p: nat, disp: u64)
    requires TokenAt(toks, p) == RBracket
    ensures DispLoop(toks, p, disp) == DispResult(true, disp, p + 1)
  {
  }

  /** A displacement loop that reaches `]` yields the operand built from
      the displacement it accumulated. */
  lemma {:induction false} DispClosed(toks: seq<Token>, q: nat, base: Option<Reg>, index: Option<Reg>, shift: nat,
                   disp: u64, x: u64, p: nat, size: nat, abs: bool, seg: Option<Reg>)
    requires BuildArgsOk(base, index, shift)
    requires DispLoop(toks, q, disp) == DispResult(true, x, p)
    ensures AddressDisp(toks, q, base, index, shift, disp, size, abs, seg) ==
            MemResult(Ok, BuildMem(base, index, shift, x, size, abs, seg), p)
  {
  }

  /** A run of terms closed by `]`: the operand carries the exact sum of
      the terms modulo 2^64 (which `BuildMem` truncates to 32 bits). */
  lemma {:induction false} ClosedTerms(toks: seq<Token>, q: nat, terms: seq<Term>,
                    base: Option<Reg>, index: Option<Reg>, shift: nat,
                    disp: u64, size: nat, abs: bool, seg: Option<Reg>)
    requires BuildArgsOk(base, index, shift)
    requires TermsAt(toks, q, terms) && TokenAt(toks, q + 2 * |terms|) == RBracket
    ensures AddressDisp(toks, q, base, index, shift, disp, size, abs, seg) ==
            MemResult(Ok, BuildMem(base, index, shift, Unsigned64(disp + TermSum(terms)), size, abs, seg),
                      q + 2 * |terms| + 1)
  {
    var x, p := Unsigned64(disp + TermSum(terms)), q + 2 * |terms|;
    assert DispLoop(toks, q, disp) == DispResult(true, x, p + 1) by {
      DispTerms(toks, q, terms, disp);
      DispBracket(toks, p, x);
    }
    DispClosed(toks, q, base, index, shift, disp, x, p + 1, size, abs, seg);
  }

  /** A run of terms that is neither closed by `]` nor continued by another
      term is an invalid address. */
  lemma {:induction false} UnclosedTerms(toks: seq<Token>, q: nat, terms: seq<Term>,
                      base: Option<Reg>, index: Option<Reg>, shift: nat,
                      disp: u64, size: nat, abs: bool, seg: Option<Reg>)
    requires BuildArgsOk(base, index, shift)
    requires TermsAt(toks, q, terms)
    requires TokenAt(toks, q + 2 * |terms|) !in {RBracket, Add, Sub}
    ensures AddressDisp(toks, q, base, index, shift, disp, size, abs, seg).err == InvalidAddress
  {
    assert !DispLoop(toks, q, disp).closed by {
      DispTerms(toks, q, terms, disp);
    }
  }

  /** A register after `+` or `-` in the displacement loop (a third
      register, or a register after an integer term) is an invalid address. */
  lemma {:induction false} RegisterInDispRejected(toks: seq<Token>, q: nat, base: Option<Reg>, index: Option<Reg>, shift: nat,
                               disp: u64, size: nat, abs: bool, seg: Option<Reg>)
    requires BuildArgsOk(base, index, shift)
    requires TokenAt(toks, q) == Add || TokenAt(toks, q) == Sub
    requires !TokenAt(toks, q + 1).U64?
    ensures AddressDisp(toks, q, base, index, shift, disp, size, abs, seg).err == InvalidAddress
  {
  }

  // ---------------------------------------------------------------------
  // Address shapes

  /** `[base + index * scale]`: a base and an index register, the shift the
      scale selects and a zero displacement. */
  lemma {:induction false} BaseIndexScale(toks: seq<Token>, q: nat, b: string, i: string, scale: u64,
                                          size: nat, seg: Option<Reg>)
    requires ParseRegister(b).Some? && ParseRegister(i).Some? && ScaleShift(scale).Some?
    requires TokenAt(toks, q) == Sym(b) && TokenAt(toks, q + 1) == Add && TokenAt(toks, q + 2) == Sym(i)
    requires TokenAt(toks, q + 3) == Mul && TokenAt(toks, q + 4) == U64(scale) && TokenAt(toks, q + 5) == RBracket
    ensures Address(toks, q, size, seg) ==
            MemResult(Ok, MemOp(BaseIndexDisp(ParseRegister(b).value, ParseRegister(i).value,
                                              ScaleShift(scale).value, 0), size, false, seg), q + 6)
  {
    var base, index := ParseRegister(b).value, ParseRegister(i).value;
    assert !StartsAbs(TokenAt(toks, q));
    DispBracket(toks, q + 5, 0);
    DispClosed(toks, q + 5, Some(base), Some(index), ScaleShift(scale).value, 0, 0, q + 6, size, false, seg);
    assert Signed32(0) == 0;
  }

  /** A scale factor other than 1, 2, 4 and 8 is an invalid address. */
  lemma {:induction false} ScaleRejected(toks: seq<Token>, q: nat, b: string, scale: u64, size: nat, seg: Option<Reg>)
    requires ParseRegister(b).Some? && ScaleShift(scale).None?
    requires TokenAt(toks, q) == Sym(b) && TokenAt(toks, q + 1) == Mul && TokenAt(toks, q + 2) == U64(scale)
    ensures Address(toks, q, size, seg).err == InvalidAddress
  {
    assert !StartsAbs(TokenAt(toks, q));
  }

  /** `[abs r]`: the `abs` keyword marks the address absolute and the
      register after it is its base, with no displacement. */
  lemma {:induction false} AbsRegister(toks: seq<Token>, q: nat, b: string, size: nat, seg: Option<Reg>)
    requires StartsAbs(TokenAt(toks, q))
    requires ParseRegister(b).Some?
    requires TokenAt(toks, q + 1) == Sym(b) && TokenAt(toks, q + 2) == RBracket
    ensures Address(toks, q, size, seg) ==
            MemResult(Ok, MemOp(BaseDisp(ParseRegister(b).value, 0), size, true, seg), q + 3)
  {
    var base := ParseRegister(b).value;
    DispBracket(toks, q + 2, 0);
    DispClosed(toks, q + 2, Some(base), None, 0, 0, 0, q + 3, size, true, seg);
    assert Signed32(0) == 0;
  }

  /** `abs` is taken once: a second one is no register and is refused. */
  lemma {:induction false} SecondAbsRejected(toks: seq<Token>, q: nat, size: nat, seg: Option<Reg>)
    requires StartsAbs(TokenAt(toks, q)) && StartsAbs(TokenAt(toks, q + 1))
    ensures Address(toks, q, size, seg).err == InvalidAddress
  {
  }

  // ---------------------------------------------------------------------
  // What one operand parses to

  /** Any word naming a register other than a segment register is that
      register operand and consumes nothing more. */
  lemma {:induction false} RegisterOperand(toks: seq<Token>, x: string, q: nat, labels: LabelTable, capacity: nat)
    requires ParseRegister(x).Some? && !IsSegReg(ParseRegister(x).value)
    ensures OperandAt(toks, Sym(x), q, labels, capacity) ==
            OperandResult(Ok, RegOp(ParseRegister(x).value), q, labels)
  {
  }

  /** In particular a register name spelled as the register tables spell
      it is that register. */
  lemma {:induction false} NamedRegisterOperand(toks: seq<Token>, t: RegType, id: nat, q: nat,
                                                labels: LabelTable, capacity: nat)
    requires HasNumberedName(t) && id < Info(t).count
    ensures OperandAt(toks, Sym(NumberedName(t, id)), q, labels, capacity) ==
            OperandResult(Ok, RegOp(Reg(t, id)), q, labels)
  {
    NumberedNameRoundTrip(t, id);
  }

  /** A segment register starts a memory operand with that segment when
      `:` and `[` follow it; otherwise it is a register operand and the
      tokens after it are left unread. */
  lemma {:induction false} SegmentRegisterOperand(toks: seq<Token>, x: string, q: nat, labels: LabelTable, capacity: nat)
    requires ParseRegister(x).Some? && IsSegReg(ParseRegister(x).value)
    ensures var r := OperandAt(toks, Sym(x), q, labels, capacity);
            !(TokenAt(toks, q) == Colon && TokenAt(toks, q + 1) == LBracket) ==>
              r == OperandResult(Ok, RegOp(ParseRegister(x).value), q, labels)
    ensures var r := OperandAt(toks, Sym(x), q, labels, capacity);
            TokenAt(toks, q) == Colon && TokenAt(toks, q + 1) == LBracket && r.err == Ok ==>
              r.op.MemOp? && r.op.seg == ParseRegister(x) && r.op.size == 0 && r.pos > q + 2 && r.labels == labels
  {
  }

  /** A size keyword followed by `ptr` and `[` is a memory operand of that
      size without a segment. */
  lemma {:induction false} SizedPtrOperand(toks: seq<Token>, x: string, q: nat, labels: LabelTable, capacity: nat)
    requires ParseRegister(x).None? && ParseSize(x) != 0
    requires IsPtrKeyword(TokenAt(toks, q)) && TokenAt(toks, q + 1) == LBracket
    ensures OperandAt(toks, Sym(x), q, labels, capacity) ==
            FromMem(Address(toks, q + 2, ParseSize(x), None), labels)
    ensures var r := OperandAt(toks, Sym(x), q, labels, capacity);
            r.err == Ok ==> r.op.MemOp? && r.op.size == ParseSize(x) && r.op.seg.None? && r.pos > q + 2
  {
  }

  /** Any other symbol names a label: the existing one, or a new one while
      the table has room; the cursor does not move. */
  lemma {:induction false} LabelOperand(toks: seq<Token>, x: string, q: nat, labels: LabelTable, capacity: nat)
    requires ParseRegister(x).None? && ParseSize(x) == 0
    ensures var r := OperandAt(toks, Sym(x), q, labels, capacity);
            r.pos == q && (r.err == Ok <==> x in labels || |labels| < capacity)
    ensures var r := OperandAt(toks, Sym(x), q, labels, capacity);
            r.err == Ok ==> r.op == LabelOp(r.labels[x]) && r.labels.Keys == labels.Keys + {x}
    ensures var r := OperandAt(toks, Sym(x), q, labels, capacity);
            x in labels ==> r == OperandResult(Ok, LabelOp(labels[x]), q, labels)
  {
  }

  /** An integer token is the immediate of the same 64 bits, read as
      signed. */
  lemma {:induction false} ImmediateOperand(toks: seq<Token>, v: u64, q: nat, labels: LabelTable, capacity: nat)
    ensures OperandAt(toks, U64(v), q, labels, capacity) ==
            OperandResult(Ok, Imm(if v < TWO63 then v else v - TWO64), q, labels)
  {
  }

  /** `-` and an integer is the two's-complement negation of the integer:
      `-n` for n up to 2^63 (so `-0x8000000000000000` is the least value),
      2^64 - n above; `-` followed by anything else is an invalid state. */
  lemma {:induction false} NegativeImmediate(toks: seq<Token>, q: nat, labels: LabelTable, capacity: nat)
    ensures var t := TokenAt(toks, q);
            t.U64? ==>
              (var n := t.value as int;
               OperandAt(toks, Sub, q, labels, capacity) ==
               OperandResult(Ok, Imm(if n <= TWO63 then -n else TWO64 - n), q + 1, labels))
    ensures !TokenAt(toks, q).U64? ==> OperandAt(toks, Sub, q, labels, capacity).err == InvalidState
  {
    var t := TokenAt(toks, q);
    if t.U64? {
      var v := t.value as int;
      if v < TWO63 {
        assert Signed64(v) == v;
        assert Signed64(-v) == -v by { assert (-v) % TWO64 == if v == 0 then 0 else TWO64 - v; }
      } else {
        assert Signed64(v) == v - TWO64;
        assert Signed64(TWO64 - v) == (if v == TWO63 then -v else TWO64 - v);
      }
    }
  }
}
