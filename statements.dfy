/** The statement level as functions of the token stream: the instruction
    resolver (`x86ParseInstruction`), the AVX-512 decorator groups and the
    operand loop of `AsmParser::parse`, the label and instruction
    statements, and the statement driver itself. A cursor `q` is the index
    of the token the tokenizer's `next` would return. */
module Statements {
  import opened Base
  import opened Registers
  import opened Keywords
  import opened Operands
  import opened Fixup

  // ---------------------------------------------------------------------
  // The collaborators

  /** A call the parser makes on the code emitter. */
  datatype Event =
    | Bind(handle: nat)
    | SetOptions(options: set<Flag>)
    | SetOpExtra(op: Operand)
    | SetOp4(op: Operand)
    | SetOp5(op: Operand)
    | Emit(id: nat, op0: Operand, op1: Operand, op2: Operand, op3: Operand)

  /** What the collaborators answer: the target architecture (`x64` for a
      64-bit target), the ids of the instructions the parser names, the
      instruction-name database, how many labels the emitter can create,
      the instruction validator, and the status the emitter returns for a
      `bind` or `_emit` call given the calls made before it. */
  datatype Env = Env(
    x64: bool,
    ids: InstIds,
    names: map<string, nat>,
    capacity: nat,
    validate: (bool, nat, set<Flag>, Operand, seq<Operand>) -> Error,
    status: (seq<Event>, Event) -> Error)

  /** `X86Inst::getIdByName`: kInvalidInst for an unknown name. */
  function IdByName(names: map<string, nat>, s: string): nat
  {
    if s in names then names[s] else InvalidInst
  }

  // ---------------------------------------------------------------------
  // Instruction resolver

  /** The size of the lower-case buffer: longer mnemonics are refused. */
  const MaxMnemonic: nat := 32

  /** The flags an option keyword can set. */
  const OptionFlags: set<Flag> := {Rep, Repnz, Rex, LongForm, ShortForm, ModMR}

  datatype InstResult = InstResult(err: Error, id: nat, options: set<Flag>, pos: nat)

  /** `x86ParseInstruction` from the symbol `tok`, the tokenizer being at
      `q` and the options given so far being `options`: an alias, else a
      database instruction, else an option keyword not given before
      followed by another symbol, which is resolved the same way. */
  function ResolveInstruction(env: Env, toks: seq<Token>, tok: Token, q: nat, options: set<Flag>): (r: InstResult)
    requires tok.Sym?
    ensures r.err == Ok || r.err == InvalidInstruction
    ensures r.err == Ok ==> r.id != InvalidInst
    ensures r.err == Ok ==> r.pos >= q
    decreases Remaining(toks, q)
  {
    var x := tok.text;
    if |x| > MaxMnemonic then InstResult(InvalidInstruction, InvalidInst, options, q)
    else
      var lower := LowerStr(x);
      var alias := ParseAlias(env.ids, lower);
      if alias != InvalidInst then InstResult(Ok, alias, options, q)
      else
        var id := IdByName(env.names, lower);
        if id != InvalidInst then InstResult(Ok, id, options, q)
        else
          var option := ParseOption(lower);
          if option.None? || option.value in options then InstResult(InvalidInstruction, InvalidInst, options, q)
          else
            var t := TokenAt(toks, q);
            if !t.Sym? then InstResult(InvalidInstruction, InvalidInst, options, q)
            else ResolveInstruction(env, toks, t, q + 1, options + {option.value})
  }

  // ---------------------------------------------------------------------
  // Decorators

  /** What one `{}` group can hold. */
  datatype Decorator = Mask(k: nat) | Zeroing | Broadcast | Sae | RoundingMode(mode: Rounding) | Unknown

  /** The decorator a group's symbol names. The comparisons are exact:
      `K1` or `Z` name nothing. */
  function ClassifyDecorator(x: string): Decorator
  {
    if |x| == 2 && x[0] == 'k' && '0' <= x[1] <= '7' then Mask(x[1] as int - '0' as int)
    else if x == "z" then Zeroing
    else if x == "1tox" then Broadcast
    else if x == "sae" then Sae
    else if x == "rn" then RoundingMode(RoundNearest)
    else if x == "rd" then RoundingMode(RoundDown)
    else if x == "ru" then RoundingMode(RoundUp)
    else if x == "rz" then RoundingMode(RoundZero)
    else Unknown
  }

  /** The option flags a decorator sets. */
  function Added(d: Decorator): set<Flag>
  {
    match d
    case Mask(_) => {OpExtra}
    case Zeroing => {KZ}
    case Broadcast => {OneToX}
    case Sae => {SAE}
    case RoundingMode(m) => {ER, Round(m)}
    case Unknown => {}
  }

  /** The flags decorators can set. */
  const DecoratorFlags: set<Flag> :=
    {OpExtra, KZ, OneToX, SAE, ER, Round(RoundNearest), Round(RoundDown), Round(RoundUp), Round(RoundZero)}

  /** Whether decorator `d` may follow the operand `current`, at index
      `opIndex`, given what the statement has so far. A mask, zeroing, SAE
      and a rounding mode only follow the first operand; a broadcast only a
      memory operand; each only once, with a second mask refused whatever
      its number and the four rounding modes sharing the ER flag. */
  predicate Allowed(d: Decorator, opIndex: nat, current: Operand, options: set<Flag>, opExtra: Operand)
  {
    match d
    case Mask(_) => opIndex == 0 && opExtra.NoOp?
    case Zeroing => opIndex == 0 && KZ !in options
    case Broadcast => current.MemOp? && OneToX !in options
    case Sae => opIndex == 0 && SAE !in options
    case RoundingMode(_) => opIndex == 0 && ER !in options
    case Unknown => true
  }

  datatype GroupsResult = GroupsResult(err: Error, options: set<Flag>, opExtra: Operand, last: Token, pos: nat)

  /** The `do { ... } while` loop over `{}` groups, entered after a `{`:
      a symbol naming an allowed decorator (or anything else, which is
      ignored), then `}`; another `{` repeats. The result carries the token
      read after the last group. */
  function DecoratorGroups(toks: seq<Token>, q: nat, opIndex: nat, current: Operand,
                           options: set<Flag>, opExtra: Operand): (r: GroupsResult)
    ensures r.err == Ok || r.err == InvalidState
    ensures r.err == Ok ==> r.pos > q
    ensures r.err == Ok && r.last != End ==> r.pos <= |toks|
    ensures r.err == Ok ==> r.last != LCurl
    ensures r.err == Ok && opIndex != 0 ==> r.opExtra == opExtra
    decreases Remaining(toks, q)
  {
    var t := TokenAt(toks, q);
    if !(t.Sym? || t.NSym?) then GroupsResult(InvalidState, options, opExtra, t, q)
    else
      var d := ClassifyDecorator(t.text);
      if !Allowed(d, opIndex, current, options, opExtra) then GroupsResult(InvalidState, options, opExtra, t, q)
      else if TokenAt(toks, q + 1) != RCurl then GroupsResult(InvalidState, options, opExtra, t, q)
      else
        var options1 := options + Added(d);
        var opExtra1 := if d.Mask? then RegOp(Reg(K, d.k)) else opExtra;
        var t2 := TokenAt(toks, q + 2);
        if t2 == LCurl then DecoratorGroups(toks, q + 3, opIndex, current, options1, opExtra1)
        else GroupsResult(Ok, options1, opExtra1, t2, q + 3)
  }

  // ---------------------------------------------------------------------
  // Operand loop

  /** The size of the operand array. */
  const MaxOperands: nat := 6

  datatype StepResult = StepResult(err: Error, op: Operand, options: set<Flag>, opExtra: Operand,
                                   labels: LabelTable, last: Token, pos: nat)

  /** What follows an operand `current`, the tokenizer being at `q`: its
      decorator groups if a `{` follows; the result carries the token read
      after them. */
  function Decorations(toks: seq<Token>, q: nat, opIndex: nat, current: Operand,
                       options: set<Flag>, opExtra: Operand): (r: GroupsResult)
    ensures r.err == Ok ==> r.pos > q
    ensures r.err == Ok && r.last != End ==> r.pos <= |toks|
    ensures r.err == Ok ==> r.last != LCurl
  {
    var t := TokenAt(toks, q);
    if t != LCurl then GroupsResult(Ok, options, opExtra, t, q + 1)
    else DecoratorGroups(toks, q + 1, opIndex, current, options, opExtra)
  }

  /** One operand whose first token `t` has been read, the tokenizer being
      at `q`, then its decorator groups. */
  function OperandStep(toks: seq<Token>, t: Token, q: nat, capacity: nat, labels: LabelTable,
                       opIndex: nat, options: set<Flag>, opExtra: Operand): (r: StepResult)
    ensures r.err == Ok ==> WellFormed(r.op)
    ensures r.err == Ok ==> !r.op.NoOp?
    ensures r.err == Ok ==> r.pos > q
    ensures r.err == Ok && r.last != End ==> r.pos <= |toks|
    ensures r.err == Ok ==> r.last != LCurl
  {
    var o := OperandAt(toks, t, q, labels, capacity);
    if o.err != Ok then StepResult(o.err, NoOp, options, opExtra, o.labels, t, q)
    else
      var g := Decorations(toks, o.pos, opIndex, o.op, options, opExtra);
      StepResult(g.err, o.op, g.options, g.opExtra, o.labels, g.last, g.pos)
  }

  datatype LoopResult = LoopResult(err: Error, ops: seq<Operand>, options: set<Flag>, opExtra: Operand,
                                   labels: LabelTable, last: Token, pos: nat)

  /** The operand loop from cursor `q`, `ops` being the operands parsed so
      far: an operand and its decorators, then `,` for another operand
      (refused after the sixth) or a newline or end of input to finish. A
      newline or end of input in place of the first operand gives none. */
  function OperandLoop(toks: seq<Token>, q: nat, capacity: nat, labels: LabelTable,
                       ops: seq<Operand>, options: set<Flag>, opExtra: Operand): (r: LoopResult)
    requires |ops| < MaxOperands
    ensures r.err == Ok ==> |ops| <= |r.ops| <= MaxOperands
    ensures r.err == Ok ==> r.pos > q
    ensures r.err == Ok && r.last != End ==> r.pos <= |toks|
    ensures r.err == Ok ==> (r.last == NL || r.last == End)
    decreases MaxOperands - |ops|
  {
    var t := TokenAt(toks, q);
    if (t == NL || t == End) && ops == [] then LoopResult(Ok, ops, options, opExtra, labels, t, q + 1)
    else
      var s := OperandStep(toks, t, q + 1, capacity, labels, |ops|, options, opExtra);
      if s.err != Ok then LoopResult(s.err, ops, options, opExtra, s.labels, t, q)
      else
        var ops1 := ops + [s.op];
        if s.last == Comma then
          if |ops1| == MaxOperands then LoopResult(InvalidState, ops1, s.options, s.opExtra, s.labels, s.last, s.pos)
          else OperandLoop(toks, s.pos, capacity, s.labels, ops1, s.options, s.opExtra)
        else if s.last == NL || s.last == End then LoopResult(Ok, ops1, s.options, s.opExtra, s.labels, s.last, s.pos)
        else LoopResult(InvalidState, ops1, s.options, s.opExtra, s.labels, s.last, s.pos)
  }

  // ---------------------------------------------------------------------
  // Statements

  datatype StmtResult = StmtResult(err: Error, labels: LabelTable, trace: seq<Event>, last: Token, pos: nat)

  /** The six operand slots: the parsed operands, then empty slots. */
  function Pad(ops: seq<Operand>): (r: seq<Operand>)
    requires |ops| <= MaxOperands
    ensures |r| == MaxOperands
    ensures r[..|ops|] == ops
    ensures forall j :: |ops| <= j < MaxOperands ==> r[j].NoOp?
  {
    ops + seq(MaxOperands - |ops|, _ => NoOp)
  }

  /** Six slots whose tail from `n` on is empty are the first `n` slots
      padded. */
  lemma {:induction false} PaddedSlots(slots: seq<Operand>, n: nat)
    requires |slots| == MaxOperands && n <= MaxOperands
    requires forall j :: n <= j < MaxOperands ==> slots[j].NoOp?
    ensures slots == Pad(slots[..n])
  {
    var p := Pad(slots[..n]);
    forall j | 0 <= j < MaxOperands
      ensures slots[j] == p[j]
    {
      if j < n {
        assert p[..n][j] == p[j];
      }
    }
  }

  /** The setter calls made before `_emit`: the options always, the extra
      operand when there is one, operands 4 and 5 when they exist. */
  function SetterCalls(options: set<Flag>, opExtra: Operand, ops: seq<Operand>, count: nat): seq<Event>
    requires |ops| == MaxOperands
  {
    [SetOptions(options)] +
    (if opExtra.NoOp? then [] else [SetOpExtra(opExtra)]) +
    (if count > 4 then [SetOp4(ops[4])] else []) +
    (if count > 5 then [SetOp5(ops[5])] else [])
  }

  datatype EmitResult = EmitResult(err: Error, trace: seq<Event>)

  /** The calls that hand a validated instruction to the emitter: the
      setters, then `_emit` with the first four operands. */
  function EmitInstruction(env: Env, trace: seq<Event>, id: nat, options: set<Flag>, opExtra: Operand,
                           ops: seq<Operand>, count: nat): (r: EmitResult)
    requires |ops| == MaxOperands
    ensures trace <= r.trace
  {
    var calls := trace + SetterCalls(options, opExtra, ops, count);
    var emit := Emit(id, ops[0], ops[1], ops[2], ops[3]);
    EmitResult(env.status(calls, emit), calls + [emit])
  }

  /** A label definition `name:`; `q` is the position after the colon. */
  function LabelStatement(env: Env, name: string, toks: seq<Token>, q: nat,
                          labels: LabelTable, trace: seq<Event>): (r: StmtResult)
    ensures trace <= r.trace
    ensures r.err == Ok ==> r.pos == q + 1
    ensures r.err == Ok && r.last != End ==> r.pos <= |toks|
  {
    var h := HandleSymbol(labels, name, env.capacity);
    if h.err != Ok then StmtResult(h.err, h.labels, trace, End, q)
    else
      var bind := Bind(h.handle);
      StmtResult(env.status(trace, bind), h.labels, trace + [bind], TokenAt(toks, q), q + 1)
  }

  /** An instruction statement whose mnemonic `tok` has been read, the
      tokenizer being at `q`: resolve, parse the operands, rewrite, validate
      and hand the result to the emitter. */
  function InstructionStatement(env: Env, toks: seq<Token>, tok: Token, q: nat,
                                labels: LabelTable, trace: seq<Event>): (r: StmtResult)
    requires tok.Sym?
    ensures trace <= r.trace
    ensures r.err == Ok ==> r.pos > q
    ensures r.err == Ok && r.last != End ==> r.pos <= |toks|
    ensures r.err == Ok ==> (r.last == NL || r.last == End)
  {
    var ir := ResolveInstruction(env, toks, tok, q, {});
    if ir.err != Ok then StmtResult(ir.err, labels, trace, End, q)
    else
      var lr := OperandLoop(toks, ir.pos, env.capacity, labels, [], ir.options, NoOp);
      if lr.err != Ok then StmtResult(lr.err, lr.labels, trace, End, q)
      else
        var fx := Fixup.Fixup(env.ids, env.x64, ir.id, Pad(lr.ops), |lr.ops|);
        var v := env.validate(env.x64, fx.id, lr.options, lr.opExtra, fx.ops[..fx.count]);
        if v != Ok then StmtResult(v, lr.labels, trace, End, q)
        else
          var e := EmitInstruction(env, trace, fx.id, lr.options, lr.opExtra, fx.ops, fx.count);
          StmtResult(e.err, lr.labels, e.trace, lr.last, lr.pos)
  }

  /** One statement from cursor `q`: a label definition, an instruction,
      or any other token, which the driver then judges. */
  function Statement(env: Env, toks: seq<Token>, q: nat, labels: LabelTable, trace: seq<Event>): (r: StmtResult)
    ensures trace <= r.trace
    ensures r.err == Ok ==> r.pos > q
    ensures r.err == Ok && r.last != End ==> r.pos <= |toks|
  {
    var t := TokenAt(toks, q);
    if !t.Sym? then StmtResult(Ok, labels, trace, t, q + 1)
    else if TokenAt(toks, q + 1) == Colon then LabelStatement(env, t.text, toks, q + 2, labels, trace)
    else InstructionStatement(env, toks, t, q + 1, labels, trace)
  }

  datatype ParseOutcome = ParseOutcome(err: Error, labels: LabelTable, trace: seq<Event>)

  /** `AsmParser::parse` from cursor `q`: statements separated by newlines
      until end of input; a statement followed by anything else, and every
      error, ends the parse. Calls already made on the emitter stay made. */
  function ParseFrom(env: Env, toks: seq<Token>, q: nat, labels: LabelTable, trace: seq<Event>): (r: ParseOutcome)
    ensures trace <= r.trace
    decreases Remaining(toks, q)
  {
    var s := Statement(env, toks, q, labels, trace);
    if s.err != Ok then ParseOutcome(s.err, s.labels, s.trace)
    else if s.last == NL then
      assert s.pos - 1 < |toks|;
      ParseFrom(env, toks, s.pos, s.labels, s.trace)
    else if s.last == End then ParseOutcome(Ok, s.labels, s.trace)
    else ParseOutcome(InvalidState, s.labels, s.trace)
  }
}
