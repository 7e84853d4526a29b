/** Properties of the statement level: how a mnemonic is resolved, which
    decorator groups are accepted, how many operands a statement takes, and
    what whole inputs do to the label table and the emitter. */
module StatementLaws {
  import opened Base
  import opened Registers
  import opened Keywords
  import opened Operands
  import opened Fixup
  import opened Statements
  import OperandLaws

  // ---------------------------------------------------------------------
  // Instruction resolver

  /** Resolving keeps the options given so far and adds only option
      keyword flags. */
  lemma {:induction false} ResolveAddsOptionFlags(env: Env, toks: seq<Token>, tok: Token, q: nat, options: set<Flag>)
    requires tok.Sym?
    ensures var r := ResolveInstruction(env, toks, tok, q, options);
            r.err == Ok ==> options <= r.options && r.options - options <= OptionFlags
    decreases Remaining(toks, q)
  {
    var lower := LowerStr(tok.text);
    if |tok.text| <= MaxMnemonic && ParseAlias(env.ids, lower) == InvalidInst && IdByName(env.names, lower) == InvalidInst {
      var option := ParseOption(lower);
      var t := TokenAt(toks, q);
      if option.Some? && option.value !in options && t.Sym? {
        ParseOptionKeywords(lower);
        ResolveAddsOptionFlags(env, toks, t, q + 1, options + {option.value});
      }
    }
  }

  /** A mnemonic that names an alias resolves to it without consulting the
      instruction database, and without reading further tokens. */
  lemma {:induction false} AliasShadowsDatabase(env: Env, toks: seq<Token>, x: string, q: nat, options: set<Flag>)
    requires |x| <= MaxMnemonic
    requires ParseAlias(env.ids, LowerStr(x)) != InvalidInst
    ensures ResolveInstruction(env, toks, Sym(x), q, options) ==
            InstResult(Ok, ParseAlias(env.ids, LowerStr(x)), options, q)
  {
  }

  /** The mnemonic is matched whatever its case. */
  lemma {:induction false} ResolveIgnoresCase(env: Env, toks: seq<Token>, x: string, y: string, q: nat, options: set<Flag>)
    requires LowerStr(x) == LowerStr(y)
    ensures ResolveInstruction(env, toks, Sym(x), q, options) == ResolveInstruction(env, toks, Sym(y), q, options)
  {
    assert |x| == |LowerStr(x)| == |y|;
  }

  /** An option keyword must be followed by another symbol on which the
      resolution goes on; a keyword alone on its line is refused. */
  lemma {:induction false} OptionNeedsMnemonic(env: Env, toks: seq<Token>, x: string, q: nat)
    requires |x| <= MaxMnemonic
    requires ParseAlias(env.ids, LowerStr(x)) == InvalidInst
    requires IdByName(env.names, LowerStr(x)) == InvalidInst
    requires !TokenAt(toks, q).Sym?
    ensures ResolveInstruction(env, toks, Sym(x), q, {}).err == InvalidInstruction
  {
  }

  /** `rep repz stosb` is refused: `repz` sets the flag `rep` already set. */
  lemma {:induction false} RepeatedOptionRejected(env: Env, toks: seq<Token>, q: nat)
    requires IdByName(env.names, "rep") == InvalidInst
    requires IdByName(env.names, "repz") == InvalidInst
    requires TokenAt(toks, q) == Sym("repz")
    ensures ResolveInstruction(env, toks, Sym("rep"), q, {}).err == InvalidInstruction
  {
    assert LowerStr("rep") == "rep";
    assert LowerStr("repz") == "repz";
    AliasOtherwise(env.ids, "rep");
    AliasOtherwise(env.ids, "repz");
  }

  /** `rep stosb` resolves to the byte form of the `stos` alias with the
      `rep` option. */
  lemma {:induction false} RepStosb(env: Env, toks: seq<Token>, q: nat)
    requires IdByName(env.names, "rep") == InvalidInst
    requires TokenAt(toks, q) == Sym("stosb")
    ensures ResolveInstruction(env, toks, Sym("rep"), q, {}) == InstResult(Ok, AliasId(4, 0), {Rep}, q + 1)
  {
    assert LowerStr("rep") == "rep";
    assert LowerStr("stosb") == "stosb";
    AliasOtherwise(env.ids, "rep");
    AliasNameRoundTrip(env.ids, 16);
    assert AliasName(16) == "stosb";
  }

  /** A database name that is not an alias resolves to its id, with the
      options unchanged and no token consumed. */
  lemma {:induction false} DatabaseName(env: Env, toks: seq<Token>, x: string, q: nat, options: set<Flag>)
    requires |x| <= MaxMnemonic
    requires ParseAlias(env.ids, LowerStr(x)) == InvalidInst
    requires IdByName(env.names, LowerStr(x)) != InvalidInst
    ensures ResolveInstruction(env, toks, Sym(x), q, options) ==
            InstResult(Ok, IdByName(env.names, LowerStr(x)), options, q)
  {
  }

  /** A word longer than 32 characters is never an instruction. */
  lemma {:induction false} LongMnemonicRejected(env: Env, toks: seq<Token>, x: string, q: nat, options: set<Flag>)
    requires |x| > MaxMnemonic
    ensures ResolveInstruction(env, toks, Sym(x), q, options) ==
            InstResult(InvalidInstruction, InvalidInst, options, q)
  {
  }

  /** A word that is neither an alias, a database name nor an option is
      not an instruction. */
  lemma {:induction false} UnknownWordRejected(env: Env, toks: seq<Token>, x: string, q: nat, options: set<Flag>)
    requires ParseAlias(env.ids, LowerStr(x)) == InvalidInst
    requires IdByName(env.names, LowerStr(x)) == InvalidInst
    requires ParseOption(LowerStr(x)).None?
    ensures ResolveInstruction(env, toks, Sym(x), q, options) ==
            InstResult(InvalidInstruction, InvalidInst, options, q)
  {
  }

  /** An option already given, whatever the other options are, is
      rejected rather than read twice. */
  lemma {:induction false} OptionRepeatRejected(env: Env, toks: seq<Token>, x: string, q: nat, options: set<Flag>)
    requires ParseAlias(env.ids, LowerStr(x)) == InvalidInst
    requires IdByName(env.names, LowerStr(x)) == InvalidInst
    requires ParseOption(LowerStr(x)).Some? && ParseOption(LowerStr(x)).value in options
    ensures ResolveInstruction(env, toks, Sym(x), q, options) ==
            InstResult(InvalidInstruction, InvalidInst, options, q)
  {
  }

  // ---------------------------------------------------------------------
  // Decorators

  /** Decorator groups keep the options given so far and add only
      decorator flags; after any operand but the first only the broadcast
      flag. */
  lemma {:induction false} DecoratorFlagsAdded(toks: seq<Token>, q: nat, opIndex: nat, current: Operand,
                                               options: set<Flag>, opExtra: Operand)
    ensures var r := DecoratorGroups(toks, q, opIndex, current, options, opExtra);
            r.err == Ok ==> options <= r.options && r.options - options <= DecoratorFlags
    ensures var r := DecoratorGroups(toks, q, opIndex, current, options, opExtra);
            r.err == Ok && opIndex != 0 ==> r.options - options <= {OneToX}
    decreases Remaining(toks, q)
  {
    var t := TokenAt(toks, q);
    if (t.Sym? || t.NSym?) && Allowed(ClassifyDecorator(t.text), opIndex, current, options, opExtra)
       && TokenAt(toks, q + 1) == RCurl && TokenAt(toks, q + 2) == LCurl {
      var d := ClassifyDecorator(t.text);
      var opExtra1 := if d.Mask? then RegOp(Reg(K, d.k)) else opExtra;
      DecoratorFlagsAdded(toks, q + 3, opIndex, current, options + Added(d), opExtra1);
    }
  }

  /** Only the first operand takes a mask, zeroing, SAE or a rounding mode. */
  lemma {:induction false} DecoratorFirstOperandOnly(toks: seq<Token>, q: nat, opIndex: nat, current: Operand,
                                  options: set<Flag>, opExtra: Operand)
    requires opIndex != 0
    requires TokenAt(toks, q).Sym?
    requires ClassifyDecorator(TokenAt(toks, q).text) !in {Broadcast, Unknown}
    ensures DecoratorGroups(toks, q, opIndex, current, options, opExtra).err == InvalidState
  {
  }

  /** A broadcast only follows a memory operand. */
  lemma {:induction false} BroadcastNeedsMemory(toks: seq<Token>, q: nat, opIndex: nat, current: Operand,
                             options: set<Flag>, opExtra: Operand)
    requires !current.MemOp?
    requires TokenAt(toks, q) == NSym("1tox")
    ensures DecoratorGroups(toks, q, opIndex, current, options, opExtra).err == InvalidState
  {
  }

  /** A group must hold one word and its closing brace: anything else
      inside the braces, or a word not followed by `}`, is an error. */
  lemma {:induction false} MalformedGroupRejected(toks: seq<Token>, q: nat, opIndex: nat, current: Operand,
                                                  options: set<Flag>, opExtra: Operand)
    ensures !(TokenAt(toks, q).Sym? || TokenAt(toks, q).NSym?) ==>
            DecoratorGroups(toks, q, opIndex, current, options, opExtra).err == InvalidState
    ensures (TokenAt(toks, q).Sym? || TokenAt(toks, q).NSym?) && TokenAt(toks, q + 1) != RCurl ==>
            DecoratorGroups(toks, q, opIndex, current, options, opExtra).err == InvalidState
  {
  }

  /** Each decorator may be given once per instruction: a second zeroing,
      SAE, broadcast, rounding mode or mask is an error. */
  lemma {:induction false} RepeatedDecorator(toks: seq<Token>, q: nat, opIndex: nat, current: Operand,
                                             options: set<Flag>, opExtra: Operand)
    requires TokenAt(toks, q).Sym? || TokenAt(toks, q).NSym?
    requires var d := ClassifyDecorator(TokenAt(toks, q).text);
             (d == Zeroing && KZ in options) || (d == Sae && SAE in options) ||
             (d == Broadcast && OneToX in options) || (d.RoundingMode? && ER in options) ||
             (d.Mask? && !opExtra.NoOp?)
    ensures DecoratorGroups(toks, q, opIndex, current, options, opExtra).err == InvalidState
  {
  }

  /** The decorator keywords are compared exactly: `{K1}` and `{Z}` are
      read and ignored. */
  lemma {:induction false} UppercaseDecoratorIgnored(toks: seq<Token>, q: nat, current: Operand,
                                  options: set<Flag>, opExtra: Operand)
    requires TokenAt(toks, q) == Sym("K1") || TokenAt(toks, q) == Sym("Z")
    requires TokenAt(toks, q + 1) == RCurl
    requires TokenAt(toks, q + 2) == NL
    ensures DecoratorGroups(toks, q, 0, current, options, opExtra) ==
            GroupsResult(Ok, options, opExtra, NL, q + 3)
  {
  }

  /** `{k1}{k2}`: a second mask is refused whatever its number. */
  lemma {:induction false} SecondMaskRejected(toks: seq<Token>, q: nat, current: Operand, options: set<Flag>)
    requires TokenAt(toks, q) == Sym("k1") && TokenAt(toks, q + 1) == RCurl && TokenAt(toks, q + 2) == LCurl
    requires TokenAt(toks, q + 3) == Sym("k2") && TokenAt(toks, q + 4) == RCurl
    ensures DecoratorGroups(toks, q, 0, current, options, NoOp).err == InvalidState
  {
    var opExtra1 := RegOp(Reg(K, 1));
    assert DecoratorGroups(toks, q, 0, current, options, NoOp) ==
           DecoratorGroups(toks, q + 3, 0, current, options + {OpExtra}, opExtra1);
  }

  /** `{rn}{rz}`: the rounding modes share one flag, so a second one is
      refused. */
  lemma {:induction false} SecondRoundingRejected(toks: seq<Token>, q: nat, current: Operand, options: set<Flag>, opExtra: Operand)
    requires ER !in options
    requires TokenAt(toks, q) == Sym("rn") && TokenAt(toks, q + 1) == RCurl && TokenAt(toks, q + 2) == LCurl
    requires TokenAt(toks, q + 3) == Sym("rz") && TokenAt(toks, q + 4) == RCurl
    ensures DecoratorGroups(toks, q, 0, current, options, opExtra).err == InvalidState
  {
    assert DecoratorGroups(toks, q, 0, current, options, opExtra) ==
           DecoratorGroups(toks, q + 3, 0, current, options + {ER, Round(RoundNearest)}, opExtra);
  }

  /** `{rn}{sae}` is accepted: a rounding mode and SAE set different flags. */
  lemma {:induction false} RoundingWithSae(toks: seq<Token>, q: nat, current: Operand, options: set<Flag>, opExtra: Operand)
    requires ER !in options && SAE !in options
    requires TokenAt(toks, q) == Sym("rn") && TokenAt(toks, q + 1) == RCurl && TokenAt(toks, q + 2) == LCurl
    requires TokenAt(toks, q + 3) == Sym("sae") && TokenAt(toks, q + 4) == RCurl && TokenAt(toks, q + 5) == Comma
    ensures DecoratorGroups(toks, q, 0, current, options, opExtra) ==
            GroupsResult(Ok, options + {ER, Round(RoundNearest), SAE}, opExtra, Comma, q + 6)
  {
    var options1 := options + {ER, Round(RoundNearest)};
    assert ClassifyDecorator("rn") == RoundingMode(RoundNearest);
    assert ClassifyDecorator("sae") == Sae;
    assert DecoratorGroups(toks, q, 0, current, options, opExtra) ==
           DecoratorGroups(toks, q + 3, 0, current, options1, opExtra);
    assert DecoratorGroups(toks, q + 3, 0, current, options1, opExtra) ==
           GroupsResult(Ok, options1 + {SAE}, opExtra, Comma, q + 6);
    assert options1 + {SAE} == options + {ER, Round(RoundNearest), SAE};
  }

  /** `{k1}{z}` sets the extra operand to k1 and the zeroing flag. */
  lemma {:induction false} MaskWithZeroing(toks: seq<Token>, q: nat, current: Operand, options: set<Flag>)
    requires KZ !in options
    requires TokenAt(toks, q) == Sym("k1") && TokenAt(toks, q + 1) == RCurl && TokenAt(toks, q + 2) == LCurl
    requires TokenAt(toks, q + 3) == Sym("z") && TokenAt(toks, q + 4) == RCurl && TokenAt(toks, q + 5) == Comma
    ensures DecoratorGroups(toks, q, 0, current, options, NoOp) ==
            GroupsResult(Ok, options + {OpExtra, KZ}, RegOp(Reg(K, 1)), Comma, q + 6)
  {
    assert DecoratorGroups(toks, q, 0, current, options, NoOp) ==
           DecoratorGroups(toks, q + 3, 0, current, options + {OpExtra}, RegOp(Reg(K, 1)));
  }

  // ---------------------------------------------------------------------
  // Operand loop

  /** A newline or end of input right after the mnemonic gives an
      instruction without operands. */
  lemma {:induction false} NoOperands(toks: seq<Token>, q: nat, capacity: nat, labels: LabelTable,
                   options: set<Flag>, opExtra: Operand)
    requires TokenAt(toks, q) == NL || TokenAt(toks, q) == End
    ensures OperandLoop(toks, q, capacity, labels, [], options, opExtra) ==
            LoopResult(Ok, [], options, opExtra, labels, TokenAt(toks, q), q + 1)
  {
  }

  /** The loop keeps the operands it was given and adds well-formed,
      non-empty ones after them. */
  lemma {:induction false} OperandLoopAppends(toks: seq<Token>, q: nat, capacity: nat, labels: LabelTable,
                                              ops: seq<Operand>, options: set<Flag>, opExtra: Operand)
    requires |ops| < MaxOperands
    ensures var r := OperandLoop(toks, q, capacity, labels, ops, options, opExtra);
            r.err == Ok ==> r.ops[..|ops|] == ops
    ensures var r := OperandLoop(toks, q, capacity, labels, ops, options, opExtra);
            r.err == Ok ==> forall j :: |ops| <= j < |r.ops| ==> WellFormed(r.ops[j]) && !r.ops[j].NoOp?
    decreases MaxOperands - |ops|
  {
    var r := OperandLoop(toks, q, capacity, labels, ops, options, opExtra);
    var t := TokenAt(toks, q);
    if r.err == Ok && !((t == NL || t == End) && ops == []) {
      var s := OperandStep(toks, t, q + 1, capacity, labels, |ops|, options, opExtra);
      var ops1 := ops + [s.op];
      if s.last == Comma {
        OperandLoopAppends(toks, s.pos, capacity, s.labels, ops1, s.options, s.opExtra);
        assert r.ops[..|ops|] == r.ops[..|ops1|][..|ops|];
        forall j | |ops| <= j < |r.ops|
          ensures WellFormed(r.ops[j]) && !r.ops[j].NoOp?
        {
          if j == |ops| {
            assert r.ops[j] == r.ops[..|ops1|][j] == s.op;
          }
        }
      }
    }
  }

  /** A seventh operand is refused: a comma after the sixth ends the
      statement with InvalidState. */
  lemma {:induction false} SeventhOperandRejected(toks: seq<Token>, q: nat, capacity: nat, labels: LabelTable,
                               ops: seq<Operand>, options: set<Flag>, opExtra: Operand)
    requires |ops| == MaxOperands - 1
    requires var s := OperandStep(toks, TokenAt(toks, q), q + 1, capacity, labels, |ops|, options, opExtra);
             s.err == Ok && s.last == Comma
    ensures OperandLoop(toks, q, capacity, labels, ops, options, opExtra).err == InvalidState
  {
  }

  // ---------------------------------------------------------------------
  // Label table growth

  /** An operand only ever adds labels: every label already in the table
      keeps its handle. */
  lemma {:induction false} OperandAtExtends(toks: seq<Token>, tok: Token, q: nat, labels: LabelTable, capacity: nat)
    ensures Extends(labels, OperandAt(toks, tok, q, labels, capacity).labels)
  {
    if tok.Sym? && ParseRegister(tok.text).None? && ParseSize(tok.text) == 0 {
      assert OperandAt(toks, tok, q, labels, capacity).labels == HandleSymbol(labels, tok.text, capacity).labels;
    }
  }

  /** The operand loop only ever adds labels. */
  lemma {:induction false} OperandLoopExtends(toks: seq<Token>, q: nat, capacity: nat, labels: LabelTable,
                                              ops: seq<Operand>, options: set<Flag>, opExtra: Operand)
    requires |ops| < MaxOperands
    ensures Extends(labels, OperandLoop(toks, q, capacity, labels, ops, options, opExtra).labels)
    decreases MaxOperands - |ops|
  {
    var t := TokenAt(toks, q);
    if !((t == NL || t == End) && ops == []) {
      OperandAtExtends(toks, t, q + 1, labels, capacity);
      var s := OperandStep(toks, t, q + 1, capacity, labels, |ops|, options, opExtra);
      if s.err == Ok && s.last == Comma && |ops| + 1 < MaxOperands {
        OperandLoopExtends(toks, s.pos, capacity, s.labels, ops + [s.op], s.options, s.opExtra);
      }
    }
  }

  /** A statement only ever adds labels. */
  lemma {:induction false} StatementExtends(env: Env, toks: seq<Token>, q: nat, labels: LabelTable, trace: seq<Event>)
    ensures Extends(labels, Statement(env, toks, q, labels, trace).labels)
  {
    var t := TokenAt(toks, q);
    if t.Sym? && TokenAt(toks, q + 1) != Colon {
      var ir := ResolveInstruction(env, toks, t, q + 1, {});
      if ir.err == Ok {
        OperandLoopExtends(toks, ir.pos, env.capacity, labels, [], ir.options, NoOp);
      }
    }
  }

  /** A whole parse only ever adds labels: a label known before keeps its
      handle, whatever the input and however the parse ends. */
  lemma {:induction false} ParseFromExtends(env: Env, toks: seq<Token>, q: nat, labels: LabelTable, trace: seq<Event>)
    ensures Extends(labels, ParseFrom(env, toks, q, labels, trace).labels)
    decreases Remaining(toks, q)
  {
    StatementExtends(env, toks, q, labels, trace);
    var s := Statement(env, toks, q, labels, trace);
    if s.err == Ok && s.last == NL {
      ParseFromExtends(env, toks, s.pos, s.labels, s.trace);
    }
  }

  // ---------------------------------------------------------------------
  // Instruction statements

  /** The emitter hears of an instruction only once the validator has
      accepted its rewritten form: until then the calls made so far are
      all there is; after it, the setters and one `_emit` carrying the
      rewritten id and the first four rewritten slots. A successful
      instruction statement therefore always ends in that `_emit`. */
  lemma {:induction false} EmitOnlyAfterValidation(env: Env, toks: seq<Token>, tok: Token, q: nat,
                                                   labels: LabelTable, trace: seq<Event>)
    requires tok.Sym?
    ensures var r := InstructionStatement(env, toks, tok, q, labels, trace);
            var ir := ResolveInstruction(env, toks, tok, q, {});
            var lr := OperandLoop(toks, ir.pos, env.capacity, labels, [], ir.options, NoOp);
            (ir.err != Ok || lr.err != Ok ==> r.trace == trace && r.err != Ok) &&
            (ir.err == Ok && lr.err == Ok ==>
               var fx := Fixup.Fixup(env.ids, env.x64, ir.id, Pad(lr.ops), |lr.ops|);
               var v := env.validate(env.x64, fx.id, lr.options, lr.opExtra, fx.ops[..fx.count]);
               var emit := Emit(fx.id, fx.ops[0], fx.ops[1], fx.ops[2], fx.ops[3]);
               (v != Ok ==> r.trace == trace && r.err == v) &&
               (v == Ok ==> r.trace == trace + SetterCalls(lr.options, lr.opExtra, fx.ops, fx.count) + [emit] &&
                            r.err == env.status(trace + SetterCalls(lr.options, lr.opExtra, fx.ops, fx.count), emit) &&
                            r.labels == lr.labels && r.last == lr.last && r.pos == lr.pos))
    ensures var r := InstructionStatement(env, toks, tok, q, labels, trace);
            r.err == Ok ==> |r.trace| > |trace| && r.trace[|r.trace| - 1].Emit?
  {
  }

  // ---------------------------------------------------------------------
  // Whole inputs

  /** An empty input changes nothing and succeeds. */
  lemma {:induction false} EmptyInput(env: Env, labels: LabelTable, trace: seq<Event>)
    ensures ParseFrom(env, [], 0, labels, trace) == ParseOutcome(Ok, labels, trace)
  {
  }

  /** At the end of the input the parse succeeds and changes nothing. */
  lemma {:induction false} EndOfInput(env: Env, toks: seq<Token>, q: nat, labels: LabelTable, trace: seq<Event>)
    requires q >= |toks|
    ensures ParseFrom(env, toks, q, labels, trace) == ParseOutcome(Ok, labels, trace)
  {
    assert Statement(env, toks, q, labels, trace) == StmtResult(Ok, labels, trace, End, q + 1);
  }

  /** Input made only of newlines changes nothing and succeeds. */
  lemma {:induction false} BlankLines(env: Env, toks: seq<Token>, q: nat, labels: LabelTable, trace: seq<Event>)
    requires forall i :: q <= i < |toks| ==> toks[i] == NL
    ensures ParseFrom(env, toks, q, labels, trace) == ParseOutcome(Ok, labels, trace)
    decreases Remaining(toks, q)
  {
    if q < |toks| {
      BlankLines(env, toks, q + 1, labels, trace);
    }
  }

  /** After a label definition only a newline or the end of input may
      follow on the same line. */
  lemma {:induction false} LabelThenInstructionRejected(env: Env, toks: seq<Token>, q: nat, name: string, x: string,
                                     labels: LabelTable, trace: seq<Event>)
    requires TokenAt(toks, q) == Sym(name) && TokenAt(toks, q + 1) == Colon && TokenAt(toks, q + 2) == Sym(x)
    requires HandleSymbol(labels, name, env.capacity).err == Ok
    requires env.status(trace, Bind(HandleSymbol(labels, name, env.capacity).handle)) == Ok
    ensures ParseFrom(env, toks, q, labels, trace).err == InvalidState
  {
  }

  /** A label followed by a newline binds the label: the emitter's
      `bind` is called with the label's handle. */
  lemma {:induction false} LabelBinds(env: Env, toks: seq<Token>, name: string, labels: LabelTable, trace: seq<Event>)
    requires toks == [Sym(name), Colon, NL]
    requires HandleSymbol(labels, name, env.capacity).err == Ok
    requires forall t, e :: env.status(t, e) == Ok
    ensures var h := HandleSymbol(labels, name, env.capacity);
            ParseFrom(env, toks, 0, labels, trace) == ParseOutcome(Ok, h.labels, trace + [Bind(h.handle)])
  {
    var h := HandleSymbol(labels, name, env.capacity);
    assert ParseFrom(env, toks, 0, labels, trace) == ParseFrom(env, toks, 3, h.labels, trace + [Bind(h.handle)]);
  }

  /** The operands of `mov eax, 1`: eax, then the immediate 1, ending at
      the newline. */
  lemma {:induction false} MovEaxImmOperands(toks: seq<Token>, capacity: nat, labels: LabelTable)
    requires toks == [Sym("mov"), Sym("eax"), Comma, U64(1), NL]
    ensures OperandLoop(toks, 1, capacity, labels, [], {}, NoOp) ==
            LoopResult(Ok, [RegOp(Reg(Gpd, 0)), Imm(1)], {}, NoOp, labels, NL, 5)
  {
    var eax := RegOp(Reg(Gpd, 0));
    LegacyNameRoundTrip(Gpd, 0);
    assert LegacyName(Gpd, 0) == "eax";
    OperandLaws.RegisterOperand(toks, "eax", 2, labels, capacity);
    assert OperandStep(toks, Sym("eax"), 2, capacity, labels, 0, {}, NoOp) ==
           StepResult(Ok, eax, {}, NoOp, labels, Comma, 3);
    assert Signed64(1) == 1;
    assert OperandAt(toks, U64(1), 4, labels, capacity) == OperandResult(Ok, Imm(1), 4, labels);
    assert OperandStep(toks, U64(1), 4, capacity, labels, 1, {}, NoOp) ==
           StepResult(Ok, Imm(1), {}, NoOp, labels, NL, 5);
    assert OperandLoop(toks, 3, capacity, labels, [eax], {}, NoOp) ==
           LoopResult(Ok, [eax, Imm(1)], {}, NoOp, labels, NL, 5);
  }

  /** The rewrite leaves `mov eax, 1` as written. */
  lemma {:induction false} MovEaxImmFixup(ids: InstIds, x64: bool, m: nat)
    requires m < AliasStart
    ensures var slots := [RegOp(Reg(Gpd, 0)), Imm(1), NoOp, NoOp, NoOp, NoOp];
            Fixup.Fixup(ids, x64, m, slots, 2) == FixupResult(m, slots, 2)
  {
    var slots := [RegOp(Reg(Gpd, 0)), Imm(1), NoOp, NoOp, NoOp, NoOp];
    FixupKeeps(ids, x64, m, slots, 2);
    var fx := Fixup.Fixup(ids, x64, m, slots, 2);
    assert fx.ops[2..] == slots[2..];
    assert fx.ops == slots by {
      forall j | 0 <= j < 6 ensures fx.ops[j] == slots[j] {
        if j >= 2 { assert fx.ops[j] == fx.ops[2..][j - 2]; }
      }
    }
  }

  /** The instruction statement `mov eax, 1`: one `_emit` after setting
      no option. */
  lemma {:induction false} MovEaxImmStatement(env: Env, toks: seq<Token>, labels: LabelTable, trace: seq<Event>)
    requires toks == [Sym("mov"), Sym("eax"), Comma, U64(1), NL]
    requires "mov" in env.names && InvalidInst < env.names["mov"] < AliasStart
    requires env.validate(env.x64, env.names["mov"], {}, NoOp, [RegOp(Reg(Gpd, 0)), Imm(1)]) == Ok
    requires env.status(trace + [SetOptions({})], Emit(env.names["mov"], RegOp(Reg(Gpd, 0)), Imm(1), NoOp, NoOp)) == Ok
    ensures InstructionStatement(env, toks, Sym("mov"), 1, labels, trace) ==
            StmtResult(Ok, labels, trace + [SetOptions({}), Emit(env.names["mov"], RegOp(Reg(Gpd, 0)), Imm(1), NoOp, NoOp)],
                       NL, 5)
  {
    var m := env.names["mov"];
    var eax := RegOp(Reg(Gpd, 0));
    assert LowerStr("mov") == "mov";
    AliasOtherwise(env.ids, "mov");
    DatabaseName(env, toks, "mov", 1, {});
    assert ResolveInstruction(env, toks, Sym("mov"), 1, {}) == InstResult(Ok, m, {}, 1);
    MovEaxImmOperands(toks, env.capacity, labels);
    var slots := [eax, Imm(1), NoOp, NoOp, NoOp, NoOp];
    assert Pad([eax, Imm(1)]) == slots;
    MovEaxImmFixup(env.ids, env.x64, m);
    assert SetterCalls({}, NoOp, slots, 2) == [SetOptions({})];
    assert slots[..2] == [eax, Imm(1)];
    EmitOnlyAfterValidation(env, toks, Sym("mov"), 1, labels, trace);
  }

  /** `mov eax, 1` followed by a newline, under a validator and an
      emitter that accept it, sets no option and emits `mov` with eax and
      the immediate 1 and two empty slots, and the parse succeeds. */
  lemma {:induction false} MovEaxImm(env: Env, labels: LabelTable, trace: seq<Event>)
    requires "mov" in env.names && InvalidInst < env.names["mov"] < AliasStart
    requires env.validate(env.x64, env.names["mov"], {}, NoOp, [RegOp(Reg(Gpd, 0)), Imm(1)]) == Ok
    requires env.status(trace + [SetOptions({})], Emit(env.names["mov"], RegOp(Reg(Gpd, 0)), Imm(1), NoOp, NoOp)) == Ok
    ensures var toks := [Sym("mov"), Sym("eax"), Comma, U64(1), NL];
            ParseFrom(env, toks, 0, labels, trace) ==
            ParseOutcome(Ok, labels, trace + [SetOptions({}), Emit(env.names["mov"], RegOp(Reg(Gpd, 0)), Imm(1), NoOp, NoOp)])
  {
    var toks := [Sym("mov"), Sym("eax"), Comma, U64(1), NL];
    var calls := trace + [SetOptions({}), Emit(env.names["mov"], RegOp(Reg(Gpd, 0)), Imm(1), NoOp, NoOp)];
    MovEaxImmStatement(env, toks, labels, trace);
    assert Statement(env, toks, 0, labels, trace) == StmtResult(Ok, labels, calls, NL, 5);
    EndOfInput(env, toks, 5, labels, calls);
  }

  /** An error stops the parse and returns the error. */
  lemma {:induction false} ErrorStops(env: Env, toks: seq<Token>, q: nat, labels: LabelTable, trace: seq<Event>)
    requires Statement(env, toks, q, labels, trace).err != Ok
    ensures ParseFrom(env, toks, q, labels, trace).err == Statement(env, toks, q, labels, trace).err
  {
  }
}
