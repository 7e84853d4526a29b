# asmtk's x86 assembly parser, modelled in Dafny

This project models `AsmParser` from asmtk (`src/asmtk/asmparser.cpp`). The
parser reads x86 assembly text, one statement per line, and drives an asmjit
code emitter:

- a statement is a label definition `name:`, or an instruction;
- an instruction is an optional run of option keywords (`rep`, `repne`,
  `rex`, `long`, `short`, `modmr` and their spellings), a mnemonic, and up
  to six operands;
- an operand is a register, a memory reference (`dword ptr fs:[eax + ecx*4 + 8]`,
  `[abs 0x10]`), an immediate (`-1`) or a label;
- the first operand may carry AVX-512 decorators (`{k1}{z}`, `{rn}`, `{sae}`,
  and `{1tox}` after any memory operand).

The parser resolves string-instruction aliases (`movsd`, `stosb`, ...), adds
implicit operands, drops redundant segment overrides, asks the instruction
validator, and calls the emitter.

The model is in eight files:

- `base.dfy` (module `Base`): tokens, error codes, ASCII case folding, and
  the fixed-width integer conversions the C++ code does implicitly.
- `registers.dfy` (module `Registers`): the register table and
  `x86ParseRegister`, with round-trip and case-insensitivity proofs.
- `keywords.dfy` (module `Keywords`): `x86ParseSize`, `x86ParseOption`,
  `x86ParseAlias` and the alias enumeration.
- `operands.dfy` (modules `Operands` and `OperandLaws`): `asmHandleSymbol`
  and the operand grammar of `x86ParseOperand` as functions of the token
  stream, and what each accepted shape denotes.
- `fixup.dfy` (module `Fixup`): `x86FixupInstruction`, as a specification
  function plus the in-place method over the operand array.
- `statements.dfy` and `statement_laws.dfy` (modules `Statements` and
  `StatementLaws`): `x86ParseInstruction`, the decorator and operand loops
  of `AsmParser::parse`, the statement driver, and their laws.
- `parser.dfy` (module `Parser`): the class `AsmParser`. The tokenizer
  cursor, the emitter's label table and the calls made on the emitter are
  fields. Every method is proved to compute what the function for the same
  part of the grammar specifies.

The grammar is written as functions of the token sequence and a cursor `q`.
The cursor is the index of the token the tokenizer's `next` would return.
Reading past the last token gives End. `back` is a return to an earlier
cursor.

The collaborators are parameters (`Statements.Env`):

- the target architecture;
- the ids of the instructions the parser names;
- the instruction-name database;
- the label capacity of the emitter;
- the instruction validator;
- the status the emitter answers for a `bind` or `_emit` call.

The calls made on the emitter are recorded as a trace of events.

Where the code and the design intent differ, the model follows the code:

- `ParseSize` packs `s[0]` three times where the six- and seven-letter
  keywords need `s[0..2]`. So `dqword`, `xmmword`, `ymmword` and `zmmword`
  are not size keywords, while `mmword` and `qqword` are.
- `{rn}` and `{sae}` may both decorate one instruction. They set
  different flags.
- Lower-case decorators only: `{K1}` and `{Z}` are ignored, not refused.
- A label name that fails to bind still enters the label table.
- `lods` without operands receives `[zdi]` as its memory operand, as the
  source writes it, not `[zsi]`.
- A five-letter word with an unknown stem returns the alias function's
  local `base`, which is 0 (kInvalidInst).

## Model

| member | source | states |
|---|---|---|
| Base.StrToLower | src/asmtk/asmparser.cpp:89-92 | writes the lower-case form of the source into the first `len` bytes of the buffer and leaves the rest unchanged |
| Base.LowerStr | src/asmtk/asmparser.cpp:89-92 | folding keeps the length and folds every byte independently |
| Base.Lower | src/asmtk/asmparser.cpp:91 | only `A`..`Z` change, and they become `a`..`z` |
| Base.LowerIdempotent | src/asmtk/asmparser.cpp:91 | folding twice is folding once |
| Base.LowerDigit | src/asmtk/asmparser.cpp:232-238 | two bytes with the same fold, one a digit, are equal: folding never touches digits |
| Base.DigitValue | src/asmtk/asmparser.cpp:232-233 | a digit's value is below 10 |
| Base.Signed32 | src/asmtk/asmparser.cpp:474 | `int32_t` truncation: in the signed 32-bit range and congruent to the input modulo 2^32 |
| Base.Signed64 | src/asmtk/asmparser.cpp:518 | the signed 64-bit reading: in range and congruent modulo 2^64 |
| Base.Unsigned64 | src/asmtk/asmparser.cpp:500-503 | `uint64_t` arithmetic: congruent to the exact value modulo 2^64 |
| Registers.RegTableConsistent | src/asmtk/asmparser.cpp:26-46 | every table row describes its own class; a row is a register row exactly when the class is not None, and such rows have a non-zero count and size |
| Registers.AbcdTo0312 | src/asmtk/asmparser.cpp:117-125 | a, b, c, d map to register numbers below 4 |
| Registers.ParseIndex | src/asmtk/asmparser.cpp:231-248 | an accepted index is below 32 and below the class's count, in the class asked for |
| Registers.ParseIndexCharacterised | src/asmtk/asmparser.cpp:231-248 | the index part is accepted exactly when it is one or two digits whose value is below 32 and below the count, and the register then has that number |
| Registers.ParseRegister | src/asmtk/asmparser.cpp:100-253 | names shorter than 2 or longer than 5 letters are refused, and every accepted register is a valid one of its class |
| Registers.NumberedIndex | src/asmtk/asmparser.cpp:231-248 | a prefix, a valid numeral and a suffix give the register of that number |
| Registers.FixedTwoDigit | src/asmtk/asmparser.cpp:123-143 | a two-letter name whose second letter is a digit is no fixed name |
| Registers.FixedThreeDigit | src/asmtk/asmparser.cpp:150-175 | a three-letter name not ending in `l`, whose second letter is a digit or whose first is neither `e` nor `r`, is no fixed name |
| Registers.ToNumbered | src/asmtk/asmparser.cpp:177-229 | names that no fixed spelling claims go to the numbered path |
| Registers.GpqNumberedRoundTrip | src/asmtk/asmparser.cpp:178-191 | `r0`..`r15` parse back to the 64-bit register of that number |
| Registers.GpSuffixedRoundTrip | src/asmtk/asmparser.cpp:182-190 | `rNb`, `rNw`, `rNd` parse back to the byte, word and dword register of that number |
| Registers.GpNumberedRoundTrip | src/asmtk/asmparser.cpp:177-191 | every numbered general-purpose name parses back to its register |
| Registers.VecNumberedRoundTrip | src/asmtk/asmparser.cpp:192-196 | `xmmN`, `ymmN`, `zmmN` for N below 32 parse back to that vector register |
| Registers.ShortPrefixRoundTrip | src/asmtk/asmparser.cpp:197-226 | `kN`, `stN`, `mmN`, `crN`, `drN` below the class's count parse back |
| Registers.BndRoundTrip | src/asmtk/asmparser.cpp:212-216 | `bnd0`..`bnd3` parse back |
| Registers.OtherNumberedRoundTrip | src/asmtk/asmparser.cpp:197-248 | every non-general numbered name below the count parses back |
| Registers.NumberedNameRoundTrip | src/asmtk/asmparser.cpp:177-248 | every register of a numbered class, spelled by its prefix, number and suffix, parses back to itself |
| Registers.FpNameRoundTrip | src/asmtk/asmparser.cpp:203-206 | the `fpN` spelling of an x87 register parses back too |
| Registers.GpLegacyRoundTrip | src/asmtk/asmparser.cpp:145-174 | `ax`..`di`, `eax`..`edi`, `rax`..`rdi` parse back to the register of that number |
| Registers.ByteLegacyRoundTrip | src/asmtk/asmparser.cpp:119-153 | `al`..`dl`, `spl`..`dil` and `ah`..`dh` parse back |
| Registers.SegLegacyRoundTrip | src/asmtk/asmparser.cpp:131-139 | `es`, `cs`, `ss`, `ds`, `fs`, `gs` parse back to segments 1..6 |
| Registers.LegacyNameRoundTrip | src/asmtk/asmparser.cpp:119-174 | every fixed spelling, `rip` included, parses back to its register |
| Registers.ParseRegisterIgnoresCase | src/asmtk/asmparser.cpp:109-111 | two names that fold to the same lower case parse to the same register or both fail |
| Registers.NumberedIgnoresCase | src/asmtk/asmparser.cpp:177-245 | the numbered path depends only on the folded name |
| Registers.ParseIndexIgnoresCase | src/asmtk/asmparser.cpp:231-245 | the index part depends only on the folded name |
| Registers.RejectK8 | src/asmtk/asmparser.cpp:248 | `k8` is beyond the mask registers' count |
| Registers.RejectSt8 | src/asmtk/asmparser.cpp:248 | `st8` is beyond the x87 count |
| Registers.RejectBnd4 | src/asmtk/asmparser.cpp:248 | `bnd4` is beyond the bound registers' count |
| Registers.RejectR16 | src/asmtk/asmparser.cpp:248 | `r16` is beyond the general-purpose count |
| Registers.RejectXmm32 | src/asmtk/asmparser.cpp:241 | `xmm32` is at or above the maximum of 32 |
| Registers.AcceptXmm31 | src/asmtk/asmparser.cpp:192-196 | `xmm31` is vector register 31 |
| Registers.AcceptR15d | src/asmtk/asmparser.cpp:182-190 | `r15d` is dword register 15 |
| Registers.AcceptUpperR8b | src/asmtk/asmparser.cpp:183-185 | `R8B` is byte register 8: the suffix is folded too |
| Keywords.ParseSize | src/asmtk/asmparser.cpp:255-305 | the result is one of the widths 0, 1, 2, 4, 8, 10, 16, 32, 64, and non-zero only for 4 to 7 letters |
| Keywords.LowerStrSlice | src/asmtk/asmparser.cpp:265-268 | folding a slice is slicing the folded string |
| Keywords.SizeKeywordShape | src/asmtk/asmparser.cpp:261-268 | a 4- to 7-letter lexeme splits into its leading letters and the folded last four |
| Keywords.ParseSizeFourLetters | src/asmtk/asmparser.cpp:270-302 | width 1 exactly for `byte` and width 2 exactly for `word`, in any case |
| Keywords.ParseSizeDword | src/asmtk/asmparser.cpp:275-277 | width 4 exactly for `dword` |
| Keywords.ParseSizeTword | src/asmtk/asmparser.cpp:275-279 | width 10 exactly for `tword` |
| Keywords.ParseSizeOword | src/asmtk/asmparser.cpp:275-280 | width 16 exactly for `oword` |
| Keywords.ParseSizeLongKeywords | src/asmtk/asmparser.cpp:283-297 | width 8 exactly for `qword` and for six letters `m?word`; width 32 exactly for six letters `q?word`; no width 64; a seven-letter lexeme is never a size |
| Keywords.SizeByte | src/asmtk/asmparser.cpp:300-302 | `byte` and `BYTE` are width 1 |
| Keywords.SizeWord | src/asmtk/asmparser.cpp:270-272 | `Word` is width 2 |
| Keywords.SizeDword | src/asmtk/asmparser.cpp:276-277 | `dword` is width 4 |
| Keywords.SizeQword | src/asmtk/asmparser.cpp:276-278 | `QWORD` is width 8 |
| Keywords.SizeMmword | src/asmtk/asmparser.cpp:284-286 | `mmword` is width 8 |
| Keywords.SizeQqword | src/asmtk/asmparser.cpp:284-288 | `qqword` is width 32 |
| Keywords.SizeDqwordMissed | src/asmtk/asmparser.cpp:284-287 | `dqword` is not recognised, because the source compares `dd`, not `dq` |
| Keywords.SizeXmmwordMissed | src/asmtk/asmparser.cpp:292-294 | `xmmword` is not recognised |
| Keywords.SizeZmmwordMissed | src/asmtk/asmparser.cpp:292-296 | `zmmword` is not recognised |
| Keywords.ParseOption | src/asmtk/asmparser.cpp:525-574 | an option keyword has 3 to 5 letters |
| Keywords.ParseOptionKeywords | src/asmtk/asmparser.cpp:539-570 | each option flag is given by exactly its keywords (`rep`/`repe`/`repz`, `repne`/`repnz`, `rex`, `long`, `short`, `modmr`) and by nothing else |
| Keywords.StemIndex | src/asmtk/asmparser.cpp:597-606 | the five alias stems are distinct |
| Keywords.AliasNameRoundTrip | src/asmtk/asmparser.cpp:594-613 | each of the twenty alias names is recognised with the id the alias enumeration gives it |
| Keywords.AliasOnlyForStringNames | src/asmtk/asmparser.cpp:576-619 | an answer at or above the alias start is below it plus 20, and is the id of the alias the input spells |
| Keywords.AliasOtherwise | src/asmtk/asmparser.cpp:576-619 | `sal` gives shl; other 3-letter words and other lengths give kInvalidInst; an unknown stem gives 0; a known stem with another suffix gives kInvalidInst |
| Operands.SignExtendRoundTrip | src/asmtk/asmparser.cpp:480-482 | a 32-bit displacement widened to `uint64_t` reads back as itself |
| Operands.HandleSymbol | src/asmtk/asmparser.cpp:307-317 | a found or created label is in the table under the returned handle, and the only new name is this one; old labels keep their handles; NoHeapMemory exactly when the name is new and the table is full, and then nothing changes |
| Operands.HandleSymbolIdempotent | src/asmtk/asmparser.cpp:307-317 | a second lookup of the same name finds the same label and changes nothing |
| Operands.BuildMem | src/asmtk/asmparser.cpp:474-486 | the memory operand carries the size, the abs flag and the segment given |
| Operands.BuildMemForm | src/asmtk/asmparser.cpp:475-482 | the constructor is chosen by which registers are present, and carries those registers, the shift and the 32-bit displacement; base-less forms hold its sign extension |
| Operands.BuildMemWellFormed | src/asmtk/asmparser.cpp:471-482 | the built operand is well formed |
| Operands.DispLoop | src/asmtk/asmparser.cpp:468-506 | a closed displacement loop ends just after a `]` |
| Operands.AddressDisp | src/asmtk/asmparser.cpp:468-506 | Ok or InvalidAddress; on Ok the address ends with `]` inside the input, is well formed, and has the size, abs flag and segment given |
| Operands.AddressScale | src/asmtk/asmparser.cpp:426-440 | Ok or InvalidAddress; on Ok a well-formed operand with the size, abs flag and segment given |
| Operands.AddressAfterIndex | src/asmtk/asmparser.cpp:420-441 | the same guarantees after `base + index` |
| Operands.AddressAfterRegister | src/asmtk/asmparser.cpp:412-455 | the same guarantees after the first register |
| Operands.AddressTerm | src/asmtk/asmparser.cpp:396-466 | the same guarantees from the first term of the address |
| Operands.Address | src/asmtk/asmparser.cpp:384-466 | Ok or InvalidAddress; on Ok a well-formed memory operand with the size and segment given, absolute exactly when `abs` came first |
| Operands.SegmentedMemory | src/asmtk/asmparser.cpp:362-376 | Ok or InvalidAddress; on Ok a well-formed memory operand of the given size |
| Operands.SizedMemory | src/asmtk/asmparser.cpp:343-377 | Ok or InvalidAddress; on Ok a well-formed memory operand of the keyword's size |
| Operands.SymbolOperand | src/asmtk/asmparser.cpp:325-381 | on Ok a well-formed operand that is not empty; an error other than NoHeapMemory leaves the labels alone |
| Operands.OperandAt | src/asmtk/asmparser.cpp:319-523 | on Ok a well-formed operand that is not empty, with the cursor not moved back; an error other than NoHeapMemory leaves the labels alone |
| OperandLaws.Signed64Congruent | src/asmtk/asmparser.cpp:518 | values equal modulo 2^64 have the same signed 64-bit reading |
| OperandLaws.Signed32Congruent | src/asmtk/asmparser.cpp:474 | values equal modulo 2^64 have the same `int32_t` truncation |
| OperandLaws.Unsigned64Add | src/asmtk/asmparser.cpp:500-503 | wrapping after each addition equals wrapping once |
| OperandLaws.DispStep | src/asmtk/asmparser.cpp:495-505 | one `+ n` or `- n` term adds or subtracts n modulo 2^64 and moves on two tokens |
| OperandLaws.SumStep | src/asmtk/asmparser.cpp:500-503 | adding the first term and then the rest equals adding the whole sum, modulo 2^64 |
| OperandLaws.DispTerms | src/asmtk/asmparser.cpp:468-506 | a run of terms adds their exact sum modulo 2^64 and the loop carries on after the run |
| OperandLaws.DispBracket | src/asmtk/asmparser.cpp:470 | `]` closes the loop at once |
| OperandLaws.DispClosed | src/asmtk/asmparser.cpp:470-488 | a closed loop builds the operand from the accumulated displacement |
| OperandLaws.ClosedTerms | src/asmtk/asmparser.cpp:468-506 | terms closed by `]` give the operand whose displacement is the initial one plus the sum of the terms, ending after the `]` |
| OperandLaws.UnclosedTerms | src/asmtk/asmparser.cpp:491-493 | terms followed by anything but `]`, `+` or `-` are an invalid address |
| OperandLaws.RegisterInDispRejected | src/asmtk/asmparser.cpp:495-498 | after `+` or `-` in the displacement loop only an integer is accepted |
| OperandLaws.BaseIndexScale | src/asmtk/asmparser.cpp:418-440 | `[b + i * s]` with s in 1, 2, 4, 8 is base b, index i, the shift of s and displacement 0 |
| OperandLaws.ScaleRejected | src/asmtk/asmparser.cpp:431-437 | any other scale is an invalid address |
| OperandLaws.AbsRegister | src/asmtk/asmparser.cpp:396-410 | `[abs r]` is an absolute memory operand with base r and displacement 0, ending after the `]` |
| OperandLaws.SecondAbsRejected | src/asmtk/asmparser.cpp:399-409 | `abs abs` is an invalid address |
| OperandLaws.RegisterOperand | src/asmtk/asmparser.cpp:326-329 | any word that names a register other than a segment register is that register operand, and nothing more is consumed |
| OperandLaws.NamedRegisterOperand | src/asmtk/asmparser.cpp:326-329 | in particular a register name spelled as the register tables spell it is that register |
| OperandLaws.SegmentRegisterOperand | src/asmtk/asmparser.cpp:331-340 | a segment register followed by `:[` starts a memory operand with that segment; otherwise it is a register operand and the cursor is put back |
| OperandLaws.SizedPtrOperand | src/asmtk/asmparser.cpp:343-359 | `size ptr [` is a memory operand of that size without segment |
| OperandLaws.LabelOperand | src/asmtk/asmparser.cpp:379-380 | any other symbol is the label of that name; it fails exactly when the name is new and the table is full; an existing label is reused unchanged |
| OperandLaws.ImmediateOperand | src/asmtk/asmparser.cpp:509-519 | an integer is the immediate of its 64 bits, read as signed |
| OperandLaws.NegativeImmediate | src/asmtk/asmparser.cpp:510-519 | `-n` is the two's-complement negation of n; `-` before anything else is InvalidState |
| Fixup.ResolveAlias | src/asmtk/asmparser.cpp:662-694 | a string form always has a width of 1, 2, 4 or 8 |
| Fixup.ImplicitOperands | src/asmtk/asmparser.cpp:696-711 | a string instruction without operands receives two |
| Fixup.RewriteStringOperands | src/asmtk/asmparser.cpp:714-724 | in place, each written slot becomes its string-instruction rewrite and the other slots are unchanged |
| Fixup.DropDefaultSegments | src/asmtk/asmparser.cpp:728-750 | in place, each written slot loses a default segment and the other slots are unchanged |
| Fixup.FixupInstruction | src/asmtk/asmparser.cpp:654-751 | the new id, the operand array and the count are what the rewrite function gives for the old ones |
| Fixup.FixupAt | src/asmtk/asmparser.cpp:654-751 | slot by slot: the id is the alias's, the count is 2 for implicit operands and unchanged otherwise, written slots are rewritten and the others kept |
| Fixup.CmpsdMovsdChoice | src/asmtk/asmparser.cpp:664-675 | `cmpsd`/`movsd` are the string instructions exactly when there are no operands or exactly two memory operands, and the SSE instructions otherwise |
| Fixup.ZeroOperandString | src/asmtk/asmparser.cpp:696-711 | without operands every string alias gets its two implicit operands (`[zsi]`, `[zdi]`, the accumulator of the alias width) in the order of its instruction |
| Fixup.StringOperandSize | src/asmtk/asmparser.cpp:714-720 | for every id the alias table makes a string instruction (cmpsd and movsd only in their string form), a written memory operand without a size takes the width the alias names and otherwise keeps its own; the id becomes the resolved one and the count is kept |
| Fixup.StringDropsEsOnDi | src/asmtk/asmparser.cpp:721-722 | `es:` on a di-based operand of a string instruction is dropped |
| Fixup.DefaultSegmentDropped | src/asmtk/asmparser.cpp:728-750 | a segment equal to the default one (`ss` for sp/bp bases, `ds` otherwise) is dropped; outside string instructions it is dropped exactly then |
| Fixup.FixupKeeps | src/asmtk/asmparser.cpp:654-751 | a non-alias keeps its id and count; the unwritten slots are kept; a written operand that is not memory is unchanged |
| Statements.ResolveInstruction | src/asmtk/asmparser.cpp:621-652 | Ok or InvalidInstruction; on Ok a real instruction id and the cursor not moved back |
| Statements.DecoratorGroups | src/asmtk/asmparser.cpp:800-858 | Ok or InvalidState; on Ok the cursor moved forward, the last token read is not `{`, and a mask is only set at the first operand |
| Statements.Decorations | src/asmtk/asmparser.cpp:800-858 | after an operand: the cursor moved forward and the token read next is not `{` |
| Statements.OperandStep | src/asmtk/asmparser.cpp:796-858 | on Ok one well-formed operand that is not empty, and the next token is not `{` |
| Statements.OperandLoop | src/asmtk/asmparser.cpp:789-871 | on Ok at most six operands, the new ones after the old, and the list ends at a newline or end of input |
| Statements.Pad | src/asmtk/asmparser.cpp:873-874 | the written operands followed by empty slots up to six |
| Statements.PaddedSlots | src/asmtk/asmparser.cpp:873-874 | slots that are empty after the count are the padding of the written ones |
| Statements.EmitInstruction | src/asmtk/asmparser.cpp:879-884 | the calls already made stay in the trace |
| Statements.LabelStatement | src/asmtk/asmparser.cpp:768-775 | the trace only grows; on Ok the token after the colon has been read |
| Statements.InstructionStatement | src/asmtk/asmparser.cpp:776-885 | the trace only grows; on Ok the statement ends at a newline or end of input |
| Statements.Statement | src/asmtk/asmparser.cpp:761-886 | the trace only grows and, on Ok, the cursor moves forward |
| Statements.ParseFrom | src/asmtk/asmparser.cpp:760-897 | the calls made on the emitter are never taken back |
| StatementLaws.ResolveAddsOptionFlags | src/asmtk/asmparser.cpp:640-647 | resolving only adds option flags to those given |
| StatementLaws.AliasShadowsDatabase | src/asmtk/asmparser.cpp:631-633 | an alias wins over the database and reads nothing more |
| StatementLaws.ResolveIgnoresCase | src/asmtk/asmparser.cpp:629 | mnemonics that fold to the same lower case resolve the same way |
| StatementLaws.OptionNeedsMnemonic | src/asmtk/asmparser.cpp:649-650 | an option must be followed by a symbol |
| StatementLaws.RepeatedOptionRejected | src/asmtk/asmparser.cpp:644-646 | `rep repz` repeats one option and is refused |
| StatementLaws.DatabaseName | src/asmtk/asmparser.cpp:636-637 | a database name that is not an alias resolves to its database id, options kept and no token consumed |
| StatementLaws.LongMnemonicRejected | src/asmtk/asmparser.cpp:626-627 | a word longer than 32 characters is InvalidInstruction |
| StatementLaws.UnknownWordRejected | src/asmtk/asmparser.cpp:640-642 | a word that is neither an alias, a database name nor an option is InvalidInstruction |
| StatementLaws.OptionRepeatRejected | src/asmtk/asmparser.cpp:644-646 | an option already among the options, whatever they are, is InvalidInstruction |
| StatementLaws.RepStosb | src/asmtk/asmparser.cpp:621-652 | `rep stosb` resolves to the stosb alias with the Rep flag |
| StatementLaws.DecoratorFlagsAdded | src/asmtk/asmparser.cpp:806-846 | decorators only add decorator flags, and after the first operand only the broadcast flag |
| StatementLaws.DecoratorFirstOperandOnly | src/asmtk/asmparser.cpp:807-845 | a mask, zeroing, SAE or rounding decorator after the first operand is InvalidState |
| StatementLaws.MalformedGroupRejected | src/asmtk/asmparser.cpp:846-854 | a group that does not start with a word, or whose word is not followed by `}`, is InvalidState |
| StatementLaws.RepeatedDecorator | src/asmtk/asmparser.cpp:806-845 | a second mask, zeroing, broadcast, SAE or rounding mode is InvalidState |
| StatementLaws.BroadcastNeedsMemory | src/asmtk/asmparser.cpp:817-819 | `{1tox}` after an operand that is not memory is InvalidState |
| StatementLaws.UppercaseDecoratorIgnored | src/asmtk/asmparser.cpp:805-812 | `{K1}` and `{Z}` are read and ignored |
| StatementLaws.SecondMaskRejected | src/asmtk/asmparser.cpp:806-808 | `{k1}{k2}` is InvalidState |
| StatementLaws.SecondRoundingRejected | src/asmtk/asmparser.cpp:827-846 | `{rn}{rz}` is InvalidState: the rounding modes share the ER flag |
| StatementLaws.RoundingWithSae | src/asmtk/asmparser.cpp:822-831 | `{rn}{sae}` is accepted and sets ER, round-nearest and SAE |
| StatementLaws.MaskWithZeroing | src/asmtk/asmparser.cpp:806-816 | `{k1}{z}` sets the extra operand k1 and the zeroing flag |
| StatementLaws.NoOperands | src/asmtk/asmparser.cpp:792-794 | a mnemonic followed by a newline or end of input has no operands |
| StatementLaws.OperandLoopAppends | src/asmtk/asmparser.cpp:789-871 | the loop keeps the operands it had and appends well-formed, non-empty ones |
| StatementLaws.SeventhOperandRejected | src/asmtk/asmparser.cpp:860-864 | a comma after the sixth operand is InvalidState |
| StatementLaws.OperandAtExtends | src/asmtk/asmparser.cpp:307-317 | parsing an operand keeps every label with its handle |
| StatementLaws.OperandLoopExtends | src/asmtk/asmparser.cpp:789-871 | the operand loop keeps every label with its handle |
| StatementLaws.StatementExtends | src/asmtk/asmparser.cpp:761-886 | a statement keeps every label with its handle |
| StatementLaws.ParseFromExtends | src/asmtk/asmparser.cpp:760-895 | the whole parse keeps every label with its handle |
| StatementLaws.EmitOnlyAfterValidation | src/asmtk/asmparser.cpp:876-884 | the emitter is called only after the validator accepts the rewritten instruction, and then with the setters and one `_emit` of the rewritten id and slots 0-3; otherwise the calls are unchanged; success always ends in that `_emit` |
| StatementLaws.MovEaxImm | src/asmtk/asmparser.cpp:753-897 | `mov eax, 1` and a newline parses to `setOptions(0)` then `_emit(mov, eax, 1, none, none)` and succeeds |
| StatementLaws.EmptyInput | src/asmtk/asmparser.cpp:755 | empty input succeeds and calls nothing |
| StatementLaws.BlankLines | src/asmtk/asmparser.cpp:888-889 | blank lines succeed and call nothing |
| StatementLaws.LabelThenInstructionRejected | src/asmtk/asmparser.cpp:774-894 | `name: mov` on one line is InvalidState, because a label must end its line |
| StatementLaws.LabelBinds | src/asmtk/asmparser.cpp:768-775 | `name:` alone binds the name's label, and that `bind` is the only call made |
| StatementLaws.ErrorStops | src/asmtk/asmparser.cpp:771-884 | the first failing statement's error is the result of the parse |
| Parser.AsmParser.constructor | src/asmtk/asmparser.cpp:82 | the parser starts with no input, no labels and no calls made |
| Parser.AsmParser.Next | src/asmtk/asmparser.cpp:396 | returns the token at the cursor and advances it; nothing else changes |
| Parser.AsmParser.ParseDisp | src/asmtk/asmparser.cpp:468-506 | the displacement loop computes what DispLoop specifies |
| Parser.AsmParser.ParseAddressDisp | src/asmtk/asmparser.cpp:468-506 | computes AddressDisp: its error always, and its operand and cursor on Ok |
| Parser.AsmParser.ParseScale | src/asmtk/asmparser.cpp:426-440 | computes AddressScale |
| Parser.AsmParser.ParseAfterIndex | src/asmtk/asmparser.cpp:420-441 | computes AddressAfterIndex |
| Parser.AsmParser.ParseAfterRegister | src/asmtk/asmparser.cpp:412-455 | computes AddressAfterRegister |
| Parser.AsmParser.ParseMemory | src/asmtk/asmparser.cpp:384-410 | computes Address |
| Parser.AsmParser.ParseAddressTerm | src/asmtk/asmparser.cpp:398-466 | computes AddressTerm |
| Parser.AsmParser.ParseSizedMemory | src/asmtk/asmparser.cpp:343-377 | computes SizedMemory |
| Parser.AsmParser.ParseSegmentedMemory | src/asmtk/asmparser.cpp:362-376 | computes SegmentedMemory |
| Parser.AsmParser.ParseSymbolOperand | src/asmtk/asmparser.cpp:325-381 | computes SymbolOperand, label table included |
| Parser.AsmParser.ParseOperand | src/asmtk/asmparser.cpp:319-523 | computes OperandAt, label table included |
| Parser.AsmParser.ParseDecorators | src/asmtk/asmparser.cpp:802-857 | the `do`/`while` loop computes DecoratorGroups |
| Parser.AsmParser.ParseDecorations | src/asmtk/asmparser.cpp:800-858 | computes Decorations |
| Parser.AsmParser.ParseOperandStep | src/asmtk/asmparser.cpp:796-858 | computes OperandStep |
| Parser.AsmParser.ParseOperands | src/asmtk/asmparser.cpp:789-871 | the operand loop fills the array with what OperandLoop specifies and returns the count |
| Parser.AsmParser.ResetOperands | src/asmtk/asmparser.cpp:873-874 | the slots from the count on are reset, so the array is the padding of the written operands |
| Parser.AsmParser.ParseInstruction | src/asmtk/asmparser.cpp:621-652 | the option loop computes ResolveInstruction |
| Parser.AsmParser.ParseInstructionStatement | src/asmtk/asmparser.cpp:777-884 | computes InstructionStatement, labels and emitter calls included |
| Parser.AsmParser.EmitInstruction | src/asmtk/asmparser.cpp:879-884 | makes the setter calls and `_emit` the function specifies |
| Parser.AsmParser.ParseLabel | src/asmtk/asmparser.cpp:768-775 | computes LabelStatement |
| Parser.AsmParser.ParseStatement | src/asmtk/asmparser.cpp:761-886 | computes Statement |
| Parser.AsmParser.Parse | src/asmtk/asmparser.cpp:753-898 | the statement loop computes ParseFrom: its error, the final label table and the calls made on the emitter |

## Left out

- The tokenizer (`AsmTokenizer`) is not part of this model. The input is
  the token sequence it would produce, ending with End. A `back` is a
  return to an earlier cursor.
- The `len == kInvalidIndex` / `strlen` step of `parse` is not modelled.
  An empty input is the empty token sequence.
- The instruction-name database (`X86Inst::getIdByName`), the validator
  (`X86Inst::validate`) and the emitter are not part of this model. They
  are parameters: a name map, a validation function, and a status
  function answering each `bind` and `_emit` given the calls made before
  it. The setters `setOptions`, `setOpExtra`, `setOp4` and `setOp5` are
  recorded in the trace and cannot fail.
- Label handles are numbered in creation order. Running out of memory is
  modelled as a table capacity.
- Option bits are a set of flags. Each rounding mode is its own flag,
  OR-ed in at most once per statement.
- Parser.AsmParser.ResetOperands: resets every slot from the count up to
  six. The source resets only up to slot 3 and leaves slots 4 and 5
  uninitialised; it never reads those slots when fewer operands were
  written.
- The `goto MemRepeat` after `abs` is a single optional step: `abs` may
  come first, once.
- The `isInt32` test of the truncated displacement always holds, so the
  model has no branch for it.
- Operands.Address: on Ok states only that the cursor is inside the input.
  Only Operands.AddressDisp also states that the token just read is `]`.
- Operands.OperandAt: states how the label table changes in
  OperandLaws.LabelOperand and StatementLaws.OperandAtExtends rather than
  in its own contract.
- Statements.OperandLoop: the facts about the operands it appends are in
  StatementLaws.OperandLoopAppends. The facts about the option flags are
  in StatementLaws.DecoratorFlagsAdded and
  StatementLaws.ResolveAddsOptionFlags.
- Other architectures and `archType` beyond 32- versus 64-bit pointers are
  not modelled.
