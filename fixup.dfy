/** `x86FixupInstruction`: the rewrite applied to a parsed instruction
    before validation. String-instruction aliases become the instruction
    they stand for (with implicit operands when none were written), and an
    explicit segment that is the default one for the address is dropped. */
module Fixup {
  import opened Base
  import opened Registers
  import opened Keywords
  import opened Operands

  // ---------------------------------------------------------------------
  // What the rewrite asks of a memory operand (asmjit's X86Mem accessors)

  /** `getBaseId()`: the base register's number; an operand without a base
      register keeps the upper 32 bits of its 64-bit address there. */
  function BaseId(f: MemForm): nat
  {
    match f
    case BaseDisp(b, _) => b.id
    case BaseIndexDisp(b, _, _, _) => b.id
    case IndexAddr(a, _, _) => a / TWO32
    case AbsAddr(a) => a / TWO32
  }

  /** `hasBaseReg()`. */
  predicate HasBaseReg(f: MemForm)
  {
    f.BaseDisp? || f.BaseIndexDisp?
  }

  /** `getSegmentId()`: 0 when the operand names no segment. */
  function SegmentId(op: Operand): nat
    requires op.MemOp?
  {
    if op.seg.Some? then op.seg.value.id else 0
  }

  // ---------------------------------------------------------------------
  // The alias switch

  /** The width in bytes of the suffixes b, d, q, w, in alias order. */
  const AliasWidths: seq<nat> := [1, 4, 8, 2]

  /** The string instruction behind stem `i` of the alias enumeration. */
  function StemInst(ids: InstIds, i: nat): nat
    requires i < 5
  {
    [ids.cmps, ids.movs, ids.lods, ids.scas, ids.stos][i]
  }

  /** What the alias switch decides: the instruction id, the memory width
      of the string form (0 when none) and whether the string form applies. */
  datatype AliasPlan = AliasPlan(id: nat, memSize: nat, isStr: bool)

  /** Exactly two operands were written and both are memory operands. */
  predicate BothMemory(ops: seq<Operand>, count: nat)
    requires |ops| == 6
  {
    count == 2 && ops[0].MemOp? && ops[1].MemOp?
  }

  /** The alias switch (lines 662-694). `cmpsd` and `movsd` are the string
      instructions when no operand or two memory operands were written and
      the SSE instructions otherwise; every other alias is its string
      instruction; an id outside the twenty aliases is left alone. */
  function ResolveAlias(ids: InstIds, instId: nat, ops: seq<Operand>, count: nat): (p: AliasPlan)
    requires |ops| == 6
    ensures p.isStr ==> p.memSize in {1, 2, 4, 8}
  {
    if instId < AliasStart || instId >= AliasStart + 20 then AliasPlan(instId, 0, false)
    else
      var k := instId - AliasStart;
      var width := AliasWidths[k % 4];
      if k == 1 || k == 5 then
        var isStr := count == 0 || BothMemory(ops, count);
        AliasPlan(if isStr then StemInst(ids, k / 4) else if k == 1 then ids.cmpsd else ids.movsd, width, isStr)
      else AliasPlan(StemInst(ids, k / 4), width, true)
  }

  // ---------------------------------------------------------------------
  // Implicit operands

  /** The pointer-width register class of the target (`zsi`, `zdi`). */
  function PtrType(x64: bool): RegType
  {
    if x64 then Gpq else Gpd
  }

  /** `ptr_zsi()` / `ptr_zdi()`: `[esi]`/`[edi]` on 32-bit targets,
      `[rsi]`/`[rdi]` on 64-bit ones, with no size and no segment. */
  function PtrZ(x64: bool, id: nat): Operand
  {
    MemOp(BaseDisp(Reg(PtrType(x64), id), 0), 0, false, None)
  }

  /** The accumulator of the alias width: al, ax, eax or rax. */
  function Accumulator(memSize: nat): Operand
  {
    var t := if memSize == 1 then GpbLo else if memSize == 2 then Gpw else if memSize == 4 then Gpd else Gpq;
    RegOp(Reg(t, IdAx))
  }

  /** The two operands a string instruction written without operands
      receives (lines 705-711); the slots keep what they held when the id is
      none of the five string instructions. */
  function ImplicitOperands(ids: InstIds, x64: bool, id: nat, memSize: nat, ops: seq<Operand>): (r: seq<Operand>)
    requires |ops| == 6
    ensures |r| == 2
  {
    var zsi, zdi, acc := PtrZ(x64, IdSi), PtrZ(x64, IdDi), Accumulator(memSize);
    if id == ids.cmps then [zsi, zdi]
    else if id == ids.movs then [zdi, zsi]
    else if id == ids.lods || id == ids.scas then [acc, zdi]
    else if id == ids.stos then [zdi, acc]
    else ops[..2]
  }

  // ---------------------------------------------------------------------
  // Per-operand rewrites

  /** A memory operand of a string instruction: no size becomes the alias
      width, and `es` on an operand whose base is register 7 (di) goes. */
  function StringOperand(op: Operand, memSize: nat): Operand
  {
    if !op.MemOp? then op
    else
      var sized := if op.size == 0 then op.(size := memSize) else op;
      if BaseId(op.form) == IdDi && SegmentId(op) == SegEs then sized.(seg := None) else sized
  }

  /** The segment an address uses when none is given: `ss` for a base
      numbered sp or bp, `ds` otherwise. */
  function DefaultSegment(f: MemForm): nat
  {
    if HasBaseReg(f) && (BaseId(f) == IdSp || BaseId(f) == IdBp) then SegSs else SegDs
  }

  /** An explicit segment equal to the default one is dropped. */
  function DropDefaultSegment(op: Operand): Operand
  {
    if op.MemOp? && op.seg.Some? && op.seg.value.id == DefaultSegment(op.form) then op.(seg := None) else op
  }

  /** One written operand after the rewrite. */
  function FixedOperand(plan: AliasPlan, op: Operand): Operand
  {
    DropDefaultSegment(if plan.isStr then StringOperand(op, plan.memSize) else op)
  }

  datatype FixupResult = FixupResult(id: nat, ops: seq<Operand>, count: nat)

  /** The whole rewrite of (instId, opArray, opCount). */
  function Fixup(ids: InstIds, x64: bool, instId: nat, ops: seq<Operand>, count: nat): FixupResult
    requires |ops| == 6 && count <= 6
  {
    var plan := ResolveAlias(ids, instId, ops, count);
    var implicit := plan.isStr && count == 0;
    var ops1 := if implicit then ImplicitOperands(ids, x64, plan.id, plan.memSize, ops) + ops[2..] else ops;
    var count1 := if implicit then 2 else count;
    FixupResult(plan.id, seq(6, i requires 0 <= i < 6 => if i < count1 then FixedOperand(plan, ops1[i]) else ops1[i]),
                count1)
  }

  // ---------------------------------------------------------------------
  // The in-place rewrite

  /** The loop over the written operands of a string instruction, in
      place: each memory operand gets the alias width when it has none and
      loses `es` when its base is register 7 (di). */
  method RewriteStringOperands(opArray: array<Operand>, count: nat, memSize: nat)
    requires count <= opArray.Length
    modifies opArray
    ensures forall j :: 0 <= j < opArray.Length ==>
              opArray[j] == if j < count then StringOperand(old(opArray[j]), memSize) else old(opArray[j])
  {
    var i := 0;
    while i < count
      invariant 0 <= i <= count
      invariant forall j :: 0 <= j < i ==> opArray[j] == StringOperand(old(opArray[j]), memSize)
      invariant forall j :: i <= j < opArray.Length ==> opArray[j] == old(opArray[j])
    {
      if opArray[i].MemOp? {
        var mem := opArray[i];
        if mem.size == 0 {
          mem := mem.(size := memSize);
        }
        if BaseId(mem.form) == IdDi && mem.seg.Some? && mem.seg.value.id == SegEs {
          mem := mem.(seg := None);
        }
        opArray[i] := mem;
      }
      i := i + 1;
    }
  }

  /** The loop over the written operands of every instruction, in place:
      an explicit segment equal to the default one is dropped. */
  method DropDefaultSegments(opArray: array<Operand>, count: nat)
    requires count <= opArray.Length
    modifies opArray
    ensures forall j :: 0 <= j < opArray.Length ==>
              opArray[j] == if j < count then DropDefaultSegment(old(opArray[j])) else old(opArray[j])
  {
    var i := 0;
    while i < count
      invariant 0 <= i <= count
      invariant forall j :: 0 <= j < i ==> opArray[j] == DropDefaultSegment(old(opArray[j]))
      invariant forall j :: i <= j < opArray.Length ==> opArray[j] == old(opArray[j])
    {
      var op := opArray[i];
      if op.MemOp? && op.seg.Some? {
        var defaultSeg := SegDs;
        if HasBaseReg(op.form) {
          if BaseId(op.form) == IdSp || BaseId(op.form) == IdBp {
            defaultSeg := SegSs;
          }
        }
        if op.seg.value.id == defaultSeg {
          opArray[i] := op.(seg := None);
        }
      }
      i := i + 1;
    }
  }

  /** `x86FixupInstruction` on the six operand slots, in place. */
  method FixupInstruction(ids: InstIds, x64: bool, instId: nat, opArray: array<Operand>, opCount: nat)
    returns (newId: nat, newCount: nat)
    requires opArray.Length == 6 && opCount <= 6
    modifies opArray
    ensures FixupResult(newId, opArray[..], newCount) == Fixup(ids, x64, instId, old(opArray[..]), opCount)
  {
    ghost var before := opArray[..];
    var plan := ResolveAlias(ids, instId, opArray[..], opCount);
    newId, newCount := plan.id, opCount;
    ghost var implicitCase := plan.isStr && opCount == 0;
    ghost var ops1 := if implicitCase then ImplicitOperands(ids, x64, plan.id, plan.memSize, before) + before[2..] else before;

    if plan.isStr {
      if opCount == 0 {
        var implicit := ImplicitOperands(ids, x64, plan.id, plan.memSize, opArray[..]);
        newCount := 2;
        opArray[0], opArray[1] := implicit[0], implicit[1];
      }
      assert opArray[..] == ops1;
      RewriteStringOperands(opArray, newCount, plan.memSize);
    }
    ghost var rewritten := opArray[..];
    assert forall j :: 0 <= j < 6 ==>
      rewritten[j] == if j < newCount && plan.isStr then StringOperand(ops1[j], plan.memSize) else ops1[j];
    DropDefaultSegments(opArray, newCount);
    ghost var spec := Fixup(ids, x64, instId, before, opCount);
    forall j | 0 <= j < 6 ensures opArray[j] == spec.ops[j] {
      FixupAt(ids, x64, instId, before, opCount, j);
    }
    assert opArray[..] == spec.ops;
  }

  /** The operand in slot `j` after the rewrite. */
  lemma {:induction false} FixupAt(ids: InstIds, x64: bool, instId: nat, ops: seq<Operand>, count: nat, j: nat)
    requires |ops| == 6 && count <= 6 && j < 6
    ensures var plan := ResolveAlias(ids, instId, ops, count);
            var implicit := plan.isStr && count == 0;
            var ops1 := if implicit then ImplicitOperands(ids, x64, plan.id, plan.memSize, ops) + ops[2..] else ops;
            var r := Fixup(ids, x64, instId, ops, count);
            r.id == plan.id && r.count == (if implicit then 2 else count) && |r.ops| == 6 &&
            r.ops[j] == if j < r.count then FixedOperand(plan, ops1[j]) else ops1[j]
  {
  }

  // ---------------------------------------------------------------------
  // What the rewrite guarantees

  /** `cmpsd` and `movsd` become the string instructions exactly when no
      operand or two memory operands were written; otherwise they become the
      SSE instructions. The width is four bytes either way. */
  lemma {:induction false} CmpsdMovsdChoice(ids: InstIds, x64: bool, k: nat, ops: seq<Operand>, count: nat)
    requires ValidIds(ids) && |ops| == 6 && count <= 6
    requires k == 1 || k == 5
    ensures var r := Fixup(ids, x64, AliasStart + k, ops, count);
            var stringForm := count == 0 || BothMemory(ops, count);
            (r.id == StemInst(ids, k / 4) <==> stringForm) &&
            (!stringForm ==> r.id == (if k == 1 then ids.cmpsd else ids.movsd))
  {
    var plan := ResolveAlias(ids, AliasStart + k, ops, count);
    assert plan.isStr <==> (count == 0 || BothMemory(ops, count));
  }

  /** A memory operand of width `size` at `[zdi]` or `[zsi]`, as the
      string instructions use them. */
  function StringPtr(x64: bool, id: nat, size: nat): Operand
  {
    MemOp(BaseDisp(Reg(PtrType(x64), id), 0), size, false, None)
  }

  /** A string alias written without operands gets exactly two operands:
      cmps [zsi], [zdi]; movs [zdi], [zsi]; lods and scas the accumulator
      and [zdi]; stos [zdi] and the accumulator; memory ones sized by the
      suffix. The other slots are untouched. */
  lemma {:induction false} ZeroOperandString(ids: InstIds, x64: bool, k: nat, ops: seq<Operand>)
    requires ValidIds(ids) && |ops| == 6 && k < 20
    ensures var r := Fixup(ids, x64, AliasStart + k, ops, 0);
            var w := AliasWidths[k % 4];
            var zsi, zdi, acc := StringPtr(x64, IdSi, w), StringPtr(x64, IdDi, w), Accumulator(w);
            r.count == 2 && r.id == StemInst(ids, k / 4) && r.ops[2..] == ops[2..] &&
            [r.ops[0], r.ops[1]] ==
              (if k / 4 == 0 then [zsi, zdi]
               else if k / 4 == 1 then [zdi, zsi]
               else if k / 4 == 2 || k / 4 == 3 then [acc, zdi]
               else [zdi, acc])
  {
    var plan := ResolveAlias(ids, AliasStart + k, ops, 0);
    var w := AliasWidths[k % 4];
    assert plan == AliasPlan(StemInst(ids, k / 4), w, true);
    var r := Fixup(ids, x64, AliasStart + k, ops, 0);
    var imp := ImplicitOperands(ids, x64, plan.id, w, ops);
    var ops1 := imp + ops[2..];
    assert r.ops[0] == FixedOperand(plan, ops1[0]) && r.ops[1] == FixedOperand(plan, ops1[1]);
    assert ops1[0] == imp[0] && ops1[1] == imp[1];
    assert r.ops[2..] == ops[2..] by {
      forall j | 2 <= j < 6 ensures r.ops[j] == ops[j] { assert ops1[j] == ops[j]; }
    }
  }

  /** The memory operands of a string instruction: one without a size
      gets the width the alias names, one with a size keeps it; the id is
      the instruction the alias resolves to and the count does not change. */
  lemma {:induction false} StringOperandSize(ids: InstIds, x64: bool, instId: nat, ops: seq<Operand>, count: nat, i: nat)
    requires |ops| == 6 && 0 < count <= 6 && i < count
    requires ResolveAlias(ids, instId, ops, count).isStr
    requires ops[i].MemOp?
    ensures var plan := ResolveAlias(ids, instId, ops, count);
            var r := Fixup(ids, x64, instId, ops, count);
            r.count == count && r.id == plan.id && r.ops[i].MemOp? &&
            r.ops[i].form == ops[i].form &&
            r.ops[i].size == (if ops[i].size == 0 then plan.memSize else ops[i].size)
    ensures AliasStart <= instId < AliasStart + 20 &&
            ResolveAlias(ids, instId, ops, count).memSize == AliasWidths[(instId - AliasStart) % 4]
  {
    FixupAt(ids, x64, instId, ops, count, i);
  }

  /** `es` on an operand based on register 7 (di) is removed from the
      operands of a string instruction. */
  lemma {:induction false} StringDropsEsOnDi(ids: InstIds, x64: bool, instId: nat, ops: seq<Operand>, count: nat, i: nat)
    requires |ops| == 6 && 0 < count <= 6 && i < count
    requires ResolveAlias(ids, instId, ops, count).isStr
    requires ops[i].MemOp? && HasBaseReg(ops[i].form) && BaseId(ops[i].form) == IdDi
    requires ops[i].seg.Some? && ops[i].seg.value.id == SegEs
    ensures Fixup(ids, x64, instId, ops, count).ops[i].MemOp? && Fixup(ids, x64, instId, ops, count).ops[i].seg.None?
  {
    FixupAt(ids, x64, instId, ops, count, i);
  }

  /** For any instruction, an explicit segment equal to the default one (ss
      for a base numbered sp or bp, ds otherwise) is removed, and any other
      segment of a non-string instruction is kept. */
  lemma {:induction false} DefaultSegmentDropped(ids: InstIds, x64: bool, instId: nat, ops: seq<Operand>, count: nat, i: nat)
    requires |ops| == 6 && 0 < count <= 6 && i < count
    requires ops[i].MemOp? && ops[i].seg.Some?
    ensures var r := Fixup(ids, x64, instId, ops, count);
            r.ops[i].MemOp? && (ops[i].seg.value.id == DefaultSegment(ops[i].form) ==> r.ops[i].seg.None?)
    ensures var r := Fixup(ids, x64, instId, ops, count);
            !ResolveAlias(ids, instId, ops, count).isStr ==>
              r.ops[i].MemOp? && (r.ops[i].seg.None? <==> ops[i].seg.value.id == DefaultSegment(ops[i].form))
  {
    var plan := ResolveAlias(ids, instId, ops, count);
    var r := Fixup(ids, x64, instId, ops, count);
    assert r.ops[i] == FixedOperand(plan, ops[i]);
    if plan.isStr {
      var s := StringOperand(ops[i], plan.memSize);
      assert s.MemOp? && s.form == ops[i].form;
    }
  }

  /** What the rewrite leaves alone: an id that is not an alias, the count
      when operands were written, operands that are not memory operands,
      and every slot at or past the count. */
  lemma {:induction false} FixupKeeps(ids: InstIds, x64: bool, instId: nat, ops: seq<Operand>, count: nat)
    requires |ops| == 6 && count <= 6
    ensures var r := Fixup(ids, x64, instId, ops, count);
            |r.ops| == 6 &&
            (instId < AliasStart ==> r.id == instId && r.count == count && r.ops[count..] == ops[count..]) &&
            (count > 0 ==> r.count == count) &&
            (forall j :: count <= j < 6 && j >= r.count ==> r.ops[j] == ops[j]) &&
            (count > 0 ==> forall j :: 0 <= j < count && !ops[j].MemOp? ==> r.ops[j] == ops[j])
  {
    var r := Fixup(ids, x64, instId, ops, count);
    forall j | 0 <= j < 6 {
      FixupAt(ids, x64, instId, ops, count, j);
    }
    if instId < AliasStart {
      assert r.ops[count..] == ops[count..];
    }
  }
}
