/** The keyword tables: memory-size keywords (`x86ParseSize`), instruction
    option keywords (`x86ParseOption`) and the string-instruction aliases
    (`x86ParseAlias` and the `X86Alias` enumeration). */
module Keywords {
  import opened Base

  // ---------------------------------------------------------------------
  // Size keywords

  /** `x86ParseSize`: the width in bytes a size keyword names, 0 for a
      lexeme that is not one. Letters are folded to lower case. The source
      matches the last four letters first and then the leading ones, but
      for five-, six- and seven-letter keywords it packs `s[0]` again where
      `s[1]` and `s[2]` were meant (lines 284 and 292); the model packs the
      same characters. */
  function ParseSize(s: string): (r: int)
    ensures r in {0, 1, 2, 4, 8, 10, 16, 32, 64}
    ensures r != 0 ==> 4 <= |s| <= 7
  {
    if |s| < 4 || |s| > 7 then 0
    else
      var tail := LowerStr(s[|s| - 4..]);
      if tail == "word" then
        if |s| == 4 then 2
        else
          var c := Lower(s[0]);
          if |s| == 5 then
            if c == 'd' then 4
            else if c == 'q' then 8
            else if c == 't' then 10
            else if c == 'o' then 16
            else 0
          else if |s| == 6 then
            var d := [c, c];
            if d == "mm" then 8
            else if d == "dq" then 16
            else if d == "qq" then 32
            else 0
          else
            var d := [c, c, c];
            if d == "xmm" then 16
            else if d == "ymm" then 32
            else if d == "zmm" then 64
            else 0
      else if tail == "byte" then
        if |s| == 4 then 1 else 0
      else 0
  }

  /** Folding a slice is slicing the folded string. */
  lemma {:induction false} LowerStrSlice(s: string, a: nat, b: nat)
    requires a <= b <= |s|
    ensures LowerStr(s[a..b]) == LowerStr(s)[a..b]
  {
    var x, y := LowerStr(s[a..b]), LowerStr(s)[a..b];
    forall i | 0 <= i < |x|
      ensures x[i] == y[i]
    {
      assert s[a..b][i] == s[a + i];
    }
  }

  /** The lower-cased keyword split the way the recogniser reads it: the
      last four letters, and the leading ones. */
  lemma {:induction false} SizeKeywordShape(s: string)
    requires 4 <= |s| <= 7
    ensures LowerStr(s[|s| - 4..]) == LowerStr(s)[|s| - 4..]
    ensures LowerStr(s) == LowerStr(s)[..|s| - 4] + LowerStr(s)[|s| - 4..]
    ensures |s| == 5 ==> LowerStr(s) == [Lower(s[0])] + LowerStr(s)[1..]
    ensures |s| == 6 ==> LowerStr(s) == [Lower(s[0]), Lower(s[1])] + LowerStr(s)[2..]
  {
    var l := LowerStr(s);
    LowerStrSlice(s, |s| - 4, |s|);
    assert l == l[..|s| - 4] + l[|s| - 4..];
    if |s| == 6 {
      assert l == [l[0], l[1]] + l[2..];
    }
    if |s| == 5 {
      assert l == [l[0]] + l[1..];
    }
  }

  /** The four-letter keywords, as the code is written: byte and word in
      any letter case. */
  lemma {:induction false} ParseSizeFourLetters(s: string)
    ensures ParseSize(s) == 1 <==> LowerStr(s) == "byte"
    ensures ParseSize(s) == 2 <==> LowerStr(s) == "word"
  {
    if |s| == 4 {
      SizeKeywordShape(s);
      assert s[|s| - 4..] == s;
    } else if 4 < |s| <= 7 {
      SizeKeywordShape(s);
    }
  }

  /** `dword` in any letter case, and nothing else, is 4 bytes wide. */
  lemma {:induction false} ParseSizeDword(s: string)
    ensures ParseSize(s) == 4 <==> LowerStr(s) == "dword"
  {
    if |s| == 5 {
      SizeKeywordShape(s);
      assert "dword" == ['d'] + "word";
    } else if 4 <= |s| <= 7 {
      SizeKeywordShape(s);
    }
  }

  /** `tword` in any letter case, and nothing else, is 10 bytes wide. */
  lemma {:induction false} ParseSizeTword(s: string)
    ensures ParseSize(s) == 10 <==> LowerStr(s) == "tword"
  {
    if |s| == 5 {
      SizeKeywordShape(s);
      assert "tword" == ['t'] + "word";
    } else if 4 <= |s| <= 7 {
      SizeKeywordShape(s);
    }
  }

  /** `oword` in any letter case, and nothing else, is 16 bytes wide. */
  lemma {:induction false} ParseSizeOword(s: string)
    ensures ParseSize(s) == 16 <==> LowerStr(s) == "oword"
  {
    if |s| == 5 {
      SizeKeywordShape(s);
      assert "oword" == ['o'] + "word";
    } else if 4 <= |s| <= 7 {
      SizeKeywordShape(s);
    }
  }

  /** The 8- and 32-byte keywords, as the code is written: qword, and of
      the six-letter forms only the first letter counts (m gives 8, q gives
      32); no seven-letter form is ever recognised. */
  lemma {:induction false} ParseSizeLongKeywords(s: string)
    ensures ParseSize(s) == 8 <==>
              LowerStr(s) == "qword" || (|s| == 6 && Lower(s[0]) == 'm' && LowerStr(s)[2..] == "word")
    ensures ParseSize(s) == 32 <==> |s| == 6 && Lower(s[0]) == 'q' && LowerStr(s)[2..] == "word"
    ensures ParseSize(s) in {0, 1, 2, 4, 8, 10, 16, 32}
    ensures |s| == 7 ==> ParseSize(s) == 0
  {
    if 4 <= |s| <= 7 {
      SizeKeywordShape(s);
    }
  }

  lemma SizeByte() ensures ParseSize("byte") == 1 && ParseSize("BYTE") == 1 {}
  lemma SizeWord() ensures ParseSize("Word") == 2 {}
  lemma SizeDword() ensures ParseSize("dword") == 4 {}
  lemma SizeQword() ensures ParseSize("QWORD") == 8 {}
  lemma SizeMmword() ensures ParseSize("mmword") == 8 {}
  lemma SizeQqword() ensures ParseSize("qqword") == 32 {}
  lemma SizeDqwordMissed() ensures ParseSize("dqword") == 0 {}
  lemma SizeXmmwordMissed() ensures ParseSize("xmmword") == 0 {}
  lemma SizeZmmwordMissed() ensures ParseSize("zmmword") == 0 {}

  // ---------------------------------------------------------------------
  // Instruction options and AVX-512 decorators

  datatype Rounding = RoundNearest | RoundDown | RoundUp | RoundZero

  /** The instruction-option flags (X86Inst::kOption*). The source keeps
      them as bits of one word; every flag here is a distinct bit there, and
      the rounding modes, which share a bit field, are OR-ed in at most once
      per statement, so a set of flags holds the same information. */
  datatype Flag =
    | Rep | Repnz | Rex | LongForm | ShortForm | ModMR
    | OpExtra | KZ | OneToX | SAE | ER | Round(mode: Rounding)

  /** `x86ParseOption`: the option a (lower-cased) keyword names. */
  function ParseOption(s: string): (r: Option<Flag>)
    ensures r.Some? ==> 3 <= |s| <= 5
  {
    if |s| < 3 || |s| > 5 then None
    else if |s| == 3 then
      if s == "rep" then Some(Rep)
      else if s == "rex" then Some(Rex)
      else None
    else if |s| == 4 then
      if s == "repz" then Some(Rep)
      else if s == "repe" then Some(Rep)
      else if s == "long" then Some(LongForm)
      else None
    else
      if s == "repnz" then Some(Repnz)
      else if s == "repne" then Some(Repnz)
      else if s == "short" then Some(ShortForm)
      else if s == "modmr" then Some(ModMR)
      else None
  }

  /** The option keywords and nothing else: rep/repe/repz give Rep,
      repne/repnz give Repnz, and rex, long, short and modmr give Rex,
      LongForm, ShortForm and ModMR. */
  lemma {:induction false} ParseOptionKeywords(s: string)
    ensures ParseOption(s) == Some(Rep) <==> s in {"rep", "repe", "repz"}
    ensures ParseOption(s) == Some(Repnz) <==> s in {"repne", "repnz"}
    ensures ParseOption(s) == Some(Rex) <==> s == "rex"
    ensures ParseOption(s) == Some(LongForm) <==> s == "long"
    ensures ParseOption(s) == Some(ShortForm) <==> s == "short"
    ensures ParseOption(s) == Some(ModMR) <==> s == "modmr"
    ensures ParseOption(s).Some? ==> ParseOption(s).value in {Rep, Repnz, Rex, LongForm, ShortForm, ModMR}
  {
  }

  // ---------------------------------------------------------------------
  // Instruction ids and string-instruction aliases

  /** kInvalidInst ("no instruction"); its value is the one of
      X86Inst::kIdNone, 0. */
  const InvalidInst: nat := 0

  /** kX86AliasStart: the alias ids lie above every id of the instruction
      database. */
  const AliasStart: nat := 0x1_0000

  /** The five string-instruction stems in the order of the X86Alias
      enumeration, and the width suffixes in the order b, d, q, w. */
  const Stems: seq<string> := ["cmps", "movs", "lods", "scas", "stos"]
  const Suffixes: string := "bdqw"

  /** The alias id of stem `i` with suffix `j`: kX86AliasCmpsb + 4 i + j. */
  function AliasId(i: nat, j: nat): nat
    requires i < 5 && j < 4
  {
    AliasStart + 4 * i + j
  }

  /** The mnemonic of alias number `k` (counted from kX86AliasStart). */
  function AliasName(k: nat): string
    requires k < 20
  {
    Stems[k / 4] + [Suffixes[k % 4]]
  }

  /** The ids the parser needs from the instruction database. */
  datatype InstIds = InstIds(shl: nat, cmps: nat, cmpsd: nat, movs: nat, movsd: nat,
                             lods: nat, scas: nat, stos: nat)

  /** Database ids are real instructions below kX86AliasStart, the five
      string instructions are different instructions, and the string forms
      of cmps and movs differ from the SSE cmpsd and movsd. */
  predicate ValidIds(ids: InstIds)
  {
    InvalidInst < ids.shl < AliasStart &&
    InvalidInst < ids.cmps < AliasStart && InvalidInst < ids.cmpsd < AliasStart &&
    InvalidInst < ids.movs < AliasStart && InvalidInst < ids.movsd < AliasStart &&
    InvalidInst < ids.lods < AliasStart && InvalidInst < ids.scas < AliasStart &&
    InvalidInst < ids.stos < AliasStart &&
    ids.cmps != ids.movs && ids.cmps != ids.lods && ids.cmps != ids.scas && ids.cmps != ids.stos &&
    ids.movs != ids.lods && ids.movs != ids.scas && ids.movs != ids.stos &&
    ids.lods != ids.scas && ids.lods != ids.stos && ids.scas != ids.stos &&
    ids.cmps != ids.cmpsd && ids.movs != ids.movsd
  }

  /** `x86ParseAlias` on a lower-cased mnemonic. For a five-letter word
      whose first four letters are no stem the source returns its local
      `base`, which is still 0 (line 608). */
  function ParseAlias(ids: InstIds, s: string): nat
  {
    if |s| < 3 then InvalidInst
    else if |s| == 3 then
      if s == "sal" then ids.shl else InvalidInst
    else if |s| == 4 then InvalidInst
    else if |s| == 5 then
      var stem := s[..4];
      var base :=
        if stem == "cmps" then AliasId(0, 0)
        else if stem == "movs" then AliasId(1, 0)
        else if stem == "lods" then AliasId(2, 0)
        else if stem == "scas" then AliasId(3, 0)
        else if stem == "stos" then AliasId(4, 0)
        else 0;
      if base == 0 then base
      else if s[4] == 'b' then base + 0
      else if s[4] == 'd' then base + 1
      else if s[4] == 'q' then base + 2
      else if s[4] == 'w' then base + 3
      else InvalidInst
    else InvalidInst
  }

  lemma {:induction false} StemIndex(s: string, i: nat)
    requires |s| == 5 && i < 5 && s[..4] == Stems[i]
    ensures s[..4] == "cmps" <==> i == 0
    ensures s[..4] == "movs" <==> i == 1
    ensures s[..4] == "lods" <==> i == 2
    ensures s[..4] == "scas" <==> i == 3
    ensures s[..4] == "stos" <==> i == 4
  {
  }

  /** Every string alias is recognised under its name, with the id the
      X86Alias enumeration gives it. */
  lemma {:induction false} AliasNameRoundTrip(ids: InstIds, k: nat)
    requires k < 20
    ensures ParseAlias(ids, AliasName(k)) == AliasStart + k
  {
    var s := AliasName(k);
    assert s[..4] == Stems[k / 4];
    StemIndex(s, k / 4);
    assert s[4] == Suffixes[k % 4];
  }

  /** The converse: an answer at or above kX86AliasStart is the id of the
      alias spelled by the input, so every such answer is one of the twenty
      string aliases. */
  lemma {:induction false} AliasOnlyForStringNames(ids: InstIds, s: string)
    requires ValidIds(ids)
    requires ParseAlias(ids, s) >= AliasStart
    ensures ParseAlias(ids, s) < AliasStart + 20
    ensures AliasName(ParseAlias(ids, s) - AliasStart) == s
  {
    assert |s| == 5;
    var k := ParseAlias(ids, s) - AliasStart;
    assert AliasName(k) == Stems[k / 4] + [Suffixes[k % 4]];
    assert s == s[..4] + [s[4]];
  }

  /** Besides the string aliases only `sal` is an alias (giving shl); a
      five-letter word with an unknown stem gives the literal 0. */
  lemma {:induction false} AliasOtherwise(ids: InstIds, s: string)
    ensures s == "sal" ==> ParseAlias(ids, s) == ids.shl
    ensures |s| != 3 && |s| != 5 ==> ParseAlias(ids, s) == InvalidInst
    ensures |s| == 3 && s != "sal" ==> ParseAlias(ids, s) == InvalidInst
    ensures |s| == 5 && s[..4] !in Stems ==> ParseAlias(ids, s) == 0
    ensures |s| == 5 && s[..4] in Stems && s[4] !in Suffixes ==> ParseAlias(ids, s) == InvalidInst
  {
  }
}
