/** The x86 register table and the register-name recogniser
    (`x86RegInfo` and `x86ParseRegister`). */
module Registers {
  import opened Base

  /** Register classes, named after asmjit's X86Reg::kReg* constants. */
  datatype RegType =
    | RegNone | Rip | Seg | GpbLo | GpbHi | Gpw | Gpd | Gpq
    | Fp | Mm | K | Xmm | Ymm | Zmm | Bnd | Cr | Dr

  /** The coarser register kinds (X86Reg::kKind*). */
  datatype RegKind =
    | KindNone | KindRip | KindSeg | KindGp | KindFp | KindMm | KindK | KindVec
    | KindBnd | KindCr | KindDr

  /** One row of the register table: whether the row describes a register
      operand at all, its class and kind, its width in bytes and how many
      registers of the class exist. */
  datatype RegInfo = RegInfo(isReg: bool, regType: RegType, kind: RegKind, size: nat, count: nat)

  /** A register: its class and its number within the class. */
  datatype Reg = Reg(rtype: RegType, id: nat)

  /** `x86RegInfo`: the row of the register table that describes each
      class (the table's rows without a register class are not modelled). */
  function Info(t: RegType): RegInfo
  {
    match t
    case RegNone => RegInfo(false, RegNone, KindNone, 0, 0)
    case Rip   => RegInfo(true, Rip,   KindRip, 8,  1)
    case Seg   => RegInfo(true, Seg,   KindSeg, 2,  7)
    case GpbLo => RegInfo(true, GpbLo, KindGp,  1,  16)
    case GpbHi => RegInfo(true, GpbHi, KindGp,  1,  4)
    case Gpw   => RegInfo(true, Gpw,   KindGp,  2,  16)
    case Gpd   => RegInfo(true, Gpd,   KindGp,  4,  16)
    case Gpq   => RegInfo(true, Gpq,   KindGp,  8,  16)
    case Fp    => RegInfo(true, Fp,    KindFp,  10, 8)
    case Mm    => RegInfo(true, Mm,    KindMm,  8,  8)
    case K     => RegInfo(true, K,     KindK,   8,  8)
    case Xmm   => RegInfo(true, Xmm,   KindVec, 16, 32)
    case Ymm   => RegInfo(true, Ymm,   KindVec, 32, 32)
    case Zmm   => RegInfo(true, Zmm,   KindVec, 64, 32)
    case Bnd   => RegInfo(true, Bnd,   KindBnd, 16, 4)
    case Cr    => RegInfo(true, Cr,    KindCr,  8,  16)
    case Dr    => RegInfo(true, Dr,    KindDr,  8,  16)
  }

  /** The table describes each class at that class's own row, and every
      class except `RegNone` has at least one register. */
  lemma {:induction false} RegTableConsistent(t: RegType)
    ensures Info(t).regType == t
    ensures Info(t).isReg <==> t != RegNone
    ensures t != RegNone ==> Info(t).count > 0 && Info(t).size > 0
  {
  }

  /** The invariant of a recognised register: a real class, and a number
      below the class's count. */
  predicate ValidReg(r: Reg)
  {
    r.rtype != RegNone && r.id < Info(r.rtype).count
  }

  // Register numbers in the x86 encoding order.
  const IdAx: nat := 0
  const IdCx: nat := 1
  const IdDx: nat := 2
  const IdBx: nat := 3
  const IdSp: nat := 4
  const IdBp: nat := 5
  const IdSi: nat := 6
  const IdDi: nat := 7

  // Segment register numbers (X86Seg::kId*); 0 means "no segment".
  const SegEs: nat := 1
  const SegCs: nat := 2
  const SegSs: nat := 3
  const SegDs: nat := 4
  const SegFs: nat := 5
  const SegGs: nat := 6

  /** The `abcdTo0312` table: a, b, c, d name registers 0, 3, 1, 2. */
  function AbcdTo0312(c: char): (id: nat)
    requires 'a' <= c <= 'd'
    ensures id < 4
  {
    [0, 3, 1, 2][c as int - 'a' as int]
  }

  /** The shared `sp`/`bp`/`si`/`di` match (label TrySpBpSiDi), in class `t`. */
  function SpBpSiDi(c0: char, c1: char, t: RegType): Option<Reg>
  {
    if c0 == 's' && c1 == 'p' then Some(Reg(t, IdSp))
    else if c0 == 'b' && c1 == 'p' then Some(Reg(t, IdBp))
    else if c0 == 's' && c1 == 'i' then Some(Reg(t, IdSi))
    else if c0 == 'd' && c1 == 'i' then Some(Reg(t, IdDi))
    else None
  }

  /** The fixed two-letter names: al..dl, ah..dh, ax..dx, the six segment
      registers and sp/bp/si/di. */
  function FixedTwo(c0: char, c1: char): Option<Reg>
  {
    if 'a' <= c0 <= 'd' && c1 == 'l' then Some(Reg(GpbLo, AbcdTo0312(c0)))
    else if 'a' <= c0 <= 'd' && c1 == 'h' then Some(Reg(GpbHi, AbcdTo0312(c0)))
    else if 'a' <= c0 <= 'd' && c1 == 'x' then Some(Reg(Gpw, AbcdTo0312(c0)))
    else if c1 == 's' && c0 == 'e' then Some(Reg(Seg, SegEs))
    else if c1 == 's' && c0 == 'c' then Some(Reg(Seg, SegCs))
    else if c1 == 's' && c0 == 's' then Some(Reg(Seg, SegSs))
    else if c1 == 's' && c0 == 'd' then Some(Reg(Seg, SegDs))
    else if c1 == 's' && c0 == 'f' then Some(Reg(Seg, SegFs))
    else if c1 == 's' && c0 == 'g' then Some(Reg(Seg, SegGs))
    else SpBpSiDi(c0, c1, Gpw)
  }

  /** The fixed three-letter names: spl/bpl/sil/dil, e?? and r?? and rip. */
  function FixedThree(c0: char, c1: char, c2: char): Option<Reg>
  {
    if c2 == 'l' then SpBpSiDi(c0, c1, GpbLo)
    else if c0 == 'e' || c0 == 'r' then
      if c0 == 'r' && c1 == 'i' && c2 == 'p' then Some(Reg(Rip, 0))
      else
        var t := if c0 == 'e' then Gpd else Gpq;
        if c1 == 'a' && c2 == 'x' then Some(Reg(t, IdAx))
        else if c1 == 'd' && c2 == 'x' then Some(Reg(t, IdDx))
        else if c1 == 'b' && c2 == 'x' then Some(Reg(t, IdBx))
        else if c1 == 'c' && c2 == 'x' then Some(Reg(t, IdCx))
        else SpBpSiDi(c1, c2, t)
    else None
  }

  predicate AllDigits(d: string)
  {
    forall i :: 0 <= i < |d| ==> IsDigit(d[i])
  }

  /** The value of a one- or two-digit decimal numeral. */
  function IndexValue(d: string): nat
    requires 1 <= |d| <= 2 && AllDigits(d)
  {
    if |d| == 1 then DigitValue(d[0]) else DigitValue(d[0]) * 10 + DigitValue(d[1])
  }

  /** The numbered-suffix path: the register number is `s[start..end]`,
      which must be one or two decimal digits and below 32 and below the
      class's count. When `start == end` the source reads the byte just past
      the lexeme; whatever it is, the lexeme is rejected. */
  function ParseIndex(s: string, start: nat, end: nat, t: RegType): (r: Option<Reg>)
    requires start <= end <= |s|
    ensures r.Some? ==> r.value.rtype == t && r.value.id < 32 && r.value.id < Info(t).count
  {
    if start >= end || !IsDigit(s[start]) then None
    else
      var id0 := DigitValue(s[start]);
      if start + 1 < end then
        if !IsDigit(s[start + 1]) then None
        else
          var id := id0 * 10 + DigitValue(s[start + 1]);
          if id >= 32 then None
          else if start + 2 != end then None
          else if id >= Info(t).count then None
          else Some(Reg(t, id))
      else if id0 >= Info(t).count then None
      else Some(Reg(t, id0))
  }

  /** The numbered suffix is accepted exactly when it is one or two
      decimal digits whose value is below 32 and below the class's count. */
  lemma {:induction false} ParseIndexCharacterised(s: string, start: nat, end: nat, t: RegType)
    requires start <= end <= |s|
    ensures ParseIndex(s, start, end, t).Some? <==>
              1 <= end - start <= 2 && AllDigits(s[start..end]) &&
              IndexValue(s[start..end]) < 32 && IndexValue(s[start..end]) < Info(t).count
    ensures ParseIndex(s, start, end, t).Some? ==>
              ParseIndex(s, start, end, t).value == Reg(t, IndexValue(s[start..end]))
  {
  }

  /** The class that `xmm`, `ymm` or `zmm` selects (kRegXmm + (c0 - 'x')). */
  function VecType(c0: char): RegType
    requires 'x' <= c0 <= 'z'
  {
    if c0 == 'x' then Xmm else if c0 == 'y' then Ymm else Zmm
  }

  /** The prefix-directed numbered names r<N>[b|w|d], xmm/ymm/zmm<N>, k<N>,
      st<N>/fp<N>, mm<N>, bnd<N>, cr<N> and dr<N>. `c0`, `c1`, `c2` are
      the first three letters folded to lower case (`c2` is NUL for a
      two-letter lexeme). */
  function Numbered(s: string, c0: char, c1: char, c2: char): Option<Reg>
    requires 2 <= |s|
    requires |s| == 2 ==> c2 == '\0'
  {
    if c0 == 'r' then
      var last := Lower(s[|s| - 1]);
      var t := if last == 'b' then GpbLo else if last == 'w' then Gpw else if last == 'd' then Gpd else Gpq;
      ParseIndex(s, 1, if t == Gpq then |s| else |s| - 1, t)
    else if 'x' <= c0 <= 'z' && c1 == 'm' && c2 == 'm' then ParseIndex(s, 3, |s|, VecType(c0))
    else if c0 == 'k' then ParseIndex(s, 1, |s|, K)
    else if (c0 == 's' && c1 == 't') || (c0 == 'f' && c1 == 'p') then ParseIndex(s, 2, |s|, Fp)
    else if c0 == 'm' && c1 == 'm' then ParseIndex(s, 2, |s|, Mm)
    else if c0 == 'b' && c1 == 'n' && c2 == 'd' then ParseIndex(s, 3, |s|, Bnd)
    else if c0 == 'c' && c1 == 'r' then ParseIndex(s, 2, |s|, Cr)
    else if c0 == 'd' && c1 == 'r' then ParseIndex(s, 2, |s|, Dr)
    else None
  }

  /** `x86ParseRegister`: the register a lexeme names, if any. Only
      lexemes of two to five characters can name a register, and every
      register recognised is valid for the table, on the fixed-name path
      (which skips the count check) as on the numbered one. */
  function ParseRegister(s: string): (r: Option<Reg>)
    ensures (|s| < 2 || |s| > 5) ==> r.None?
    ensures r.Some? ==> ValidReg(r.value)
  {
    if |s| < 2 || |s| > 5 then None
    else
      var c0 := Lower(s[0]);
      var c1 := Lower(s[1]);
      var c2 := if |s| > 2 then Lower(s[2]) else '\0';
      var fixed := if |s| == 2 then FixedTwo(c0, c1) else if |s| == 3 then FixedThree(c0, c1, c2) else None;
      if fixed.Some? then fixed else Numbered(s, c0, c1, c2)
  }

  predicate IsSegReg(r: Reg)
  {
    r.rtype == Seg
  }

  // ---------------------------------------------------------------------
  // Names: the spellings each register is recognised under.

  /** The classes reached by the numbered path. */
  predicate HasNumberedName(t: RegType)
  {
    t in {GpbLo, Gpw, Gpd, Gpq, Fp, Mm, K, Xmm, Ymm, Zmm, Bnd, Cr, Dr}
  }

  function NumberedPrefix(t: RegType): string
  {
    match t
    case Xmm => "xmm"
    case Ymm => "ymm"
    case Zmm => "zmm"
    case K => "k"
    case Fp => "st"
    case Mm => "mm"
    case Bnd => "bnd"
    case Cr => "cr"
    case Dr => "dr"
    case _ => "r"
  }

  function NumberedSuffix(t: RegType): string
  {
    match t
    case GpbLo => "b"
    case Gpw => "w"
    case Gpd => "d"
    case _ => ""
  }

  function DigitChar(d: nat): (c: char)
    requires d < 10
    ensures IsDigit(c) && DigitValue(c) == d
  {
    ('0' as int + d) as char
  }

  /** The decimal numeral of a register number, without leading zeros. */
  function Decimal(id: nat): (d: string)
    requires id < 32
    ensures 1 <= |d| <= 2 && AllDigits(d) && IndexValue(d) == id
  {
    if id < 10 then [DigitChar(id)] else [DigitChar(id / 10), DigitChar(id % 10)]
  }

  function NumberedName(t: RegType, id: nat): string
    requires id < 32
  {
    NumberedPrefix(t) + Decimal(id) + NumberedSuffix(t)
  }

  lemma {:induction false} NumberedIndex(s: string, p: string, d: string, x: string, t: RegType)
    requires s == p + d + x && 1 <= |d| <= 2 && AllDigits(d)
    requires IndexValue(d) < 32 && IndexValue(d) < Info(t).count
    ensures ParseIndex(s, |p|, |p| + |d|, t) == Some(Reg(t, IndexValue(d)))
  {
    assert s[|p|..|p| + |d|] == d;
    ParseIndexCharacterised(s, |p|, |p| + |d|, t);
  }

  /** A second character that is a digit rules out every fixed two-letter name. */
  lemma {:induction false} FixedTwoDigit(c0: char, c1: char)
    requires IsDigit(c1)
    ensures FixedTwo(c0, c1).None?
  {
  }

  /** The fixed three-letter names need a letter `l` third, or an `e`/`r`
      followed by two letters. */
  lemma {:induction false} FixedThreeDigit(c0: char, c1: char, c2: char)
    requires c2 != 'l' && (IsDigit(c1) || (c0 != 'e' && c0 != 'r'))
    ensures FixedThree(c0, c1, c2).None?
  {
  }

  /** When no fixed name applies, the lexeme goes down the numbered path. */
  lemma {:induction false} ToNumbered(s: string)
    requires 2 <= |s| <= 5
    requires |s| == 2 ==> IsDigit(Lower(s[1]))
    requires |s| == 3 ==> Lower(s[2]) != 'l' && (IsDigit(Lower(s[1])) || (Lower(s[0]) != 'e' && Lower(s[0]) != 'r'))
    ensures ParseRegister(s) == Numbered(s, Lower(s[0]), Lower(s[1]), if |s| > 2 then Lower(s[2]) else '\0')
  {
    if |s| == 2 {
      FixedTwoDigit(Lower(s[0]), Lower(s[1]));
    } else if |s| == 3 {
      FixedThreeDigit(Lower(s[0]), Lower(s[1]), Lower(s[2]));
    }
  }

  /** The characters of a numbered name: prefix letters, digits and suffix
      letters, none of them changed by case folding. */
  lemma {:induction false} NameChars(s: string, p: string, d: string, x: string)
    requires s == p + d + x && AllDigits(d)
    requires forall i :: 0 <= i < |p| ==> 'a' <= p[i] <= 'z'
    requires forall i :: 0 <= i < |x| ==> 'a' <= x[i] <= 'z'
    ensures forall i :: 0 <= i < |p| ==> s[i] == p[i]
    ensures forall i :: 0 <= i < |d| ==> s[|p| + i] == d[i]
    ensures forall i :: 0 <= i < |x| ==> s[|p| + |d| + i] == x[i]
    ensures forall i :: 0 <= i < |s| ==> Lower(s[i]) == s[i]
  {
    forall i | 0 <= i < |s| ensures Lower(s[i]) == s[i] {
      if i < |p| { assert s[i] == p[i]; }
      else if i < |p| + |d| { assert s[i] == d[i - |p|]; }
      else { assert s[i] == x[i - |p| - |d|]; }
    }
  }

  /** r0..r15. */
  lemma {:induction false} GpqNumberedRoundTrip(id: nat)
    requires id < 16
    ensures ParseRegister(NumberedName(Gpq, id)) == Some(Reg(Gpq, id))
  {
    var d := Decimal(id);
    var s := "r" + d + "";
    assert s == NumberedName(Gpq, id);
    NameChars(s, "r", d, "");
    NumberedIndex(s, "r", d, "", Gpq);
    ToNumbered(s);
    assert Lower(s[|s| - 1]) == d[|d| - 1];
  }

  /** r0b..r15b, r0w..r15w, r0d..r15d. */
  lemma {:induction false} GpSuffixedRoundTrip(t: RegType, id: nat)
    requires (t == GpbLo || t == Gpw || t == Gpd) && id < 16
    ensures ParseRegister(NumberedName(t, id)) == Some(Reg(t, id))
  {
    var d, x := Decimal(id), NumberedSuffix(t);
    var s := "r" + d + x;
    assert s == NumberedName(t, id);
    NameChars(s, "r", d, x);
    NumberedIndex(s, "r", d, x, t);
    ToNumbered(s);
    assert Lower(s[|s| - 1]) == x[0];
  }

  /** r0..r15 and their b/w/d forms. */
  lemma {:induction false} GpNumberedRoundTrip(t: RegType, id: nat)
    requires (t == GpbLo || t == Gpw || t == Gpd || t == Gpq) && id < 16
    ensures ParseRegister(NumberedName(t, id)) == Some(Reg(t, id))
  {
    if t == Gpq {
      GpqNumberedRoundTrip(id);
    } else {
      GpSuffixedRoundTrip(t, id);
    }
  }

  /** xmm0..xmm31, ymm0..ymm31, zmm0..zmm31. */
  lemma {:induction false} VecNumberedRoundTrip(t: RegType, id: nat)
    requires (t == Xmm || t == Ymm || t == Zmm) && id < 32
    ensures ParseRegister(NumberedName(t, id)) == Some(Reg(t, id))
  {
    var p, d := NumberedPrefix(t), Decimal(id);
    var s := p + d + "";
    assert s == NumberedName(t, id);
    NameChars(s, p, d, "");
    NumberedIndex(s, p, d, "", t);
    ToNumbered(s);
    assert s[1] == 'm' && s[2] == 'm' && VecType(s[0]) == t;
  }

  /** k0..k7, st0..st7, mm0..mm7, cr0..cr15, dr0..dr15 (a one- or
      two-letter prefix). */
  lemma {:induction false} ShortPrefixRoundTrip(t: RegType, id: nat)
    requires (t == K || t == Fp || t == Mm || t == Cr || t == Dr) && id < Info(t).count
    ensures ParseRegister(NumberedName(t, id)) == Some(Reg(t, id))
  {
    var p, d := NumberedPrefix(t), Decimal(id);
    var s := p + d + "";
    assert s == NumberedName(t, id);
    NameChars(s, p, d, "");
    NumberedIndex(s, p, d, "", t);
    ToNumbered(s);
    var c2 := if |s| > 2 then s[2] else '\0';
    assert Numbered(s, s[0], s[1], c2) == ParseIndex(s, |p|, |s|, t);
  }

  /** bnd0..bnd3. */
  lemma {:induction false} BndRoundTrip(id: nat)
    requires id < 4
    ensures ParseRegister(NumberedName(Bnd, id)) == Some(Reg(Bnd, id))
  {
    var d := Decimal(id);
    var s := "bnd" + d + "";
    assert s == NumberedName(Bnd, id);
    NameChars(s, "bnd", d, "");
    NumberedIndex(s, "bnd", d, "", Bnd);
    ToNumbered(s);
    assert Numbered(s, 'b', 'n', 'd') == ParseIndex(s, 3, |s|, Bnd);
  }

  /** k0..k7, st0..st7, mm0..mm7, bnd0..bnd3, cr0..cr15, dr0..dr15. */
  lemma {:induction false} OtherNumberedRoundTrip(t: RegType, id: nat)
    requires (t == K || t == Fp || t == Mm || t == Bnd || t == Cr || t == Dr) && id < Info(t).count
    ensures ParseRegister(NumberedName(t, id)) == Some(Reg(t, id))
  {
    if t == Bnd {
      BndRoundTrip(id);
    } else {
      ShortPrefixRoundTrip(t, id);
    }
  }

  /** Every register of a numbered class is recognised under its numbered
      name: r0..r15 with the b/w/d suffixes, xmm0..xmm31 and the others. */
  lemma {:induction false} NumberedNameRoundTrip(t: RegType, id: nat)
    requires HasNumberedName(t) && id < Info(t).count
    ensures ParseRegister(NumberedName(t, id)) == Some(Reg(t, id))
  {
    if t == GpbLo || t == Gpw || t == Gpd || t == Gpq {
      GpNumberedRoundTrip(t, id);
    } else if t == Xmm || t == Ymm || t == Zmm {
      VecNumberedRoundTrip(t, id);
    } else {
      OtherNumberedRoundTrip(t, id);
    }
  }

  /** `x87` registers are also recognised as fp0..fp7. */
  lemma {:induction false} FpNameRoundTrip(id: nat)
    requires id < 8
    ensures ParseRegister("fp" + Decimal(id)) == Some(Reg(Fp, id))
  {
    var d := Decimal(id);
    var s := "fp" + d + "";
    assert s == "fp" + d;
    NameChars(s, "fp", d, "");
    NumberedIndex(s, "fp", d, "", Fp);
    ToNumbered(s);
    var c2 := if |s| > 2 then s[2] else '\0';
    assert Numbered(s, 'f', 'p', c2) == ParseIndex(s, 2, |s|, Fp);
  }

  const GpNames: seq<string> := ["ax", "cx", "dx", "bx", "sp", "bp", "si", "di"]
  const LowByteNames: seq<string> := ["al", "cl", "dl", "bl", "spl", "bpl", "sil", "dil"]
  const HighByteNames: seq<string> := ["ah", "ch", "dh", "bh"]
  const SegNames: seq<string> := ["es", "cs", "ss", "ds", "fs", "gs"]

  /** The architectural name of each legacy register, indexed by its
      number in the encoding order. */
  function LegacyName(t: RegType, id: nat): string
    requires t in {GpbLo, GpbHi, Gpw, Gpd, Gpq, Seg, Rip}
    requires t in {GpbLo, Gpw, Gpd, Gpq} ==> id < 8
    requires t == GpbHi ==> id < 4
    requires t == Seg ==> 1 <= id <= 6
    requires t == Rip ==> id == 0
  {
    match t
    case GpbLo => LowByteNames[id]
    case GpbHi => HighByteNames[id]
    case Gpw => GpNames[id]
    case Gpd => "e" + GpNames[id]
    case Gpq => "r" + GpNames[id]
    case Seg => SegNames[id - 1]
    case Rip => "rip"
  }

  lemma {:induction false} GpLegacyRoundTrip(t: RegType, id: nat)
    requires (t == Gpw || t == Gpd || t == Gpq) && id < 8
    ensures ParseRegister(LegacyName(t, id)) == Some(Reg(t, id))
  {
    if id == 0 {} else if id == 1 {} else if id == 2 {} else if id == 3 {}
    else if id == 4 {} else if id == 5 {} else if id == 6 {} else {}
  }

  lemma {:induction false} ByteLegacyRoundTrip(t: RegType, id: nat)
    requires (t == GpbLo && id < 8) || (t == GpbHi && id < 4)
    ensures ParseRegister(LegacyName(t, id)) == Some(Reg(t, id))
  {
    if id == 0 {} else if id == 1 {} else if id == 2 {} else if id == 3 {}
    else if id == 4 {} else if id == 5 {} else if id == 6 {} else {}
  }

  lemma {:induction false} SegLegacyRoundTrip(id: nat)
    requires 1 <= id <= 6
    ensures ParseRegister(LegacyName(Seg, id)) == Some(Reg(Seg, id))
  {
    if id == 1 {} else if id == 2 {} else if id == 3 {}
    else if id == 4 {} else if id == 5 {} else {}
  }

  /** Each legacy name selects the register the x86 encoding order gives it:
      ax=0, cx=1, dx=2, bx=3, sp=4, bp=5, si=6, di=7, and es..gs = 1..6. */
  lemma {:induction false} LegacyNameRoundTrip(t: RegType, id: nat)
    requires t in {GpbLo, GpbHi, Gpw, Gpd, Gpq, Seg, Rip}
    requires t in {GpbLo, Gpw, Gpd, Gpq} ==> id < 8
    requires t == GpbHi ==> id < 4
    requires t == Seg ==> 1 <= id <= 6
    requires t == Rip ==> id == 0
    ensures ParseRegister(LegacyName(t, id)) == Some(Reg(t, id))
  {
    if t == Gpw || t == Gpd || t == Gpq {
      GpLegacyRoundTrip(t, id);
    } else if t == GpbLo || t == GpbHi {
      ByteLegacyRoundTrip(t, id);
    } else if t == Seg {
      SegLegacyRoundTrip(id);
    } else {
      assert LegacyName(t, id) == "rip";
    }
  }

  /** Folding ASCII case never changes which register a lexeme names. */
  lemma {:induction false} ParseRegisterIgnoresCase(s: string, u: string)
    requires LowerStr(s) == LowerStr(u)
    ensures ParseRegister(s) == ParseRegister(u)
  {
    assert |s| == |LowerStr(s)| == |u|;
    if 2 <= |s| <= 5 {
      forall i | 0 <= i < |s| ensures Lower(s[i]) == Lower(u[i]) {
        assert LowerStr(s)[i] == LowerStr(u)[i];
      }
      var c0, c1 := Lower(s[0]), Lower(s[1]);
      var c2 := if |s| > 2 then Lower(s[2]) else '\0';
      NumberedIgnoresCase(s, u, c0, c1, c2);
    }
  }

  lemma {:induction false} NumberedIgnoresCase(s: string, u: string, c0: char, c1: char, c2: char)
    requires 2 <= |s| == |u| && (|s| == 2 ==> c2 == '\0')
    requires forall i :: 0 <= i < |s| ==> Lower(s[i]) == Lower(u[i])
    ensures Numbered(s, c0, c1, c2) == Numbered(u, c0, c1, c2)
  {
    assert Lower(s[|s| - 1]) == Lower(u[|u| - 1]);
    if c0 == 'r' {
      ParseIndexIgnoresCase(s, u, 1, |s|, Gpq);
      ParseIndexIgnoresCase(s, u, 1, |s| - 1, GpbLo);
      ParseIndexIgnoresCase(s, u, 1, |s| - 1, Gpw);
      ParseIndexIgnoresCase(s, u, 1, |s| - 1, Gpd);
    } else if 'x' <= c0 <= 'z' && c1 == 'm' && c2 == 'm' {
      ParseIndexIgnoresCase(s, u, 3, |s|, VecType(c0));
    } else if c0 == 'k' {
      ParseIndexIgnoresCase(s, u, 1, |s|, K);
    } else if (c0 == 's' && c1 == 't') || (c0 == 'f' && c1 == 'p') {
      ParseIndexIgnoresCase(s, u, 2, |s|, Fp);
    } else if c0 == 'm' && c1 == 'm' {
      ParseIndexIgnoresCase(s, u, 2, |s|, Mm);
    } else if c0 == 'b' && c1 == 'n' && c2 == 'd' {
      ParseIndexIgnoresCase(s, u, 3, |s|, Bnd);
    } else if c0 == 'c' && c1 == 'r' {
      ParseIndexIgnoresCase(s, u, 2, |s|, Cr);
    } else if c0 == 'd' && c1 == 'r' {
      ParseIndexIgnoresCase(s, u, 2, |s|, Dr);
    }
  }

  lemma {:induction false} ParseIndexIgnoresCase(s: string, u: string, a: nat, b: nat, t: RegType)
    requires |s| == |u| && a <= b <= |s|
    requires forall i :: 0 <= i < |s| ==> Lower(s[i]) == Lower(u[i])
    ensures ParseIndex(s, a, b, t) == ParseIndex(u, a, b, t)
  {
    if a < b && IsDigit(s[a]) {
      LowerDigit(s[a], u[a]);
    }
    if a < b && IsDigit(u[a]) {
      LowerDigit(u[a], s[a]);
    }
    if a + 1 < b && IsDigit(s[a + 1]) {
      LowerDigit(s[a + 1], u[a + 1]);
    }
    if a + 1 < b && IsDigit(u[a + 1]) {
      LowerDigit(u[a + 1], s[a + 1]);
    }
  }

  // Register numbers at or above a class's count, or at or above 32, are
  // refused; the largest ones are accepted.

  lemma RejectK8() ensures ParseRegister("k8").None? {}
  lemma RejectSt8() ensures ParseRegister("st8").None? {}
  lemma RejectBnd4() ensures ParseRegister("bnd4").None? {}
  lemma RejectR16() ensures ParseRegister("r16").None? {}
  lemma RejectXmm32() ensures ParseRegister("xmm32").None? {}
  lemma AcceptXmm31() ensures ParseRegister("xmm31") == Some(Reg(Xmm, 31)) {}
  lemma AcceptR15d() ensures ParseRegister("r15d") == Some(Reg(Gpd, 15)) {}
  lemma AcceptUpperR8b() ensures ParseRegister("R8B") == Some(Reg(GpbLo, 8)) {}
}
