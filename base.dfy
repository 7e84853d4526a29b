/** Shared vocabulary of the parser: optional values, error codes, tokens,
    ASCII case folding and the fixed-width integer conversions the C++ code
    performs implicitly. */
module Base {

  datatype Option<+T> = None | Some(value: T)

  /** The error codes the parser returns. `Other` carries a code produced by
      a collaborator (the instruction validator or the emitter) that the
      parser passes through unchanged. */
  datatype Error =
    | Ok
    | InvalidInstruction
    | InvalidAddress
    | InvalidState
    | NoHeapMemory
    | Other(code: nat)

  const TWO32: int := 0x1_0000_0000
  const TWO63: int := 0x8000_0000_0000_0000
  const TWO64: int := 0x1_0000_0000_0000_0000

  type u64 = x: int | 0 <= x < TWO64

  /** One token as the tokenizer reports it. A symbol carries its lexeme;
      `NSym` is a symbol that starts with a digit (such as `1tox`); an
      integer literal carries its 64-bit value. */
  datatype Token =
    | Sym(text: string)
    | NSym(text: string)
    | U64(value: u64)
    | Comma | Colon | LBracket | RBracket | LCurl | RCurl
    | Add | Sub | Mul
    | NL | End | Invalid

  /** The token at position `i` of the stream; past the last token the
      tokenizer keeps answering end-of-input. */
  function TokenAt(toks: seq<Token>, i: nat): (t: Token)
    ensures i >= |toks| ==> t == End
  {
    if i < |toks| then toks[i] else End
  }

  /** How many tokens are left from cursor `i`: the measure every loop over
      the token stream decreases. */
  function Remaining(toks: seq<Token>, i: nat): nat
  {
    if i <= |toks| then |toks| - i else 0
  }

  /** Utils::toLower on one byte: only 'A'..'Z' change. */
  function Lower(c: char): (r: char)
    ensures 'A' <= c <= 'Z' ==> 'a' <= r <= 'z'
    ensures !('A' <= c <= 'Z') ==> r == c
  {
    if 'A' <= c <= 'Z' then (c as int + 32) as char else c
  }

  function LowerStr(s: string): (r: string)
    ensures |r| == |s|
    ensures forall i :: 0 <= i < |s| ==> r[i] == Lower(s[i])
  {
    if s == [] then [] else [Lower(s[0])] + LowerStr(s[1..])
  }

  /** `strToLower`: writes the lower-case form of `src` at the start of
      `dst` and leaves the rest of `dst` alone. */
  method StrToLower(dst: array<char>, src: string)
    requires |src| <= dst.Length
    modifies dst
    ensures dst[..|src|] == LowerStr(src)
    ensures dst[|src|..] == old(dst[|src|..])
  {
    var i := 0;
    while i < |src|
      invariant i <= |src|
      invariant forall k :: 0 <= k < i ==> dst[k] == Lower(src[k])
      invariant dst[|src|..] == old(dst[|src|..])
    {
      dst[i] := Lower(src[i]);
      i := i + 1;
    }
  }

  lemma {:induction false} LowerIdempotent(c: char)
    ensures Lower(Lower(c)) == Lower(c)
  {
  }

  predicate IsDigit(c: char)
  {
    '0' <= c <= '9'
  }

  function DigitValue(c: char): (v: nat)
    requires IsDigit(c)
    ensures v < 10
  {
    c as int - '0' as int
  }

  /** Two bytes that agree after folding agree exactly when one of them is a
      digit: case folding never touches digits. */
  lemma {:induction false} LowerDigit(a: char, b: char)
    requires Lower(a) == Lower(b) && IsDigit(a)
    ensures a == b
  {
  }

  /** The two's-complement reading of the low 32 bits of `x`: what
      `static_cast<int32_t>` does to a 64-bit value. */
  function Signed32(x: int): (r: int)
    ensures -0x8000_0000 <= r < 0x8000_0000
    ensures (r - x) % TWO32 == 0
  {
    var m := x % TWO32;
    if m < 0x8000_0000 then m else m - TWO32
  }

  /** The two's-complement reading of the low 64 bits of `x`. */
  function Signed64(x: int): (r: int)
    ensures -TWO63 <= r < TWO63
    ensures (r - x) % TWO64 == 0
  {
    var m := x % TWO64;
    if m < TWO63 then m else m - TWO64
  }

  /** `uint64_t(x)`: the value of `x` modulo 2^64. */
  function Unsigned64(x: int): (r: u64)
    ensures (r - x) % TWO64 == 0
  {
    x % TWO64
  }
}
