/**
 Control messages in a byte buffer: the size macros, the walk over the headers,
 and messages written back to back. The layout is that of a 64-bit target: a
 header of 16 bytes, aligned to 8.
 */
module ControlMessages {
  import opened Basics
  import opened Bits

  const HDR_SIZE: nat := 16
  const HDR_ALIGN: nat := 8
  const WORD_SIZE: nat := 8

  /* The size macros, as they are written. */

  function HdrAlign(length: Usize): Usize {
    And(Add(length, HDR_ALIGN - 1), Not(HDR_SIZE - 1))
  }

  function DataAlign(length: Usize): Usize {
    And(Add(length, WORD_SIZE - 1), Not(WORD_SIZE - 1))
  }

  function Space(length: Usize): Usize {
    DataAlign(Add(HDR_SIZE, HdrAlign(length)))
  }

  function Len(length: Usize): Usize {
    DataAlign(Add(HDR_SIZE, length))
  }

  /** Lengths for which none of the macros overflows. */
  predicate Small(length: nat) {
    length + 23 < WORD
  }

  /** A number by its quotient and remainder. */
  lemma Divide(n: int, q: int, r: int)
    requires n == 16 * q + r && 0 <= r < 16
    ensures n % 16 == r && n % 8 == if r < 8 then r else r - 8
  {
  }

  lemma FloorTo16(n: int)
    ensures (n + 7) - (n + 7) % 16 == if n % 16 <= 8 then n - n % 16 else n - n % 16 + 16
    ensures ((n + 7) - (n + 7) % 16) % 16 == 0
  {
    var q, r := n / 16, n % 16;
    if r <= 8 {
      Divide(n + 7, q, r + 7);
      Divide(16 * q, q, 0);
    } else {
      Divide(n + 7, q + 1, r - 9);
      Divide(16 * (q + 1), q + 1, 0);
    }
  }

  lemma CeilTo8(n: int)
    ensures (n + 23) - (n + 23) % 8
         == if n % 16 == 0 then 16 + n else if n % 16 <= 8 then 24 + n - n % 16 else 32 + n - n % 16
  {
    var q, r := n / 16, n % 16;
    if r == 0 {
      Divide(n + 23, q + 1, 7);
    } else if r <= 8 {
      Divide(n + 23, q + 1, r + 7);
    } else {
      Divide(n + 23, q + 2, r - 9);
    }
  }

  /**
   The header alignment adds 7 and clears four bits: it rounds down to a multiple
   of 16 when the remainder is at most 8, and up when it is at least 9.
   */
  lemma HdrAlignExact(n: Usize)
    requires n + 7 < WORD
    ensures HdrAlign(n) == if n % 16 <= 8 then n - n % 16 else n - n % 16 + 16
    ensures HdrAlign(n) % 16 == 0
  {
    AddExact(n, 7);
    ClearLow4(n + 7);
    hide And, Not, Add;
    FloorTo16(n);
  }

  lemma DataAlignExact(n: Usize)
    requires n + 7 < WORD
    ensures DataAlign(n) == (n + 7) - (n + 7) % 8
  {
    AddExact(n, 7);
    ClearLow3(n + 7);
    hide And, Not, Add;
  }

  /** `WSA_CMSG_LEN(n)` is the least multiple of 8 that is at least 16 + n. */
  lemma LenIsLeast(n: Usize)
    requires Small(n)
    ensures Len(n) % 8 == 0 && 16 + n <= Len(n)
    ensures forall m: nat :: m % 8 == 0 && 16 + n <= m ==> Len(n) <= m
  {
    LenExact(n);
    hide Len;
  }

  lemma LenExact(n: Usize)
    requires Small(n)
    ensures Len(n) == if n % 16 == 0 then 16 + n else if n % 16 <= 8 then 24 + n - n % 16 else 32 + n - n % 16
    ensures 16 + n <= Len(n) < 16 + n + 8 && Len(n) % 8 == 0
  {
    AddExact(16, n);
    DataAlignExact(16 + n);
    assert Len(n) == (n + 23) - (n + 23) % 8;
    hide Len, DataAlign, Add;
    CeilTo8(n);
    FloorTo8(n + 23);
  }

  lemma FloorTo8(m: nat)
    ensures m - 7 <= m - m % 8 <= m && (m - m % 8) % 8 == 0
  {
    var q, r := m / 8, m % 8;
    assert m - r == 8 * q;
  }

  lemma SpaceExact(n: Usize)
    requires Small(n)
    ensures Space(n) == 16 + HdrAlign(n)
    ensures Space(n) == if n % 16 <= 8 then 16 + n - n % 16 else 32 + n - n % 16
  {
    HdrAlignExact(n);
    var h := HdrAlign(n);
    AddExact(16, h);
    DataAlignExact(16 + h);
    assert Space(n) == (h + 23) - (h + 23) % 8 by {
      hide DataAlign, HdrAlign, Add;
    }
    hide Space, HdrAlign;
    Divide(h + 23, h / 16 + 1, 7);
  }

  /** Lengths whose payload ends before the next message begins. */
  predicate Good(n: nat) {
    n % 16 == 0 || n % 16 >= 9
  }

  /** `WSA_CMSG_SPACE(n)` is `WSA_CMSG_LEN(n)` for good lengths, and 8 smaller for the others. */
  lemma SpaceVersusLen(n: Usize)
    requires Small(n)
    ensures Space(n) == Len(n) <==> Good(n)
    ensures !Good(n) ==> Space(n) == Len(n) - 8
    ensures 16 + n <= Space(n) <==> Good(n)
  {
    LenExact(n);
    SpaceExact(n);
    hide Len, Space, HdrAlign;
  }

  /**
   The step that `WSA_CMSG_NXTHDR` takes over a message with `cmsg_len` equal to
   `WSA_CMSG_LEN(n)` is `WSA_CMSG_SPACE(n)`, for every length.
   */
  lemma StrideIsSpace(n: Usize)
    requires Small(n)
    ensures HdrAlign(Len(n)) == Space(n)
  {
    LenBelow(n);
    SpaceExact(n);
    HdrRounds(n);
    HdrRounds(Len(n));
    LenRounds(n);
    hide *;
    StrideValue(n);
  }

  /** What the header alignment and the length come to, as functions. */
  function Rounded(n: nat): nat {
    if n % 16 <= 8 then n - n % 16 else n - n % 16 + 16
  }

  function LenValue(n: nat): nat {
    if n % 16 == 0 then 16 + n else if n % 16 <= 8 then 24 + n - n % 16 else 32 + n - n % 16
  }

  lemma HdrRounds(n: Usize)
    requires n + 7 < WORD
    ensures HdrAlign(n) == Rounded(n)
  {
    HdrAlignExact(n);
    hide HdrAlign;
  }

  lemma LenRounds(n: Usize)
    requires Small(n)
    ensures Len(n) == LenValue(n)
  {
    LenExact(n);
    hide Len;
  }

  lemma StrideValue(n: nat)
    ensures Rounded(LenValue(n)) == 16 + Rounded(n)
  {
    var q, r := n / 16, n % 16;
    Divide(LenValue(n), if r <= 8 then q + 1 else q + 2, if r == 0 || r >= 9 then 0 else 8);
  }

  lemma LenBelow(n: Usize)
    requires Small(n)
    ensures Len(n) + 7 < WORD
  {
    LenExact(n);
    hide Len;
    Eighth(Len(n));
  }

  lemma Eighth(l: nat)
    requires l % 8 == 0 && l < WORD
    ensures l + 7 < WORD
  {
  }

  /* Bytes. */

  /** The `k` low bytes of a number, least significant first. */
  function Little(v: nat, k: nat): (r: Bytes)
    ensures |r| == k
  {
    if k == 0 then [] else [(v % 256) as Byte] + Little(v / 256, k - 1)
  }

  function FromLittle(s: Bytes): nat {
    if s == [] then 0 else s[0] as int + 256 * FromLittle(s[1..])
  }

  lemma {:induction false} FromLittleBound(s: Bytes)
    ensures FromLittle(s) < Pow2(8 * |s|)
  {
    if s != [] {
      FromLittleBound(s[1..]);
      PowEight(8 * |s[1..]|);
    }
  }

  lemma PowEight(k: nat)
    ensures Pow2(k + 8) == 256 * Pow2(k)
  {
    var a := Pow2(k);
    assert Pow2(k + 1) == 2 * a;
    assert Pow2(k + 2) == 4 * a;
    assert Pow2(k + 3) == 8 * a;
    assert Pow2(k + 4) == 16 * a;
    assert Pow2(k + 5) == 32 * a;
    assert Pow2(k + 6) == 64 * a;
    assert Pow2(k + 7) == 128 * a;
  }

  lemma ByteCast(d: nat)
    requires d < 256
    ensures (d as Byte) as int == d
  {
  }

  lemma Quotient(v: nat, p: nat)
    requires v < 256 * p
    ensures v / 256 < p
  {
  }

  lemma LittleStep(v: nat, k: nat)
    requires k != 0
    ensures Little(v, k)[1..] == Little(v / 256, k - 1) && Little(v, k)[0] as int == v % 256
  {
    ByteCast(v % 256);
  }

  lemma {:induction false} LittleRoundTrip(v: nat, k: nat)
    requires v < Pow2(8 * k)
    ensures FromLittle(Little(v, k)) == v
  {
    if k != 0 {
      PowEight(8 * (k - 1));
      Quotient(v, Pow2(8 * (k - 1)));
      LittleRoundTrip(v / 256, k - 1);
      LittleStep(v, k);
      hide Little, Pow2;
      assert FromLittle(Little(v, k)) == v % 256 + 256 * FromLittle(Little(v / 256, k - 1));
    }
  }

  type Int32 = n: int | -0x8000_0000 <= n < 0x8000_0000

  /** Two's complement. */
  function Unsigned(n: Int32): nat {
    if n >= 0 then n else n + 0x1_0000_0000
  }

  function Signed(u: nat): Int32 {
    var v := u % 0x1_0000_0000;
    if v < 0x8000_0000 then v else v - 0x1_0000_0000
  }

  /** A message: what the sender writes. */
  datatype Msg = Msg(level: Int32, kind: Int32, payload: Bytes)

  predicate Fits(m: Msg) {
    Small(|m.payload|)
  }

  /** `WSACMSGHDR` in memory. */
  datatype Hdr = Hdr(len: Usize, level: Int32, kind: Int32)

  function HdrBytes(h: Hdr): (r: Bytes)
    ensures |r| == HDR_SIZE
  {
    Little(h.len, 8) + Little(Unsigned(h.level), 4) + Little(Unsigned(h.kind), 4)
  }

  function ReadHdr(b: Bytes): Hdr
    requires |b| == HDR_SIZE
  {
    FromLittleBound(b[..8]);
    PowWord();
    Hdr(FromLittle(b[..8]), Signed(FromLittle(b[8..12])), Signed(FromLittle(b[12..])))
  }

  lemma SignedUnsigned(n: Int32)
    ensures Unsigned(n) < Pow2(8 * 4) && Signed(Unsigned(n)) == n
  {
    PowWord();
    hide Pow2;
  }

  lemma HdrRoundTrip(h: Hdr)
    ensures ReadHdr(HdrBytes(h)) == h
  {
    var b, x, y, z := HdrBytes(h), Little(h.len, 8), Little(Unsigned(h.level), 4), Little(Unsigned(h.kind), 4);
    PowWord();
    SignedUnsigned(h.level);
    SignedUnsigned(h.kind);
    LittleRoundTrip(h.len, 8);
    LittleRoundTrip(Unsigned(h.level), 4);
    LittleRoundTrip(Unsigned(h.kind), 4);
    hide Little, FromLittle, Signed, Unsigned, Pow2;
    assert b == x + y + z;
    assert b[..8] == x && b[8..12] == y && b[12..] == z;
  }

  /* The layout, byte by byte. */

  /** Digit `i` of a number in base 256. */
  function Digit(v: nat, i: nat): nat {
    (v / Pow2(8 * i)) % 256
  }

  lemma DivDiv(v: nat, p: nat)
    requires p > 0
    ensures v / (256 * p) == (v / 256) / p
  {
    var w := v / 256;
    var q, r := w / p, 256 * (w % p) + v % 256;
    assert w == p * q + w % p;
    assert v == (256 * p) * q + r && r < 256 * p;
    Remainder(v, 256 * p, q, r);
    SameQuotient(256 * p, v / (256 * p), q, r);
  }

  lemma SameQuotient(p: nat, q1: int, q2: int, r: int)
    requires p > 0 && p * q1 + r == p * q2 + r
    ensures q1 == q2
  {
    assert p * (q1 - q2) == 0;
  }

  lemma {:induction false} LittleDigit(v: nat, k: nat, i: nat)
    requires i < k
    ensures Little(v, k)[i] as int == Digit(v, i)
    decreases k
  {
    LittleStep(v, k);
    if i > 0 {
      LittleDigit(v / 256, k - 1, i - 1);
      PowEight(8 * (i - 1));
      DivDiv(v, Pow2(8 * (i - 1)));
      hide Little, Pow2;
      assert Little(v, k)[i] == Little(v, k)[1..][i - 1];
    }
  }

  /**
   The header in memory: bytes 0 to 7 are the digits of `cmsg_len`, bytes 8 to 11
   those of the level and bytes 12 to 15 those of the type, in two's complement.
   */
  lemma HdrLayout(h: Hdr)
    ensures |HdrBytes(h)| == 16
    ensures forall i | 0 <= i < 8 :: HdrBytes(h)[i] as int == Digit(h.len, i)
    ensures var u := if h.level >= 0 then h.level else h.level + 0x1_0000_0000;
            forall i | 8 <= i < 12 :: HdrBytes(h)[i] as int == Digit(u, i - 8)
    ensures var u := if h.kind >= 0 then h.kind else h.kind + 0x1_0000_0000;
            forall i | 12 <= i < 16 :: HdrBytes(h)[i] as int == Digit(u, i - 12)
  {
    hide Little, Digit;
    forall i | 0 <= i < 8
      ensures HdrBytes(h)[i] as int == Digit(h.len, i)
    {
      LittleDigit(h.len, 8, i);
    }
    forall i | 8 <= i < 12
      ensures HdrBytes(h)[i] as int == Digit(Unsigned(h.level), i - 8)
    {
      LittleDigit(Unsigned(h.level), 4, i - 8);
    }
    forall i | 12 <= i < 16
      ensures HdrBytes(h)[i] as int == Digit(Unsigned(h.kind), i - 12)
    {
      LittleDigit(Unsigned(h.kind), 4, i - 12);
    }
  }

  /** The number in four bytes from position `i` on. */
  function Quad(b: Bytes, i: nat): nat
    requires i + 4 <= |b|
  {
    b[i] as int + 0x100 * (b[i + 1] as int) + 0x1_0000 * (b[i + 2] as int) + 0x100_0000 * (b[i + 3] as int)
  }

  lemma FromLittleFour(s: Bytes)
    requires |s| >= 4
    ensures FromLittle(s) == Quad(s, 0) + 0x1_0000_0000 * FromLittle(s[4..])
  {
    assert s[1..][1..] == s[2..] && s[2..][1..] == s[3..] && s[3..][1..] == s[4..];
    assert FromLittle(s) == s[0] as int + 256 * FromLittle(s[1..]);
    assert FromLittle(s[1..]) == s[1] as int + 256 * FromLittle(s[2..]);
    assert FromLittle(s[2..]) == s[2] as int + 256 * FromLittle(s[3..]);
    assert FromLittle(s[3..]) == s[3] as int + 256 * FromLittle(s[4..]);
  }

  /** And read: each field is the number in its own bytes, level and type with a sign. */
  lemma ReadLayout(b: Bytes)
    requires |b| == 16
    ensures var h := ReadHdr(b);
            && h.len == Quad(b, 0) + 0x1_0000_0000 * Quad(b, 4)
            && h.level == (if Quad(b, 8) < 0x8000_0000 then Quad(b, 8) else Quad(b, 8) - 0x1_0000_0000)
            && h.kind == (if Quad(b, 12) < 0x8000_0000 then Quad(b, 12) else Quad(b, 12) - 0x1_0000_0000)
  {
    FromLittleFour(b[..8]);
    FromLittleFour(b[..8][4..]);
    FromLittleFour(b[8..12]);
    FromLittleFour(b[12..]);
    assert FromLittle([]) == 0;
    assert b[..8][4..][4..] == [] && b[8..12][4..] == [] && b[12..][4..] == [];
    QuadPart(b, b[..8], 0, 0);
    QuadPart(b, b[..8][4..], 4, 0);
    QuadPart(b, b[8..12], 8, 0);
    QuadPart(b, b[12..], 12, 0);
    QuadBound(b, 8);
    QuadBound(b, 12);
    hide FromLittle, Quad;
  }

  lemma QuadPart(b: Bytes, s: Bytes, at: nat, i: nat)
    requires at + i + 4 <= |b| && i + 4 <= |s|
    requires forall j | i <= j < i + 4 :: s[j] == b[at + j]
    ensures Quad(s, i) == Quad(b, at + i)
  {
  }

  lemma QuadBound(b: Bytes, i: nat)
    requires i + 4 <= |b|
    ensures Quad(b, i) < 0x1_0000_0000
  {
  }

  function HdrOf(m: Msg): Hdr
    requires Fits(m)
  {
    Hdr(Len(|m.payload|), m.level, m.kind)
  }

  /* The walk. */

  /** A control buffer at an address; `len` of its bytes are in use. Address 0 is null. */
  datatype Control = Control(base: Usize, mem: Bytes, len: nat)

  const NULL: Usize := 0

  ghost predicate Mapped(c: Control) {
    0 < c.base && c.len <= |c.mem| && c.base + |c.mem| + HDR_SIZE < WORD
  }

  /** The whole header at `p` is among the bytes in use. */
  predicate Inside(c: Control, p: nat) {
    c.base <= p && p + HDR_SIZE <= c.base + c.len && c.len <= |c.mem|
  }

  function HdrAt(c: Control, p: Usize): Hdr
    requires Inside(c, p)
  {
    ReadHdr(c.mem[p - c.base..p - c.base + HDR_SIZE])
  }

  function FirstHdr(c: Control): Usize {
    if c.len >= HDR_SIZE then c.base else NULL
  }

  function NxtHdr(c: Control, p: Usize): Usize
    requires p == NULL || Inside(c, p)
    requires c.base + c.len < WORD
  {
    if p == NULL then FirstHdr(c) else
    var next := Add(p, HdrAlign(HdrAt(c, p).len));
    var max := c.base + c.len;
    if Add(next, HDR_SIZE) > max then NULL else next
  }

  /** The payload area of the header at `p`. */
  function Data(p: Usize): Usize {
    Add(p, HDR_SIZE)
  }

  /** The walk begins at the buffer if 16 bytes are in use, and NXTHDR of no header begins it. */
  lemma WalkBegins(c: Control)
    requires c.base + c.len < WORD
    ensures FirstHdr(c) == if c.len >= 16 then c.base else 0
    ensures NxtHdr(c, 0) == if c.len >= 16 then c.base else 0
  {
  }

  /** How far NXTHDR steps from the header at `p`, on numbers that do not wrap. */
  function Stride(c: Control, p: Usize): nat
    requires Inside(c, p)
  {
    HdrAlign(HdrAt(c, p).len)
  }

  /** For every length, the huge ones included, for which the addition of 7 wraps. */
  lemma HdrAlignTotal(n: Usize)
    ensures n + 7 >= WORD ==> HdrAlign(n) == 0
    ensures HdrAlign(n) % 16 == 0
    ensures HdrAlign(n) == 0 <==> n <= 8 || n >= WORD - 7
    ensures 9 <= n < WORD - 7 ==> HdrAlign(n) >= 16
  {
    if n + 7 < WORD {
      HdrAlignExact(n);
      hide HdrAlign;
      Strides(n);
    } else {
      var a := n + 7 - WORD;
      assert Add(n, 7) == a;
      ClearLow4(a);
    }
  }

  lemma Strides(n: nat)
    ensures n <= 8 ==> (if n % 16 <= 8 then n - n % 16 else n - n % 16 + 16) == 0
    ensures n >= 9 ==> (if n % 16 <= 8 then n - n % 16 else n - n % 16 + 16) >= 16
  {
  }

  /**
   NXTHDR, with nothing excluded: the step leads inside the buffer, past its end,
   to an address so high that its header wraps, or round the address space.
   */
  lemma NxtHdrExact(c: Control, p: Usize)
    requires Mapped(c) && Inside(c, p)
    ensures var t := p + Stride(c, p);
            NxtHdr(c, p) == if t + 16 <= c.base + c.len then t
                            else if t + 16 < WORD then NULL
                            else if t < WORD then t
                            else t - WORD
  {
    var t := p + Stride(c, p);
    hide HdrAlign, HdrAt, Add;
    AddTotal(p, Stride(c, p));
    AddTotal(if t < WORD then t else t - WORD, 16);
  }

  lemma AddTotal(a: Usize, b: Usize)
    ensures Add(a, b) == if a + b < WORD then a + b else a + b - WORD
  {
  }

  /**
   The walk does well at `p`: it goes forward inside the buffer, or it ends. (The
   step that wraps to address 0 ends it, too.)
   */
  predicate Proceeds(c: Control, p: Usize)
    requires Inside(c, p)
  {
    Stride(c, p) > 0 && (p + Stride(c, p) + 16 < WORD || p + Stride(c, p) == WORD)
  }

  /** Headers as they should be: a length of at least 9, and no address behind them that overflows. */
  predicate Orderly(c: Control, p: Usize)
    requires Inside(c, p)
  {
    9 <= HdrAt(c, p).len < WORD - 7 && p + Stride(c, p) + 16 < WORD
  }

  /** Exactly when the walk does well, and what it does otherwise. */
  lemma StepForward(c: Control, p: Usize)
    requires Mapped(c) && Inside(c, p)
    ensures var next := NxtHdr(c, p);
            && (Proceeds(c, p) <==> next == NULL || (Inside(c, next) && next > p))
            && (Proceeds(c, p) && next != NULL ==> next >= p + 16 && (next - c.base) % 16 == (p - c.base) % 16)
    ensures Orderly(c, p) ==> Proceeds(c, p)
  {
    NxtHdrExact(c, p);
    HdrAlignTotal(HdrAt(c, p).len);
    SameRemainder(p - c.base, Stride(c, p));
    hide HdrAlign, HdrAt, NxtHdr;
  }

  lemma SameRemainder(a: nat, b: nat)
    requires b % 16 == 0
    ensures (a + b) % 16 == a % 16
  {
  }

  /**
   The walk stands still at a header exactly if its `cmsg_len` is at most 8, or so
   near the end of the number range that the alignment wraps to 0.
   */
  lemma SpinsIff(c: Control, p: Usize)
    requires Mapped(c) && Inside(c, p)
    ensures NxtHdr(c, p) == p <==> HdrAt(c, p).len <= 8 || HdrAt(c, p).len >= WORD - 7
  {
    NxtHdrExact(c, p);
    HdrAlignTotal(HdrAt(c, p).len);
    hide HdrAlign, HdrAt, NxtHdr;
  }

  /**
   The walk leaves the buffer, to read a header that is not there, exactly if the
   next address is in the last 16 bytes of the address space, or wraps to one
   below the buffer; and it goes back exactly if it wraps to one inside.
   */
  lemma WandersIff(c: Control, p: Usize)
    requires Mapped(c) && Inside(c, p)
    ensures var next, t := NxtHdr(c, p), p + Stride(c, p);
            && (next != NULL && !Inside(c, next) <==> WORD - 16 <= t < WORD + c.base && t != WORD)
            && (next != NULL && Inside(c, next) && next < p <==> t >= WORD + c.base)
  {
    NxtHdrExact(c, p);
    hide HdrAlign, HdrAt, NxtHdr;
  }

  /** A buffer at which the walk stands still: 16 zero bytes. */
  lemma ZerosSpin()
    ensures var c := Control(16, seq(16, _ => 0), 16);
            Mapped(c) && FirstHdr(c) == 16 && Inside(c, 16) && NxtHdr(c, 16) == 16
  {
    var c := Control(16, seq(16, _ => 0 as Byte), 16);
    var b := c.mem[0..16][..8];
    ZeroBytes(b);
    SpinsIff(c, 16);
    hide NxtHdr, FromLittle;
  }

  lemma {:induction false} ZeroBytes(b: Bytes)
    requires forall i | 0 <= i < |b| :: b[i] == 0
    ensures FromLittle(b) == 0
  {
    if b != [] {
      ZeroBytes(b[1..]);
    }
  }

  /** A header with which the walk leaves the buffer, to an address below it. */
  lemma HugeLengthWanders()
    ensures var c := Control(32, HdrBytes(Hdr(WORD - 16, 0, 0)), 16);
            Mapped(c) && FirstHdr(c) == 32 && Inside(c, 32) && NxtHdr(c, 32) == 16 && !Inside(c, 16)
  {
    var h := Hdr(WORD - 16, 0, 0);
    var c := Control(32, HdrBytes(h), 16);
    assert c.mem[0..16] == HdrBytes(h);
    HdrRoundTrip(h);
    AlignedAlready();
    hide HdrBytes, ReadHdr, HdrAlign;
    assert HdrAt(c, 32) == h;
    NxtHdrExact(c, 32);
    hide NxtHdr;
  }

  /** The walk goes from `p` on to `q`. */
  predicate Follows(c: Control, p: Usize, q: Usize)
    requires c.base + c.len < WORD
  {
    Inside(c, p) && Proceeds(c, p) && q == NxtHdr(c, p) && q != NULL
  }

  /** The header after `k` steps of the walk, if it finds that many. */
  function Nth(c: Control, k: nat): (p: Usize)
    requires Mapped(c)
  {
    if k == 0 then FirstHdr(c) else
      var p := Nth(c, k - 1);
      if p != NULL && Inside(c, p) then NxtHdr(c, p) else NULL
  }

  /** Over 16 zero bytes the walk visits the same header for ever. */
  lemma {:induction false} ZerosForEver(k: nat)
    ensures var c := Control(16, seq(16, _ => 0), 16); Mapped(c) && Nth(c, k) == 16
  {
    ZerosSpin();
    hide NxtHdr, FirstHdr;
    if k > 0 {
      ZerosForEver(k - 1);
    }
  }

  /** Two headers; with the huge length of the second one the walk goes back to the first. */
  function TwoHeaders(): Control {
    Control(16, HdrBytes(Hdr(16, 0, 0)) + HdrBytes(Hdr(WORD - 16, 0, 0)), 32)
  }

  lemma HugeLengthTurnsBack()
    ensures var c := TwoHeaders();
            && Mapped(c) && FirstHdr(c) == 16
            && Inside(c, 16) && NxtHdr(c, 16) == 32
            && Inside(c, 32) && NxtHdr(c, 32) == 16
  {
    TwoHeadersRead();
    hide *;
    TurnsBack(TwoHeaders());
  }

  lemma TurnsBack(c: Control)
    requires Mapped(c) && c.base == 16 && c.len == 32 && Inside(c, 16) && Inside(c, 32)
    requires HdrAt(c, 16).len == 16 && HdrAt(c, 32).len == WORD - 16
    ensures FirstHdr(c) == 16 && NxtHdr(c, 16) == 32 && NxtHdr(c, 32) == 16
  {
    AlignedAlready();
    hide HdrAt, HdrAlign, NxtHdr;
    NxtHdrExact(c, 16);
    NxtHdrExact(c, 32);
  }

  lemma AlignedAlready()
    ensures HdrAlign(16) == 16 && HdrAlign(WORD - 16) == WORD - 16
  {
    HdrAlignExact(16);
    HdrAlignExact(WORD - 16);
    hide HdrAlign;
  }

  lemma TwoHeadersRead()
    ensures var c := TwoHeaders();
            && Mapped(c) && c.base == 16 && c.len == 32
            && Inside(c, 16) && HdrAt(c, 16) == Hdr(16, 0, 0)
            && Inside(c, 32) && HdrAt(c, 32) == Hdr(WORD - 16, 0, 0)
  {
    var g, h := Hdr(16, 0, 0), Hdr(WORD - 16, 0, 0);
    HdrRoundTrip(g);
    HdrRoundTrip(h);
    hide HdrBytes, ReadHdr;
    var c := TwoHeaders();
    assert c.mem[0..16] == HdrBytes(g);
    assert c.mem[16..32] == HdrBytes(h);
  }

  /** So the walk goes round over the two headers for ever. */
  lemma {:induction false} TwoHeadersForEver(k: nat)
    ensures var c := TwoHeaders(); Mapped(c) && Nth(c, k) == if k % 2 == 0 then 16 else 32
  {
    HugeLengthTurnsBack();
    hide NxtHdr, FirstHdr, TwoHeaders;
    if k > 0 {
      TwoHeadersForEver(k - 1);
    }
  }

  /** `ps` are the first headers that the walk visits. */
  ghost predicate Visits(c: Control, ps: seq<Usize>)
    requires Mapped(c)
  {
    && (ps != [] ==> ps[0] == FirstHdr(c) && ps[0] != NULL)
    && (forall i | 0 <= i < |ps| - 1 :: Follows(c, ps[i], ps[i + 1]))
  }

  /** Every visited header lies wholly inside the buffer, at a multiple of 16, in order. */
  ghost predicate Placed(c: Control, ps: seq<Usize>) {
    forall i | 0 <= i < |ps| :: Inside(c, ps[i]) && (ps[i] - c.base) % 16 == 0 && ps[i] >= c.base + 16 * i
  }

  /**
   Every header the walk visits lies wholly inside the buffer, at an offset that
   is a multiple of 16, each further on than the one before; so it visits at most
   len/16 of them.
   */
  lemma {:induction false} WalkBounds(c: Control, ps: seq<Usize>)
    requires Mapped(c) && Visits(c, ps)
    ensures Placed(c, ps) && 16 * |ps| <= c.len
  {
    if ps != [] {
      hide *;
      var qs := ps[..|ps| - 1];
      VisitsFewer(c, ps, qs);
      WalkBounds(c, qs);
      LastPlaced(c, ps, qs);
      PlacedMore(c, ps, qs);
    }
  }

  lemma VisitsFewer(c: Control, ps: seq<Usize>, qs: seq<Usize>)
    requires Mapped(c) && Visits(c, ps) && ps != [] && qs == ps[..|ps| - 1]
    ensures Visits(c, qs)
  {
    hide HdrAt, NxtHdr, Proceeds, FirstHdr, Mapped, Follows;
    assert forall i | 0 <= i < |qs| :: qs[i] == ps[i];
  }

  lemma LastPlaced(c: Control, ps: seq<Usize>, qs: seq<Usize>)
    requires Mapped(c) && Visits(c, ps) && ps != [] && qs == ps[..|ps| - 1] && Placed(c, qs)
    ensures var k := |ps| - 1;
            Inside(c, ps[k]) && (ps[k] - c.base) % 16 == 0 && ps[k] >= c.base + 16 * k
  {
    var k := |ps| - 1;
    if k > 0 {
      hide HdrAt, NxtHdr, Proceeds;
      assert Follows(c, ps[k - 1], ps[k - 1 + 1]) && qs[k - 1] == ps[k - 1];
      assert Inside(c, qs[k - 1]) && qs[k - 1] >= c.base + 16 * (k - 1);
      StepForward(c, ps[k - 1]);
    }
  }

  lemma PlacedMore(c: Control, ps: seq<Usize>, qs: seq<Usize>)
    requires ps != [] && qs == ps[..|ps| - 1] && Placed(c, qs)
    requires Inside(c, ps[|ps| - 1]) && (ps[|ps| - 1] - c.base) % 16 == 0
    requires ps[|ps| - 1] >= c.base + 16 * (|ps| - 1)
    ensures Placed(c, ps) && 16 * |ps| <= c.len
  {
    forall i | 0 <= i < |ps| - 1
      ensures Inside(c, ps[i]) && (ps[i] - c.base) % 16 == 0 && ps[i] >= c.base + 16 * i
    {
      assert ps[i] == qs[i];
    }
  }

  /**
   The loop over all headers, as RFC 3542 section 5 uses the macros. On every
   buffer it visits at most len/16 headers, and then either it is through, because
   NXTHDR gives none, or it is at a header from which NXTHDR goes wrong: it gives
   the same one, one further back, or one outside the buffer.
   */
  method WalkAll(c: Control) returns (ps: seq<Usize>, through: bool)
    requires Mapped(c)
    ensures Visits(c, ps) && Placed(c, ps) && 16 * |ps| <= c.len
    ensures ps == [] <==> FirstHdr(c) == NULL
    ensures through <==> ps == [] || NxtHdr(c, ps[|ps| - 1]) == NULL
    ensures !through ==> var p, next := ps[|ps| - 1], NxtHdr(c, ps[|ps| - 1]);
                         next != NULL && (!Inside(c, next) || next <= p)
  {
    ps := [];
    var p := FirstHdr(c);
    while p != NULL
      invariant p != NULL ==> Visits(c, ps + [p])
      invariant p == NULL ==> Visits(c, ps)
      invariant Placed(c, ps) && 16 * |ps| <= c.len
      invariant ps == [] ==> p == FirstHdr(c)
      invariant ps != [] ==> FirstHdr(c) != NULL && p == NxtHdr(c, ps[|ps| - 1])
      decreases c.len - 16 * |ps|
    {
      hide HdrAt, NxtHdr, Proceeds, FirstHdr, Visits;
      var qs := ps + [p];
      WalkBounds(c, qs);
      assert qs[|qs| - 1] == p;
      StepForward(c, p);
      VisitsMore(c, ps, p);
      ps := qs;
      if !Proceeds(c, p) {
        return ps, false;
      }
      p := NxtHdr(c, p);
    }
    through := true;
  }

  lemma VisitsMore(c: Control, ps: seq<Usize>, p: Usize)
    requires Mapped(c) && Visits(c, ps + [p]) && Inside(c, p)
    ensures FirstHdr(c) != NULL
    ensures Proceeds(c, p) && NxtHdr(c, p) != NULL ==> Visits(c, ps + [p] + [NxtHdr(c, p)])
  {
    hide HdrAt, NxtHdr, Proceeds, FirstHdr;
    var qs := ps + [p];
    var rs := qs + [NxtHdr(c, p)];
    assert qs[0] == FirstHdr(c);
    if Proceeds(c, p) && NxtHdr(c, p) != NULL {
      forall i | 0 <= i < |rs| - 1
        ensures Follows(c, rs[i], rs[i + 1])
      {
        assert i < |qs| - 1 ==> Follows(c, qs[i], qs[i + 1]);
      }
    }
  }

  /* Messages back to back. */

  /** `b` with `bytes` written over it from position `at`. */
  function Over(b: Bytes, at: nat, bytes: Bytes): (r: Bytes)
    requires at + |bytes| <= |b|
    ensures |r| == |b|
  {
    b[..at] + bytes + b[at + |bytes|..]
  }

  predicate AllFit(msgs: seq<Msg>) {
    forall i | 0 <= i < |msgs| :: Fits(msgs[i])
  }

  /** The bytes that a list of messages takes up, up to the end of the last one. */
  function Extent(msgs: seq<Msg>): nat
    requires AllFit(msgs)
  {
    if msgs == [] then 0
    else if |msgs| == 1 then Len(|msgs[0].payload|)
    else Space(|msgs[0].payload|) + Extent(msgs[1..])
  }

  lemma ExtentBound(msgs: seq<Msg>)
    requires AllFit(msgs) && msgs != []
    ensures 16 + |msgs[0].payload| <= Extent(msgs)
    ensures |msgs| > 1 ==> Space(|msgs[0].payload|) + 16 <= Extent(msgs)
  {
    var n := |msgs[0].payload|;
    SpaceVersusLen(n);
    LenExact(n);
    if |msgs| > 1 {
      assert Fits(msgs[1]);
      ExtentBound(msgs[1..]);
    }
    hide Len, Space;
  }

  /** Writes the header and the payload of each message, one message after the other. */
  function WriteAll(b: Bytes, at: nat, msgs: seq<Msg>): (r: Bytes)
    requires AllFit(msgs) && at + Extent(msgs) <= |b|
    ensures |r| == |b|
    decreases |msgs|
  {
    if msgs == [] then b else
    ExtentBound(msgs);
    var b1 := WriteOne(b, at, msgs[0]);
    if |msgs| == 1 then b1 else WriteAll(b1, at + Space(|msgs[0].payload|), msgs[1..])
  }

  function WriteOne(b: Bytes, at: nat, m: Msg): (r: Bytes)
    requires Fits(m) && at + 16 + |m.payload| <= |b|
    ensures |r| == |b|
  {
    Over(Over(b, at, HdrBytes(HdrOf(m))), at + 16, m.payload)
  }

  lemma WroteOne(b: Bytes, at: nat, m: Msg)
    requires Fits(m) && at + 16 + |m.payload| <= |b|
    ensures var r := WriteOne(b, at, m);
            && r[..at] == b[..at]
            && r[at..at + 16] == HdrBytes(HdrOf(m))
            && r[at + 16..at + 16 + |m.payload|] == m.payload
            && r[at + 16 + |m.payload|..] == b[at + 16 + |m.payload|..]
  {
    hide HdrBytes, HdrOf;
  }

  /** Nothing before `at` is touched. */
  lemma {:induction false} WriteAllBefore(b: Bytes, at: nat, msgs: seq<Msg>)
    requires AllFit(msgs) && at + Extent(msgs) <= |b|
    ensures WriteAll(b, at, msgs)[..at] == b[..at]
    decreases |msgs|
  {
    if msgs != [] {
      ExtentBound(msgs);
      WroteOne(b, at, msgs[0]);
      if |msgs| > 1 {
        var b1, next := WriteOne(b, at, msgs[0]), at + Space(|msgs[0].payload|);
        WriteAllBefore(b1, next, msgs[1..]);
        var r := WriteAll(b1, next, msgs[1..]);
        assert r == WriteAll(b, at, msgs) && |r| == |b1| == |b|;
        hide WriteAll, WriteOne, Space, Len, Extent;
        SamePart(r, b1, next, 0, at);
      } else {
        hide WriteOne, Space, Len;
      }
    }
  }

  /** Two buffers that agree before `next` agree on a part of it. */
  lemma SamePart(r: Bytes, b: Bytes, next: nat, from: nat, to: nat)
    requires from <= to <= next <= |b| && |r| == |b| && r[..next] == b[..next]
    ensures r[from..to] == b[from..to]
  {
    forall i | from <= i < to
      ensures r[i] == b[i]
    {
      assert r[..next][i] == b[..next][i];
    }
  }

  /** The first bytes of the header after a message. */
  function NextBytes(msgs: seq<Msg>, r: nat): Bytes
    requires AllFit(msgs) && |msgs| > 1 && r <= 16
  {
    assert Fits(msgs[1]);
    HdrBytes(HdrOf(msgs[1]))[..r]
  }

  /** How many payload bytes the next header covers. */
  function Covered(msgs: seq<Msg>): (r: nat)
    requires AllFit(msgs) && msgs != []
    ensures r <= 8 && r <= |msgs[0].payload|
  {
    var n := |msgs[0].payload|;
    if |msgs| == 1 || Good(n) then 0 else n % 16
  }

  /** What can be read back of the first payload. */
  function ReadBack(msgs: seq<Msg>): Bytes
    requires AllFit(msgs) && msgs != []
  {
    var p, r := msgs[0].payload, Covered(msgs);
    if r == 0 then p else p[..|p| - r] + NextBytes(msgs, r)
  }

  /**
   The first message as it stands in the buffer after all were written: its header
   is intact, and its payload is intact but for the bytes under the next header.
   */
  lemma FirstInPlace(b: Bytes, at: nat, msgs: seq<Msg>)
    requires AllFit(msgs) && msgs != [] && at + Extent(msgs) <= |b|
    ensures InPlace(WriteAll(b, at, msgs), at, msgs)
  {
    if |msgs| > 1 {
      MoreInPlace(b, at, msgs);
    } else {
      ExtentBound(msgs);
      WroteOne(b, at, msgs[0]);
      hide WriteOne, Space, Len, HdrBytes, HdrOf;
    }
  }

  predicate InPlace(r: Bytes, at: nat, msgs: seq<Msg>)
    requires AllFit(msgs) && msgs != []
  {
    var n := |msgs[0].payload|;
    && at + 16 + n <= |r|
    && r[at..at + 16] == HdrBytes(HdrOf(msgs[0]))
    && r[at + 16..at + 16 + n] == ReadBack(msgs)
  }

  lemma MoreInPlace(b: Bytes, at: nat, msgs: seq<Msg>)
    requires AllFit(msgs) && |msgs| > 1 && at + Extent(msgs) <= |b|
    ensures InPlace(WriteAll(b, at, msgs), at, msgs)
  {
    PartsInPlace(b, at, msgs);
    ReadBackIs(msgs);
    hide WriteAll, InPlace, ReadBack, Extent, Covered, HdrBytes, HdrOf;
    Assembled(WriteAll(b, at, msgs), at, msgs);
  }

  lemma PartsInPlace(b: Bytes, at: nat, msgs: seq<Msg>)
    requires AllFit(msgs) && |msgs| > 1 && at + Extent(msgs) <= |b|
    ensures Fits(msgs[1]) && at + 16 + |msgs[0].payload| <= |b|
    ensures var r, p, covered := WriteAll(b, at, msgs), msgs[0].payload, Covered(msgs);
            && r[at..at + 16] == HdrBytes(HdrOf(msgs[0]))
            && r[at + 16..at + 16 + |p|]
               == if covered == 0 then p else p[..|p| - covered] + HdrBytes(HdrOf(msgs[1]))[..covered]
  {
    hide WriteOne, WriteAll, Space, Len, HdrBytes, HdrOf, Extent, NextBytes, Covered, Good;
    ExtentBound(msgs);
    SecondHeader(b, at, msgs);
    WroteOne(b, at, msgs[0]);
    KeptBefore(b, at, msgs);
    NextHeader(b, at, msgs);
    CoveredExactly(msgs);
    var n, r := |msgs[0].payload|, WriteAll(b, at, msgs);
    var b1, next := WriteOne(b, at, msgs[0]), at + Space(n);
    hide *;
    PayloadUnder(b1, r, at, next, n, msgs[0].payload, HdrBytes(HdrOf(msgs[1])), Covered(msgs));
  }

  lemma Assembled(r: Bytes, at: nat, msgs: seq<Msg>)
    requires AllFit(msgs) && msgs != [] && at + 16 + |msgs[0].payload| <= |r|
    requires r[at..at + 16] == HdrBytes(HdrOf(msgs[0]))
    requires r[at + 16..at + 16 + |msgs[0].payload|] == ReadBack(msgs)
    ensures InPlace(r, at, msgs)
  {
    hide ReadBack, HdrBytes, HdrOf;
  }

  lemma ReadBackIs(msgs: seq<Msg>)
    requires AllFit(msgs) && |msgs| > 1
    ensures Fits(msgs[1])
    ensures var p, r := msgs[0].payload, Covered(msgs);
            ReadBack(msgs) == if r == 0 then p else p[..|p| - r] + HdrBytes(HdrOf(msgs[1]))[..r]
  {
    assert Fits(msgs[1]);
  }

  lemma CoveredExactly(msgs: seq<Msg>)
    requires AllFit(msgs) && |msgs| > 1
    ensures var n, covered := |msgs[0].payload|, Covered(msgs);
            && 16 <= Space(n) && Fits(msgs[1])
            && (covered == 0 ==> 16 + n <= Space(n))
            && (covered > 0 ==> 16 + n == Space(n) + covered)
            && NextBytes(msgs, covered) == HdrBytes(HdrOf(msgs[1]))[..covered]
  {
    SpaceExact(|msgs[0].payload|);
    assert Fits(msgs[1]);
    hide Space, HdrAlign, HdrBytes, HdrOf;
  }

  /** The header of the second message, after all were written. */
  lemma NextHeader(b: Bytes, at: nat, msgs: seq<Msg>)
    requires AllFit(msgs) && |msgs| > 1 && at + Extent(msgs) <= |b|
    ensures var r, next := WriteAll(b, at, msgs), at + Space(|msgs[0].payload|);
            && next + 16 <= |r|
            && Fits(msgs[1]) && r[next..next + 16] == HdrBytes(HdrOf(msgs[1]))
  {
    ExtentBound(msgs);
    assert Fits(msgs[1]);
    SecondHeader(WriteOne(b, at, msgs[0]), at + Space(|msgs[0].payload|), msgs[1..]);
    hide WriteOne, Space, Len, HdrBytes, HdrOf;
  }

  lemma SecondHeader(b: Bytes, at: nat, msgs: seq<Msg>)
    requires AllFit(msgs) && msgs != [] && at + Extent(msgs) <= |b|
    ensures at + 16 <= |b| && WriteAll(b, at, msgs)[at..at + 16] == HdrBytes(HdrOf(msgs[0]))
  {
    ExtentBound(msgs);
    WroteOne(b, at, msgs[0]);
    if |msgs| > 1 {
      SpaceExact(|msgs[0].payload|);
      KeptBefore(b, at, msgs);
      var r, b1, next := WriteAll(b, at, msgs), WriteOne(b, at, msgs[0]), at + Space(|msgs[0].payload|);
      hide WriteOne, WriteAll, Space, Len, HdrAlign, HdrBytes, HdrOf, Extent;
      SamePart(r, b1, next, at, at + 16);
    } else {
      hide WriteOne, Space, Len, HdrBytes, HdrOf;
    }
  }

  /** The later messages leave everything before the second one as the first one left it. */
  lemma KeptBefore(b: Bytes, at: nat, msgs: seq<Msg>)
    requires AllFit(msgs) && |msgs| > 1 && at + Extent(msgs) <= |b|
    ensures at + 16 + |msgs[0].payload| <= |b|
    ensures var r, b1 := WriteAll(b, at, msgs), WriteOne(b, at, msgs[0]);
            var next := at + Space(|msgs[0].payload|);
            next + 16 <= |r| && r[..next] == b1[..next]
  {
    ExtentBound(msgs);
    WriteAllBefore(WriteOne(b, at, msgs[0]), at + Space(|msgs[0].payload|), msgs[1..]);
    hide WriteOne, Space, Len;
  }

  /** The payload bytes up to the next header are the writer's, the others are the header's. */
  lemma PayloadUnder(b: Bytes, r: Bytes, at: nat, next: nat, n: nat, payload: Bytes, hdr: Bytes, covered: nat)
    requires |r| == |b| && at + 16 <= next && next + 16 <= |r| && |payload| == n && |hdr| == 16
    requires r[..next] == b[..next] && r[next..next + 16] == hdr
    requires at + 16 + n <= |b| && b[at + 16..at + 16 + n] == payload
    requires covered <= 8 && (covered == 0 ==> at + 16 + n <= next) && (covered > 0 ==> at + 16 + n == next + covered)
    ensures r[at + 16..at + 16 + n] == if covered == 0 then payload else payload[..n - covered] + hdr[..covered]
  {
    var got := r[at + 16..at + 16 + n];
    forall i | 0 <= i < n
      ensures got[i] == if i < n - covered then payload[i] else hdr[i - (n - covered)]
    {
      var j := at + 16 + i;
      if i < n - covered {
        assert r[j] == r[..next][j] == b[..next][j] == b[j];
        assert payload[i] == b[at + 16..at + 16 + n][i];
      } else {
        assert r[j] == r[next..next + 16][j - next];
      }
    }
  }

  /** The `i`-th message is read back whole. */
  predicate Survives(msgs: seq<Msg>, i: nat)
    requires AllFit(msgs) && i < |msgs|
  {
    ReadBack(msgs[i..]) == msgs[i].payload
  }

  /**
   Exactly when: a message survives if it is the last one, if its length is good,
   or if its last bytes happen to be the first bytes of the next header.
   */
  lemma SurvivesIff(msgs: seq<Msg>, i: nat)
    requires AllFit(msgs) && i < |msgs|
    ensures Survives(msgs, i) <==>
              var p := msgs[i].payload;
              || i == |msgs| - 1
              || Good(|p|)
              || (AllFit(msgs[i..]) && p[|p| - |p| % 16..] == NextBytes(msgs[i..], |p| % 16))
  {
    var p, rest := msgs[i].payload, msgs[i..];
    var r := Covered(rest);
    if r != 0 {
      var nb := NextBytes(rest, r);
      assert |nb| == r;
      hide NextBytes;
      assert p == p[..|p| - r] + p[|p| - r..];
      if p[..|p| - r] + nb == p {
        assert nb == (p[..|p| - r] + nb)[|p| - r..];
      }
    }
  }

  /** What the walk must find: every header, at its place, and then the end. */
  ghost predicate Found(c: Control, start: Usize, msgs: seq<Msg>)
    requires Mapped(c) && AllFit(msgs)
    decreases |msgs|
  {
    if msgs == [] then start == NULL else
      Here(c, start, msgs) && Found(c, NxtHdr(c, start), msgs[1..])
  }

  /** The header of the first message at `start`, and its payload behind it. */
  predicate Here(c: Control, start: Usize, msgs: seq<Msg>)
    requires AllFit(msgs) && msgs != []
  {
    && Inside(c, start)
    && HdrAt(c, start) == HdrOf(msgs[0])
    && start - c.base + 16 + |msgs[0].payload| <= |c.mem|
    && c.mem[start - c.base + 16..start - c.base + 16 + |msgs[0].payload|] == ReadBack(msgs)
  }

  /** `c` holds `msgs` from offset `at` to its end, written over `b`. */
  ghost predicate Written(c: Control, b: Bytes, at: nat, msgs: seq<Msg>) {
    && Mapped(c) && AllFit(msgs) && msgs != []
    && |b| == |c.mem| && c.len == at + Extent(msgs) <= |b|
    && c.mem == WriteAll(b, at, msgs)
  }

  /**
   The walk over messages written back to back, for payloads of any length: it
   finds every header that was written, it ends after the last one, and every
   payload reads back as `ReadBack` says.
   */
  lemma {:induction false} WalkFindsAll(c: Control, b: Bytes, at: nat, msgs: seq<Msg>)
    requires Written(c, b, at, msgs) && c.base + at < WORD
    ensures Mapped(c) && AllFit(msgs) && Found(c, c.base + at, msgs)
    decreases |msgs|
  {
    hide *;
    HeadFound(c, b, at, msgs);
    if |msgs| > 1 {
      RestWritten(c, b, at, msgs);
      WalkFindsAll(c, WriteOne(b, at, msgs[0]), at + Space(|msgs[0].payload|), msgs[1..]);
    }
    FoundMore(c, c.base + at, msgs);
  }

  lemma FoundMore(c: Control, p: Usize, msgs: seq<Msg>)
    requires Mapped(c) && AllFit(msgs) && msgs != [] && Here(c, p, msgs)
    requires if |msgs| == 1 then NxtHdr(c, p) == NULL else Found(c, NxtHdr(c, p), msgs[1..])
    ensures Found(c, p, msgs)
  {
    hide NxtHdr, HdrAt, ReadBack;
  }

  lemma HeadFound(c: Control, b: Bytes, at: nat, msgs: seq<Msg>)
    requires Written(c, b, at, msgs)
    ensures Mapped(c) && AllFit(msgs) && msgs != []
    ensures c.base + at < WORD && Here(c, c.base + at, msgs)
    ensures NxtHdr(c, c.base + at) == if |msgs| == 1 then NULL else c.base + at + Space(|msgs[0].payload|)
  {
    FirstInPlace(b, at, msgs);
    ExtentBound(msgs);
    HeaderThere(c, at, msgs[0]);
    hide NxtHdr, HdrAt, ReadBack, HdrOf, Space, Len, Extent, WriteAll, HdrBytes;
    NextAfter(c, at, msgs);
  }

  lemma HeaderThere(c: Control, at: nat, m: Msg)
    requires Mapped(c) && Fits(m) && at + 16 <= c.len
    requires c.mem[at..at + 16] == HdrBytes(HdrOf(m))
    ensures Inside(c, c.base + at) && HdrAt(c, c.base + at) == HdrOf(m)
  {
    HdrRoundTrip(HdrOf(m));
    hide HdrBytes, ReadHdr, HdrOf;
  }

  lemma RestWritten(c: Control, b: Bytes, at: nat, msgs: seq<Msg>)
    requires Written(c, b, at, msgs) && |msgs| > 1
    ensures Fits(msgs[0]) && |msgs[0].payload| < WORD && at + 16 + |msgs[0].payload| <= |b|
    ensures Written(c, WriteOne(b, at, msgs[0]), at + Space(|msgs[0].payload|), msgs[1..])
    ensures c.base + at + Space(|msgs[0].payload|) < WORD
  {
    ExtentBound(msgs);
    hide WriteOne, Space, Len, Mapped;
  }

  /** The arithmetic of one step. */
  lemma NextFrom(c: Control, p: Usize, step: Usize, last: bool)
    requires Mapped(c) && Inside(c, p) && step == HdrAlign(HdrAt(c, p).len)
    requires if last then c.base + c.len < p + step + 16 else p + step + 16 <= c.base + c.len
    requires p + step + 16 < WORD
    requires 0 < c.base
    ensures NxtHdr(c, p) == if last then NULL else p + step
  {
    AddExact(p, step);
    AddExact(p + step, 16);
    hide Add, HdrAlign, HdrAt;
  }

  lemma NextAfter(c: Control, at: nat, msgs: seq<Msg>)
    requires Mapped(c) && AllFit(msgs) && msgs != []
    requires c.len == at + Extent(msgs)
    requires Inside(c, c.base + at) && HdrAt(c, c.base + at) == HdrOf(msgs[0])
    ensures NxtHdr(c, c.base + at) == if |msgs| == 1 then NULL else c.base + at + Space(|msgs[0].payload|)
  {
    var n := |msgs[0].payload|;
    StrideIsSpace(n);
    SpaceVersusLen(n);
    ExtentBound(msgs);
    assert |msgs| == 1 ==> Extent(msgs) == Len(n);
    hide Space, HdrAlign, HdrAt, Len, Extent, NxtHdr, Mapped;
    assert Space(n) <= Len(n) <= Space(n) + 8 && Space(n) <= Extent(msgs);
    NextFrom(c, c.base + at, Space(n), |msgs| == 1);
  }

  /**
   The list a reader gets that knows how long the payloads of the messages are, as
   the receiver knows the size of its structure: level and type from the header,
   the payload from behind it.
   */
  ghost function Received(c: Control, start: Usize, sizes: seq<Msg>): seq<Msg>
    requires Mapped(c) && AllFit(sizes) && Found(c, start, sizes)
    decreases |sizes|
  {
    if sizes == [] then [] else
      var h, n := HdrAt(c, start), |sizes[0].payload|;
      [Msg(h.level, h.kind, c.mem[start - c.base + 16..start - c.base + 16 + n])]
      + Received(c, NxtHdr(c, start), sizes[1..])
  }

  /** The walk got exactly the messages that were written. */
  ghost predicate AllReceived(c: Control, start: Usize, msgs: seq<Msg>)
    requires Mapped(c) && AllFit(msgs) && Found(c, start, msgs)
  {
    Received(c, start, msgs) == msgs
  }

  ghost predicate AllSurvive(msgs: seq<Msg>)
    requires AllFit(msgs)
  {
    forall i | 0 <= i < |msgs| :: Survives(msgs, i)
  }

  lemma {:induction false} ReceivedIff(c: Control, start: Usize, msgs: seq<Msg>)
    requires Mapped(c) && AllFit(msgs) && Found(c, start, msgs)
    ensures AllReceived(c, start, msgs) <==> AllSurvive(msgs)
    decreases |msgs|
  {
    if msgs != [] {
      ReceivedIff(c, NxtHdr(c, start), msgs[1..]);
      ReceivedFirst(c, start, msgs);
      SurvivesAll(msgs, msgs[1..]);
      hide AllReceived, AllSurvive, Received, Survives, HdrAt, NxtHdr;
    }
  }

  lemma ReceivedFirst(c: Control, start: Usize, msgs: seq<Msg>)
    requires Mapped(c) && AllFit(msgs) && Found(c, start, msgs) && msgs != []
    ensures AllReceived(c, start, msgs) <==> Survives(msgs, 0) && AllReceived(c, NxtHdr(c, start), msgs[1..])
  {
    ReceivedParts(c, start, msgs);
    assert msgs[0..] == msgs;
    hide Received, Found, ReadBack, NxtHdr, Mapped;
    SameList(msgs, ReadBack(msgs), Received(c, NxtHdr(c, start), msgs[1..]));
  }

  lemma ReceivedParts(c: Control, start: Usize, msgs: seq<Msg>)
    requires Mapped(c) && AllFit(msgs) && Found(c, start, msgs) && msgs != []
    ensures Received(c, start, msgs)
         == [Msg(msgs[0].level, msgs[0].kind, ReadBack(msgs))] + Received(c, NxtHdr(c, start), msgs[1..])
  {
    assert Here(c, start, msgs);
    hide HdrAt, NxtHdr, ReadBack;
  }

  lemma SameList(msgs: seq<Msg>, payload: Bytes, got: seq<Msg>)
    requires msgs != []
    ensures [Msg(msgs[0].level, msgs[0].kind, payload)] + got == msgs <==>
              payload == msgs[0].payload && got == msgs[1..]
  {
    assert msgs == [msgs[0]] + msgs[1..];
    assert ([Msg(msgs[0].level, msgs[0].kind, payload)] + got)[1..] == got;
  }

  lemma SurvivesAll(msgs: seq<Msg>, rest: seq<Msg>)
    requires AllFit(msgs) && msgs != [] && rest == msgs[1..]
    ensures AllSurvive(msgs) <==> Survives(msgs, 0) && AllSurvive(rest)
  {
    forall i | 0 <= i < |rest|
      ensures Survives(rest, i) == Survives(msgs, i + 1)
    {
      assert rest[i..] == msgs[i + 1..];
    }
    hide Survives;
    if Survives(msgs, 0) && AllSurvive(rest) {
      forall i | 0 <= i < |msgs|
        ensures Survives(msgs, i)
      {
        if i > 0 {
          assert Survives(rest, i - 1) == Survives(msgs, (i - 1) + 1);
        }
      }
    }
    if AllSurvive(msgs) {
      forall i | 0 <= i < |rest|
        ensures Survives(rest, i)
      {
        assert Survives(msgs, i + 1);
      }
    }
  }

  /**
   Round trip. Messages written from the start of a buffer, whatever it held
   before, are found by FIRSTHDR and NXTHDR in order, for payloads of any length;
   and what is read is exactly what was written if and only if every message survives.
   */
  lemma RoundTrip(c: Control, b: Bytes, msgs: seq<Msg>)
    requires Written(c, b, 0, msgs)
    ensures Mapped(c) && AllFit(msgs) && FirstHdr(c) == c.base && Found(c, c.base, msgs)
    ensures AllReceived(c, c.base, msgs) <==> AllSurvive(msgs)
  {
    hide *;
    FirstIsBase(c, b, msgs);
    WalkFindsAll(c, b, 0, msgs);
    ReceivedIff(c, c.base, msgs);
  }

  lemma FirstIsBase(c: Control, b: Bytes, msgs: seq<Msg>)
    requires Written(c, b, 0, msgs)
    ensures FirstHdr(c) == c.base + 0
  {
    ExtentBound(msgs);
    hide WriteAll;
  }

  /** With good lengths, the last message's apart, nothing is lost. */
  lemma GoodListsRoundTrip(c: Control, b: Bytes, msgs: seq<Msg>)
    requires Written(c, b, 0, msgs) && AllGood(msgs)
    ensures Mapped(c) && AllFit(msgs) && Found(c, c.base, msgs) && AllReceived(c, c.base, msgs)
  {
    hide *;
    RoundTrip(c, b, msgs);
    GoodLengths(msgs);
  }

  predicate AllGood(msgs: seq<Msg>) {
    forall i | 0 <= i < |msgs| - 1 :: Good(|msgs[i].payload|)
  }

  lemma GoodLengths(msgs: seq<Msg>)
    requires AllFit(msgs) && AllGood(msgs)
    ensures AllSurvive(msgs)
  {
    forall i | 0 <= i < |msgs|
      ensures Survives(msgs, i)
    {
      assert i < |msgs| - 1 ==> Good(|msgs[i].payload|);
      assert msgs[i..][0] == msgs[i];
    }
  }

  /** A pair that does not survive: the one payload byte lies under the next header. */
  lemma ShortPayloadLost(kind: Int32)
    ensures var msgs := [Msg(0, kind, [1]), Msg(0, kind, [])];
            AllFit(msgs) && Extent(msgs) == 32 && ReadBack(msgs) == [16] && !Survives(msgs, 0)
  {
    var msgs := [Msg(0, kind, [1]), Msg(0, kind, [])];
    assert AllFit(msgs) && msgs[0..] == msgs;
    LenExact(0);
    SpaceExact(1);
    FirstByte(HdrOf(msgs[1]));
    hide HdrBytes, Len, Space;
    assert NextBytes(msgs, 1) == [16];
    assert ReadBack(msgs) == [16];
  }

  /** The same pair in a buffer: both headers are found, and the first payload is read as 16 instead of 1. */
  lemma ShortPayloadLostInBuffer(kind: Int32)
    ensures var msgs, b := [Msg(0, kind, [1]), Msg(0, kind, [])], seq(32, _ => 0);
            && AllFit(msgs) && Extent(msgs) == 32
            && var c := Control(16, WriteAll(b, 0, msgs), 32);
               && Written(c, b, 0, msgs)
               && Found(c, 16, msgs) && !AllReceived(c, 16, msgs)
               && Received(c, 16, msgs)[0].payload == [16]
  {
    var msgs, b := [Msg(0, kind, [1]), Msg(0, kind, [])], seq(32, _ => 0 as Byte);
    ShortPayloadLost(kind);
    hide *;
    PairInBuffer(msgs, b);
  }

  lemma PairInBuffer(msgs: seq<Msg>, b: Bytes)
    requires AllFit(msgs) && |msgs| == 2 && Extent(msgs) == 32 == |b| && !Survives(msgs, 0)
    ensures var c := Control(16, WriteAll(b, 0, msgs), 32);
            && Written(c, b, 0, msgs)
            && Found(c, 16, msgs) && !AllReceived(c, 16, msgs)
            && Received(c, 16, msgs)[0].payload == ReadBack(msgs)
  {
    var c := Control(16, WriteAll(b, 0, msgs), 32);
    hide Survives, WriteAll, Found, AllReceived, Received, ReadBack, Extent;
    RoundTrip(c, b, msgs);
    FirstReceived(c, 16, msgs);
  }

  lemma FirstReceived(c: Control, start: Usize, msgs: seq<Msg>)
    requires Mapped(c) && AllFit(msgs) && Found(c, start, msgs) && msgs != []
    ensures Received(c, start, msgs) != [] && Received(c, start, msgs)[0].payload == ReadBack(msgs)
  {
    ReceivedParts(c, start, msgs);
    hide *;
  }

  lemma FirstByte(h: Hdr)
    requires h.len == 16
    ensures HdrBytes(h)[0] == 16
  {
    FirstLittle();
    hide Little, Unsigned;
  }

  lemma FirstLittle()
    ensures Little(16, 8)[0] == 16
  {
    assert Little(16, 8)[0] == (16 % 256) as Byte;
  }

  /* The sender's buffer and the receiver's test. */

  /** `ptr::copy` into a buffer. */
  method Copy(to: array<Byte>, at: nat, bytes: Bytes)
    requires at + |bytes| <= to.Length
    modifies to
    ensures to[..] == Over(old(to[..]), at, bytes)
  {
    for i := 0 to |bytes|
      invariant forall j | 0 <= j < to.Length ::
                  to[j] == if at <= j < at + i then bytes[j - at] else old(to[j])
    {
      to[at + i] := bytes[i];
    }
  }

  const CONTROL_SIZE: nat := 128

  /** The sender's control buffer: one message in a cleared array, and the length in use. */
  method MakeControl(m: Msg) returns (buf: array<Byte>, len: nat)
    requires Fits(m) && Len(|m.payload|) <= 128
    ensures fresh(buf) && buf.Length == 128 && len == Len(|m.payload|)
    ensures 16 + |m.payload| <= 128 && buf[..] == WriteOne(seq(128, _ => 0), 0, m)
    ensures forall i | 0 <= i < 8 :: buf[i] as int == Digit(len, i)
    ensures m.level >= 0 ==> forall i | 8 <= i < 12 :: buf[i] as int == Digit(m.level, i - 8)
    ensures m.kind >= 0 ==> forall i | 12 <= i < 16 :: buf[i] as int == Digit(m.kind, i - 12)
    ensures m.level == 0 && m.kind == 19 ==> buf[8] == 0 && buf[12] == 19
    ensures forall i | 16 <= i < 128 :: buf[i] == if i < 16 + |m.payload| then m.payload[i - 16] else 0
  {
    LenExact(|m.payload|);
    hide Len, HdrBytes;
    buf := new Byte[CONTROL_SIZE](_ => 0);
    assert buf[..] == seq(128, _ => 0);
    Copy(buf, 0, HdrBytes(HdrOf(m)));
    Copy(buf, HDR_SIZE, m.payload);
    len := Len(|m.payload|);
    MessageLayout(buf[..], m);
  }

  /** One message in a cleared buffer, byte by byte. */
  lemma MessageLayout(r: Bytes, m: Msg)
    requires Fits(m) && 16 + |m.payload| <= 128 && r == WriteOne(seq(128, _ => 0), 0, m)
    ensures |r| == 128
    ensures forall i | 0 <= i < 8 :: r[i] as int == Digit(Len(|m.payload|), i)
    ensures m.level >= 0 ==> forall i | 8 <= i < 12 :: r[i] as int == Digit(m.level, i - 8)
    ensures m.kind >= 0 ==> forall i | 12 <= i < 16 :: r[i] as int == Digit(m.kind, i - 12)
    ensures m.level == 0 && m.kind == 19 ==> r[8] == 0 && r[12] == 19
    ensures forall i | 16 <= i < 128 :: r[i] == if i < 16 + |m.payload| then m.payload[i - 16] else 0
  {
    hide WriteOne, HdrBytes, Digit, Len;
    var b, h := seq(128, _ => 0 as Byte), HdrOf(m);
    WroteOne(b, 0, m);
    HdrLayout(h);
    HeaderFields(m);
    LowDigit(0);
    LowDigit(19);
    forall i | 0 <= i < 16
      ensures r[i] == HdrBytes(h)[i]
    {
      assert r[i] == r[0..16][i];
    }
    forall i | 16 <= i < 128
      ensures r[i] == if i < 16 + |m.payload| then m.payload[i - 16] else 0
    {
      if i < 16 + |m.payload| {
        assert r[i] == r[16..16 + |m.payload|][i - 16];
      } else {
        assert r[i] == r[16 + |m.payload|..][i - 16 - |m.payload|];
        assert b[i] == b[16 + |m.payload|..][i - 16 - |m.payload|];
      }
    }
  }

  lemma LowDigit(v: nat)
    requires v < 256
    ensures Digit(v, 0) == v
  {
    assert Pow2(0) == 1;
  }

  /** What the receiver takes out of a received buffer, for a structure of `n` bytes. */
  function Receive(c: Control, level: Int32, kind: Int32, n: nat): Option<Bytes>
    requires Mapped(c) && Small(n) && 16 + n <= |c.mem|
  {
    var p := FirstHdr(c);
    if p == NULL then None else
    var h := HdrAt(c, p);
    if h.level == level && h.kind == kind && h.len >= Len(n) then
      AddExact(p, HDR_SIZE);
      var d := Data(p) - c.base;
      Some(c.mem[d..d + n])
    else None
  }

  /** The first `n` bytes of a payload, with zeros behind it. */
  function Padded(payload: Bytes, n: nat): Bytes {
    if n <= |payload| then payload[..n] else payload + seq(n - |payload|, _ => 0)
  }

  /**
   One message, from the sender to the receiver, for a payload of any length that
   the buffer has room for: the receiver accepts it exactly if it asks for its
   level and type and for a structure of no larger length, rounded up; it then
   reads what the sender wrote, followed by zeros if it asked for more bytes than
   there are; and the walk finds no second message.
   */
  lemma SenderToReceiver(base: Usize, m: Msg, level: Int32, kind: Int32, n: nat)
    requires 0 < base && base + 256 < WORD && Fits(m) && Len(|m.payload|) <= 128
    requires Small(n) && 16 + n <= 128 && 16 + |m.payload| <= 128
    ensures var c := Control(base, WriteOne(seq(128, _ => 0), 0, m), Len(|m.payload|));
            && Mapped(c) && Inside(c, base)
            && Receive(c, level, kind, n)
               == (if level == m.level && kind == m.kind && Len(n) <= Len(|m.payload|)
                   then Some(Padded(m.payload, n)) else None)
            && NxtHdr(c, base) == NULL
  {
    var b := seq(128, _ => 0 as Byte);
    var c := Control(base, WriteOne(b, 0, m), Len(|m.payload|));
    LenExact(|m.payload|);
    WroteOne(b, 0, m);
    PaddedThere(c.mem, b, m.payload, n);
    hide Len, WriteOne, HdrBytes, Padded;
    HeaderThere(c, 0, m);
    OneMessage(c, m);
    hide HdrAt, NxtHdr, HdrOf, Receive;
    ReceiveIs(c, m, level, kind, n);
  }

  /** The receiver's test, for a buffer that begins with the header of `m`. */
  lemma ReceiveIs(c: Control, m: Msg, level: Int32, kind: Int32, n: nat)
    requires Mapped(c) && Fits(m) && Small(n) && 16 + n <= |c.mem|
    requires Inside(c, c.base) && HdrAt(c, c.base) == HdrOf(m)
    ensures Receive(c, level, kind, n)
         == if level == m.level && kind == m.kind && Len(n) <= Len(|m.payload|) then Some(c.mem[16..16 + n]) else None
  {
    AddExact(c.base, HDR_SIZE);
    HeaderFields(m);
    hide HdrAt, HdrOf, Add, Len;
  }

  lemma PaddedThere(r: Bytes, b: Bytes, payload: Bytes, n: nat)
    requires |r| == |b| && 16 + |payload| <= |b| && 16 + n <= |b|
    requires r[16..16 + |payload|] == payload && r[16 + |payload|..] == b[16 + |payload|..]
    requires forall i | 0 <= i < |b| :: b[i] == 0
    ensures r[16..16 + n] == Padded(payload, n)
  {
    forall i | 0 <= i < n
      ensures r[16 + i] == Padded(payload, n)[i]
    {
      if i < |payload| {
        assert r[16 + i] == r[16..16 + |payload|][i];
      } else {
        assert r[16 + i] == r[16 + |payload|..][i - |payload|];
        assert b[16 + i] == b[16 + |payload|..][i - |payload|];
      }
    }
  }

  /** The receiver asks for as many bytes as the sender wrote, and reads them. */
  lemma SentIsReceived(base: Usize, m: Msg)
    requires 0 < base && base + 256 < WORD && Fits(m) && Len(|m.payload|) <= 128
    requires 16 + |m.payload| <= 128
    ensures var c := Control(base, WriteOne(seq(128, _ => 0), 0, m), Len(|m.payload|));
            Mapped(c) && Receive(c, m.level, m.kind, |m.payload|) == Some(m.payload)
  {
    hide Len, WriteOne, Receive;
    SenderToReceiver(base, m, m.level, m.kind, |m.payload|);
    assert Padded(m.payload, |m.payload|) == m.payload;
  }

  lemma HeaderFields(m: Msg)
    requires Fits(m)
    ensures HdrOf(m).len == Len(|m.payload|) && HdrOf(m).level == m.level && HdrOf(m).kind == m.kind
  {
  }

  lemma OneMessage(c: Control, m: Msg)
    requires Mapped(c) && Fits(m) && c.len == Len(|m.payload|)
    requires Inside(c, c.base) && HdrAt(c, c.base) == HdrOf(m)
    ensures NxtHdr(c, c.base) == NULL
  {
    assert Extent([m]) == Len(|m.payload|);
    assert c.base + 0 == c.base;
    hide HdrAt, NxtHdr, HdrOf, Len, Space;
    NextAfter(c, 0, [m]);
  }
}
