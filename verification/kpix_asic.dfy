/** Register codecs of the KPIX ASIC device description
    (software/python/KpixDaq/_KpixAsic.py): the bit-reversed unsigned
    integer encoding, the linked variables that present raw register
    fields in user units, the DAC-to-voltage view and the per-column
    channel-mode string codec, plus the calibration-channel update. */
module AsicRegisters {
  import opened Bits
  import opened Wrappers

  // ---------------------------------------------------------------------
  // FlippedUInt: value -> f'{value:b}'.zfill(bitSize)[::-1] -> int(_, 2)
  // ---------------------------------------------------------------------

  predicate IsBinary(s: seq<char>) {
    forall i :: 0 <= i < |s| ==> s[i] == '0' || s[i] == '1'
  }

  function DigitChar(d: nat): char
    requires d < 2
  {
    if d == 0 then '0' else '1'
  }

  /** Python's f'{v:b}': the binary digits of v, most significant first,
      and "0" for zero. */
  function BinStr(v: nat): (s: seq<char>)
    ensures |s| >= 1 && IsBinary(s)
  {
    if v < 2 then [DigitChar(v)] else BinStr(v / 2) + [DigitChar(v % 2)]
  }

  function Zeros(k: nat): (s: seq<char>)
    ensures |s| == k && IsBinary(s)
  {
    seq(k, _ => '0')
  }

  /** Python's str.zfill(w) on a string without sign: pad with '0' on the
      left up to width w, never truncate. */
  function ZFill(s: seq<char>, w: nat): seq<char> {
    if |s| >= w then s else Zeros(w - |s|) + s
  }

  /** Python's s[::-1]. */
  function Reverse(s: seq<char>): (r: seq<char>)
    ensures |r| == |s|
  {
    seq(|s|, i requires 0 <= i < |s| => s[|s| - 1 - i])
  }

  /** Python's int(s, 2) on a non-empty string of binary digits. */
  function ParseBin(s: seq<char>): nat
    requires IsBinary(s)
  {
    if s == [] then 0
    else 2 * ParseBin(s[..|s| - 1]) + (if s[|s| - 1] == '1' then 1 else 0)
  }

  /** The conversion both FlippedUInt.toBytes and FlippedUInt.fromBytes
      apply (lines 7 and 13); a value that fits the field stays in it. */
  function Flip(v: nat, bitSize: nat): (f: nat)
    ensures v < Pow2(bitSize) ==> f < Pow2(bitSize)
  {
    var s := ZFill(BinStr(v), bitSize);
    assert IsBinary(s);
    var r := Reverse(s);
    assert IsBinary(r) by {
      forall i | 0 <= i < |r| ensures r[i] == '0' || r[i] == '1' {
        assert r[i] == s[|s| - 1 - i];
      }
    }
    assert v < Pow2(bitSize) ==> ParseBin(r) < Pow2(bitSize) by {
      if v < Pow2(bitSize) {
        if bitSize >= 1 {
          PaddedDigits(v, bitSize);
          ParseBinBound(r);
        } else {
          assert BinStr(v) == ['0'];
          assert r == ['0'];
        }
      }
    }
    ParseBin(r)
  }

  /** FlippedUInt.toBytes: the flipped value, handed to pr.UInt.toBytes,
      which refuses it (None) when it does not fit the field. A negative
      value is refused too: its binary text carries a '-' that int(_, 2)
      cannot read once reversed. Every value that fits is accepted, and
      whatever is accepted fits. */
  function FlippedToBytes(value: int, bitSize: nat): (raw: Option<nat>)
    ensures raw.Some? ==> raw.value < Pow2(bitSize)
    ensures 0 <= value < Pow2(bitSize) ==> raw.Some?
    ensures value < 0 ==> raw.None?
  {
    if value < 0 then None else StoreUInt(Flip(value, bitSize), bitSize)
  }

  /** FlippedUInt.fromBytes: the same conversion applied to the raw field
      pr.UInt.fromBytes reads, which always fits the field; the result fits
      it as well. */
  function FlippedFromBytes(raw: nat, bitSize: nat): (value: nat)
    ensures raw < Pow2(bitSize) ==> value < Pow2(bitSize)
  {
    Flip(raw, bitSize)
  }

  /** Bit i of a binary string's value is the digit i places from its right
      end. */
  lemma {:induction false} ParseBinBit(s: seq<char>, i: nat)
    requires IsBinary(s) && i < |s|
    ensures Bit(ParseBin(s), i) == if s[|s| - 1 - i] == '1' then 1 else 0
  {
    if i > 0 {
      var p := s[..|s| - 1];
      ParseBinBit(p, i - 1);
      assert ParseBin(s) / 2 == ParseBin(p);
    }
  }

  /** The flipped value is the bit reversal of v within the field: bit i of
      Flip(v, n) is bit n - 1 - i of v. */
  lemma FlipBits(v: nat, n: nat, i: nat)
    requires v < Pow2(n) && i < n
    ensures Bit(Flip(v, n), i) == Bit(v, n - 1 - i)
  {
    var s := ZFill(BinStr(v), n);
    PaddedDigits(v, n);
    var r := Reverse(s);
    assert IsBinary(r) by {
      forall j | 0 <= j < |r| ensures r[j] == '0' || r[j] == '1' {
        assert r[j] == s[|s| - 1 - j];
      }
    }
    assert Flip(v, n) == ParseBin(r);
    ParseBinBit(r, i);
    assert r[n - 1 - i] == s[i];
    ParseBinBit(s, n - 1 - i);
  }

  lemma {:induction false} ParseBinBound(s: seq<char>)
    requires IsBinary(s)
    ensures ParseBin(s) < Pow2(|s|)
  {
    if s != [] {
      ParseBinBound(s[..|s| - 1]);
    }
  }

  lemma {:induction false} ParseBinOfBinStr(v: nat)
    ensures ParseBin(BinStr(v)) == v
  {
    if v >= 2 {
      ParseBinOfBinStr(v / 2);
      var p := BinStr(v / 2);
      var s := p + [DigitChar(v % 2)];
      assert s[..|s| - 1] == p;
    }
  }

  lemma {:induction false} BinStrLength(v: nat, w: nat)
    requires 1 <= w && v < Pow2(w)
    ensures |BinStr(v)| <= w
  {
    if v >= 2 {
      assert Pow2(1) == 2;
      BinStrLength(v / 2, w - 1);
    }
  }

  lemma {:induction false} ParseBinLeadingZeros(k: nat, s: seq<char>)
    requires IsBinary(s)
    ensures IsBinary(Zeros(k) + s)
    ensures ParseBin(Zeros(k) + s) == ParseBin(s)
  {
    var z := Zeros(k) + s;
    if s == [] {
      assert z == Zeros(k);
      ZerosParseToZero(k);
    } else {
      var p := s[..|s| - 1];
      ParseBinLeadingZeros(k, p);
      assert z[..|z| - 1] == Zeros(k) + p;
    }
  }

  lemma {:induction false} ZerosParseToZero(k: nat)
    ensures ParseBin(Zeros(k)) == 0
  {
    if k > 0 {
      ZerosParseToZero(k - 1);
      assert Zeros(k)[..k - 1] == Zeros(k - 1);
    }
  }

  /** The zero-padded digit string of a value that fits in w >= 1 bits has
      exactly w characters and reads back as the value. */
  lemma PaddedDigits(v: nat, w: nat)
    requires 1 <= w && v < Pow2(w)
    ensures |ZFill(BinStr(v), w)| == w
    ensures IsBinary(ZFill(BinStr(v), w))
    ensures ParseBin(ZFill(BinStr(v), w)) == v
  {
    BinStrLength(v, w);
    ParseBinOfBinStr(v);
    var b := BinStr(v);
    if |b| < w {
      ParseBinLeadingZeros(w - |b|, b);
    }
  }

  /** For 0 <= v < 2^bitSize toBytes accepts v, and flipping twice gives v
      back: fromBytes(toBytes(v)) == v. */
  lemma FlipRoundTrip(v: nat, bitSize: nat)
    requires v < Pow2(bitSize)
    ensures FlippedToBytes(v, bitSize).Some?
    ensures FlippedFromBytes(FlippedToBytes(v, bitSize).value, bitSize) == v
  {
    var u := Flip(v, bitSize);
    var w := Flip(u, bitSize);
    forall i | 0 <= i < bitSize
      ensures Bit(w, i) == Bit(v, i)
    {
      FlipBits(u, bitSize, i);
      FlipBits(v, bitSize, bitSize - 1 - i);
    }
    BitsDetermine(w, v, bitSize);
  }

  /** zfill never truncates, so a value too wide for the field is not
      always refused: 2 ("10") in a 1-bit field reverses to "01" and is
      stored as 1, which reads back as 1. */
  lemma FlipOversizedAccepted()
    ensures FlippedToBytes(2, 1) == Some(1) && FlippedFromBytes(1, 1) == 1
  {
    assert BinStr(2) == ['1', '0'];
    assert Reverse(['1', '0']) == ['0', '1'];
    assert ParseBin(['0', '1']) == 2 * ParseBin(['0']) + 1;
    assert ['0', '1'][..1] == ['0'];
    assert BinStr(1) == ['1'];
    assert Reverse(['1']) == ['1'];
    assert ParseBin(['1']) == 2 * ParseBin([]) + 1;
  }

  // ---------------------------------------------------------------------
  // Linked variables TrigInhibitOff and BunchClockCount
  // ---------------------------------------------------------------------

  /** Python's round() on a float: nearest integer, ties to even. */
  function PyRound(x: real): (n: int)
    ensures -0.5 <= x - n as real <= 0.5
    ensures x - x.Floor as real == 0.5 ==> n % 2 == 0
  {
    var f := x.Floor;
    var frac := x - f as real;
    if frac < 0.5 then f
    else if frac > 0.5 then f + 1
    else if f % 2 == 0 then f
    else f + 1
  }

  lemma PyRoundOfInteger(n: int)
    ensures PyRound(n as real) == n
  {
  }

  /** Register widths of the fields behind the two links (lines 162-167
      and 176-181). */
  const TimerDBits: nat := 32
  const BunchClockCountRawBits: nat := 16

  /** Storing an integer in an unsigned register field of bitSize bits:
      pr.UInt refuses a value that does not fit, and the field keeps its
      old value (None). */
  function StoreUInt(value: int, bitSize: nat): (r: Option<nat>)
    ensures r.Some? <==> 0 <= value < Pow2(bitSize)
    ensures r.Some? ==> r.value == value
  {
    if 0 <= value < Pow2(bitSize) then Some(value) else None
  }

  lemma Pow2Of8()
    ensures Pow2(8) == 0x100
  {
    assert Pow2(2) == 4;
    Pow2Add(2, 2);
    Pow2Add(4, 4);
  }

  lemma Pow2Of16()
    ensures Pow2(16) == 0x1_0000
  {
    Pow2Of8();
    Pow2Add(8, 8);
  }

  /** Reading TrigInhibitOff: round(((TimerD - TimeBunchClkDelay) - 1) / 8). */
  function TrigInhibitOffGet(timerD: int, bunchClkDelay: int): (n: int)
    ensures -4 <= (timerD - bunchClkDelay - 1) - 8 * n <= 4
  {
    PyRound(((timerD - bunchClkDelay) - 1) as real / 8.0)
  }

  /** Writing TrigInhibitOff: TimerD := round(value)*8 + TimeBunchClkDelay + 1,
      refused when that does not fit the 32-bit TimerD field. */
  function TrigInhibitOffSet(value: real, bunchClkDelay: int): (t: Option<nat>)
    ensures t.Some? ==> t.value < 0x1_0000_0000 && t.value % 8 == (bunchClkDelay + 1) % 8
  {
    Pow2Of32();
    StoreUInt(PyRound(value) * 8 + bunchClkDelay + 1, TimerDBits)
  }

  /** Setting TrigInhibitOff to v succeeds exactly when 8 round(v) + delay + 1
      fits in 32 bits, and then reading it back gives round(v); for an
      integer v that is v itself, and TimerD then holds 8v + delay + 1. */
  lemma TrigInhibitOffRoundTrip(value: real, bunchClkDelay: int)
    ensures TrigInhibitOffSet(value, bunchClkDelay).Some? <==>
              0 <= PyRound(value) * 8 + bunchClkDelay + 1 < 0x1_0000_0000
    ensures TrigInhibitOffSet(value, bunchClkDelay).Some? ==>
              TrigInhibitOffGet(TrigInhibitOffSet(value, bunchClkDelay).value, bunchClkDelay) == PyRound(value)
    ensures TrigInhibitOffSet(value, bunchClkDelay).Some? && value == value.Floor as real ==>
              && TrigInhibitOffSet(value, bunchClkDelay).value == 8 * value.Floor + bunchClkDelay + 1
              && TrigInhibitOffGet(TrigInhibitOffSet(value, bunchClkDelay).value, bunchClkDelay) == value.Floor
  {
    Pow2Of32();
    var n := PyRound(value);
    assert ((n * 8 + bunchClkDelay + 1 - bunchClkDelay) - 1) as real / 8.0 == n as real;
    PyRoundOfInteger(n);
    if value == value.Floor as real {
      PyRoundOfInteger(value.Floor);
    }
  }

  /** Reading BunchClockCount: BunchClockCountRaw + 1. */
  function BunchClockCountGet(raw: nat): (n: int)
    ensures raw < 0x1_0000 ==> 1 <= n <= 0x1_0000
  {
    raw + 1
  }

  /** Writing BunchClockCount: BunchClockCountRaw := value - 1, refused when
      that does not fit the 16-bit field. */
  function BunchClockCountSet(value: int): (r: Option<nat>)
    ensures r.Some? ==> r.value < 0x1_0000
  {
    Pow2Of16();
    StoreUInt(value - 1, BunchClockCountRawBits)
  }

  /** The counts the 16-bit field can hold are 1..65536: setting any of them
      and reading back gives it, setting anything else is refused, and
      every stored raw value survives get-then-set. */
  lemma BunchClockCountRoundTrip(value: int, raw: nat)
    ensures BunchClockCountSet(value).Some? <==> 1 <= value <= 0x1_0000
    ensures BunchClockCountSet(value).Some? ==> BunchClockCountGet(BunchClockCountSet(value).value) == value
    ensures raw < 0x1_0000 ==> BunchClockCountSet(BunchClockCountGet(raw)) == Some(raw)
  {
    Pow2Of16();
  }

  // ---------------------------------------------------------------------
  // DAC link variables built by makeDacVar
  // ---------------------------------------------------------------------

  type Byte = x: nat | x < 256

  /** The four 8-bit raw fields {name}Raw0..Raw3 of one DAC register. */
  datatype DacRegister = DacRegister(raw0: Byte, raw1: Byte, raw2: Byte, raw3: Byte)

  /** Width of each raw field (line 242). */
  const DacRawBits: nat := 8

  /** ls(value): every raw field receives the same value. The first
      field's pr.UInt refuses a value outside 0..255, so then no field
      changes (None). */
  function DacSet(value: int): (r: Option<DacRegister>)
    ensures r.Some? <==> 0 <= value < 0x100
    ensures r.Some? ==> r.value.raw0 == r.value.raw1 == r.value.raw2 == r.value.raw3 == value
  {
    Pow2Of8();
    match StoreUInt(value, DacRawBits)
    case None => None
    case Some(b) => Some(DacRegister(b, b, b, b))
  }

  /** The link reads back Raw0 only, so writing back what was read
      restores the register exactly when its four fields agree. */
  function DacGet(r: DacRegister): (v: Byte)
    ensures DacSet(v) == Some(r) <==> r.raw0 == r.raw1 == r.raw2 == r.raw3
  {
    r.raw0
  }

  /** A DAC write succeeds exactly for 0..255 and then reads back; a
      register with four equal fields is rebuilt by set(get). */
  lemma DacRoundTrip(value: int, r: DacRegister)
    ensures DacSet(value).Some? <==> 0 <= value < 0x100
    ensures DacSet(value).Some? ==> DacGet(DacSet(value).value) == value
    ensures r.raw0 == r.raw1 == r.raw2 == r.raw3 ==> DacSet(DacGet(r)) == Some(r)
  {
  }

  /** dacToVolt: two linear segments meeting at the breakpoint 0xf6. */
  function DacToVolt(dac: Byte): (volt: real)
    ensures 0.0 <= volt <= 2.5
  {
    if dac >= 0xf6 then 2.5 - ((0xff - dac) as real * 50.0 * 0.0001)
    else dac as real * 100.0 * 0.0001
  }

  /** The voltage runs from 0 at code 0 to exactly 2.5 at 0xff and rises
      strictly with the code, across the breakpoint too. */
  lemma DacToVoltShape(a: Byte, b: Byte)
    ensures DacToVolt(0) == 0.0 && DacToVolt(0xff) == 2.5
    ensures 0.0 <= DacToVolt(a) <= 2.5
    ensures a < b ==> DacToVolt(a) < DacToVolt(b)
  {
  }


  // ---------------------------------------------------------------------
  // Channel-mode codec: two 32-bit registers <-> 32 mode letters
  // ---------------------------------------------------------------------

  /** The table d: the (B, A) register bits of a row -> its mode letter. */
  function ModeLetter(b: nat, a: nat): char
    requires b < 2 && a < 2
  {
    if b == 0 && a == 0 then 'B'
    else if b == 0 then 'D'
    else if a == 0 then 'A'
    else 'C'
  }

  predicate IsModeLetter(c: char) {
    c == 'A' || c == 'B' || c == 'C' || c == 'D'
  }

  /** The two registers behind one column of 32 channels. */
  datatype Reg = RegA | RegB

  /** The table drev: a mode letter's bit in register A or B. */
  function LetterBit(c: char, reg: Reg): (bit: nat)
    requires IsModeLetter(c)
    ensures bit < 2
  {
    match reg
    case RegA => if c == 'C' || c == 'D' then 1 else 0
    case RegB => if c == 'A' || c == 'C' then 1 else 0
  }

  /** d and drev are inverse tables. */
  lemma LetterBitsInverse(c: char, b: nat, a: nat)
    requires b < 2 && a < 2
    ensures IsModeLetter(ModeLetter(b, a))
    ensures LetterBit(ModeLetter(b, a), RegB) == b && LetterBit(ModeLetter(b, a), RegA) == a
    ensures IsModeLetter(c) ==> ModeLetter(LetterBit(c, RegB), LetterBit(c, RegA)) == c
  {
  }

  /** The letter getChanMode shows for `row`. */
  function RowLetter(a: nat, b: nat, row: nat): char {
    ModeLetter(Bit(b, row), Bit(a, row))
  }

  /** The 32 letters of a column, row 0 first. */
  function RowLetters(a: nat, b: nat): (l: seq<char>)
    ensures |l| == 32
  {
    seq(32, row requires 0 <= row < 32 => RowLetter(a, b, row))
  }

  /** ' '.join of the four groups of eight letters. */
  function JoinGroups(l: seq<char>): (s: seq<char>)
    requires |l| == 32
    ensures |s| == 35
  {
    l[0..8] + [' '] + l[8..16] + [' '] + l[16..24] + [' '] + l[24..32]
  }

  /** The string getChanMode returns for the register pair (A, B): four
      groups of eight letters separated by single spaces. */
  function ChanModeString(a: nat, b: nat): (s: string)
    ensures |s| == 35 && s[8] == ' ' && s[17] == ' ' && s[26] == ' '
  {
    JoinGroups(RowLetters(a, b))
  }

  /** Where the letter of `row` sits in the spaced string. */
  function LetterPosition(row: nat): nat {
    row + row / 8
  }

  /** getChanMode (lines 471-480): appends one letter per row in a loop,
      then joins the groups. */
  method GetChanMode(a: nat, b: nat) returns (s: string)
    ensures s == ChanModeString(a, b)
  {
    var l: seq<char> := [];
    for row := 0 to 32
      invariant |l| == row
      invariant forall r :: 0 <= r < row ==> l[r] == RowLetter(a, b, r)
    {
      var val := (Bit(b, row), Bit(a, row));
      l := l + [ModeLetter(val.0, val.1)];
    }
    s := JoinGroups(l);
  }

  /** The shape of every getChanMode result: 35 characters, spaces at 8,
      17 and 26, and the letter of each row at row + row / 8. */
  lemma ChanModeStringLayout(a: nat, b: nat, row: nat)
    requires row < 32
    ensures |ChanModeString(a, b)| == 35
    ensures ChanModeString(a, b)[8] == ' ' && ChanModeString(a, b)[17] == ' ' && ChanModeString(a, b)[26] == ' '
    ensures LetterPosition(row) < 35
    ensures ChanModeString(a, b)[LetterPosition(row)] == RowLetter(a, b, row)
    ensures IsModeLetter(ChanModeString(a, b)[LetterPosition(row)])
  {
    var s := ChanModeString(a, b);
    var l := RowLetters(a, b);
    if row < 8 {
      assert s[row] == l[row];
    } else if row < 16 {
      assert s[row + 1] == l[row];
    } else if row < 24 {
      assert s[row + 2] == l[row];
    } else {
      assert s[row + 3] == l[row];
    }
  }

  /** Python's str.isspace(): the characters str.split() splits on. */
  predicate IsWhitespace(c: char) {
    c == ' ' || ('\t' <= c <= '\r') || ('\U{1c}' <= c <= '\U{1f}') || c == '\U{85}' || c == '\U{a0}'
    || c == '\U{1680}' || ('\U{2000}' <= c <= '\U{200a}') || c == '\U{2028}' || c == '\U{2029}'
    || c == '\U{202f}' || c == '\U{205f}' || c == '\U{3000}'
  }

  /** ''.join(value.split()): every whitespace character removed. */
  function StripWhitespace(s: string): (r: string)
    ensures |r| <= |s|
  {
    if s == [] then []
    else if IsWhitespace(s[|s| - 1]) then StripWhitespace(s[..|s| - 1])
    else StripWhitespace(s[..|s| - 1]) + [s[|s| - 1]]
  }

  /** The first n characters of `v` exist and are mode letters. */
  predicate LettersValid(v: string, n: nat) {
    n <= |v| && forall r :: 0 <= r < n ==> IsModeLetter(v[r])
  }

  /** `bit << row`. */
  function RowBit(bit: nat, row: nat): nat {
    bit * Pow2(row)
  }

  /** A register after `reg |= bit << row` for the first n letters. */
  function Assemble(v: string, reg: Reg, n: nat): nat
    requires LettersValid(v, n)
  {
    if n == 0 then 0 else Or(Assemble(v, reg, n - 1), RowBit(LetterBit(v[n - 1], reg), n - 1))
  }

  datatype ChanRegs = ChanRegs(regA: nat, regB: nat)

  /** What the loop of setChanMode produces from the stripped letters, or
      None where it raises: fewer than 32 letters (IndexError) or a
      character other than A, B, C, D among the first 32 (KeyError). */
  function LettersToRegs(v: string): Option<ChanRegs> {
    if LettersValid(v, 32) then Some(ChanRegs(Assemble(v, RegA, 32), Assemble(v, RegB, 32))) else None
  }

  /** What setChanMode writes into the column's two registers. */
  function ChanModeRegs(value: string): Option<ChanRegs> {
    LettersToRegs(StripWhitespace(value))
  }

  /** The loop of setChanMode (lines 485-489): ORs one bit per row into
      each register, raising on a missing or unknown letter. */
  method AssembleRegs(v: string) returns (regs: Option<ChanRegs>)
    ensures regs == LettersToRegs(v)
  {
    var regA := 0;
    var regB := 0;
    for row := 0 to 32
      invariant LettersValid(v, row)
      invariant regA == Assemble(v, RegA, row) && regB == Assemble(v, RegB, row)
    {
      if row >= |v| || !IsModeLetter(v[row]) {
        return None;
      }
      var b, a := LetterBit(v[row], RegB), LetterBit(v[row], RegA);
      regA := Or(regA, a * Pow2(row));
      regB := Or(regB, b * Pow2(row));
    }
    regs := Some(ChanRegs(regA, regB));
  }

  /** setChanMode (lines 482-494): strip the whitespace, then assemble. */
  method SetChanMode(value: string) returns (regs: Option<ChanRegs>)
    ensures regs == ChanModeRegs(value)
  {
    var v := StripWhitespace(value);
    regs := AssembleRegs(v);
  }

  // Round trips of the channel-mode codec

  /** Each OR lands above every bit set so far, so it adds: the register
      is the sum of its letters' bits at their rows, below 2^n. */
  lemma {:induction false} AssembleSum(v: string, reg: Reg, n: nat)
    requires LettersValid(v, n)
    ensures Assemble(v, reg, n) < Pow2(n)
    ensures n > 0 ==> Assemble(v, reg, n)
                      == Assemble(v, reg, n - 1) + LetterBit(v[n - 1], reg) * Pow2(n - 1)
  {
    if n > 0 {
      AssembleSum(v, reg, n - 1);
      OrAbove(Assemble(v, reg, n - 1), LetterBit(v[n - 1], reg), n - 1);
      BitsAbove(Assemble(v, reg, n - 1), LetterBit(v[n - 1], reg), n - 1, 0);
    }
  }

  /** Letters whose bits are the low bits of `x` assemble to those bits. */
  lemma {:induction false} AssembleFromBits(v: string, reg: Reg, x: nat, n: nat)
    requires LettersValid(v, n)
    requires forall r :: 0 <= r < n ==> LetterBit(v[r], reg) == Bit(x, r)
    ensures Assemble(v, reg, n) == LowBits(x, n)
  {
    if n > 0 {
      AssembleFromBits(v, reg, x, n - 1);
      AssembleSum(v, reg, n);
      LowBitsStep(x, n - 1);
    }
  }

  /** Bit r of an assembled register is the bit of letter r. */
  lemma {:induction false} AssembleBits(v: string, reg: Reg, n: nat, r: nat)
    requires LettersValid(v, n) && r < n
    ensures Bit(Assemble(v, reg, n), r) == LetterBit(v[r], reg)
  {
    AssembleSum(v, reg, n - 1);
    AssembleSum(v, reg, n);
    BitsAbove(Assemble(v, reg, n - 1), LetterBit(v[n - 1], reg), n - 1, r);
    if r < n - 1 {
      AssembleBits(v, reg, n - 1, r);
    }
  }

  /** 32 letters that spell the bits of two 32-bit values set exactly those
      values. */
  lemma LettersRegs(v: string, a: nat, b: nat)
    requires LettersValid(v, 32) && a < Pow2(32) && b < Pow2(32)
    requires forall r :: 0 <= r < 32 ==> v[r] == ModeLetter(Bit(b, r), Bit(a, r))
    ensures LettersToRegs(v) == Some(ChanRegs(a, b))
  {
    forall r | 0 <= r < 32
      ensures LetterBit(v[r], RegA) == Bit(a, r) && LetterBit(v[r], RegB) == Bit(b, r)
    {
      LetterBitsInverse(v[r], Bit(b, r), Bit(a, r));
    }
    AssembleFromBits(v, RegA, a, 32);
    AssembleFromBits(v, RegB, b, 32);
    LowBitsOfSmall(a, 32);
    LowBitsOfSmall(b, 32);
  }

  lemma {:induction false} StripConcat(x: string, y: string)
    ensures StripWhitespace(x + y) == StripWhitespace(x) + StripWhitespace(y)
  {
    if y == [] {
      assert x + y == x;
    } else {
      var y' := y[..|y| - 1];
      StripConcat(x, y');
      assert (x + y)[..|x + y| - 1] == x + y';
      assert (x + y)[|x + y| - 1] == y[|y| - 1];
    }
  }

  lemma {:induction false} StripLetters(l: string)
    requires forall i :: 0 <= i < |l| ==> IsModeLetter(l[i])
    ensures StripWhitespace(l) == l
  {
    if l != [] {
      StripLetters(l[..|l| - 1]);
      assert l[..|l| - 1] + [l[|l| - 1]] == l;
    }
  }

  /** Every letter getChanMode shows is a mode letter. */
  lemma RowLettersValid(a: nat, b: nat)
    ensures LettersValid(RowLetters(a, b), 32)
  {
    forall i | 0 <= i < 32 ensures IsModeLetter(RowLetters(a, b)[i]) {
      LetterBitsInverse('A', Bit(b, i), Bit(a, i));
    }
  }

  /** Stripping the spaced string leaves the 32 letters. */
  lemma StripChanModeString(a: nat, b: nat)
    ensures StripWhitespace(ChanModeString(a, b)) == RowLetters(a, b)
  {
    var l := RowLetters(a, b);
    RowLettersValid(a, b);
    var g0, g1, g2, g3 := l[0..8], l[8..16], l[16..24], l[24..32];
    StripLetters(g0);
    StripLetters(g1);
    StripLetters(g2);
    StripLetters(g3);
    assert StripWhitespace([' ']) == [];
    StripConcat(g0, [' ']);
    StripConcat(g0 + [' '], g1);
    StripConcat(g0 + [' '] + g1, [' ']);
    StripConcat(g0 + [' '] + g1 + [' '], g2);
    StripConcat(g0 + [' '] + g1 + [' '] + g2, [' ']);
    StripConcat(g0 + [' '] + g1 + [' '] + g2 + [' '], g3);
    assert g0 + g1 + g2 + g3 == l;
  }

  /** Setting a column from the string getChanMode shows restores both
      32-bit registers exactly. */
  lemma ChanModeRoundTrip(a: nat, b: nat)
    requires a < Pow2(32) && b < Pow2(32)
    ensures ChanModeRegs(ChanModeString(a, b)) == Some(ChanRegs(a, b))
  {
    StripChanModeString(a, b);
    RowLettersValid(a, b);
    LettersRegs(RowLetters(a, b), a, b);
  }

  /** After setChanMode accepts a string, both registers fit in 32 bits
      and getChanMode shows its first 32 letters again, in the canonical
      spacing. */
  lemma ChanModeCanonical(value: string)
    requires ChanModeRegs(value).Some?
    ensures |StripWhitespace(value)| >= 32
    ensures ChanModeRegs(value).value.regA < Pow2(32) && ChanModeRegs(value).value.regB < Pow2(32)
    ensures ChanModeString(ChanModeRegs(value).value.regA, ChanModeRegs(value).value.regB)
            == JoinGroups(StripWhitespace(value)[..32])
  {
    var v := StripWhitespace(value);
    var regs := ChanModeRegs(value).value;
    AssembleSum(v, RegA, 32);
    AssembleSum(v, RegB, 32);
    forall r | 0 <= r < 32 ensures RowLetters(regs.regA, regs.regB)[r] == v[r] {
      AssembleBits(v, RegA, 32, r);
      AssembleBits(v, RegB, 32, r);
      LetterBitsInverse(v[r], LetterBit(v[r], RegB), LetterBit(v[r], RegA));
    }
    assert RowLetters(regs.regA, regs.regB) == v[..32];
  }

  // ---------------------------------------------------------------------
  // setCalibration: one channel of the chip in calibration mode
  // ---------------------------------------------------------------------

  /** A 32-bit register with every bit set. */
  const AllOnes: nat := 0xFFFF_FFFF

  lemma Pow2Of32()
    ensures Pow2(32) == AllOnes + 1
  {
    assert Pow2(2) == 4;
    Pow2Add(2, 2);
    Pow2Add(4, 4);
    Pow2Add(8, 8);
    Pow2Add(16, 16);
  }

  /** The mode string setCalibration writes to the old column: 'D' on
      every row. */
  function AllD(): (s: string)
    ensures |s| == 32
  {
    seq(32, _ => 'D')
  }

  /** The mode string it writes to the new column: 'C' at the calibration
      row, 'D' elsewhere. */
  function CalRowString(row: nat): (s: string)
    requires row < 32
    ensures |s| == 32
  {
    AllD()[row := 'C']
  }

  /** An all-'D' column sets every A bit and clears every B bit. */
  lemma AllDRegs()
    ensures ChanModeRegs(AllD()) == Some(ChanRegs(AllOnes, 0))
  {
    var v := AllD();
    StripLetters(v);
    Pow2Of32();
    forall r | 0 <= r < 32 ensures v[r] == ModeLetter(Bit(0, r), Bit(AllOnes, r)) {
      AllOnesBit(32, r);
      BitOfSmall(0, 0, r);
    }
    LettersRegs(v, AllOnes, 0);
  }

  /** The calibration column sets every A bit and only the row's B bit. */
  lemma CalRowRegs(row: nat)
    requires row < 32
    ensures ChanModeRegs(CalRowString(row)) == Some(ChanRegs(AllOnes, Pow2(row)))
  {
    var v := CalRowString(row);
    StripLetters(v);
    Pow2Of32();
    Pow2Monotone(row + 1, 32);
    forall r | 0 <= r < 32 ensures v[r] == ModeLetter(Bit(Pow2(row), r), Bit(AllOnes, r)) {
      AllOnesBit(32, r);
      Pow2Bit(row, r);
    }
    LettersRegs(v, AllOnes, Pow2(row));
  }

  /** Read back through getChanMode, the calibration column shows 'C' at
      the calibration row and 'D' at every other row. */
  lemma CalColumnShows(row: nat, r: nat)
    requires row < 32 && r < 32
    ensures ChanModeString(AllOnes, Pow2(row))[LetterPosition(r)] == if r == row then 'C' else 'D'
  {
    ChanModeStringLayout(AllOnes, Pow2(row), r);
    Pow2Of32();
    AllOnesBit(32, r);
    Pow2Bit(row, r);
  }

  /** The part of a KpixAsic device that setCalibration touches: the
      calibration DAC, the 32 pairs of channel-mode registers (one pair per
      column of 32 channels) and the remembered calibration channel. */
  class KpixAsic {
    var calChannel: int
    var dacCalibration: DacRegister
    const chanModeA: array<nat>
    const chanModeB: array<nat>

    predicate Valid()
      reads this
    {
      chanModeA.Length == 32 && chanModeB.Length == 32 && chanModeA != chanModeB
      && 0 <= calChannel < 1024
    }

    /** calChannel starts at channel 0 (line 22); the registers start at
        the variables' default value 0. */
    constructor ()
      ensures Valid() && fresh(chanModeA) && fresh(chanModeB)
      ensures calChannel == 0 && dacCalibration == DacRegister(0, 0, 0, 0)
      ensures chanModeA[..] == seq(32, _ => 0) && chanModeB[..] == seq(32, _ => 0)
    {
      calChannel := 0;
      dacCalibration := DacRegister(0, 0, 0, 0);
      chanModeA := new nat[32](_ => 0);
      chanModeB := new nat[32](_ => 0);
    }

    /** `Chan_{col*32}_{col*32+31}.setDisp(value)`: fails, writing nothing,
        when no such column variable exists or when setChanMode raises;
        otherwise writes both registers of the column. */
    method SetColumn(col: int, value: string) returns (ok: bool)
      requires Valid()
      modifies chanModeA, chanModeB
      ensures ok <==> 0 <= col < 32 && ChanModeRegs(value).Some?
      ensures ok ==> chanModeA[..] == old(chanModeA[..])[col := ChanModeRegs(value).value.regA]
      ensures ok ==> chanModeB[..] == old(chanModeB[..])[col := ChanModeRegs(value).value.regB]
      ensures !ok ==> chanModeA[..] == old(chanModeA[..]) && chanModeB[..] == old(chanModeB[..])
    {
      if !(0 <= col < 32) {
        return false;
      }
      var regs := SetChanMode(value);
      if regs.None? {
        return false;
      }
      chanModeA[col] := regs.value.regA;
      chanModeB[col] := regs.value.regB;
      ok := true;
    }

    /** setCalibration (lines 574-591): loads the DAC, turns the old
        calibration column back to all 'D', then writes the new column with
        'C' at the channel's row. Python's // and % by 32 floor, as Dafny's
        do for a positive divisor. A DAC value outside 0..255 is refused by
        the first step, which raises, so nothing changes. A channel outside
        0..1023 names a column that does not exist, so the call fails after
        the first two steps and calChannel keeps its value. */
    method SetCalibration(channel: int, dac: int) returns (ok: bool)
      requires Valid()
      modifies this, chanModeA, chanModeB
      ensures Valid()
      ensures ok <==> 0 <= dac < 0x100 && 0 <= channel < 1024
      ensures DacSet(dac).None? ==>
                && dacCalibration == old(dacCalibration) && calChannel == old(calChannel)
                && chanModeA[..] == old(chanModeA[..]) && chanModeB[..] == old(chanModeB[..])
      ensures DacSet(dac).Some? ==> dacCalibration == DacSet(dac).value
      ensures calChannel == if ok then channel else old(calChannel)
      ensures DacSet(dac).Some? ==>
                var clearedA := old(chanModeA[..])[old(calChannel) / 32 := AllOnes];
                chanModeA[..] == if ok then clearedA[channel / 32 := AllOnes] else clearedA
      ensures DacSet(dac).Some? ==>
                var clearedB := old(chanModeB[..])[old(calChannel) / 32 := 0];
                chanModeB[..] == if ok then clearedB[channel / 32 := Pow2(channel % 32)] else clearedB
    {
      var d := DacSet(dac);
      if d.None? {
        return false;
      }
      var row := channel % 32;
      var col := channel / 32;
      dacCalibration := d.value;
      var oldCol := calChannel / 32;
      var modeString := AllD();
      AllDRegs();
      var cleared := SetColumn(oldCol, modeString);
      modeString := modeString[row := 'C'];
      CalRowRegs(row);
      ok := SetColumn(col, modeString);
      if ok {
        calChannel := channel;
      }
    }
  }
}
