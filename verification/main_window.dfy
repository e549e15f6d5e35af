/** The main window of the old 3.00 online display
    (onlineGui/MainWindow.cpp): the per-asic temperature words it keeps
    from each event, the event counter, the calibration state it follows,
    and the Gray-code decode of the temperature word of the selected asic. */
module OnlineGui {
  import opened Bits
  import opened KpixCalib

  /** tempValues_[32] (MainWindow.h line 48). */
  const TempSlots := 32

  /** The largest asic the selector offers, as written (line 69). */
  const KpixSpinMaxAsWritten := 32

  /** The largest asic the selector can offer without reading past
      tempValues_. */
  const KpixSpinMax := 31

  /** The largest channel the channel selector offers (line 76). */
  const ChanSpinMax := 1023

  /** What the window reads of one sample. */
  datatype RawSample = RawSample(kpix: Uint, kind: Uint, value: Uint)

  /** The status and configuration strings an event is read with
      (lines 111-117). */
  datatype Status = Status(calState: string, calChannel: Uint, calDac: Uint,
                           calibHigh: string, polarity: string)

  /** A temperature sample (type 1) of asic k. */
  predicate IsTempOf(s: RawSample, k: nat) {
    s.kind == 1 && s.kpix == k
  }

  /** Asic k's temperature word after the samples, from `prior`: either
      `prior` or the value of one of asic k's temperature samples. */
  function LastTemp(samples: seq<RawSample>, k: nat, prior: Uint): (t: Uint)
    ensures t == prior || exists i :: 0 <= i < |samples| && IsTempOf(samples[i], k) && t == samples[i].value
  {
    if samples == [] then prior
    else if IsTempOf(samples[|samples| - 1], k) then samples[|samples| - 1].value
    else LastTemp(samples[..|samples| - 1], k, prior)
  }

  /** The last temperature sample of asic k wins. */
  lemma {:induction false} LastTempLastWins(samples: seq<RawSample>, k: nat, prior: Uint, i: nat)
    requires i < |samples| && IsTempOf(samples[i], k)
    requires forall j :: i < j < |samples| ==> !IsTempOf(samples[j], k)
    ensures LastTemp(samples, k, prior) == samples[i].value
  {
    var n := |samples|;
    if i < n - 1 {
      assert !IsTempOf(samples[n - 1], k);
      var p := samples[..n - 1];
      assert p[i] == samples[i];
      forall j | i < j < n - 1
        ensures !IsTempOf(p[j], k)
      {
        assert p[j] == samples[j];
      }
      LastTempLastWins(p, k, prior, i);
    }
  }

  /** Without a temperature sample of asic k its word is kept. */
  lemma {:induction false} LastTempKeeps(samples: seq<RawSample>, k: nat, prior: Uint)
    requires forall i :: 0 <= i < |samples| ==> !IsTempOf(samples[i], k)
    ensures LastTemp(samples, k, prior) == prior
  {
    if samples != [] {
      var p := samples[..|samples| - 1];
      forall i | 0 <= i < |p|
        ensures !IsTempOf(p[i], k)
      {
        assert p[i] == samples[i];
      }
      LastTempKeeps(p, k, prior);
    }
  }

  /** The value a spin box with range 0 .. max shows after setValue(v): v
      itself within the range, else the nearer end. */
  function SpinValue(v: int, max: nat): (r: nat)
    ensures r <= max && (0 <= v <= max ==> r == v)
    ensures v < 0 ==> r == 0
    ensures v > max ==> r == max
  {
    if v < 0 then 0 else if v > max then max else v
  }

  /** An unsigned int passed where an int is expected (QSpinBox::setValue):
      the same 32 bits read as two's complement, so values from 2^31 up
      turn negative. */
  function IntOfUint(u: Uint): (i: int)
    ensures -0x8000_0000 <= i < 0x8000_0000 && ToUint(i) == u
    ensures u < 0x8000_0000 ==> i == u
    ensures u >= 0x8000_0000 ==> i < 0
  {
    if u < 0x8000_0000 then u else u - 0x1_0000_0000
  }

  /** The channel the selector shows after following calibration channel
      c: c itself when the selector offers it, 1023 for a larger channel
      below 2^31, and 0 from 2^31 up, where the conversion to int makes it
      negative. */
  lemma FollowedChannel(c: Uint)
    ensures c <= ChanSpinMax ==> SpinValue(IntOfUint(c), ChanSpinMax) == c
    ensures ChanSpinMax < c < 0x8000_0000 ==> SpinValue(IntOfUint(c), ChanSpinMax) == ChanSpinMax
    ensures c >= 0x8000_0000 ==> SpinValue(IntOfUint(c), ChanSpinMax) == 0
  {
  }

  /** The Gray code of x, x ^ (x >> 1); it keeps an 8-bit word within 8
      bits. */
  function Gray(x: nat): (g: nat)
    ensures x < 256 ==> g < 256
  {
    assert x < 256 ==> Xor(x, x / 2) < 256 by {
      if x < 256 {
        assert Pow2(8) == 256;
        XorBound(x, x / 2, 8);
      }
    }
    Xor(x, x / 2)
  }

  /** The temperature word as the decomposition loop sees it: a word above
      255 sets every one of its eight bits. */
  function Capped(v: nat): (c: nat)
    ensures c < 256 && (v < 256 ==> c == v)
  {
    if v > 255 then 255 else v
  }

  /** The asics the selector offers, as written. */
  predicate SelectableAsWritten(kpix: nat) {
    kpix <= KpixSpinMaxAsWritten
  }

  /** The asics it offers with the largest index 31. */
  predicate Selectable(kpix: nat) {
    kpix <= KpixSpinMax
  }

  /** As written, asic 32 can be selected, and tempValues_[32] is one past
      the array; with the maximum at 31 every selectable asic has a word. */
  lemma SelectorRange(kpix: nat)
    ensures SelectableAsWritten(32) && !(32 < TempSlots)
    ensures Selectable(kpix) ==> kpix < TempSlots
  {
  }

  /** One step of the decomposition: with the bits of c above i taken
      away (and `extra` left over from a word above 255, whose bits are
      then all set), what is left reaches 2^i exactly when bit i of c is
      set. */
  lemma DecomposeStep(c: nat, extra: nat, i: nat, rest: nat)
    requires rest == extra + LowBits(c, i + 1)
    requires extra > 0 ==> Bit(c, i) == 1
    ensures rest >= Pow2(i) <==> Bit(c, i) == 1
    ensures rest >= Pow2(i) ==> rest - Pow2(i) == extra + LowBits(c, i)
    ensures rest < Pow2(i) ==> rest == extra + LowBits(c, i)
  {
    LowBitsStep(c, i);
    var lo, p := LowBits(c, i), Pow2(i);
    assert lo < p;
    if Bit(c, i) == 1 {
      assert rest == extra + lo + p;
    } else {
      assert rest == lo;
    }
  }

  /** 255 has its eight low bits set. */
  lemma AllOnesByte(i: nat)
    requires i < 8
    ensures Bit(255, i) == 1
  {
    assert Pow2(8) == 256;
    AllOnesBit(8, i);
  }

  /** A byte is its own eight low bits. */
  lemma ByteLowBits(c: nat)
    requires c < 256
    ensures LowBits(c, 8) == c
  {
    assert Pow2(8) == 256;
    LowBitsOfSmall(c, 8);
  }

  /** Entries i .. 7 of g hold bits i .. 7 of c. */
  ghost predicate HighBitsOf(g: seq<nat>, c: nat, i: nat) {
    |g| == 8 && forall j :: i <= j < 8 ==> g[j] == Bit(c, j)
  }

  lemma HighBitsStep(g: seq<nat>, c: nat, i: nat, b: nat)
    requires HighBitsOf(g, c, i + 1) && i < 8 && b == Bit(c, i)
    ensures HighBitsOf(g[i := b], c, i)
  {
  }

  /** The decomposition loop of lines 167-173: bit i of the (capped) word
      into g[i], from bit 7 down, subtracting each power of two taken. */
  method Decompose(v: Uint) returns (g: array<nat>, rest: nat)
    ensures fresh(g) && g.Length == 8
    ensures forall i :: 0 <= i < 8 ==> g[i] == Bit(Capped(v), i)
    ensures rest == v - Capped(v)
    ensures v < 256 ==> rest == 0
  {
    g := new nat[8](_ => 0);
    rest := v;
    ghost var c := Capped(v);
    ghost var extra := v - c;
    ByteLowBits(c);
    for i := 8 downto 0
      invariant rest == extra + LowBits(c, i)
      invariant HighBitsOf(g[..], c, i)
    {
      if v > 255 {
        AllOnesByte(i);
      }
      DecomposeStep(c, extra, i, rest);
      HighBitsStep(g[..], c, i, Bit(c, i));
      if rest >= Pow2(i) {
        g[i] := 1;
        rest := rest - Pow2(i);
      } else {
        g[i] := 0;
      }
    }
  }

  /** The Gray decode of lines 176-177: d[7] = g[7], d[i] = d[i+1] ^ g[i]. */
  method GrayDecode(g: array<nat>) returns (d: array<nat>)
    requires g.Length == 8 && forall i :: 0 <= i < 8 ==> g[i] < 2
    ensures fresh(d) && d.Length == 8
    ensures d[7] == g[7]
    ensures forall i :: 0 <= i < 7 ==> d[i] == Xor(d[i + 1], g[i])
    ensures forall i :: 0 <= i < 8 ==> d[i] < 2
  {
    d := new nat[8](_ => 0);
    d[7] := g[7];
    for i := 7 downto 0
      invariant d[7] == g[7]
      invariant forall j :: i <= j < 7 ==> d[j] == Xor(d[j + 1], g[j])
      invariant forall j :: i <= j < 8 ==> d[j] < 2
    {
      XorOfBits(d[i + 1], g[i]);
      d[i] := Xor(d[i + 1], g[i]);
    }
  }

  /** The recomposition of lines 180-181: de = the sum of 2^i over the set
      d[i]. */
  method Recompose(d: array<nat>) returns (de: nat)
    requires d.Length == 8 && forall i :: 0 <= i < 8 ==> d[i] < 2
    ensures de < 256
    ensures forall i :: 0 <= i < 8 ==> Bit(de, i) == d[i]
  {
    de := 0;
    for i := 0 to 8
      invariant de < Pow2(i)
      invariant forall j :: 0 <= j < i ==> Bit(de, j) == d[j]
    {
      RecomposeStep(de, d[i], i);
      if d[i] != 0 {
        de := de + Pow2(i);
      }
    }
    assert Pow2(8) == 256;
  }

  /** Adding bit b at weight 2^i to a value below 2^i keeps its lower
      bits and sets bit i to b. */
  lemma RecomposeStep(de: nat, b: nat, i: nat)
    requires de < Pow2(i) && b < 2
    ensures forall r :: 0 <= r < i ==> Bit(de + b * Pow2(i), r) == Bit(de, r)
    ensures Bit(de + b * Pow2(i), i) == b
    ensures de + b * Pow2(i) < Pow2(i + 1)
    ensures b == 0 ==> de + b * Pow2(i) == de
    ensures b != 0 ==> de + b * Pow2(i) == de + Pow2(i)
  {
    forall r | 0 <= r < i
      ensures Bit(de + b * Pow2(i), r) == Bit(de, r)
    {
      BitsAbove(de, b, i, r);
    }
    BitsAbove(de, b, i, i);
  }

  /** The three loops together invert the Gray code: bits g of c, d the
      running xor of g from the top, de the number with bits d. */
  lemma GrayInverse(c: nat, g: seq<nat>, d: seq<nat>, de: nat)
    requires c < 256 && |g| == 8 && |d| == 8 && de < 256
    requires forall i :: 0 <= i < 8 ==> g[i] == Bit(c, i) && d[i] < 2 && Bit(de, i) == d[i]
    requires d[7] == g[7] && forall i :: 0 <= i < 7 ==> d[i] == Xor(d[i + 1], g[i])
    ensures Gray(de) == c
  {
    assert Pow2(8) == 256;
    forall i | 0 <= i < 8
      ensures Bit(Gray(de), i) == Bit(c, i)
    {
      XorBit(de, de / 2, i);
      assert Bit(de / 2, i) == Bit(de, i + 1);
      if i == 7 {
        BitOfSmall(de, 8, 8);
      }
    }
    XorBound(de, de / 2, 8);
    BitsDetermine(Gray(de), c, 8);
  }

  class MainWindow {
    const tempValues: array<Uint>
    var dCount: Uint
    var calChannel: Uint
    var calDac: Uint
    var calInject: bool
    var kpixPol: bool
    var kpixCalHigh: bool
    /** The asic and channel selectors and the follow check box. */
    var kpixSel: nat
    var chanSel: nat
    var follow: bool

    ghost predicate Valid()
      reads this
    {
      tempValues.Length == TempSlots && Selectable(kpixSel) && chanSel <= ChanSpinMax
    }

    /** The constructor (lines 30-99): no events, no temperatures, the
        calibration state at rest, positive polarity, both selectors at 0
        and follow unchecked. */
    constructor ()
      ensures Valid() && dCount == 0 && forall k :: 0 <= k < TempSlots ==> tempValues[k] == 0
      ensures calChannel == 0 && calDac == 0 && !calInject && kpixPol && !kpixCalHigh
      ensures kpixSel == 0 && chanSel == 0 && !follow
    {
      tempValues := new Uint[TempSlots](_ => 0);
      dCount := 0;
      calChannel, calDac := 0, 0;
      calInject, kpixPol, kpixCalHigh := false, true, false;
      kpixSel, chanSel, follow := 0, 0, false;
    }

    /** The user's selection: an asic and a channel within the selectors'
        ranges, and the follow check box. */
    method Select(kpix: nat, chan: nat, followChecked: bool)
      requires Valid() && Selectable(kpix) && chan <= ChanSpinMax
      modifies this`kpixSel, this`chanSel, this`follow
      ensures Valid() && kpixSel == kpix && chanSel == chan && follow == followChecked
    {
      kpixSel, chanSel, follow := kpix, chan, followChecked;
    }

    /** event() (lines 104-140): reads the calibration state and polarity,
        keeps the value of the last type-1 sample of each asic as its
        temperature word, counts the event (an unsigned counter), and moves
        the channel selector to the calibration channel when following an
        injection on another channel. A temperature sample's asic indexes
        tempValues_ unchecked, so it must be below 32. */
    method Event(st: Status, samples: seq<RawSample>)
      requires Valid()
      requires forall i :: 0 <= i < |samples| && samples[i].kind == 1 ==> samples[i].kpix < TempSlots
      modifies this`calInject, this`calChannel, this`calDac, this`kpixCalHigh, this`kpixPol
      modifies this`dCount, this`chanSel, tempValues
      ensures Valid()
      ensures calInject == (st.calState == "Inject") && calChannel == st.calChannel && calDac == st.calDac
      ensures kpixCalHigh == (st.calibHigh == "True") && kpixPol == (st.polarity != "Negative")
      ensures forall k :: 0 <= k < TempSlots ==> tempValues[k] == LastTemp(samples, k, old(tempValues[k]))
      ensures dCount == ToUint(old(dCount) + 1)
      ensures chanSel == if follow && calInject && old(chanSel) != calChannel
                         then SpinValue(IntOfUint(calChannel), ChanSpinMax) else old(chanSel)
    {
      calInject := st.calState == "Inject";
      calChannel := st.calChannel;
      calDac := st.calDac;
      kpixCalHigh := st.calibHigh == "True";
      if st.polarity == "Negative" {
        kpixPol := false;
      } else {
        kpixPol := true;
      }
      for x := 0 to |samples|
        modifies tempValues
        invariant forall k :: 0 <= k < TempSlots ==> tempValues[k] == LastTemp(samples[..x], k, old(tempValues[k]))
      {
        assert samples[..x + 1][..x] == samples[..x];
        if samples[x].kind == 1 {
          tempValues[samples[x].kpix] := samples[x].value;
        }
      }
      assert samples[..|samples|] == samples;
      dCount := ToUint(dCount + 1);
      if follow && calInject && chanSel != calChannel {
        chanSel := SpinValue(IntOfUint(calChannel), ChanSpinMax);
      }
    }

    /** The temperature part of selChanged (lines 164-181): the selected
        asic's word, decomposed into eight bits (a word above 255 counts as
        255), Gray-decoded and recomposed. The result is below 256 and its
        Gray code is the word: it is the Gray inverse. */
    method SelChanged() returns (tempAdc: Uint, de: nat)
      requires Valid()
      ensures tempAdc == tempValues[kpixSel]
      ensures de < 256 && Gray(de) == Capped(tempAdc)
      ensures tempAdc < 256 ==> Gray(de) == tempAdc
    {
      tempAdc := tempValues[kpixSel];
      var g, rest := Decompose(tempAdc);
      var d := GrayDecode(g);
      de := Recompose(d);
      GrayInverse(Capped(tempAdc), g[..], d[..], de);
    }

    /** The selector as written offers asic 32, at which a window has no
        temperature word: selChanged would read tempValues_[32], one past
        the array. */
    lemma SelectorAsWrittenReadsPast()
      requires Valid()
      ensures SelectableAsWritten(32) && !(32 < tempValues.Length)
      ensures forall k: nat :: Selectable(k) ==> k < tempValues.Length
    {
    }

    /** resetPressed (lines 191-198): the event count restarts at 0 and the
        display is refreshed. */
    method ResetPressed() returns (tempAdc: Uint, de: nat)
      requires Valid()
      modifies this`dCount
      ensures Valid() && dCount == 0
      ensures tempAdc == tempValues[kpixSel] && de < 256 && Gray(de) == Capped(tempAdc)
    {
      dCount := 0;
      tempAdc, de := SelChanged();
    }
  }
}
