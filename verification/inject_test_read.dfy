/** The crosstalk reader of the 3.00 software (root/injectTestRead.cpp):
    path stripping, the bad-channel table, the channel-mode lookup, and
    the per-sample filter, charge and time classification that feed the
    per-asic trackers of the plots. */
module InjectTestRead {
  import opened Wrappers
  import opened KpixCalib
  import opened ChannelStats
  import CalibrationFitter
  import AsicRegisters
  import opened Bits

  // ---------------------------------------------------------------------
  // RemovePath
  // ---------------------------------------------------------------------

  /** std::string::rfind of one character: the last index holding `c`,
      or -1 (npos converted to int) when there is none. */
  function RFind(s: string, c: char): (i: int)
    ensures -1 <= i < |s|
    ensures i >= 0 ==> s[i] == c
    ensures forall j :: i < j < |s| ==> s[j] != c
  {
    if s == [] then -1
    else if s[|s| - 1] == c then |s| - 1
    else RFind(s[..|s| - 1], c)
  }

  /** RemovePath (lines 40-46): the text after the last '/'. The early
      return compares the rfind result with the length, which it never
      equals, so a name without '/' is returned whole by substr(0, size). */
  function RemovePath(filename: string): (r: string)
    ensures '/' !in r
    ensures |r| <= |filename| && r == filename[|filename| - |r|..]
    ensures |r| < |filename| ==> filename[|filename| - |r| - 1] == '/'
    ensures '/' !in filename ==> r == filename
  {
    var sz := |filename|;
    var pathSz := RFind(filename, '/');
    if pathSz == sz then filename
    else filename[pathSz + 1..]
  }

  /** The base name is the whole name when the path has no directory part,
      and removing the path twice changes nothing. */
  lemma RemovePathIdempotent(filename: string)
    ensures RemovePath(RemovePath(filename)) == RemovePath(filename)
  {
  }

  // ---------------------------------------------------------------------
  // goodChannel
  // ---------------------------------------------------------------------

  /** The channels bad on every asic. */
  const GlobalBad: set<nat> := {13, 14, 15, 41, 54, 55, 256, 257, 258, 259, 265, 266,
                                267, 268, 284, 285, 286, 287, 736, 737, 738, 739, 745, 746,
                                747, 748, 764, 765, 766, 767, 983, 984, 1005, 1006, 1007}

  /** The channels bad on one asic only: asics 0, 2 and 7 have lists. */
  function AsicBad(kpix: nat): set<nat> {
    if kpix == 0 then {3, 4, 8, 13, 14, 15, 21, 24, 26, 32, 38, 41, 45, 47, 49, 54,
                       55, 57, 58, 60, 61, 62, 63}
    else if kpix == 2 then {1005, 1006, 1007, 1009}
    else if kpix == 7 then {13, 14, 15, 19, 27, 41, 42, 49, 52, 54, 55, 57}
    else {}
  }

  /** goodChannel (lines 65-92), as the chain of comparisons it is written
      with; it agrees with the two lists above. */
  function GoodChannel(kpix: nat, channel: nat): (good: bool)
    ensures good <==> channel !in GlobalBad && channel !in AsicBad(kpix)
  {
    var global :=
      channel == 13  || channel == 14  || channel == 15   || channel == 41   || channel == 54  || channel == 55  ||
      channel == 256 || channel == 257 || channel == 258  || channel == 259  || channel == 265 || channel == 266 ||
      channel == 267 || channel == 268 || channel == 284  || channel == 285  || channel == 286 || channel == 287 ||
      channel == 736 || channel == 737 || channel == 738  || channel == 739  || channel == 745 || channel == 746 ||
      channel == 747 || channel == 748 || channel == 764  || channel == 765  || channel == 766 || channel == 767 ||
      channel == 983 || channel == 984 || channel == 1005 || channel == 1006 || channel == 1007;
    var kpix0 := kpix == 0 && (
      channel == 3  || channel == 4  || channel == 8  || channel == 13 || channel == 14 || channel == 15 || channel == 21 ||
      channel == 24 || channel == 26 || channel == 32 || channel == 38 || channel == 41 || channel == 45 || channel == 47 ||
      channel == 49 || channel == 54 || channel == 55 || channel == 57 || channel == 58 || channel == 60 || channel == 61 ||
      channel == 62 || channel == 63);
    var kpix2 := kpix == 2 && (channel == 1005 || channel == 1006 || channel == 1007 || channel == 1009);
    var kpix7 := kpix == 7 && (
      channel == 13 || channel == 14 || channel == 15 || channel == 19 || channel == 27 ||
      channel == 41 || channel == 42 || channel == 49 || channel == 52 || channel == 54 ||
      channel == 55 || channel == 57);
    !(global || kpix0 || kpix2 || kpix7)
  }

  /** A globally bad channel is bad on every asic; the asic lists only add
      to it; an asic without a list keeps every other channel. */
  lemma GoodChannelLists(kpix: nat, channel: nat)
    ensures channel in GlobalBad ==> !GoodChannel(kpix, channel)
    ensures kpix != 0 && kpix != 2 && kpix != 7 ==> (GoodChannel(kpix, channel) <==> channel !in GlobalBad)
    ensures GoodChannel(1, 100) && !GoodChannel(3, 13)
    ensures !GoodChannel(7, 19) && GoodChannel(3, 19) && !GoodChannel(2, 1009) && GoodChannel(2, 1008)
  {
  }

  // ---------------------------------------------------------------------
  // getChannelMode
  // ---------------------------------------------------------------------

  /** The channel range in the configuration key "Chan_<base>_<top>"
      (lines 51-52): the block of 32 channels holding `channel`. */
  function KeyRange(channel: nat): (r: (nat, nat))
    ensures r.0 <= channel <= r.1 && r.1 == r.0 + 31
    ensures r.0 % 32 == 0
  {
    var base := (channel / 32) * 32;
    (base, base + 31)
  }

  /** Every 32-aligned block of 32 holding the channel is the key's. */
  lemma KeyRangeUnique(channel: nat, base: nat)
    requires base % 32 == 0 && base <= channel <= base + 31
    ensures KeyRange(channel).0 == base
  {
    var q := base / 32;
    assert base == q * 32;
    assert channel / 32 == q;
  }

  /** conf.at(position): the character, or None where at() throws
      std::out_of_range. */
  function At(conf: string, position: nat): Option<char> {
    if position < |conf| then Some(conf[position]) else None
  }

  /** The position of lines 58-60 as written: channel * 8 + group + offset. */
  function PositionAsWritten(channel: nat): nat {
    var group := (channel % 32) / 8;
    var offset := (channel % 32) % 8;
    channel * 8 + group + offset
  }

  /** getChannelMode as written: on a configuration string of the mode
      string's 35 characters, every channel from 4 up falls past its end. */
  function GetChannelModeAsWritten(conf: string, channel: nat): (m: Option<char>)
    ensures |conf| <= 35 && channel >= 4 ==> m.None?
    ensures m.Some? ==> m.value in conf
  {
    At(conf, PositionAsWritten(channel))
  }

  /** The position meant: group * 9 + offset, past one separating space per
      earlier group of eight, which is where the mode string shows the
      letter of row channel % 32. */
  function Position(channel: nat): (p: nat)
    ensures p == AsicRegisters.LetterPosition(channel % 32) && p < 35
  {
    var group := (channel % 32) / 8;
    var offset := (channel % 32) % 8;
    group * 9 + offset
  }

  /** getChannelMode with the corrected position: on a string at least as
      long as the mode string it always finds the character standing where
      the letter of row channel % 32 is shown. */
  function GetChannelMode(conf: string, channel: nat): (m: Option<char>)
    ensures |conf| >= 35 ==> m == Some(conf[AsicRegisters.LetterPosition(channel % 32)])
    ensures m.Some? ==> m.value in conf
  {
    At(conf, Position(channel))
  }

  /** For a configuration string laid out as the channel-mode string of
      registers (A, B), the corrected lookup returns the letter of the
      channel's row. */
  lemma ChannelModeReadsRow(a: nat, b: nat, channel: nat)
    ensures GetChannelMode(AsicRegisters.ChanModeString(a, b), channel)
            == Some(AsicRegisters.RowLetter(a, b, channel % 32))
  {
    AsicRegisters.ChanModeStringLayout(a, b, channel % 32);
  }

  /** As written, channel 1 of A = 2, B = 0 (mode 'D') reads the 'B' of
      row 8, and every channel from 4 up indexes past the 35 characters. */
  lemma ChannelModeAsWrittenMisreads(conf: string, channel: nat)
    requires |conf| == 35 && channel >= 4
    ensures GetChannelModeAsWritten(conf, channel).None?
    ensures AsicRegisters.RowLetter(2, 0, 1) == 'D'
    ensures GetChannelModeAsWritten(AsicRegisters.ChanModeString(2, 0), 1) == Some('B')
  {
    assert Bit(2, 1) == 1;
    assert Bit(2, 8) == 0 by {
      BitOfSmall(2, 2, 8);
    }
    assert Bit(0, 8) == 0 && Bit(0, 1) == 0;
    AsicRegisters.ChanModeStringLayout(2, 0, 8);
  }

  // ---------------------------------------------------------------------
  // The per-sample rules of main
  // ---------------------------------------------------------------------

  /** The gain threshold of line 252. */
  const MinGain: real := 3000000000000000.0

  /** The calibration figures main reads for one channel: the baseline
      mean and gain from the reader, the bad flag from badChannel. */
  datatype Figures = Figures(mean: real, gain: real, bad: int)

  /** The figures for (serial, channel, bucket, range) from the store; the
      bad flag is the badChannel reader's, an input here. */
  function FiguresOf(store: Store, serial: string, channel: nat, bucket: nat, range: nat, bad: int): (f: Figures)
    requires StoreValid(store)
    ensures f.mean == GetValue(store, BaseMean, serial, channel, bucket, range)
    ensures f.gain == GetValue(store, CalibGain, serial, channel, bucket, range)
    ensures f.bad == bad
  {
    Figures(GetValue(store, BaseMean, serial, channel, bucket, range),
            GetValue(store, CalibGain, serial, channel, bucket, range), bad)
  }

  /** foundBad (line 252): a channel without a usable calibration (gain 0,
      as for a serial the store does not know) is always found bad. */
  predicate FoundBad(target: Figures, here: Figures, kpix: nat, calChannel: nat, channel: nat)
    ensures target.gain == 0.0 || here.gain == 0.0 ==> FoundBad(target, here, kpix, calChannel, channel)
  {
    target.gain < MinGain || here.gain < MinGain || target.bad != 0 || here.bad != 0
    || !GoodChannel(kpix, calChannel) || !GoodChannel(kpix, channel)
  }

  /** The charge of a histogrammed hit (lines 265-266): only with a
      non-zero gain and a clear bad flag. */
  function HitCharge(value: nat, here: Figures): (c: Option<real>)
    ensures c.Some? <==> here.gain != 0.0 && here.bad == 0
    ensures c.Some? ==> c.value * here.gain + here.mean == value as real
  {
    if here.gain != 0.0 && here.bad == 0 then Some((value as real - here.mean) / here.gain) else None
  }

  /** In-time hits (line 269): at most 755. */
  predicate InTime(tstamp: nat) {
    tstamp <= 755
  }

  /** What one sample does to the trackers. */
  datatype Verdict = Verdict(lowRange: bool, histogrammed: bool, charge: Option<real>)

  /** The decision of lines 238-266 for one sample. Only Data samples count;
      the low-range counter counts every range-1 Data sample, filtered or
      not; only crosstalk samples in bucket 0 are histogrammed; with the
      filter on, exactly those with both channels good, both gains at or
      above the threshold and both flags clear are; with it off,
      every Data sample is considered; a charge comes exactly with the
      histogrammed hits with a usable calibration. */
  function Decide(s: CalibrationFitter.Sample, calChannel: nat, target: Figures, here: Figures, filterBad: bool): (v: Verdict)
    ensures v.lowRange <==> s.kind == CalibrationFitter.Data && s.range == 1
    ensures v.histogrammed ==> s.kind == CalibrationFitter.Data && s.channel != calChannel && s.bucket == 0
    ensures v.histogrammed && filterBad ==>
              && GoodChannel(s.kpix, s.channel) && GoodChannel(s.kpix, calChannel)
              && target.gain >= MinGain && here.gain >= MinGain && target.bad == 0 && here.bad == 0
    ensures !filterBad ==> (v.histogrammed <==> s.kind == CalibrationFitter.Data && s.channel != calChannel && s.bucket == 0)
    ensures filterBad ==>
              (v.histogrammed <==>
                 && s.kind == CalibrationFitter.Data && s.channel != calChannel && s.bucket == 0
                 && GoodChannel(s.kpix, s.channel) && GoodChannel(s.kpix, calChannel)
                 && target.gain >= MinGain && here.gain >= MinGain && target.bad == 0 && here.bad == 0)
    ensures v.charge.Some? <==> v.histogrammed && here.gain != 0.0 && here.bad == 0
    ensures v.charge.Some? ==> v.charge.value * here.gain + here.mean == s.value as real
  {
    if s.kind != CalibrationFitter.Data then Verdict(false, false, None)
    else
      var processed := !filterBad || !FoundBad(target, here, s.kpix, calChannel, s.channel);
      var histogrammed := processed && s.channel != calChannel && s.bucket == 0;
      Verdict(s.range == 1, histogrammed, if histogrammed then HitCharge(s.value, here) else None)
  }

  /** A serial the calibration store does not know reads gain 0.0: its
      samples never get a charge, and with the filter on are never
      histogrammed. */
  lemma UnknownSerialNeverCharged(store: Store, serial: string, s: CalibrationFitter.Sample, calChannel: nat,
                                  badTar: int, bad: int, filterBad: bool)
    requires StoreValid(store) && serial !in store
    ensures var v := Decide(s, calChannel, FiguresOf(store, serial, calChannel, 0, 0, badTar),
                            FiguresOf(store, serial, s.channel, s.bucket, s.range, bad), filterBad);
            v.charge.None? && (filterBad ==> !v.histogrammed)
  {
    AbsentReadsZero(store, CalibGain, serial, s.channel, s.bucket, s.range);
    AbsentReadsZero(store, CalibGain, serial, calChannel, 0, 0);
  }

  // ---------------------------------------------------------------------
  // The trackers
  // ---------------------------------------------------------------------

  /** The initial bounds of the charge trackers (lines 181-188). */
  const ChargeLimit: real := 0.0000000000005

  function MinRealOr(xs: seq<real>, init: real): real {
    if xs == [] then init
    else var m := MinRealOr(xs[..|xs| - 1], init); if xs[|xs| - 1] < m then xs[|xs| - 1] else m
  }

  function MaxRealOr(xs: seq<real>, init: real): real {
    if xs == [] then init
    else var m := MaxRealOr(xs[..|xs| - 1], init); if xs[|xs| - 1] > m then xs[|xs| - 1] else m
  }

  /** The running charge minimum and maximum bound every value and are
      either a value or the initial bound. */
  lemma {:induction false} MinMaxReal(xs: seq<real>, lo: real, hi: real)
    ensures forall i :: 0 <= i < |xs| ==> MinRealOr(xs, lo) <= xs[i] <= MaxRealOr(xs, hi)
    ensures MinRealOr(xs, lo) <= lo && MaxRealOr(xs, hi) >= hi
    ensures MinRealOr(xs, lo) == lo || MinRealOr(xs, lo) in xs
    ensures MaxRealOr(xs, hi) == hi || MaxRealOr(xs, hi) in xs
  {
    if xs != [] {
      MinMaxReal(xs[..|xs| - 1], lo, hi);
    }
  }

  /** The number of asics the reader plots. */
  const Layers := 9

  /** minVal/maxVal against the histogrammed times of each asic. */
  ghost predicate TimesTracked(lo: seq<nat>, hi: seq<nat>, ts: seq<seq<nat>>) {
    |lo| == Layers && |hi| == Layers && |ts| == Layers
    && forall k :: 0 <= k < Layers ==> lo[k] == MinOr(ts[k], BaseBins) && hi[k] == MaxOr(ts[k], 0)
  }

  /** A charge min/max pair against the charges of each asic. */
  ghost predicate ChargesTracked(lo: seq<real>, hi: seq<real>, cs: seq<seq<real>>) {
    |lo| == Layers && |hi| == Layers && |cs| == Layers
    && forall k :: 0 <= k < Layers ==> lo[k] == MinRealOr(cs[k], ChargeLimit) && hi[k] == MaxRealOr(cs[k], -ChargeLimit)
  }

  lemma TimesStep(lo: seq<nat>, hi: seq<nat>, ts: seq<seq<nat>>, k: nat, t: nat)
    requires TimesTracked(lo, hi, ts) && k < Layers
    ensures TimesTracked(lo[k := if lo[k] > t then t else lo[k]], hi[k := if hi[k] < t then t else hi[k]],
                         ts[k := ts[k] + [t]])
  {
    assert (ts[k] + [t])[..|ts[k]|] == ts[k];
  }

  lemma ChargesStep(lo: seq<real>, hi: seq<real>, cs: seq<seq<real>>, k: nat, c: real)
    requires ChargesTracked(lo, hi, cs) && k < Layers
    ensures ChargesTracked(lo[k := if lo[k] > c then c else lo[k]], hi[k := if hi[k] < c then c else hi[k]],
                           cs[k := cs[k] + [c]])
  {
    assert (cs[k] + [c])[..|cs[k]|] == cs[k];
  }

  /** One tracker update (lines 261-262, 271-272, 278-279): the minimum
      only decreases and the maximum only increases, at one index. */
  method TrackTime(lo: array<nat>, hi: array<nat>, k: nat, t: nat)
    requires lo != hi && k < lo.Length && k < hi.Length
    modifies lo, hi
    ensures lo[..] == old(lo[..])[k := if old(lo[k]) > t then t else old(lo[k])]
    ensures hi[..] == old(hi[..])[k := if old(hi[k]) < t then t else old(hi[k])]
  {
    if lo[k] > t { lo[k] := t; }
    if hi[k] < t { hi[k] := t; }
  }

  method TrackCharge(lo: array<real>, hi: array<real>, k: nat, c: real)
    requires lo != hi && k < lo.Length && k < hi.Length
    modifies lo, hi
    ensures lo[..] == old(lo[..])[k := if old(lo[k]) > c then c else old(lo[k])]
    ensures hi[..] == old(hi[..])[k := if old(hi[k]) < c then c else old(hi[k])]
  {
    if lo[k] > c { lo[k] := c; }
    if hi[k] < c { hi[k] := c; }
  }

  /** The axis clamp of lines 314-317 as written: the lower bound moves
      up by 10, so from 10 on the earliest time lies left of the axis; the
      upper bound is as meant. */
  function AxisRangeAsWritten(minVal: nat, maxVal: nat): (r: (nat, nat))
    ensures minVal >= 10 ==> minVal < r.0
    ensures r.1 <= 8191 && (maxVal <= 8191 ==> maxVal <= r.1) && r.1 <= maxVal + 10
  {
    (if minVal < 10 then 0 else minVal + 10, if maxVal > 8181 then 8191 else maxVal + 10)
  }

  /** The clamp meant: a margin of 10 below the lowest and above the
      highest time, kept inside 0 .. 8191 (the `< 10` test guards the
      subtraction). */
  function AxisRange(minVal: nat, maxVal: nat): (r: (nat, nat))
    ensures r.0 <= minVal && minVal - r.0 <= 10
    ensures r.1 <= 8191 && (maxVal <= 8191 ==> maxVal <= r.1) && r.1 <= maxVal + 10
  {
    (if minVal < 10 then 0 else minVal - 10, if maxVal > 8181 then 8191 else maxVal + 10)
  }

  /** As written, hits at 100 .. 200 get the axis 110 .. 210: the earliest
      hit is left off the plot, where the clamp meant starts at 90; the two
      agree on the upper bound. */
  lemma AxisRangeAsWrittenCutsMinimum()
    ensures AxisRangeAsWritten(100, 200) == (110, 210) && 100 < AxisRangeAsWritten(100, 200).0
    ensures AxisRange(100, 200) == (90, 210)
  {
  }

  /** The reader's trackers, indexed by asic address. */
  class InjectTest {
    const minVal: array<nat>
    const maxVal: array<nat>
    const minValC: array<real>
    const maxValC: array<real>
    const minValD: array<real>
    const maxValD: array<real>
    var lowRangeCnt: nat
    /** The times histogrammed per asic, and the in-time and out-of-time
        charges. */
    ghost var times: seq<seq<nat>>
    ghost var inCharges: seq<seq<real>>
    ghost var outCharges: seq<seq<real>>

    predicate Shapes() {
      minVal != maxVal && minValC != maxValC && minValD != maxValD
      && minValC != minValD && minValC != maxValD && maxValC != minValD && maxValC != maxValD
    }

    ghost predicate TimesValid()
      reads this`times, minVal, maxVal
    {
      TimesTracked(minVal[..], maxVal[..], times)
    }

    ghost predicate InValid()
      reads this`inCharges, minValC, maxValC
    {
      ChargesTracked(minValC[..], maxValC[..], inCharges)
    }

    ghost predicate OutValid()
      reads this`outCharges, minValD, maxValD
    {
      ChargesTracked(minValD[..], maxValD[..], outCharges)
    }

    ghost predicate Valid()
      reads this, minVal, maxVal, minValC, maxValC, minValD, maxValD
    {
      Shapes() && TimesValid() && InValid() && OutValid()
    }

    /** The initialisation loop of lines 166-189 and the counter of line
        202: nothing seen yet. */
    constructor ()
      ensures Valid() && lowRangeCnt == 0
      ensures times == seq(Layers, _ => []) && inCharges == seq(Layers, _ => [])
      ensures outCharges == seq(Layers, _ => [])
      ensures forall k :: 0 <= k < Layers ==> minVal[k] == BaseBins && maxVal[k] == 0
      ensures forall k :: 0 <= k < Layers ==> minValC[k] == ChargeLimit && maxValC[k] == -ChargeLimit
      ensures forall k :: 0 <= k < Layers ==> minValD[k] == ChargeLimit && maxValD[k] == -ChargeLimit
    {
      minVal := new nat[Layers](_ => BaseBins);
      maxVal := new nat[Layers](_ => 0);
      minValC := new real[Layers](_ => ChargeLimit);
      maxValC := new real[Layers](_ => -ChargeLimit);
      minValD := new real[Layers](_ => ChargeLimit);
      maxValD := new real[Layers](_ => -ChargeLimit);
      lowRangeCnt := 0;
      times := seq(Layers, _ => []);
      inCharges := seq(Layers, _ => []);
      outCharges := seq(Layers, _ => []);
    }

    /** One sample of the loop of lines 223-285, with its asic's figures
        and the calibration target's: counts range-1 Data samples, and
        adds a histogrammed time and its charge, in time or out of time,
        to its asic's trackers. The serial and histograms are indexed by
        the asic address unchecked, so it must be below 9. */
    method Sample(s: CalibrationFitter.Sample, calChannel: nat, target: Figures, here: Figures, filterBad: bool)
      requires Valid() && s.kpix < Layers
      modifies this`lowRangeCnt, this`times, this`inCharges, this`outCharges
      modifies minVal, maxVal, minValC, maxValC, minValD, maxValD
      ensures Valid()
      ensures var v := Decide(s, calChannel, target, here, filterBad);
              && lowRangeCnt == old(lowRangeCnt) + (if v.lowRange then 1 else 0)
              && times == (if v.histogrammed then old(times)[s.kpix := old(times)[s.kpix] + [s.time]] else old(times))
              && inCharges == (if v.charge.Some? && InTime(s.time)
                               then old(inCharges)[s.kpix := old(inCharges)[s.kpix] + [v.charge.value]]
                               else old(inCharges))
              && outCharges == (if v.charge.Some? && !InTime(s.time)
                                then old(outCharges)[s.kpix := old(outCharges)[s.kpix] + [v.charge.value]]
                                else old(outCharges))
      ensures forall k :: 0 <= k < Layers ==> minVal[k] <= old(minVal[k]) && maxVal[k] >= old(maxVal[k])
      ensures forall k :: 0 <= k < Layers ==> minValC[k] <= old(minValC[k]) && maxValC[k] >= old(maxValC[k])
      ensures forall k :: 0 <= k < Layers ==> minValD[k] <= old(minValD[k]) && maxValD[k] >= old(maxValD[k])
    {
      ghost var v := Decide(s, calChannel, target, here, filterBad);
      if s.kind == CalibrationFitter.Data {
        if s.range == 1 {
          lowRangeCnt := lowRangeCnt + 1;
        }
        var foundBad := FoundBad(target, here, s.kpix, calChannel, s.channel);
        if !filterBad || !foundBad {
          if s.channel != calChannel && s.bucket == 0 {
            assert v.histogrammed;
            AddTime(s.kpix, s.time);
            if here.gain != 0.0 && here.bad == 0 {
              var charge := (s.value as real - here.mean) / here.gain;
              assert v.charge == Some(charge);
              if s.time <= 755 {
                AddInCharge(s.kpix, charge);
              } else {
                AddOutCharge(s.kpix, charge);
              }
            } else {
              assert v.charge.None?;
            }
          } else {
            assert !v.histogrammed && v.charge.None?;
          }
        } else {
          assert !v.histogrammed && v.charge.None?;
        }
      } else {
        assert !v.lowRange && !v.histogrammed && v.charge.None?;
      }
    }

    /** Lines 261-262: a histogrammed time joins its asic's time trackers. */
    method AddTime(k: nat, t: nat)
      requires Shapes() && TimesValid() && k < Layers
      modifies this`times, minVal, maxVal
      ensures TimesValid() && times == old(times)[k := old(times)[k] + [t]]
      ensures forall j :: 0 <= j < Layers ==> minVal[j] <= old(minVal[j]) && maxVal[j] >= old(maxVal[j])
    {
      TimesStep(minVal[..], maxVal[..], times, k, t);
      TrackTime(minVal, maxVal, k, t);
      times := times[k := times[k] + [t]];
    }

    /** Lines 271-272: an in-time charge joins its asic's in-time trackers. */
    method AddInCharge(k: nat, c: real)
      requires Shapes() && InValid() && k < Layers
      modifies this`inCharges, minValC, maxValC
      ensures InValid() && inCharges == old(inCharges)[k := old(inCharges)[k] + [c]]
      ensures forall j :: 0 <= j < Layers ==> minValC[j] <= old(minValC[j]) && maxValC[j] >= old(maxValC[j])
    {
      ChargesStep(minValC[..], maxValC[..], inCharges, k, c);
      TrackCharge(minValC, maxValC, k, c);
      inCharges := inCharges[k := inCharges[k] + [c]];
    }

    /** Lines 278-279: an out-of-time charge joins its asic's out-of-time
        trackers. */
    method AddOutCharge(k: nat, c: real)
      requires Shapes() && OutValid() && k < Layers
      modifies this`outCharges, minValD, maxValD
      ensures OutValid() && outCharges == old(outCharges)[k := old(outCharges)[k] + [c]]
      ensures forall j :: 0 <= j < Layers ==> minValD[j] <= old(minValD[j]) && maxValD[j] >= old(maxValD[j])
    {
      ChargesStep(minValD[..], maxValD[..], outCharges, k, c);
      TrackCharge(minValD, maxValD, k, c);
      outCharges := outCharges[k := outCharges[k] + [c]];
    }

    /** The axis ranges of lines 311-317, with the corrected lower bound:
        every histogrammed time of an asic lies inside its range. */
    method ClampAxes()
      requires Valid()
      modifies minVal, maxVal
      ensures forall k :: 0 <= k < Layers ==> (minVal[k], maxVal[k]) == AxisRange(old(minVal[k]), old(maxVal[k]))
      ensures forall k, i :: 0 <= k < Layers && 0 <= i < |times[k]| && times[k][i] <= 8191
                ==> minVal[k] <= times[k][i] <= maxVal[k]
    {
      for x := 0 to Layers
        invariant forall k :: 0 <= k < x ==> (minVal[k], maxVal[k]) == AxisRange(old(minVal[k]), old(maxVal[k]))
        invariant forall k :: x <= k < Layers ==> minVal[k] == old(minVal[k]) && maxVal[k] == old(maxVal[k])
      {
        var r := AxisRange(minVal[x], maxVal[x]);
        minVal[x], maxVal[x] := r.0, r.1;
      }
      forall k, i | 0 <= k < Layers && 0 <= i < |times[k]| && times[k][i] <= 8191
        ensures minVal[k] <= times[k][i] <= maxVal[k]
      {
        MinMaxOfPoints(times[k], BaseBins, 0);
      }
    }
  }

  /** What the trackers hold: per asic, the least and greatest histogrammed
      time (8192 and 0 before any), and the least and greatest in-time and
      out-of-time charges, each bounded by the initial +-500e-15. */
  lemma TrackersMeaning(t: InjectTest, k: nat)
    requires t.Valid() && k < Layers
    ensures forall i :: 0 <= i < |t.times[k]| ==> t.minVal[k] <= t.times[k][i] <= t.maxVal[k]
    ensures t.minVal[k] == BaseBins || t.minVal[k] in t.times[k]
    ensures t.times[k] != [] ==> t.maxVal[k] in t.times[k]
    ensures t.times[k] == [] ==> t.minVal[k] == BaseBins && t.maxVal[k] == 0
    ensures forall i :: 0 <= i < |t.inCharges[k]| ==> t.minValC[k] <= t.inCharges[k][i] <= t.maxValC[k]
    ensures forall i :: 0 <= i < |t.outCharges[k]| ==> t.minValD[k] <= t.outCharges[k][i] <= t.maxValD[k]
    ensures t.minValC[k] <= ChargeLimit && t.maxValC[k] >= -ChargeLimit
    ensures t.minValD[k] <= ChargeLimit && t.maxValD[k] >= -ChargeLimit
  {
    MinMaxOfPoints(t.times[k], BaseBins, 0);
    MinMaxReal(t.inCharges[k], ChargeLimit, -ChargeLimit);
    MinMaxReal(t.outCharges[k], ChargeLimit, -ChargeLimit);
    if t.times[k] != [] && t.maxVal[k] == 0 {
      assert t.times[k][0] in t.times[k];
    }
  }
}
