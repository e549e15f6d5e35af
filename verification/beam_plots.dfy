/** The beam plots reader of the old 3.00 software (root/beamPlots.cpp):
    for every Data sample, the serial of its asic, the calibration gate,
    the charge, and the time cut that decides which layer histogram it
    fills. */
module BeamPlots {
  import opened Wrappers
  import opened KpixCalib
  import CalibrationFitter

  /** serialList[32] (line 27) and hist[9] (line 29). */
  const SerialSlots := 32
  const Layers := 9

  /** The gain threshold of line 115. */
  const MinGain: real := 0.000000000000003

  /** Lines 89-90: the serial of the sample's asic, "" past the list. */
  function SerialFor(serialList: seq<string>, addr: nat): string
    requires |serialList| == SerialSlots
  {
    if addr < SerialSlots then serialList[addr] else ""
  }

  /** The calibration gate of line 115. */
  predicate Usable(mean: real, gain: real, bad: int) {
    mean > 0.0 && gain > MinGain && bad == 0
  }

  /** The cut of line 119: range 0, bucket 0, time 752. */
  predicate InCut(s: CalibrationFitter.Sample) {
    s.range == 0 && s.bucket == 0 && s.time == 752
  }

  /** The charge of a gated sample (line 116). */
  function BeamCharge(value: nat, mean: real, gain: real): (c: real)
    requires gain > 0.0
    ensures c * gain + mean == value as real
    ensures value as real >= mean ==> c >= 0.0
  {
    (value as real - mean) / gain
  }

  /** The histogram and charge one sample fills as written (lines 89-119),
      the histogram being the asic address, unchecked against the nine
      histograms. `badChannel` is the reader's bad-channel flag. Only a Data
      sample in the cut fills anything, into the histogram of its own
      address, and a serial the store does not know fills nothing. */
  function FillAsWritten(store: Store, serialList: seq<string>, s: CalibrationFitter.Sample,
                         badChannel: (string, nat) -> int): (f: Option<(nat, real)>)
    requires StoreValid(store) && |serialList| == SerialSlots
    ensures f.Some? ==> f.value.0 == s.kpix && s.kind == CalibrationFitter.Data && InCut(s)
    ensures SerialFor(serialList, s.kpix) !in store ==> f.None?
  {
    var serial := SerialFor(serialList, s.kpix);
    var mean := GetValue(store, BaseFitMean, serial, s.channel, s.bucket, s.range);
    var gain := GetValue(store, CalibGain, serial, s.channel, s.bucket, s.range);
    if s.kind == CalibrationFitter.Data && Usable(mean, gain, badChannel(serial, s.channel)) && InCut(s)
    then Some((s.kpix, BeamCharge(s.value, mean, gain)))
    else None
  }

  /** The same with the address checked against the nine histograms. */
  function Fill(store: Store, serialList: seq<string>, s: CalibrationFitter.Sample,
                badChannel: (string, nat) -> int): (f: Option<(nat, real)>)
    requires StoreValid(store) && |serialList| == SerialSlots
    ensures f.Some? ==> f.value.0 < Layers
    ensures f.Some? ==> f == FillAsWritten(store, serialList, s, badChannel)
    ensures s.kpix < Layers ==> f == FillAsWritten(store, serialList, s, badChannel)
  {
    if s.kpix < Layers then FillAsWritten(store, serialList, s, badChannel) else None
  }

  /** A filled charge comes from a Data sample in the cut whose asic's
      serial has a stored slot with a positive mean, a gain above 3e-15
      and a clear bad flag, and it is (value - mean) / gain with those
      very figures. */
  lemma FillMeaning(store: Store, serialList: seq<string>, s: CalibrationFitter.Sample,
                    badChannel: (string, nat) -> int)
    requires StoreValid(store) && |serialList| == SerialSlots
    ensures var f := Fill(store, serialList, s, badChannel);
            var serial := SerialFor(serialList, s.kpix);
            var mean := GetValue(store, BaseFitMean, serial, s.channel, s.bucket, s.range);
            var gain := GetValue(store, CalibGain, serial, s.channel, s.bucket, s.range);
            && (f.Some? <==> s.kpix < Layers && s.kind == CalibrationFitter.Data && InCut(s)
                             && Usable(mean, gain, badChannel(serial, s.channel)))
            && (f.Some? ==> f.value.0 == s.kpix && serial == serialList[s.kpix]
                            && Lookup(store, serial, s.channel, s.bucket, s.range).Some?
                            && f.value.1 * gain + mean == s.value as real)
  {
  }

  /** Absent calibration reads 0.0, which the gate refuses: a serial the
      store does not know (the "" of an address past the list included)
      and a slot outside the table never yield a charge. */
  lemma NoCalibrationNoCharge(store: Store, serialList: seq<string>, s: CalibrationFitter.Sample,
                              badChannel: (string, nat) -> int)
    requires StoreValid(store) && |serialList| == SerialSlots
    requires SerialFor(serialList, s.kpix) !in store || !SlotInTable(s.channel, s.bucket, s.range)
    ensures FillAsWritten(store, serialList, s, badChannel).None?
    ensures Fill(store, serialList, s, badChannel).None?
  {
  }

  /** A store with serial "S" whose slot (0, 0, 0) has mean 1 and gain 1. */
  function OneSerial(): (store: Store)
    ensures StoreValid(store)
  {
    map["S" := FreshAsic()[SlotIndex(0, 0, 0) := ZeroData.(baseFitMean := 1.0, calibGain := 1.0)]]
  }

  /** As written, a calibrated Data sample in the cut from the asic at
      address 9 fills hist[9], one past the nine histograms. */
  lemma FillAsWrittenPastHistograms()
    ensures var serialList := seq(SerialSlots, i => "S");
            var s := CalibrationFitter.Sample(9, 0, 0, 3, CalibrationFitter.Data, 752, 0);
            FillAsWritten(OneSerial(), serialList, s, (_, _) => 0) == Some((9, 2.0))
            && Fill(OneSerial(), serialList, s, (_, _) => 0).None?
  {
    var store := OneSerial();
    var serialList := seq(SerialSlots, i => "S");
    assert SerialFor(serialList, 9) == "S";
    assert Lookup(store, "S", 0, 0, 0) == Some(ZeroData.(baseFitMean := 1.0, calibGain := 1.0));
  }

  /** The charges the samples put into layer `k`, in order: at most one
      per sample, and none for a layer outside 0 .. 8. */
  function ChargesFor(store: Store, serialList: seq<string>, samples: seq<CalibrationFitter.Sample>,
                      badChannel: (string, nat) -> int, k: nat): (cs: seq<real>)
    requires StoreValid(store) && |serialList| == SerialSlots
    ensures |cs| <= |samples|
    ensures k >= Layers ==> cs == []
  {
    if samples == [] then []
    else
      var f := Fill(store, serialList, samples[|samples| - 1], badChannel);
      ChargesFor(store, serialList, samples[..|samples| - 1], badChannel, k)
      + (if f.Some? && f.value.0 == k then [f.value.1] else [])
  }

  /** Every charge of a layer was filled by one of the samples into that
      layer, and the layers outside 0 .. 8 get nothing. */
  lemma {:induction false} ChargesForMeaning(store: Store, serialList: seq<string>,
                                             samples: seq<CalibrationFitter.Sample>,
                                             badChannel: (string, nat) -> int, k: nat, c: real)
    requires StoreValid(store) && |serialList| == SerialSlots
    requires c in ChargesFor(store, serialList, samples, badChannel, k)
    ensures k < Layers
    ensures exists i :: 0 <= i < |samples| && Fill(store, serialList, samples[i], badChannel) == Some((k, c))
  {
    var n := |samples|;
    var f := Fill(store, serialList, samples[n - 1], badChannel);
    if c in ChargesFor(store, serialList, samples[..n - 1], badChannel, k) {
      ChargesForMeaning(store, serialList, samples[..n - 1], badChannel, k, c);
      var i :| 0 <= i < n - 1 && Fill(store, serialList, samples[..n - 1][i], badChannel) == Some((k, c));
      assert samples[..n - 1][i] == samples[i];
    } else {
      assert f == Some((k, c));
    }
  }

  /** The sample loop of lines 83-122 over one event: each sample's charge
      goes to its layer's histogram (a histogram is the sequence of
      charges filled into it). */
  method FillEvent(hist: array<seq<real>>, store: Store, serialList: seq<string>,
                   samples: seq<CalibrationFitter.Sample>, badChannel: (string, nat) -> int)
    requires hist.Length == Layers && StoreValid(store) && |serialList| == SerialSlots
    modifies hist
    ensures forall k :: 0 <= k < Layers ==>
              hist[k] == old(hist[k]) + ChargesFor(store, serialList, samples, badChannel, k)
  {
    for x := 0 to |samples|
      invariant forall k :: 0 <= k < Layers ==>
                  hist[k] == old(hist[k]) + ChargesFor(store, serialList, samples[..x], badChannel, k)
    {
      assert samples[..x + 1][..x] == samples[..x];
      var f := Fill(store, serialList, samples[x], badChannel);
      if f.Some? {
        hist[f.value.0] := hist[f.value.0] + [f.value.1];
      }
    }
    assert samples[..|samples|] == samples;
  }
}
