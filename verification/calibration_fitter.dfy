/** The rules of the calibration fitter's main program
    (software/kpixSw_3.00/root/calibrationFitter.cpp): the calibration
    charge of a DAC code, the inject-time windows, the routing of each
    sample to its channel's accumulators, and what is written to the XML
    calibration file. */
module CalibrationFitter {
  import opened ChannelStats
  import AsicRegisters
  import opened KpixCalib

  // ---------------------------------------------------------------------
  // calibCharge (lines 108-121)
  // ---------------------------------------------------------------------

  /** The injection voltage of a DAC code: above the breakpoint 0xf6 it is
      2.5 V minus 5 mV per code below 0xff, else 10 mV per code. `0xff - dac`
      is unsigned, so it wraps for a code above 0xff: the wrapped difference
      is at least 256, which puts such a code 1.28 V or more below full
      scale. */
  function CalibVolt(dac: Uint): (volt: real)
    ensures dac <= 0xff ==> 0.0 <= volt <= 2.5
    ensures dac > 0xff ==> volt <= 2.5 - 256.0 * 0.005
  {
    assert dac > 0xff ==> ToUint(0xff - dac) == 0x1_0000_0000 + 0xff - dac;
    if dac >= 0xf6 then 2.5 - ToUint(0xff - dac) as real * 50.0 * 0.0001
    else dac as real * 100.0 * 0.0001
  }

  /** The calibration capacitance, 200 fF: charge per volt. */
  const CalibCap: real := 0.0000000000002

  /** The calibration charge: (2.5 - volt) times the capacitance for
      positive polarity, volt times it otherwise, 22 times that with the
      high-gain calibration capacitor. For a code the DAC can take the
      charge lies between 0 and the full scale of 2.5 V on that
      capacitance. */
  function CalibCharge(dac: Uint, positive: bool, highCalib: bool): (charge: real)
    ensures dac <= 0xff ==> 0.0 <= charge <= 2.5 * CalibCap * (if highCalib then 22.0 else 1.0)
  {
    var volt := CalibVolt(dac);
    var charge := if positive then (2.5 - volt) * CalibCap else volt * CalibCap;
    if highCalib then charge * 22.0 else charge
  }

  /** For a DAC code the hardware can take, the fitter's voltage is the
      one the register layer reports (the same formula and breakpoint). */
  lemma CalibVoltIsDacToVolt(dac: Uint)
    requires dac < 256
    ensures CalibVolt(dac) == AsicRegisters.DacToVolt(dac)
  {
  }

  /** Shape of the charge over the 256 codes: 0 at code 0 and 2.5 V worth
      at 0xff for negative polarity; never negative and at most 2.5 V worth
      (times 22 for high gain); rising with the code for negative polarity
      and falling for positive; the two polarities sum to the full scale. */
  lemma CalibChargeShape(a: Uint, b: Uint, positive: bool, highCalib: bool)
    requires a < 256 && b < 256
    ensures CalibCharge(0, false, false) == 0.0
    ensures CalibCharge(255, false, false) == 2.5 * CalibCap
    ensures var full := 2.5 * CalibCap * (if highCalib then 22.0 else 1.0);
            && 0.0 <= CalibCharge(a, positive, highCalib) <= full
            && CalibCharge(a, true, highCalib) + CalibCharge(a, false, highCalib) == full
    ensures a < b && positive ==> CalibCharge(a, positive, highCalib) > CalibCharge(b, positive, highCalib)
    ensures a < b && !positive ==> CalibCharge(a, positive, highCalib) < CalibCharge(b, positive, highCalib)
  {
    CalibVoltIsDacToVolt(a);
    CalibVoltIsDacToVolt(b);
    CalibVoltIsDacToVolt(0);
    CalibVoltIsDacToVolt(255);
    AsicRegisters.DacToVoltShape(a, b);
  }

  // ---------------------------------------------------------------------
  // Inject-time windows (lines 225-233, 257)
  // ---------------------------------------------------------------------

  /** The per-bucket delays read from the configuration. */
  datatype CalDelays = CalDelays(cal0: Uint, cal1: Uint, cal2: Uint, cal3: Uint)

  /** injectTime[0..4]: each bound is the previous one plus the bucket's
      delay plus 4 (unsigned, wrapping), and the last is 8192. */
  function InjectTimes(d: CalDelays): (t: seq<Uint>)
    ensures |t| == 5 && t[0] == d.cal0 && t[4] == 8192
  {
    var t1 := ToUint(d.cal1 + d.cal0 + 4);
    var t2 := ToUint(d.cal2 + t1 + 4);
    var t3 := ToUint(d.cal3 + t2 + 4);
    [d.cal0, t1, t2, t3, 8192]
  }

  /** A sample of bucket `bucket` is taken when its time lies strictly
      between the bucket's bound and the next; a window whose bounds are
      out of order (after a wrap) takes nothing. */
  predicate InWindow(injectTime: seq<Uint>, bucket: nat, time: Uint)
    requires |injectTime| == 5 && bucket < 4
    ensures InWindow(injectTime, bucket, time) ==> injectTime[bucket] as int + 1 < injectTime[bucket + 1] as int
  {
    injectTime[bucket] < time < injectTime[bucket + 1]
  }

  /** When the delays add up to less than 8192 - 12 nothing wraps: each
      window opens `delay + 4` after the previous one, the windows are in
      order, and a time falls in the window of at most one bucket. */
  lemma InjectWindowsOrdered(d: CalDelays, b1: nat, b2: nat, time: Uint)
    requires d.cal0 + d.cal1 + d.cal2 + d.cal3 + 12 < 8192
    requires b1 < 4 && b2 < 4
    ensures var t := InjectTimes(d);
            && t[1] == t[0] + d.cal1 + 4 && t[2] == t[1] + d.cal2 + 4 && t[3] == t[2] + d.cal3 + 4
            && t[0] < t[1] < t[2] < t[3] < t[4]
    ensures InWindow(InjectTimes(d), b1, time) && InWindow(InjectTimes(d), b2, time) ==> b1 == b2
  {
    var t := InjectTimes(d);
    assert t[1] == t[0] + d.cal1 + 4;
    assert t[2] == t[1] + d.cal2 + 4;
    assert t[3] == t[2] + d.cal3 + 4;
    assert forall i, j :: 0 <= i <= j < 5 ==> t[i] <= t[j];
  }

  // ---------------------------------------------------------------------
  // Sample routing (lines 236-266)
  // ---------------------------------------------------------------------

  /** Whether a sample is a data sample (other kinds, such as temperature
      words, are skipped). */
  datatype Kind = Data | NotData

  datatype Sample = Sample(kpix: Uint, channel: Uint, bucket: Uint, value: Uint,
                           kind: Kind, time: Uint, range: Uint)

  /** The index of a sample into chanData[32][1024][4][2]. */
  datatype Slot = Slot(kpix: nat, channel: nat, bucket: nat, range: nat)

  function SlotOf(s: Sample): Slot {
    Slot(s.kpix, s.channel, s.bucket, s.range)
  }

  /** The sample's kpix, channel, bucket and range index the table. */
  predicate InTable(s: Sample) {
    s.kpix < 32 && s.channel < 1024 && s.bucket < 4 && s.range < 2
  }

  /** What one sample does to its channel's accumulators: nothing (not a
      data sample), only create the entry, add a baseline point, or add a
      calibration point at the current DAC level. */
  datatype Action = Skip | Touch | AddBase(point: nat) | AddCalib(dac: nat, point: nat)

  /** The calibration state of the event: its state name, the channel being
      injected and the DAC level. */
  datatype CalState = CalState(state: string, calChannel: Uint, calDac: Uint)

  function Route(s: Sample, cal: CalState, injectTime: seq<Uint>): (a: Action)
    requires |injectTime| == 5
    requires s.kind == Data ==> InTable(s)
    ensures a.Skip? <==> s.kind != Data
    ensures a.AddBase? || a.AddCalib? ==> InWindow(injectTime, s.bucket, s.time)
    ensures a.AddBase? <==> s.kind == Data && InWindow(injectTime, s.bucket, s.time) && cal.state == "Baseline"
    ensures a.AddCalib? <==> s.kind == Data && InWindow(injectTime, s.bucket, s.time)
                             && cal.state == "Inject" && s.channel == cal.calChannel
    ensures a.AddBase? ==> a.point == s.value
    ensures a.AddCalib? ==> a.dac == cal.calDac && a.point == s.value
  {
    if s.kind != Data then Skip
    else if !InWindow(injectTime, s.bucket, s.time) then Touch
    else if cal.state == "Baseline" then AddBase(s.value)
    else if cal.state == "Inject" && s.channel == cal.calChannel then AddCalib(cal.calDac, s.value)
    else Touch
  }

  /** Applies a routed action to the sample's ChannelData: addBasePoint or
      addCalibPoint, or nothing. The histogram bin and the DAC level must
      exist (the source indexes them unchecked). */
  method ApplyAction(cd: ChannelData, a: Action)
    requires cd.Valid()
    requires a.AddBase? ==> a.point < BaseBins
    requires a.AddCalib? ==> a.dac < DacLevels
    modifies cd, cd.baseData, cd.calibCount, cd.calibMean, cd.calibSum
    ensures cd.Valid()
    ensures cd.basePoints == old(cd.basePoints) + (if a.AddBase? then [a.point] else [])
    ensures cd.calibPoints == if a.AddCalib? then old(cd.calibPoints)[a.dac := old(cd.calibPoints[a.dac]) + [a.point as real]]
                              else old(cd.calibPoints)
  {
    match a {
      case AddBase(point) => cd.AddBasePoint(point);
      case AddCalib(dac, point) => cd.AddCalibPoint(dac, point);
      case _ =>
    }
  }

  /** The slots of the data samples of `samples`. */
  function DataSlots(samples: seq<Sample>): set<Slot> {
    if samples == [] then {}
    else DataSlots(samples[..|samples| - 1])
         + (if samples[|samples| - 1].kind == Data then {SlotOf(samples[|samples| - 1])} else {})
  }

  lemma {:induction false} DataSlotsMembers(samples: seq<Sample>, e: Slot)
    ensures e in DataSlots(samples) <==>
            exists i :: 0 <= i < |samples| && samples[i].kind == Data && SlotOf(samples[i]) == e
  {
    if samples != [] {
      var init := samples[..|samples| - 1];
      DataSlotsMembers(init, e);
      if e in DataSlots(init) {
        var i :| 0 <= i < |init| && init[i].kind == Data && SlotOf(init[i]) == e;
        assert samples[i] == init[i];
      }
      if exists i :: 0 <= i < |samples| && samples[i].kind == Data && SlotOf(samples[i]) == e {
        var i :| 0 <= i < |samples| && samples[i].kind == Data && SlotOf(samples[i]) == e;
        if i < |init| {
          assert init[i] == samples[i];
        }
      }
    }
  }

  /** The state of the fitter's read loop: which chanData entries exist,
      which kpix and channels have been seen, the channel range and the
      inject-time bounds taken from the first event, and the event count. */
  class FitterRun {
    var eventCount: nat
    var minChan: Uint
    var maxChan: Uint
    var injectTime: seq<Uint>
    const kpixFound: array<bool>
    const chanFound: array<bool>
    /** The chanData entries that are not NULL. */
    var entries: set<Slot>

    ghost predicate Valid()
      reads this, kpixFound, chanFound
    {
      && kpixFound.Length == 32 && chanFound.Length == 1024
      && |injectTime| == 5
      && (forall e :: e in entries ==> e.kpix < 32 && e.channel < 1024 && e.bucket < 4 && e.range < 2)
      && (forall k :: 0 <= k < 32 ==> (kpixFound[k] <==> exists e :: e in entries && e.kpix == k))
      && (forall c :: 0 <= c < 1024 ==> (chanFound[c] <==> exists e :: e in entries && e.channel == c))
    }

    /** The table starts all NULL and nothing found (lines 169-178).
        injectTime, minChan and maxChan are only set by the first event; the
        zeros here stand for their unset values. */
    constructor ()
      ensures Valid()
      ensures eventCount == 0 && entries == {}
      ensures fresh(kpixFound) && fresh(chanFound)
    {
      eventCount := 0;
      minChan := 0;
      maxChan := 0;
      injectTime := [0, 0, 0, 0, 0];
      kpixFound := new bool[32](_ => false);
      chanFound := new bool[1024](_ => false);
      entries := {};
    }

    /** Records a data sample: its entry exists from now on and its kpix
        and channel are marked found (lines 252-254). */
    method Touch(s: Sample)
      requires Valid() && InTable(s)
      modifies this`entries, kpixFound, chanFound
      ensures Valid()
      ensures entries == old(entries) + {SlotOf(s)}
    {
      entries := entries + {SlotOf(s)};
      kpixFound[s.kpix] := true;
      chanFound[s.channel] := true;
      assert SlotOf(s) in entries;
      forall k | 0 <= k < 32
        ensures kpixFound[k] <==> exists e :: e in entries && e.kpix == k
      {
        if k != s.kpix && kpixFound[k] {
          var e :| e in old(entries) && e.kpix == k;
          assert e in entries;
        }
      }
      forall c | 0 <= c < 1024
        ensures chanFound[c] <==> exists e :: e in entries && e.channel == c
      {
        if c != s.channel && chanFound[c] {
          var e :| e in old(entries) && e.channel == c;
          assert e in entries;
        }
      }
    }

    /** One event of the read loop (lines 217-277): the first event fixes
        the channel range and the inject-time bounds; every sample is
        routed, data samples create their entry; the event count grows by
        one. The routes are returned in sample order, for the caller to
        apply to each sample's ChannelData. */
    method ProcessEvent(delays: CalDelays, chanMin: Uint, chanMax: Uint, cal: CalState,
                        samples: seq<Sample>) returns (routes: seq<Action>)
      requires Valid()
      requires forall i :: 0 <= i < |samples| ==> samples[i].kind == Data ==> InTable(samples[i])
      modifies this, kpixFound, chanFound
      ensures Valid()
      ensures eventCount == old(eventCount) + 1
      ensures injectTime == if old(eventCount) == 0 then InjectTimes(delays) else old(injectTime)
      ensures minChan == (if old(eventCount) == 0 then chanMin else old(minChan))
      ensures maxChan == (if old(eventCount) == 0 then chanMax else old(maxChan))
      ensures entries == old(entries) + DataSlots(samples)
      ensures |routes| == |samples|
      ensures forall i :: 0 <= i < |samples| ==> routes[i] == Route(samples[i], cal, injectTime)
    {
      if eventCount == 0 {
        minChan := chanMin;
        maxChan := chanMax;
        injectTime := InjectTimes(delays);
      }
      routes := [];
      for x := 0 to |samples|
        invariant Valid()
        invariant injectTime == old(if eventCount == 0 then InjectTimes(delays) else injectTime)
        invariant eventCount == old(eventCount)
        invariant minChan == (if old(eventCount) == 0 then chanMin else old(minChan))
        invariant maxChan == (if old(eventCount) == 0 then chanMax else old(maxChan))
        invariant entries == old(entries) + DataSlots(samples[..x])
        invariant |routes| == x
        invariant forall i :: 0 <= i < x ==> routes[i] == Route(samples[i], cal, injectTime)
      {
        var sample := samples[x];
        if sample.kind == Data {
          Touch(sample);
        }
        routes := routes + [Route(sample, cal, injectTime)];
        assert samples[..x + 1][..x] == samples[..x];
      }
      assert samples[..|samples|] == samples;
      eventCount := eventCount + 1;
    }

    // -------------------------------------------------------------------
    // XML emission (lines 303-409)
    // -------------------------------------------------------------------

    /** The Bucket element test as written at line 330: the range-0 entry
        is checked twice. */
    predicate BucketWrittenAsWritten(kpix: nat, channel: nat, bucket: nat)
      reads this
    {
      Slot(kpix, channel, bucket, 0) in entries || Slot(kpix, channel, bucket, 0) in entries
    }

    /** The evidently intended test: the bucket has an entry for some range. */
    predicate BucketWritten(kpix: nat, channel: nat, bucket: nat)
      reads this
    {
      Slot(kpix, channel, bucket, 0) in entries || Slot(kpix, channel, bucket, 1) in entries
    }

    /** A Range element (with its BaseMean, BaseRms and calibration values)
        is written for slot `e`: its kpix was found, its channel lies in
        minChan..maxChan and was found, its Bucket element is written by
        the given test, and its entry exists (lines 303-337). */
    predicate RangeWrittenBy(e: Slot, asWritten: bool)
      reads this, kpixFound, chanFound
      requires Valid()
    {
      && e.kpix < 32 && kpixFound[e.kpix]
      && minChan <= e.channel <= maxChan && e.channel < 1024 && chanFound[e.channel]
      && e.bucket < 4
      && (if asWritten then BucketWrittenAsWritten(e.kpix, e.channel, e.bucket)
          else BucketWritten(e.kpix, e.channel, e.bucket))
      && e.range < 2 && e in entries
    }
  }

  /** With the intended bucket test, every entry whose channel lies in the
      configured range is written to the XML file, and nothing else is. */
  lemma RangeWrittenExactly(run: FitterRun, e: Slot)
    requires run.Valid()
    ensures run.RangeWrittenBy(e, false) <==> e in run.entries && run.minChan <= e.channel <= run.maxChan
  {
    if e in run.entries {
      assert e.kpix < 32 && e.channel < 1024;
      assert run.kpixFound[e.kpix];
      assert run.chanFound[e.channel];
    }
  }

  /** As written, an entry in the configured channel range is written only
      when its bucket also has a range-0 entry. */
  lemma RangeWrittenAsWrittenNeedsRange0(run: FitterRun, e: Slot)
    requires run.Valid()
    ensures run.RangeWrittenBy(e, true) <==>
            e in run.entries && run.minChan <= e.channel <= run.maxChan
            && Slot(e.kpix, e.channel, e.bucket, 0) in run.entries
  {
    RangeWrittenExactly(run, e);
  }

  /** A run whose only data sample is in range 1 (kpix 0, channel 0,
      bucket 0, channel range 0..0) has that entry, but as written no Range
      element is emitted for it, while the intended test emits it. */
  lemma Range1OnlyIsDropped(run: FitterRun)
    requires run.Valid()
    requires run.entries == {Slot(0, 0, 0, 1)} && run.minChan == 0 && run.maxChan == 0
    ensures !run.RangeWrittenBy(Slot(0, 0, 0, 1), true)
    ensures run.RangeWrittenBy(Slot(0, 0, 0, 1), false)
  {
    RangeWrittenExactly(run, Slot(0, 0, 0, 1));
    assert Slot(0, 0, 0, 0) !in run.entries;
  }

  // ---------------------------------------------------------------------
  // Calibration graph (lines 364-375)
  // ---------------------------------------------------------------------

  /** The DAC levels below n that have points, in increasing order. */
  function DacsWithPoints(counts: seq<real>, n: nat): (dacs: seq<nat>)
    requires n <= |counts|
    ensures |dacs| <= n
    ensures forall i :: 0 <= i < |dacs| ==> dacs[i] < n
  {
    if n == 0 then []
    else DacsWithPoints(counts, n - 1) + (if counts[n - 1] > 0.0 then [n - 1] else [])
  }

  /** The levels listed are exactly those with a positive count, strictly
      increasing. */
  lemma {:induction false} DacsWithPointsExactly(counts: seq<real>, n: nat)
    requires n <= |counts|
    ensures forall x: int :: x in DacsWithPoints(counts, n) <==> 0 <= x < n && counts[x] > 0.0
    ensures forall i, j :: 0 <= i < j < |DacsWithPoints(counts, n)| ==>
              DacsWithPoints(counts, n)[i] < DacsWithPoints(counts, n)[j]
  {
    if n > 0 {
      var prev := DacsWithPoints(counts, n - 1);
      DacsWithPointsExactly(counts, n - 1);
      assert DacsWithPoints(counts, n) == prev + (if counts[n - 1] > 0.0 then [n - 1] else []);
    }
  }

  /** The high-gain charge factor is used only for bucket 0. */
  function HighCalibFor(bucket: nat, b0CalibHigh: bool): bool {
    if bucket == 0 then b0CalibHigh else false
  }

  /** The first |dacs| graph points are those of the DAC levels `dacs`:
      the charge of the level, the mean and rms of its points, and no
      charge error. */
  ghost predicate GraphPoints(gx: seq<real>, gy: seq<real>, gye: seq<real>, gxe: seq<real>, dacs: seq<nat>,
                              means: seq<real>, rms: seq<real>, positive: bool, high: bool)
  {
    |gx| == DacLevels && |gy| == DacLevels && |gye| == DacLevels && |gxe| == DacLevels
    && |means| == DacLevels && |rms| == DacLevels && |dacs| <= DacLevels
    && forall i :: 0 <= i < |dacs| ==>
         && dacs[i] < DacLevels
         && gx[i] == CalibCharge(dacs[i], positive, high)
         && gy[i] == means[dacs[i]] && gye[i] == rms[dacs[i]] && gxe[i] == 0.0
  }

  lemma GraphPointsStep(gx: seq<real>, gy: seq<real>, gye: seq<real>, gxe: seq<real>, dacs: seq<nat>,
                        means: seq<real>, rms: seq<real>, positive: bool, high: bool, x: nat)
    requires GraphPoints(gx, gy, gye, gxe, dacs, means, rms, positive, high)
    requires x < DacLevels && |dacs| < DacLevels
    ensures GraphPoints(gx[|dacs| := CalibCharge(x, positive, high)], gy[|dacs| := means[x]],
                        gye[|dacs| := rms[x]], gxe[|dacs| := 0.0], dacs + [x], means, rms, positive, high)
  {
  }

  /** Fills the graph arrays with one point per DAC level that has
      calibration points, in increasing level order: x is the calibration
      charge of the level, y its mean, the y error its rms and the x error
      0; returns the number of points. */
  method CalibGraph(cd: ChannelData, positive: bool, b0CalibHigh: bool, bucket: nat,
                    grX: array<real>, grY: array<real>, grYErr: array<real>, grXErr: array<real>)
    returns (grCount: nat)
    requires cd.Shapes()
    requires grX.Length == 256 && grY.Length == 256 && grYErr.Length == 256 && grXErr.Length == 256
    requires grX != grY && grX != grYErr && grX != grXErr && grY != grYErr && grY != grXErr && grYErr != grXErr
    requires {grX, grY, grYErr, grXErr} !! {cd.calibCount, cd.calibMean, cd.calibRms}
    modifies grX, grY, grYErr, grXErr
    ensures var dacs := DacsWithPoints(cd.calibCount[..], DacLevels);
            && grCount == |dacs|
            && (forall i :: 0 <= i < grCount ==>
                  && grX[i] == CalibCharge(dacs[i], positive, HighCalibFor(bucket, b0CalibHigh))
                  && grY[i] == cd.calibMean[dacs[i]] && grYErr[i] == cd.calibRms[dacs[i]]
                  && grXErr[i] == 0.0)
  {
    ghost var counts := cd.calibCount[..];
    ghost var means := cd.calibMean[..];
    ghost var rms := cd.calibRms[..];
    ghost var dacs: seq<nat> := [];
    var high := HighCalibFor(bucket, b0CalibHigh);
    grCount := 0;
    for x := 0 to DacLevels
      invariant dacs == DacsWithPoints(counts, x)
      invariant grCount == |dacs|
      invariant GraphPoints(grX[..], grY[..], grYErr[..], grXErr[..], dacs, means, rms, positive, high)
    {
      if cd.calibCount[x] > 0.0 {
        GraphPointsStep(grX[..], grY[..], grYErr[..], grXErr[..], dacs, means, rms, positive, high, x);
        grX[grCount] := CalibCharge(x, positive, high);
        grY[grCount] := cd.calibMean[x];
        grYErr[grCount] := cd.calibRms[x];
        grXErr[grCount] := 0.0;
        grCount := grCount + 1;
        dacs := dacs + [x];
      }
    }
  }
}
