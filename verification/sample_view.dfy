/** The sample viewer of the 1.02 GUI (kpixSw_1.02/gui/KpixGuiSampleView.cc):
    the per-run tables it builds (a copy of the event variables and an
    address -> asic index lookup table) and the gain and charge it shows for
    one sample. */
module SampleView {
  import opened Wrappers

  /** An event variable: name and description, as listed in the table. */
  datatype EventVar = EventVar(name: string, description: string)

  /** What the viewer reads of one asic: its address, serial number and the
      two gain-mode control bits. */
  datatype Asic = Asic(address: nat, serial: string, forceLowGain: bool, doubleGain: bool)

  /** What the viewer reads of a run. */
  datatype RunInfo = RunInfo(eventVars: seq<EventVar>, asics: seq<Asic>)

  /** What the viewer reads of one sample. */
  datatype ViewSample = ViewSample(address: nat, channel: nat, bucket: nat, range: nat, value: nat)

  /** The largest asic address, 0 for no asics. */
  function MaxAddress(asics: seq<Asic>): (m: nat)
    ensures forall i :: 0 <= i < |asics| ==> asics[i].address <= m
    ensures asics != [] ==> exists i :: 0 <= i < |asics| && asics[i].address == m
    ensures asics == [] ==> m == 0
  {
    if asics == [] then 0
    else
      var m := MaxAddress(asics[..|asics| - 1]);
      if asics[|asics| - 1].address > m then asics[|asics| - 1].address else m
  }

  /** Whether index i is the last asic with address a. */
  predicate IsLastWith(asics: seq<Asic>, a: nat, i: nat) {
    i < |asics| && asics[i].address == a
    && forall j :: i < j < |asics| ==> asics[j].address != a
  }

  /** `table` maps the address of every asic to the index of the last asic
      with that address. */
  predicate LookupOf(asics: seq<Asic>, table: seq<nat>) {
    forall i :: 0 <= i < |asics| ==>
      asics[i].address < |table| && IsLastWith(asics, asics[i].address, table[asics[i].address])
  }

  /** The gain index shown: double gain selects 1, else forced low gain
      selects 2, else range 1 selects 2, else 0. */
  function GainIndex(forceLowGain: bool, doubleGain: bool, range: nat): (g: nat)
    ensures g < 3
  {
    if doubleGain then 1 else if forceLowGain || range == 1 then 2 else 0
  }

  /** The charge shown: the raw value without a gain, else the value with
      the intercept removed, divided by the gain. */
  function SampleCharge(value: nat, fitGain: real, fitIcept: real): (charge: real)
    ensures fitGain == 0.0 ==> charge == value as real
    ensures fitGain != 0.0 ==> charge * fitGain + fitIcept == value as real
  {
    if fitGain == 0.0 then value as real else (value as real - fitIcept) / fitGain
  }

  /** The gain is chosen by successive reassignment (lines 192-195); the
      result agrees with GainIndex and is always 0, 1 or 2. */
  method SelectGain(forceLowGain: bool, doubleGain: bool, range: nat) returns (gain: nat)
    ensures gain == GainIndex(forceLowGain, doubleGain, range)
    ensures gain == 0 || gain == 1 || gain == 2
  {
    gain := 0;
    if forceLowGain { gain := 2; }
    if doubleGain { gain := 1; }
    if gain == 0 && range == 1 { gain := 2; }
  }

  /** Lines 81-89: a fresh array holding a copy of each event variable. */
  method CopyEventVars(vars: seq<EventVar>) returns (eventVar: array<EventVar>)
    ensures fresh(eventVar) && eventVar[..] == vars
  {
    eventVar := new EventVar[|vars|](_ => EventVar("", ""));
    for x := 0 to |vars|
      invariant eventVar[..x] == vars[..x]
    {
      eventVar[x] := vars[x];
    }
  }

  /** Lines 92-96: the largest asic address, starting from 0. */
  method MaxAsicAddress(asics: seq<Asic>) returns (y: nat)
    ensures y == MaxAddress(asics)
  {
    y := 0;
    for x := 0 to |asics|
      invariant y == MaxAddress(asics[..x])
    {
      assert asics[..x + 1][..x] == asics[..x];
      if asics[x].address > y {
        y := asics[x].address;
      }
    }
    assert asics[..|asics|] == asics;
  }

  /** Lines 100-103: a fresh table of size `size` in which, asic by asic,
      the entry at the asic's address is set to its index, so that the last
      asic with an address wins. Entries at no asic's address are never
      written (modelled as 0). */
  method BuildLookup(asics: seq<Asic>, size: nat) returns (table: array<nat>)
    requires forall i :: 0 <= i < |asics| ==> asics[i].address < size
    ensures fresh(table) && table.Length == size
    ensures LookupOf(asics, table[..])
  {
    table := new nat[size](_ => 0);
    for x := 0 to |asics|
      invariant LookupOf(asics[..x], table[..])
    {
      table[asics[x].address] := x;
      forall i | 0 <= i < x + 1
        ensures IsLastWith(asics[..x + 1], asics[i].address, table[asics[i].address])
      {
        if asics[i].address != asics[x].address {
          assert IsLastWith(asics[..x], asics[i].address, table[asics[i].address]);
        }
      }
    }
    assert asics[..|asics|] == asics;
  }

  class KpixGuiSampleView {
    var runRead: Option<RunInfo>
    var eventVar: array?<EventVar>
    var eventCount: nat
    var kpixIdxLookup: array?<nat>

    ghost predicate Valid()
      reads this
    {
      && (eventVar == null ==> eventCount == 0)
      && (eventVar != null ==> eventVar.Length == eventCount)
      && (runRead.None? ==> eventVar == null && kpixIdxLookup == null)
      && (runRead.Some? ==> eventVar != null && kpixIdxLookup != null)
      && (runRead.Some? ==> kpixIdxLookup.Length == MaxAddress(runRead.value.asics) + 1)
    }

    /** The lookup table maps each asic address to the index of the last
        asic with that address. */
    ghost predicate LookupValid()
      reads this, kpixIdxLookup
      requires Valid()
    {
      runRead.Some? ==> LookupOf(runRead.value.asics, kpixIdxLookup[..])
    }

    /** The constructor (lines 30-36): no run, no tables. */
    constructor ()
      ensures Valid() && LookupValid()
      ensures runRead.None? && eventVar == null && kpixIdxLookup == null && eventCount == 0
    {
      runRead := None;
      eventVar := null;
      kpixIdxLookup := null;
      eventCount := 0;
    }

    /** setRunData (lines 54-106): drops the old tables; with a run, copies
        its event variables and builds a table of size max address + 1 in
        which each asic's address holds the index of the last asic with that
        address; without one, leaves both tables NULL and the count 0. */
    method SetRunData(run: Option<RunInfo>)
      modifies this
      ensures Valid() && LookupValid()
      ensures runRead == run
      ensures run.None? ==> eventVar == null && eventCount == 0 && kpixIdxLookup == null
      ensures run.Some? ==> eventVar != null && fresh(eventVar) && eventVar[..] == run.value.eventVars
      ensures run.Some? ==> eventCount == |run.value.eventVars|
      ensures run.Some? ==> kpixIdxLookup != null && fresh(kpixIdxLookup)
                            && kpixIdxLookup.Length == MaxAddress(run.value.asics) + 1
    {
      runRead := run;
      eventVar := null;
      eventCount := 0;
      kpixIdxLookup := null;
      if run.Some? {
        var info := run.value;
        eventCount := |info.eventVars|;
        eventVar := CopyEventVars(info.eventVars);
        var y := MaxAsicAddress(info.asics);
        y := y + 1;
        kpixIdxLookup := BuildLookup(info.asics, y);
      }
    }

    /** The part of updateDisplay that computes (lines 131-134, 192-205):
        the asic index of the sample's address, the gain index from asic
        0's control bits and the sample's range, and the charge from the
        calibration gain and intercept. The table is indexed unchecked, so
        the address must not exceed the largest asic address. */
    method SampleFigures(s: ViewSample, fitGain: real, fitIcept: real)
      returns (idx: nat, gain: nat, charge: real)
      requires Valid() && runRead.Some? && runRead.value.asics != []
      requires s.address < kpixIdxLookup.Length
      ensures idx == kpixIdxLookup[s.address]
      ensures gain == GainIndex(runRead.value.asics[0].forceLowGain, runRead.value.asics[0].doubleGain, s.range)
      ensures charge == SampleCharge(s.value, fitGain, fitIcept)
    {
      idx := kpixIdxLookup[s.address];
      var asic0 := runRead.value.asics[0];
      gain := SelectGain(asic0.forceLowGain, asic0.doubleGain, s.range);
      if fitGain == 0.0 {
        charge := s.value as real;
      } else {
        charge := (s.value as real - fitIcept) / fitGain;
      }
    }
  }

  /** After setRunData with a run, a sample from any of its asics is within
      the table and is looked up to an asic with that very address. */
  lemma LookupFindsAsic(view: KpixGuiSampleView, i: nat)
    requires view.Valid() && view.LookupValid() && view.runRead.Some?
    requires i < |view.runRead.value.asics|
    ensures var a := view.runRead.value.asics[i].address;
            && a < view.kpixIdxLookup.Length
            && view.kpixIdxLookup[a] < |view.runRead.value.asics|
            && view.runRead.value.asics[view.kpixIdxLookup[a]].address == a
  {
  }
}
