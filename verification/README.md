# KPIX calibration pipeline in Dafny

This project models the calibration pipeline of the KPIX detector-readout
software, and the small codecs and rules around it, and proves properties of
that model:

- **Calibration store and XML reader** (`calib_read.dfy`, module `KpixCalib`):
  - `KpixCalibRead` keeps a map from asic serial number to a table of
    per-(channel, bucket, range) constants. `findKpix` bounds-checks and
    creates entries lazily; the ten getters read 0.0 for anything absent.
  - `parseXmlLevel` walks an element tree with an inherited
    (serial, channel, bucket, range) context and stores text values into
    the field named by the enclosing tag.
  - The XML document is an abstract tree: element, text (with its `%lf`
    conversion) and other nodes.
- **Channel statistics** (`channel_data.dfy`, module `ChannelStats`):
  - the fitter's `ChannelData`: an in-place 8192-bin baseline histogram,
    min/max tracking, and Welford running moments for the baseline and for
    each of the 256 DAC levels;
  - the proof, in exact arithmetic, that Welford's running mean is the
    arithmetic mean and its running second moment is the sum of squared
    deviations.
- **Calibration fitter rules** (`calibration_fitter.dfy`, module
  `CalibrationFitter`):
  - `calibCharge`;
  - the inject-time windows built from the chained delays;
  - routing of samples to the baseline or calibration accumulators;
  - the creation of table entries;
  - the Bucket/Range emission test;
  - the calibration graph points.
- **ASIC register codecs** (`kpix_asic.dfy`, module `AsicRegisters`):
  - the bit-reversed `FlippedUInt`;
  - the `TrigInhibitOff` and `BunchClockCount` links;
  - the DAC link and `dacToVolt`;
  - the channel-mode string codec `getChanMode`/`setChanMode`;
  - `setCalibration` on a class holding the 32 register pairs.
- **Consumers of the calibration**:
  - the 1.02 sample viewer's lookup table, gain index and charge
    (`sample_view.dfy`);
  - the injection-test reader's path stripping, bad-channel lists, channel
    mode lookup, sample filter, charge, in/out-of-time trackers and axis
    clamp (`inject_test_read.dfy`);
  - the beam plots reader's serial lookup, calibration gate and charge
    (`beam_plots.dfy`);
  - the online display's temperature capture, event counter, follow rule
    and Gray-code temperature decode (`main_window.dfy`).

Bit helpers live in `bits.dfy` and an `Option` type in `wrappers.dfy`.
C++ `uint` is modelled with an explicit wrap modulo 2^32 (`KpixCalib.ToUint`)
where the code converts, and for the display's event counter. `double` is
modelled as `real`.

## Model

| member | source | states |
|---|---|---|
| KpixCalib.ToUint | software/kpixSw_3.00/kpix/KpixCalibRead.cpp:108 | an int that fits in 32 bits converts to itself as a `uint` |
| KpixCalib.Atoi | software/kpixSw_3.00/kpix/KpixCalibRead.cpp:108 | only a leading '-' gives a negative value, and text that starts with neither a sign nor a digit reads as 0 |
| KpixCalib.AtoiOfDigits | software/kpixSw_3.00/kpix/KpixCalibRead.cpp:108 | `atoi` of a string of decimal digits is its decimal value |
| KpixCalib.AtoiOfDecimal | software/kpixSw_3.00/kpix/KpixCalibRead.cpp:108 | `atoi` reads back every unsigned id written in decimal |
| KpixCalib.NegativeIdWraps | software/kpixSw_3.00/kpix/KpixCalibRead.cpp:108 | example: id "-1" is -1 for `atoi` and 2^32-1 once stored in the `uint` index (the all-inputs wrap is `ToUint`'s contract) |
| KpixCalib.AtoiExample | software/kpixSw_3.00/kpix/KpixCalibRead.cpp:108 | example: `atoi("2000")` is 2000 (the all-inputs facts are `AtoiOfDigits` and `AtoiOfDecimal`) |
| KpixCalib.FieldTagRoundTrip | software/kpixSw_3.00/kpix/KpixCalibRead.cpp:136-145 | exactly the ten field tags select a field, each tag its own field |
| KpixCalib.SetField | software/kpixSw_3.00/kpix/KpixCalibRead.cpp:136-145 | a field assignment changes that field and keeps the other nine |
| KpixCalib.SlotIndexLayout | software/kpixSw_3.00/kpix/KpixCalibRead.cpp:177 | every in-table (channel, bucket, range) has its own position inside the 1024x4x2 table |
| KpixCalib.FreshAsic | software/kpixSw_3.00/kpix/KpixCalibRead.cpp:166 | a new asic entry is a full table of zero slots |
| KpixCalib.GetValue | software/kpixSw_3.00/kpix/KpixCalibRead.cpp:181-258 | a getter reads 0.0 when findKpix(..., false) finds nothing, else the stored field |
| KpixCalib.Lookup | software/kpixSw_3.00/kpix/KpixCalibRead.cpp:153-178 | a slot's constants are found iff the slot is inside the 1024x4x2 table and the serial is known (the corrected channel bound, see Findings) |
| KpixCalib.StoreWrite | software/kpixSw_3.00/kpix/KpixCalibRead.cpp:136-145 | a write keeps the store well formed and adds at most the written serial |
| KpixCalib.ReadAfterWrite | software/kpixSw_3.00/kpix/KpixCalibRead.cpp:136-145 | seen through the getters, a write changes exactly the written field of the written slot |
| KpixCalib.AbsentReadsZero | software/kpixSw_3.00/kpix/KpixCalibRead.cpp:181-258 | a serial never written reads 0.0 in every field of every slot |
| KpixCalib.FindGuardAdmitsChannel1024 | software/kpixSw_3.00/kpix/KpixCalibRead.cpp:158-160 | the guard as written admits channel 1024, whose slot lies past the table |
| KpixCalib.FindGuardCorrected | software/kpixSw_3.00/kpix/KpixCalibRead.cpp:158-160 | the corrected guard admits exactly the slots in the table: the written guard minus channel 1024 |
| KpixCalib.WalkLevel | software/kpixSw_3.00/kpix/KpixCalibRead.cpp:80-150 | a walk keeps the store well formed and never removes a serial (what each text child writes is `LeafWrite`) |
| KpixCalib.WalkChildren | software/kpixSw_3.00/kpix/KpixCalibRead.cpp:97-149 | the child loop keeps the store well formed and never removes a serial (what each text child writes is `LeafWrite`) |
| KpixCalib.LeafWrite | software/kpixSw_3.00/kpix/KpixCalibRead.cpp:127-146 | a text child under a field tag, with the locals naming a slot in the table, stores the current value into that field of that slot, which then reads back as the value; under any other tag or outside the table the store is unchanged |
| KpixCalib.IdNum | software/kpixSw_3.00/kpix/KpixCalibRead.cpp:106-114 | 0 without an id; an id of decimal digits that fits a `uint` is its own number |
| KpixCalib.Override | software/kpixSw_3.00/kpix/KpixCalibRead.cpp:116-120 | Channel, Bucket and Range set their own local to the id read as a number (0 when absent); kpixAsic sets the serial to the id text (empty when absent); any other tag changes nothing, and the text value is never touched |
| KpixCalib.TakeValue | software/kpixSw_3.00/kpix/KpixCalibRead.cpp:127-132 | a text node changes only the value, and one that reads no number keeps the previous value |
| KpixCalib.LocalsScoping | software/kpixSw_3.00/kpix/KpixCalibRead.cpp:91-123 | the loop's context after n children depends only on the direct children: the overrides last for later siblings and never reach the caller |
| KpixCalib.NoFieldNoWrite | software/kpixSw_3.00/kpix/KpixCalibRead.cpp:136-145 | a subtree with no element named after a field writes nothing |
| KpixCalib.NoFieldNoWriteKids | software/kpixSw_3.00/kpix/KpixCalibRead.cpp:97-149 | the same for the child loop |
| KpixCalib.OutOfTableNoWrite | software/kpixSw_3.00/kpix/KpixCalibRead.cpp:135-146 | a subtree entered with an out-of-table context that sets no slot writes nothing and creates no entry |
| KpixCalib.OutOfTableNoWriteKids | software/kpixSw_3.00/kpix/KpixCalibRead.cpp:117-146 | the same for the child loop, which also keeps the channel, bucket and range it started with |
| KpixCalib.ChannelScopeExample | software/kpixSw_3.00/kpix/KpixCalibRead.cpp:117-123 | example (the all-inputs fact is `LocalsScoping`): a Channel id 2000 override drops the values below it and after it in its group; the value after the group is stored under the caller's channel 5 |
| KpixCalib.KpixCalibRead.constructor | software/kpixSw_3.00/kpix/KpixCalibRead.cpp:29-32 | the reader starts with no serials |
| KpixCalib.KpixCalibRead.FindKpix | software/kpixSw_3.00/kpix/KpixCalibRead.cpp:153-178 | with the corrected channel bound (channel < 1024, see Findings): a slot is found iff it is in the table and the serial is known or `create` is set; only then is a new serial inserted, as a fresh table; without `create` the map is unchanged |
| KpixCalib.KpixCalibRead.Get | software/kpixSw_3.00/kpix/KpixCalibRead.cpp:181-258 | a getter reads 0.0 unless the slot is in the table and the serial known, and then the stored field of that slot |
| KpixCalib.KpixCalibRead.ParseXmlLevel | software/kpixSw_3.00/kpix/KpixCalibRead.cpp:80-150 | the loop over the children leaves the store equal to the recursive walk `WalkLevel` |
| KpixCalib.KpixCalibRead.Parse | software/kpixSw_3.00/kpix/KpixCalibRead.cpp:41-77 | fails, changing nothing, without a document; otherwise merges the walk into the existing store (serials are never removed) |
| ChannelStats.SqDevFromNonNegative | software/kpixSw_3.00/root/calibrationFitter.cpp:84 | a sum of squared deviations is never negative |
| ChannelStats.WelfordAlgebra | software/kpixSw_3.00/root/calibrationFitter.cpp:83-84 | the algebra of one Welford step: (k+1)m' = km + x, and adding (x-m)(x-m') to a second moment q - km² gives (q + x²) - (k+1)m'² |
| ChannelStats.WelfordStepExact | software/kpixSw_3.00/root/calibrationFitter.cpp:80-84 | one step from the exact count, mean and M2 of xs gives those of xs + [x] |
| ChannelStats.Accumulate | software/kpixSw_3.00/root/calibrationFitter.cpp:78 | the running count is the number of points |
| ChannelStats.AccumulateIsTwoPass | software/kpixSw_3.00/root/calibrationFitter.cpp:80-84 | after any points the running mean is their arithmetic mean, and M2 is their sum of squared deviations, which is non-negative |
| ChannelStats.MinMaxOfPoints | software/kpixSw_3.00/root/calibrationFitter.cpp:76-77 | the running min/max bound every point and are a point or the initial value |
| ChannelStats.BaselineStep | software/kpixSw_3.00/root/calibrationFitter.cpp:74-85 | addBasePoint's updates keep histogram, extremes and moments exact for the points seen |
| ChannelStats.ChannelData.constructor | software/kpixSw_3.00/root/calibrationFitter.cpp:55-72 | all bins 0, baseMin 8192, baseMax 0, all counts, means, sums and rms 0 |
| ChannelStats.ChannelData.AddBasePoint | software/kpixSw_3.00/root/calibrationFitter.cpp:74-85 | exactly bin `data` and the count gain one; the min/max are updated; the moments stay exact |
| ChannelStats.ChannelData.AddCalibPoint | software/kpixSw_3.00/root/calibrationFitter.cpp:87-95 | only DAC level x's count, mean and sum change, with the Welford invariant per level; the baseline is untouched |
| ChannelStats.ChannelData.Compute | software/kpixSw_3.00/root/calibrationFitter.cpp:97-104 | an rms becomes sqrt(sum/count) only where the count is positive; elsewhere it keeps its value |
| ChannelStats.ChannelDataMeaning | software/kpixSw_3.00/root/calibrationFitter.cpp:41-95 | baseline and per-level mean/sum are the arithmetic mean and squared deviations of the points seen; min/max are the least and greatest point |
| CalibrationFitter.CalibVolt | software/kpixSw_3.00/root/calibrationFitter.cpp:112-113 | between 0 and 2.5 V for an 8-bit code; a code above 0xff wraps `0xff - dac` and lands 1.28 V or more below full scale |
| CalibrationFitter.CalibCharge | software/kpixSw_3.00/root/calibrationFitter.cpp:108-121 | for an 8-bit code the charge lies between 0 and 2.5 V x 200 fF (x22 with high calib) |
| CalibrationFitter.CalibVoltIsDacToVolt | software/kpixSw_3.00/root/calibrationFitter.cpp:112-113 | the fitter's DAC voltage is the register description's `dacToVolt` for every 8-bit code |
| CalibrationFitter.CalibChargeShape | software/kpixSw_3.00/root/calibrationFitter.cpp:108-121 | 0 at code 0 and 2.5 V x 200 fF at 255; bounded by full scale (x22 with high calib); decreasing with positive polarity, increasing otherwise |
| CalibrationFitter.InjectTimes | software/kpixSw_3.00/root/calibrationFitter.cpp:225-233 | five bounds, the first being Cal0Delay and the last 8192 |
| CalibrationFitter.InWindow | software/kpixSw_3.00/root/calibrationFitter.cpp:257 | a time falls in a bucket's window only if the window's bounds are in order with room between them |
| CalibrationFitter.InjectWindowsOrdered | software/kpixSw_3.00/root/calibrationFitter.cpp:229-257 | when nothing wraps the bounds increase and a time lies in at most one bucket window |
| CalibrationFitter.Route | software/kpixSw_3.00/root/calibrationFitter.cpp:249-265 | non-data samples are skipped; baseline iff in window and state "Baseline"; calibration iff in window, state "Inject" and the calibration channel, with the event's DAC |
| CalibrationFitter.ApplyAction | software/kpixSw_3.00/root/calibrationFitter.cpp:257-265 | a route adds its point to exactly the baseline or the DAC level it names |
| CalibrationFitter.DataSlotsMembers | software/kpixSw_3.00/root/calibrationFitter.cpp:249-254 | the entries created are exactly the slots of the data samples |
| CalibrationFitter.FitterRun.constructor | software/kpixSw_3.00/root/calibrationFitter.cpp:169-178 | no entries and nothing found |
| CalibrationFitter.FitterRun.Touch | software/kpixSw_3.00/root/calibrationFitter.cpp:252-254 | the sample's entry exists from now on, and found kpix/channels stay those of the entries |
| CalibrationFitter.FitterRun.ProcessEvent | software/kpixSw_3.00/root/calibrationFitter.cpp:217-277 | the first event fixes channel range and windows; every data sample's entry exists; each sample gets its `Route`; the event count grows by one |
| CalibrationFitter.RangeWrittenExactly | software/kpixSw_3.00/root/calibrationFitter.cpp:330-338 | with the intended bucket test, a Range element is written exactly for each entry in the channel range |
| CalibrationFitter.RangeWrittenAsWrittenNeedsRange0 | software/kpixSw_3.00/root/calibrationFitter.cpp:330 | as written, an entry is written only when its bucket also has a range-0 entry |
| CalibrationFitter.Range1OnlyIsDropped | software/kpixSw_3.00/root/calibrationFitter.cpp:330 | a bucket whose only entry is range 1 is dropped as written and kept with the intended test |
| CalibrationFitter.DacsWithPoints | software/kpixSw_3.00/root/calibrationFitter.cpp:365-368 | the listed DAC levels are below the bound |
| CalibrationFitter.DacsWithPointsExactly | software/kpixSw_3.00/root/calibrationFitter.cpp:364-375 | the graph's levels are exactly those with a positive count, in increasing order |
| CalibrationFitter.CalibGraph | software/kpixSw_3.00/root/calibrationFitter.cpp:364-375 | one point per level with points, in DAC order: x is the charge (high factor only for bucket 0), y the mean, y-error the rms, x-error 0 |
| AsicRegisters.Flip | software/python/KpixDaq/_KpixAsic.py:4-13 | a value that fits the field stays in the field |
| AsicRegisters.FlippedToBytes | software/python/KpixDaq/_KpixAsic.py:6-8 | the flipped value goes through pr.UInt's range check: every value that fits the field is accepted, a negative value is refused, and whatever is accepted fits the field |
| AsicRegisters.FlippedFromBytes | software/python/KpixDaq/_KpixAsic.py:11-13 | the same flip applied to the raw field read back; the value of a raw field that fits it fits it |
| AsicRegisters.FlipOversizedAccepted | software/python/KpixDaq/_KpixAsic.py:6-8 | `zfill` does not truncate, so a value too wide for the field can be accepted as a different one: 2 in a 1-bit field is stored as 1 |
| AsicRegisters.PaddedDigits | software/python/KpixDaq/_KpixAsic.py:7 | the zero-filled binary digits of v have the width and parse back to v |
| AsicRegisters.FlipRoundTrip | software/python/KpixDaq/_KpixAsic.py:4-13 | toBytes accepts every v below 2^bitSize and `fromBytes(toBytes(v))` is v |
| AsicRegisters.FlipBits | software/python/KpixDaq/_KpixAsic.py:7 | bit i of the flipped value is bit bitSize - 1 - i of the value: the conversion is the bit reversal within the field |
| AsicRegisters.PyRound | software/python/KpixDaq/_KpixAsic.py:172 | `round` is within one half of its argument, and a tie goes to the even integer |
| AsicRegisters.PyRoundOfInteger | software/python/KpixDaq/_KpixAsic.py:173 | `round` of an integer is that integer |
| AsicRegisters.StoreUInt | software/python/KpixDaq/_KpixAsic.py:162-167 | a value is stored iff it fits the field's width, and then unchanged |
| AsicRegisters.TrigInhibitOffGet | software/python/KpixDaq/_KpixAsic.py:172 | the value read is the nearest number of 8-tick steps in TimerD - delay - 1 |
| AsicRegisters.TrigInhibitOffSet | software/python/KpixDaq/_KpixAsic.py:173 | a stored TimerD fits 32 bits and is delay + 1 modulo 8 |
| AsicRegisters.TrigInhibitOffRoundTrip | software/python/KpixDaq/_KpixAsic.py:162-173 | setting v succeeds iff 8 round(v) + delay + 1 fits the 32-bit TimerD; then reading back gives round(v), and v itself for an integer, with TimerD = 8v + delay + 1 |
| AsicRegisters.BunchClockCountGet | software/python/KpixDaq/_KpixAsic.py:186 | a 16-bit raw value reads as a count in 1..65536 |
| AsicRegisters.BunchClockCountSet | software/python/KpixDaq/_KpixAsic.py:187 | a stored raw value fits 16 bits |
| AsicRegisters.BunchClockCountRoundTrip | software/python/KpixDaq/_KpixAsic.py:176-187 | setting a count succeeds iff it is in 1..65536, and then reads back; every 16-bit raw value survives get-then-set |
| AsicRegisters.DacSet | software/python/KpixDaq/_KpixAsic.py:238-250 | succeeds exactly for 0..255, the range of the 8-bit raw fields, and then every raw byte receives the value; otherwise nothing changes |
| AsicRegisters.DacGet | software/python/KpixDaq/_KpixAsic.py:256 | writing back what was read restores the register iff its four bytes agree |
| AsicRegisters.DacRoundTrip | software/python/KpixDaq/_KpixAsic.py:238-257 | a set succeeds iff the value is in 0..255, and the link then reads back what was set; a register with four equal bytes is rebuilt by set(get) |
| AsicRegisters.DacToVolt | software/python/KpixDaq/_KpixAsic.py:260-265 | every code gives a voltage between 0 and 2.5 V |
| AsicRegisters.DacToVoltShape | software/python/KpixDaq/_KpixAsic.py:260-265 | 0 V at code 0, 2.5 V at 0xff, within [0, 2.5], strictly increasing |
| AsicRegisters.LetterBit | software/python/KpixDaq/_KpixAsic.py:469 | the reverse table yields bits |
| AsicRegisters.LetterBitsInverse | software/python/KpixDaq/_KpixAsic.py:465-469 | the table d and its reverse drev are inverse to each other |
| AsicRegisters.RowLetters | software/python/KpixDaq/_KpixAsic.py:475-477 | one letter per row, 32 in all |
| AsicRegisters.JoinGroups | software/python/KpixDaq/_KpixAsic.py:478 | four groups of eight joined by single spaces make 35 characters |
| AsicRegisters.ChanModeString | software/python/KpixDaq/_KpixAsic.py:471-480 | 35 characters, with the group-separating spaces at 8, 17 and 26 |
| AsicRegisters.GetChanMode | software/python/KpixDaq/_KpixAsic.py:471-480 | the loop builds the mode string of the register pair |
| AsicRegisters.ChanModeStringLayout | software/python/KpixDaq/_KpixAsic.py:471-480 | 35 characters, spaces at 8, 17 and 26, the mode letter of row r at r + r/8 |
| AsicRegisters.StripWhitespace | software/python/KpixDaq/_KpixAsic.py:483 | stripping never lengthens |
| AsicRegisters.StripChanModeString | software/python/KpixDaq/_KpixAsic.py:483 | stripping the mode string leaves its 32 letters |
| AsicRegisters.AssembleRegs | software/python/KpixDaq/_KpixAsic.py:484-489 | the OR loop computes the registers of the letters, or fails on a non-letter or a short string |
| AsicRegisters.SetChanMode | software/python/KpixDaq/_KpixAsic.py:482-494 | strip then assemble |
| AsicRegisters.AssembleSum | software/python/KpixDaq/_KpixAsic.py:486-489 | each OR lands above the bits already set, so the register stays below 2^n |
| AsicRegisters.AssembleBits | software/python/KpixDaq/_KpixAsic.py:486-489 | bit r of an assembled register is the bit of letter r |
| AsicRegisters.LettersRegs | software/python/KpixDaq/_KpixAsic.py:484-489 | letters spelling the bits of two 32-bit values assemble to exactly those values |
| AsicRegisters.ChanModeRoundTrip | software/python/KpixDaq/_KpixAsic.py:471-494 | setting a column from its mode string restores both 32-bit registers |
| AsicRegisters.ChanModeCanonical | software/python/KpixDaq/_KpixAsic.py:471-494 | an accepted string yields 32-bit registers whose mode string is the accepted letters in canonical spacing |
| AsicRegisters.AllD | software/python/KpixDaq/_KpixAsic.py:582 | the old column's mode string is 32 letters |
| AsicRegisters.CalRowString | software/python/KpixDaq/_KpixAsic.py:586 | the new column's mode string is 32 letters |
| AsicRegisters.AllDRegs | software/python/KpixDaq/_KpixAsic.py:582-583 | an all-'D' column sets every A bit and clears every B bit |
| AsicRegisters.CalRowRegs | software/python/KpixDaq/_KpixAsic.py:586-587 | the calibration column sets every A bit and only the row's B bit |
| AsicRegisters.CalColumnShows | software/python/KpixDaq/_KpixAsic.py:586-587 | read back, the calibration column shows 'C' at the row and 'D' elsewhere |
| AsicRegisters.KpixAsic.constructor | software/python/KpixDaq/_KpixAsic.py:22 | calChannel starts at 0 and the registers at 0 |
| AsicRegisters.KpixAsic.SetColumn | software/python/KpixDaq/_KpixAsic.py:496-503 | succeeds iff the column exists and the string is accepted, then writes exactly that column's pair; otherwise writes nothing |
| AsicRegisters.KpixAsic.SetCalibration | software/python/KpixDaq/_KpixAsic.py:574-588 | a DAC value outside 0..255 fails with nothing changed; otherwise loads the DAC, the old column becomes all 'D', the new column all 'D' but 'C' at the row, winning if the columns coincide, and calChannel becomes the channel; succeeds iff both the DAC value and the channel are in range |
| SampleView.MaxAddress | kpixSw_1.02/gui/KpixGuiSampleView.cc:92-96 | the largest asic address: bounds every address and is one of them (0 without asics) |
| SampleView.GainIndex | kpixSw_1.02/gui/KpixGuiSampleView.cc:192-195 | the gain index is 0, 1 or 2 |
| SampleView.SampleCharge | kpixSw_1.02/gui/KpixGuiSampleView.cc:204-205 | the raw value without a gain, otherwise the charge c with c x gain + intercept = value |
| SampleView.SelectGain | kpixSw_1.02/gui/KpixGuiSampleView.cc:192-195 | the successive reassignments give the priority rule: double gain 1, else forced low or range 1 gives 2, else 0 |
| SampleView.CopyEventVars | kpixSw_1.02/gui/KpixGuiSampleView.cc:81-89 | a fresh array holding a copy of each event variable |
| SampleView.MaxAsicAddress | kpixSw_1.02/gui/KpixGuiSampleView.cc:92-96 | the loop computes the largest address |
| SampleView.BuildLookup | kpixSw_1.02/gui/KpixGuiSampleView.cc:100-103 | every asic's address maps to the index of the last asic with that address |
| SampleView.KpixGuiSampleView.constructor | kpixSw_1.02/gui/KpixGuiSampleView.cc:30-36 | no run, no tables, count 0 |
| SampleView.KpixGuiSampleView.SetRunData | kpixSw_1.02/gui/KpixGuiSampleView.cc:54-106 | with a run: fresh copies of the event variables and a lookup of size max address + 1; without one, both tables NULL and the count 0 |
| SampleView.KpixGuiSampleView.SampleFigures | kpixSw_1.02/gui/KpixGuiSampleView.cc:131-205 | the looked-up index, the gain index of asic 0's bits and the charge |
| SampleView.LookupFindsAsic | kpixSw_1.02/gui/KpixGuiSampleView.cc:100-103 | any asic's address is inside the table and looks up an asic with that address |
| InjectTestRead.RFind | software/kpixSw_3.00/root/injectTestRead.cpp:43 | the last index of the character, -1 when absent |
| InjectTestRead.RemovePath | software/kpixSw_3.00/root/injectTestRead.cpp:40-46 | a suffix without '/', preceded by '/' when shorter, the whole name when there is no '/' |
| InjectTestRead.RemovePathIdempotent | software/kpixSw_3.00/root/injectTestRead.cpp:40-46 | stripping twice is stripping once |
| InjectTestRead.GoodChannel | software/kpixSw_3.00/root/injectTestRead.cpp:65-92 | good iff on neither the global list nor the asic's own list |
| InjectTestRead.GoodChannelLists | software/kpixSw_3.00/root/injectTestRead.cpp:70-91 | global channels bad for all asics; other asics than 0, 2, 7 use only the global list; (1,100) good, (3,13) bad, and further samples |
| InjectTestRead.KeyRange | software/kpixSw_3.00/root/injectTestRead.cpp:51-52 | the key's 32-aligned block of 32 holds the channel |
| InjectTestRead.KeyRangeUnique | software/kpixSw_3.00/root/injectTestRead.cpp:51-52 | it is the only such block |
| InjectTestRead.GetChannelModeAsWritten | software/kpixSw_3.00/root/injectTestRead.cpp:48-62 | as written, on a string of at most the mode string's 35 characters every channel from 4 up finds nothing |
| InjectTestRead.Position | software/kpixSw_3.00/root/injectTestRead.cpp:58-60 | the corrected position is where the mode string shows row channel % 32, below 35 |
| InjectTestRead.GetChannelMode | software/kpixSw_3.00/root/injectTestRead.cpp:48-63 | with the corrected position, a string of at least 35 characters always yields the character where the letter of row channel % 32 is shown |
| InjectTestRead.ChannelModeReadsRow | software/kpixSw_3.00/root/injectTestRead.cpp:48-63 | with the corrected position, a mode string yields the letter of the channel's row |
| InjectTestRead.ChannelModeAsWrittenMisreads | software/kpixSw_3.00/root/injectTestRead.cpp:58-62 | as written, channels from 4 up index past the 35 characters, and channel 1 reads another row's letter |
| InjectTestRead.FiguresOf | software/kpixSw_3.00/root/injectTestRead.cpp:243-250 | mean and gain are the store's getters for the slot; the bad flag is the input |
| InjectTestRead.FoundBad | software/kpixSw_3.00/root/injectTestRead.cpp:252 | a channel without a usable calibration (gain 0, as for an unknown serial) is always found bad |
| InjectTestRead.HitCharge | software/kpixSw_3.00/root/injectTestRead.cpp:265-266 | a charge exists iff the gain is non-zero and the flag clear, and then c x gain + mean = value |
| InjectTestRead.Decide | software/kpixSw_3.00/root/injectTestRead.cpp:238-266 | the low-range count takes every range-1 Data sample; only crosstalk samples of bucket 0 are histogrammed, all of them without the filter and, with it, exactly those whose two channels are good, both gains at or above 3e15 and both flags clear (an if-and-only-if); a charge comes exactly with the histogrammed hits with a usable calibration, and c x gain + mean = value |
| InjectTestRead.UnknownSerialNeverCharged | software/kpixSw_3.00/root/injectTestRead.cpp:243-266 | a serial without calibration never gets a charge and, filtered, is never histogrammed |
| InjectTestRead.MinMaxReal | software/kpixSw_3.00/root/injectTestRead.cpp:271-279 | the running min/max bound every charge and are a charge or the initial value |
| InjectTestRead.TrackTime | software/kpixSw_3.00/root/injectTestRead.cpp:261-262 | only asic k's bounds change, widened to the time |
| InjectTestRead.TrackCharge | software/kpixSw_3.00/root/injectTestRead.cpp:271-272 | only asic k's bounds change, widened to the charge |
| InjectTestRead.AxisRange | software/kpixSw_3.00/root/injectTestRead.cpp:314-317 | the corrected clamp: at most 10 below the minimum, at most 10 above the maximum, and at most 8191, covering every hit in 0..8191 |
| InjectTestRead.AxisRangeAsWritten | software/kpixSw_3.00/root/injectTestRead.cpp:314-317 | as written, from time 10 on the earliest hit lies left of the axis; the upper bound is as meant |
| InjectTestRead.AxisRangeAsWrittenCutsMinimum | software/kpixSw_3.00/root/injectTestRead.cpp:314-315 | as written, hits at 100..200 get the axis 110..210, cutting the earliest |
| InjectTestRead.InjectTest.constructor | software/kpixSw_3.00/root/injectTestRead.cpp:166-202 | time bounds 8192/0, charge bounds +-500e-15, counter 0, nothing seen |
| InjectTestRead.InjectTest.Sample | software/kpixSw_3.00/root/injectTestRead.cpp:238-282 | counter, times and in/out-of-time charges change as `Decide` says; the trackers keep bounding all seen values and only move outward |
| InjectTestRead.InjectTest.AddTime | software/kpixSw_3.00/root/injectTestRead.cpp:259-262 | appends the time to asic k and widens its bounds |
| InjectTestRead.InjectTest.AddInCharge | software/kpixSw_3.00/root/injectTestRead.cpp:269-273 | appends an in-time charge and widens its bounds |
| InjectTestRead.InjectTest.AddOutCharge | software/kpixSw_3.00/root/injectTestRead.cpp:276-280 | appends an out-of-time charge and widens its bounds |
| InjectTestRead.InjectTest.ClampAxes | software/kpixSw_3.00/root/injectTestRead.cpp:311-317 | corrected behaviour (minimum moved down by 10, see Findings): every layer's bounds become the corrected axis range, which contains every histogrammed time up to 8191 |
| InjectTestRead.TrackersMeaning | software/kpixSw_3.00/root/injectTestRead.cpp:175-280 | the bounds enclose every time and charge seen; the time bounds are seen values or still the initial ones |
| BeamPlots.BeamCharge | old-software/kpixSw_3.00/root/beamPlots.cpp:116 | c x gain + mean = value, non-negative above the mean |
| BeamPlots.FillAsWritten | old-software/kpixSw_3.00/root/beamPlots.cpp:89-119 | only a Data sample in the cut fills anything, into the histogram of its own address; a serial the store does not know fills nothing |
| BeamPlots.Fill | old-software/kpixSw_3.00/root/beamPlots.cpp:83-122 | the corrected fill only fills histograms 0..8, and agrees with the code as written for those |
| BeamPlots.FillMeaning | old-software/kpixSw_3.00/root/beamPlots.cpp:89-119 | a charge iff a Data sample in the cut whose serial's slot passes the gate; it is (value - mean)/gain with those very figures |
| BeamPlots.NoCalibrationNoCharge | old-software/kpixSw_3.00/root/beamPlots.cpp:106-115 | an unknown serial (including "" past the list) or an out-of-table slot never yields a charge |
| BeamPlots.OneSerial | old-software/kpixSw_3.00/root/beamPlots.cpp:106-112 | example: a well-formed store for the counterexample (the all-inputs fact is `FillAsWritten`'s contract) |
| BeamPlots.FillAsWrittenPastHistograms | old-software/kpixSw_3.00/root/beamPlots.cpp:119 | as written, a calibrated sample of asic 9 fills hist[9], past the nine histograms |
| BeamPlots.ChargesFor | old-software/kpixSw_3.00/root/beamPlots.cpp:83-122 | at most one charge per sample, and none for a layer past 8 |
| BeamPlots.ChargesForMeaning | old-software/kpixSw_3.00/root/beamPlots.cpp:83-122 | every charge of a layer was filled by some sample into that layer, and only layers 0..8 get any |
| BeamPlots.FillEvent | old-software/kpixSw_3.00/root/beamPlots.cpp:83-122 | corrected behaviour (addresses from 9 up fill nothing, see Findings): each histogram gains exactly the charges of its layer, in sample order |
| OnlineGui.LastTemp | old-software/kpixSw_3.00/onlineGui/MainWindow.cpp:126-133 | an asic's word after the samples is its previous word or the value of one of its temperature samples |
| OnlineGui.LastTempLastWins | old-software/kpixSw_3.00/onlineGui/MainWindow.cpp:126-133 | the last type-1 sample of an asic gives its temperature word |
| OnlineGui.LastTempKeeps | old-software/kpixSw_3.00/onlineGui/MainWindow.cpp:126-133 | without such a sample the word keeps its value |
| OnlineGui.SpinValue | old-software/kpixSw_3.00/onlineGui/MainWindow.cpp:137 | a spin box shows a value in its range unchanged, 0 for a negative value and its maximum for a larger one |
| OnlineGui.IntOfUint | old-software/kpixSw_3.00/onlineGui/MainWindow.cpp:137 | the `uint` passed to `setValue` is read as a two's-complement int: it converts back to the same `uint`, and values from 2^31 up are negative |
| OnlineGui.FollowedChannel | old-software/kpixSw_3.00/onlineGui/MainWindow.cpp:136-137 | following calibration channel c shows c up to 1023, 1023 for a larger c below 2^31, and 0 from 2^31 up |
| OnlineGui.Capped | old-software/kpixSw_3.00/onlineGui/MainWindow.cpp:167-173 | what the eight-bit decomposition sees: below 256, the word itself when it fits |
| OnlineGui.SelectorRange | old-software/kpixSw_3.00/onlineGui/MainWindow.cpp:69 | as written asic 32 is selectable but past tempValues_; every corrected selection is inside |
| OnlineGui.DecomposeStep | old-software/kpixSw_3.00/onlineGui/MainWindow.cpp:168-172 | one comparison step takes bit i of the word and leaves the lower bits |
| OnlineGui.Decompose | old-software/kpixSw_3.00/onlineGui/MainWindow.cpp:167-173 | g[i] is bit i of the (capped) word; the remainder is what lies above 255, 0 for a byte |
| OnlineGui.GrayDecode | old-software/kpixSw_3.00/onlineGui/MainWindow.cpp:176-177 | d[7] = g[7] and d[i] = d[i+1] xor g[i], all bits |
| OnlineGui.Recompose | old-software/kpixSw_3.00/onlineGui/MainWindow.cpp:180-181 | de is below 256 and its bit i is d[i] |
| OnlineGui.Gray | old-software/kpixSw_3.00/onlineGui/MainWindow.cpp:176-181 | the Gray code of an 8-bit word is an 8-bit word |
| OnlineGui.GrayInverse | old-software/kpixSw_3.00/onlineGui/MainWindow.cpp:176-181 | the decoded value's Gray code is the word: de xor (de >> 1) = c |
| OnlineGui.MainWindow.constructor | old-software/kpixSw_3.00/onlineGui/MainWindow.cpp:30-99 | counter 0, temperatures 0, calibration state at rest, positive polarity, selectors at 0 |
| OnlineGui.MainWindow.Select | old-software/kpixSw_3.00/onlineGui/MainWindow.cpp:67-82 | a selection of an asic 0..31 (the corrected asic range, see Findings) and a channel 0..1023, and the follow box |
| OnlineGui.MainWindow.Event | old-software/kpixSw_3.00/onlineGui/MainWindow.cpp:104-140 | status and polarity read; each asic keeps its last type-1 word; the counter grows by one modulo 2^32; the channel follows an injection only when following and different, and then shows the spin box's clamp of the calibration channel read as an int |
| OnlineGui.MainWindow.SelChanged | old-software/kpixSw_3.00/onlineGui/MainWindow.cpp:142-181 | the selected word is decoded to its Gray inverse, below 256 |
| OnlineGui.MainWindow.SelectorAsWrittenReadsPast | old-software/kpixSw_3.00/onlineGui/MainWindow.cpp:69 | for every window, the selector as written offers asic 32, which has no temperature word, while every corrected selection has one |
| OnlineGui.MainWindow.ResetPressed | old-software/kpixSw_3.00/onlineGui/MainWindow.cpp:191-198 | the counter restarts at 0 and the display is refreshed |

## Left out

- File reading and libxml2 in `parse` are left out. The document arrives as an `Option` of an abstract tree, and `None` stands for an unopenable file or an unparsable document.
- `sscanf("%lf")` is not modelled. A text node carries its conversion, or `None` when the conversion fails, in which case `value` keeps its previous value. The uninitialised first `value` is modelled as 0.0.
- The layout and constructor of `KpixCalibAsic`/`KpixCalibData` are not part of this model. A new asic's slots are taken to be zero.
- `badChannel` of the calibration reader is not part of this model. It is an input: a function, or the per-sample bad flag.
- ROOT fitting, histograms, graphs, canvases and the `ps2pdf` calls are left out. The fit results that the fitter writes to XML are not modelled. The calibration graph is modelled as arrays of points.
- The XML text the fitter emits is left out, apart from which Bucket/Range elements are written and which calibration points are kept.
- `sqrt` in `compute` is a parameter, since floating point is not modelled. All `double` arithmetic is exact `real` arithmetic, with no rounding.
- DataRead/KpixEvent streaming is left out. Events and samples arrive as sequences, and configuration and status values arrive as parameters.
- CalibrationFitter.FitterRun.ProcessEvent returns each sample's route instead of applying it. `ApplyAction` applies a route to one `ChannelData`; the 32x1024x4x2 table of `ChannelData` objects is modelled as the set of its non-NULL entries.
- The progress display and file-position arithmetic are left out.
- The pyrogue wiring is left out: remote variables, blocks, `writeBlocks`/`verifyBlocks`/`checkBlocks`, and the `LocalKpix` overrides. `setDisp` on a column that does not exist is modelled as a failure that writes nothing.
- `pr.UInt.toBytes`/`fromBytes` are modelled only by their range check (`StoreUInt`), which the TimerD, BunchClockCountRaw, DAC and flipped-field writes go through: a value that does not fit the field is refused and the field keeps its value. The byte layout is not modelled.
- AsicRegisters.FlippedToBytes applies the range check to the flipped value, as the source does, so a value wider than the field is not always refused (`FlipOversizedAccepted`).
- Qt widgets are left out. The spin boxes' clamping is modelled as `SpinValue`, and the displayed texts are not modelled.
- The temperature formula at MainWindow.cpp line 184 is left out, because it is floating point.
- Wrap-around of `uint` is modelled only for these expressions: `0xff - dac` in `CalibVolt`, the chained delay sums t1..t3 in `InjectTimes`, the display's event counter `dCount`, the `uint`-to-`int` conversion `IntOfUint`, and the ids converted by `(uint)atoi`. These counters are unbounded `nat` and never wrap: the fitter's `eventCount`, the injection reader's `lowRangeCnt`, and the `uint baseData[8192]` bins of `ChannelData`. The `double` counters `baseCount` and `calibCount[256]` are exact `real`s with no rounding.
- The beam plots reader rereads the serial list every event, because its `count` is never incremented. This is not modelled; the list is a parameter. The second reader's `meanNn` is read but unused, and is left out.
- InjectTestRead.GetChannelMode assumes that the configuration string has the layout `getChanMode` produces. That function is never called from `main`. The 3.00 reader looks the string up under the zero-padded key `Chan_%04i_%04i` (for example `Chan_0000_0031`), while the Python description names the column `Chan_0_31`; the key lookup is not modelled and the string is an input.
- InjectTestRead.InjectTest.Sample requires an asic address below 9. The source indexes its nine-entry arrays with the address unchecked, and a larger address is undefined behaviour there.
- OnlineGui.MainWindow.Event requires the asic of every type-1 sample to be below 32. `tempValues_` is indexed unchecked, and a larger address is undefined behaviour.
- SampleView.KpixGuiSampleView.SampleFigures requires the sample's address to lie inside the lookup table. The source indexes it unchecked.
- SampleView.KpixGuiSampleView.SampleFigures takes the gain and intercept as inputs. The 1.02 `getCalibData` that produces them is not part of this model.
- InjectTestRead.TrackersMeaning does not say that the charge bounds are seen charges. They can also stay at their initial ±500e-15 when every charge lies inside those bounds.
- KpixCalib.KpixCalibRead.FindKpix, KpixCalib.Lookup and KpixCalib.GetValue use the corrected channel bound and refuse channel 1024. As written, `findKpix` lets channel 1024 through and indexes one channel past the table, which is undefined behaviour; the model does not capture that read or write (see Findings).
- CalibrationFitter.Route, CalibrationFitter.FitterRun.Touch and CalibrationFitter.FitterRun.ProcessEvent require every Data sample to have kpix < 32, channel < 1024, bucket < 4 and range < 2. The source indexes `chanData[kpix][channel][bucket][range]` unchecked, and a sample outside those bounds is undefined behaviour there.
- OnlineGui.MainWindow.Select and OnlineGui.MainWindow.Valid admit asics 0..31 only. The spin box as written also offers 32, at which `selChanged` reads `tempValues_[32]` past the array, which is undefined behaviour (see Findings).
- BeamPlots.FillEvent and InjectTestRead.InjectTest.ClampAxes model the corrected behaviour: addresses from 9 up fill no histogram, and the axis minimum moves down by 10. The as-written write past `hist[8]` and the `minVal += 10` are captured only by `FillAsWrittenPastHistograms` and `AxisRangeAsWrittenCutsMinimum` (see Findings).
- ChannelStats.Accumulate states only the count in its own contract. The mean and second moment are stated by `AccumulateIsTwoPass`.

## Findings

| source | as written | input that shows it | evidently intended | confidence | as-written member | corrected member |
|---|---|---|---|---|---|---|
| software/kpixSw_3.00/kpix/KpixCalibRead.cpp:158 | `channel > 1024` rejects channels from 1025 | channel 1024, bucket 0, range 0 passes the guard; its slot is past the 1024-channel table | reject channel >= 1024 | high (not executed) | KpixCalib.FindGuardAdmitsChannel1024 | KpixCalib.KpixCalibRead.FindKpix |
| software/kpixSw_3.00/root/calibrationFitter.cpp:330 | tests `[bucket][0] != NULL` twice | a bucket whose only entry is range 1 writes no Bucket and no Range element | test range 0 or range 1 | high (not executed) | CalibrationFitter.Range1OnlyIsDropped | CalibrationFitter.RangeWrittenExactly |
| software/kpixSw_3.00/root/injectTestRead.cpp:60 | position = channel*8 + group + offset | mode string of A = 2, B = 0: channel 1 reads 'B' of row 8 instead of its 'D'; channels from 4 up index past 35 characters | position = group*9 + offset | medium (not executed) | InjectTestRead.ChannelModeAsWrittenMisreads | InjectTestRead.ChannelModeReadsRow |
| software/kpixSw_3.00/root/injectTestRead.cpp:315 | `minVal += 10` | hits at times 100..200 get the axis 110..210 | minVal -= 10 | high (not executed) | InjectTestRead.AxisRangeAsWrittenCutsMinimum | InjectTestRead.InjectTest.ClampAxes |
| old-software/kpixSw_3.00/root/beamPlots.cpp:119 | `hist[addr]` with addr up to 31 (and beyond) against `hist[9]` | a calibrated sample of asic 9 in the cut fills hist[9] | fill only addresses below 9 | medium (not executed) | BeamPlots.FillAsWrittenPastHistograms | BeamPlots.FillEvent |
| old-software/kpixSw_3.00/onlineGui/MainWindow.cpp:69 | asic spin box maximum 32 | selecting asic 32 reads tempValues_[32], one past the 32 entries | maximum 31 | high (not executed) | OnlineGui.MainWindow.SelectorAsWrittenReadsPast | OnlineGui.MainWindow.SelChanged |
