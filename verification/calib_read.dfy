/** The calibration-constant store and its XML reader, KpixCalibRead
    (software/kpixSw_3.00/kpix/KpixCalibRead.cpp). Constants live per
    (serial, channel, bucket, range) slot; the reader walks an element tree
    carrying that context down and writes one of ten named fields for each
    text value it meets. The XML document is an abstract tree. */
module KpixCalib {
  import opened Wrappers

  // ---------------------------------------------------------------------
  // C integers: uint, atoi
  // ---------------------------------------------------------------------

  /** A C++ `uint` (32 bits). */
  type Uint = x: int | 0 <= x < 0x1_0000_0000

  /** Conversion of an `int` to `uint`: modulo 2^32. */
  function ToUint(x: int): (u: Uint)
    ensures 0 <= x < 0x1_0000_0000 ==> u == x
  {
    x % 0x1_0000_0000
  }

  /** isspace() in the C locale. */
  predicate IsCSpace(c: char) {
    c == ' ' || ('\t' <= c <= '\r')
  }

  predicate IsDigit(c: char) {
    '0' <= c <= '9'
  }

  predicate AllDigits(s: string) {
    forall i :: 0 <= i < |s| ==> IsDigit(s[i])
  }

  function SkipSpace(s: string): (r: string)
    ensures |r| <= |s|
  {
    if s != [] && IsCSpace(s[0]) then SkipSpace(s[1..]) else s
  }

  /** Length of the run of digits `s` starts with. */
  function DigitRun(s: string): (k: nat)
    ensures k <= |s|
  {
    if s != [] && IsDigit(s[0]) then 1 + DigitRun(s[1..]) else 0
  }

  function DecimalValue(ds: string): nat
    requires AllDigits(ds)
  {
    if ds == [] then 0
    else 10 * DecimalValue(ds[..|ds| - 1]) + (ds[|ds| - 1] as int - '0' as int)
  }

  /** The value of the digit run `s` starts with. */
  function LeadingNumber(s: string): nat {
    var k := DigitRun(s);
    assert AllDigits(s[..k]) by { DigitRunDigits(s); }
    DecimalValue(s[..k])
  }

  lemma {:induction false} DigitRunDigits(s: string)
    ensures forall i :: 0 <= i < DigitRun(s) ==> IsDigit(s[i])
  {
    if s != [] && IsDigit(s[0]) {
      DigitRunDigits(s[1..]);
    }
  }

  /** atoi: leading white space, an optional sign, then as many decimal
      digits as follow; no digits gives 0. (Overflow is undefined in C and
      not modelled: the value is exact.) Only a leading '-' makes the value
      negative, and text that starts with neither a sign nor a digit reads
      as 0. */
  function Atoi(s: string): (n: int)
    ensures n < 0 ==> SkipSpace(s) != [] && SkipSpace(s)[0] == '-'
    ensures SkipSpace(s) == [] || !(IsDigit(SkipSpace(s)[0]) || SkipSpace(s)[0] == '-' || SkipSpace(s)[0] == '+') ==> n == 0
  {
    var t := SkipSpace(s);
    if t != [] && t[0] == '-' then -(LeadingNumber(t[1..]) as int)
    else if t != [] && t[0] == '+' then LeadingNumber(t[1..])
    else LeadingNumber(t)
  }

  /** How `<<` writes an unsigned number: decimal digits, no sign, no
      leading zeros. */
  function DecimalString(n: nat): (s: string)
    ensures s != [] && AllDigits(s)
  {
    if n < 10 then ['0' + n as char]
    else DecimalString(n / 10) + ['0' + (n % 10) as char]
  }

  lemma {:induction false} DecimalValueOfString(n: nat)
    ensures DecimalValue(DecimalString(n)) == n
  {
    if n >= 10 {
      DecimalValueOfString(n / 10);
      var s := DecimalString(n);
      assert s[..|s| - 1] == DecimalString(n / 10);
    }
  }

  lemma {:induction false} DigitRunAll(s: string)
    requires AllDigits(s)
    ensures DigitRun(s) == |s|
  {
    if s != [] {
      DigitRunAll(s[1..]);
    }
  }

  /** atoi of a string of decimal digits is its decimal value. */
  lemma AtoiOfDigits(s: string)
    requires AllDigits(s)
    ensures Atoi(s) == DecimalValue(s)
  {
    DigitRunAll(s);
    assert s[..|s|] == s;
  }

  /** atoi reads back every id the emitter writes. */
  lemma AtoiOfDecimal(n: nat)
    ensures Atoi(DecimalString(n)) == n
  {
    AtoiOfDigits(DecimalString(n));
    DecimalValueOfString(n);
  }

  /** A negative id wraps to a huge uint; "-1" becomes 2^32 - 1. */
  lemma NegativeIdWraps()
    ensures Atoi("-1") == -1 && ToUint(Atoi("-1")) == 0xFFFF_FFFF
  {
    assert SkipSpace("-1") == "-1";
    var t := "-1"[1..];
    assert t == "1";
    assert DigitRun(t) == 1;
    assert t[..1] == "1";
    assert DecimalValue("1") == 10 * DecimalValue("") + 1;
  }

  // ---------------------------------------------------------------------
  // The ten calibration fields of one slot
  // ---------------------------------------------------------------------

  /** KpixCalibData: the constants stored for one slot. */
  datatype CalibData = CalibData(
    baseMean: real, baseRms: real,
    baseFitMean: real, baseFitSigma: real, baseFitMeanErr: real, baseFitSigmaErr: real,
    calibGain: real, calibIntercept: real, calibGainErr: real, calibInterceptErr: real)

  const ZeroData := CalibData(0.0, 0.0, 0.0, 0.0, 0.0, 0.0, 0.0, 0.0, 0.0, 0.0)

  datatype Field =
    | BaseMean | BaseRms | BaseFitMean | BaseFitSigma | BaseFitMeanErr | BaseFitSigmaErr
    | CalibGain | CalibIntercept | CalibGainErr | CalibInterceptErr

  /** The element tag that carries a field. */
  function TagOf(f: Field): string {
    match f
    case BaseMean => "BaseMean"
    case BaseRms => "BaseRms"
    case BaseFitMean => "BaseFitMean"
    case BaseFitSigma => "BaseFitSigma"
    case BaseFitMeanErr => "BaseFitMeanErr"
    case BaseFitSigmaErr => "BaseFitSigmaErr"
    case CalibGain => "CalibGain"
    case CalibIntercept => "CalibIntercept"
    case CalibGainErr => "CalibGainErr"
    case CalibInterceptErr => "CalibInterceptErr"
  }

  /** The field a text value is stored into, from the tag of the element
      that holds it (lines 136-145); None for every other tag. */
  function FieldOfTag(tag: string): Option<Field> {
    if tag == "BaseMean" then Some(BaseMean)
    else if tag == "BaseRms" then Some(BaseRms)
    else if tag == "BaseFitMean" then Some(BaseFitMean)
    else if tag == "BaseFitSigma" then Some(BaseFitSigma)
    else if tag == "BaseFitMeanErr" then Some(BaseFitMeanErr)
    else if tag == "BaseFitSigmaErr" then Some(BaseFitSigmaErr)
    else if tag == "CalibGain" then Some(CalibGain)
    else if tag == "CalibIntercept" then Some(CalibIntercept)
    else if tag == "CalibGainErr" then Some(CalibGainErr)
    else if tag == "CalibInterceptErr" then Some(CalibInterceptErr)
    else None
  }

  /** Exactly the ten field tags select a field, each its own. */
  lemma FieldTagRoundTrip(f: Field, tag: string)
    ensures FieldOfTag(TagOf(f)) == Some(f)
    ensures FieldOfTag(tag).Some? ==> TagOf(FieldOfTag(tag).value) == tag
  {
  }

  function GetField(d: CalibData, f: Field): real {
    match f
    case BaseMean => d.baseMean
    case BaseRms => d.baseRms
    case BaseFitMean => d.baseFitMean
    case BaseFitSigma => d.baseFitSigma
    case BaseFitMeanErr => d.baseFitMeanErr
    case BaseFitSigmaErr => d.baseFitSigmaErr
    case CalibGain => d.calibGain
    case CalibIntercept => d.calibIntercept
    case CalibGainErr => d.calibGainErr
    case CalibInterceptErr => d.calibInterceptErr
  }

  /** `findKpix(...)->field = value`: one field replaced, the other nine kept. */
  function SetField(d: CalibData, f: Field, v: real): (r: CalibData)
    ensures GetField(r, f) == v
    ensures forall g :: g != f ==> GetField(r, g) == GetField(d, g)
  {
    match f
    case BaseMean => d.(baseMean := v)
    case BaseRms => d.(baseRms := v)
    case BaseFitMean => d.(baseFitMean := v)
    case BaseFitSigma => d.(baseFitSigma := v)
    case BaseFitMeanErr => d.(baseFitMeanErr := v)
    case BaseFitSigmaErr => d.(baseFitSigmaErr := v)
    case CalibGain => d.(calibGain := v)
    case CalibIntercept => d.(calibIntercept := v)
    case CalibGainErr => d.(calibGainErr := v)
    case CalibInterceptErr => d.(calibInterceptErr := v)
  }

  // ---------------------------------------------------------------------
  // The store: serial -> table of 1024 x 4 x 2 slots
  // ---------------------------------------------------------------------

  const TableSize: nat := 1024 * 4 * 2

  /** The slots a KpixCalibAsic holds: channels 0..1023, buckets 0..3,
      ranges 0..1. */
  predicate SlotInTable(channel: nat, bucket: nat, range: nat) {
    channel < 1024 && bucket < 4 && range < 2
  }

  /** Position of data[channel][bucket][range] in the flattened table. */
  function SlotIndex(channel: nat, bucket: nat, range: nat): nat {
    (channel * 4 + bucket) * 2 + range
  }

  /** Slots of the table have distinct positions inside it. */
  lemma SlotIndexLayout(c: nat, b: nat, r: nat, c': nat, b': nat, r': nat)
    requires SlotInTable(c, b, r) && SlotInTable(c', b', r')
    ensures SlotIndex(c, b, r) < TableSize
    ensures SlotIndex(c, b, r) == SlotIndex(c', b', r') ==> c == c' && b == b' && r == r'
  {
  }

  type Store = map<string, seq<CalibData>>

  predicate StoreValid(store: Store) {
    forall k | k in store :: |store[k]| == TableSize
  }

  /** A newly created KpixCalibAsic: every slot zero. */
  function FreshAsic(): (t: seq<CalibData>)
    ensures |t| == TableSize
  {
    seq(TableSize, _ => ZeroData)
  }

  /** findKpix(kpix, channel, bucket, range, false): the slot's constants,
      or None (NULL) for a slot outside the table or an unknown serial. */
  function Lookup(store: Store, kpix: string, channel: nat, bucket: nat, range: nat): (d: Option<CalibData>)
    requires StoreValid(store)
    ensures d.Some? <==> SlotInTable(channel, bucket, range) && kpix in store
  {
    if !SlotInTable(channel, bucket, range) || kpix !in store then None
    else Some(store[kpix][SlotIndex(channel, bucket, range)])
  }

  /** The getters of lines 181-258, one per field: 0.0 when findKpix
      finds nothing, otherwise the stored field. */
  function GetValue(store: Store, f: Field, kpix: string, channel: nat, bucket: nat, range: nat): (v: real)
    requires StoreValid(store)
    ensures Lookup(store, kpix, channel, bucket, range).None? ==> v == 0.0
    ensures Lookup(store, kpix, channel, bucket, range).Some?
            ==> v == GetField(Lookup(store, kpix, channel, bucket, range).value, f)
  {
    match Lookup(store, kpix, channel, bucket, range)
    case None => 0.0
    case Some(d) => GetField(d, f)
  }

  /** findKpix(kpix, channel, bucket, range, true)->f = v for an in-table
      slot: creates the serial's table if it is missing, then writes one
      field of one slot. */
  function StoreWrite(store: Store, kpix: string, channel: nat, bucket: nat, range: nat, f: Field, v: real): (r: Store)
    requires StoreValid(store) && SlotInTable(channel, bucket, range)
    ensures StoreValid(r) && r.Keys == store.Keys + {kpix}
  {
    var table := if kpix in store then store[kpix] else FreshAsic();
    var i := SlotIndex(channel, bucket, range);
    store[kpix := table[i := SetField(table[i], f, v)]]
  }

  /** Seen through the getters, a write changes exactly the value it
      writes: that field of that slot of that serial reads back `v`, and
      every other (field, serial, slot) reads as before, a newly created
      table's other slots included. */
  lemma ReadAfterWrite(store: Store, kpix: string, channel: nat, bucket: nat, range: nat, f: Field, v: real,
                       g: Field, kpix': string, channel': nat, bucket': nat, range': nat)
    requires StoreValid(store) && SlotInTable(channel, bucket, range)
    ensures GetValue(StoreWrite(store, kpix, channel, bucket, range, f, v), g, kpix', channel', bucket', range')
            == if (g, kpix', channel', bucket', range') == (f, kpix, channel, bucket, range) then v
               else GetValue(store, g, kpix', channel', bucket', range')
  {
    if SlotInTable(channel', bucket', range') {
      SlotIndexLayout(channel, bucket, range, channel', bucket', range');
    }
  }

  /** A serial never written reads 0.0 in every field of every slot. */
  lemma AbsentReadsZero(store: Store, f: Field, kpix: string, channel: nat, bucket: nat, range: nat)
    requires StoreValid(store) && kpix !in store
    ensures GetValue(store, f, kpix, channel, bucket, range) == 0.0
  {
  }

  // ---------------------------------------------------------------------
  // findKpix's bounds guard as written
  // ---------------------------------------------------------------------

  /** The guard of lines 158-160: rejects channel > 1024, bucket > 3,
      range > 1. */
  predicate FindGuardAsWritten(channel: nat, bucket: nat, range: nat) {
    !(channel > 1024) && !(bucket > 3) && !(range > 1)
  }

  /** The guard as written admits channel 1024, whose slot lies past the
      end of the table: a lookup there reads outside data[1024][4][2]. */
  lemma FindGuardAdmitsChannel1024()
    ensures FindGuardAsWritten(1024, 0, 0) && !SlotInTable(1024, 0, 0)
    ensures SlotIndex(1024, 0, 0) >= TableSize
  {
  }

  /** The corrected guard is SlotInTable: it admits exactly the slots of
      the table, the bound the text writes check (line 135), and it is the
      as-written guard minus channel 1024. */
  lemma FindGuardCorrected(channel: nat, bucket: nat, range: nat)
    ensures SlotInTable(channel, bucket, range) ==> SlotIndex(channel, bucket, range) < TableSize
    ensures SlotInTable(channel, bucket, range) <==> FindGuardAsWritten(channel, bucket, range) && channel != 1024
  {
  }

  // ---------------------------------------------------------------------
  // The XML walk, as a function of the tree
  // ---------------------------------------------------------------------

  /** An XML node: an element (tag, optional `id` attribute, children), a
      text node (the number sscanf("%lf") reads from it, None when it reads
      none), or any other kind of node. */
  datatype XmlNode =
    | Element(name: string, id: Option<string>, children: seq<XmlNode>)
    | Text(number: Option<real>)
    | Other

  /** The locals of parseXmlLevel's child loop: the serial handed to child
      elements, the channel/bucket/range parameters it reassigns, and the
      last converted text value. */
  datatype Locals = Locals(kpixLocal: string, channel: Uint, bucket: Uint, range: Uint, value: real)

  /** idxNum: atoi of the id, or 0 without one; an id of decimal digits
      that fits a uint is its own number. */
  function IdNum(id: Option<string>): (n: Uint)
    ensures id.None? ==> n == 0
    ensures id.Some? && AllDigits(id.value) && DecimalValue(id.value) < 0x1_0000_0000
            ==> n == DecimalValue(id.value)
  {
    if id.Some? then
      assert AllDigits(id.value) ==> Atoi(id.value) == DecimalValue(id.value) by {
        if AllDigits(id.value) {
          AtoiOfDigits(id.value);
        }
      }
      ToUint(Atoi(id.value))
    else 0
  }

  /** The locals after looking at an element child's tag (lines 106-120):
      Channel, Bucket and Range set their local to the id's number (0
      without an id), kpixAsic sets the serial to the id string ("" without
      one), any other tag changes nothing, and the text value is never
      touched. */
  function Override(loc: Locals, name: string, id: Option<string>): (r: Locals)
    ensures r.value == loc.value
    ensures name == "Channel" ==> r == loc.(channel := IdNum(id))
    ensures name == "Bucket" ==> r == loc.(bucket := IdNum(id))
    ensures name == "Range" ==> r == loc.(range := IdNum(id))
    ensures name == "kpixAsic" ==> r == loc.(kpixLocal := id.GetOr(""))
    ensures name != "Channel" && name != "Bucket" && name != "Range" && name != "kpixAsic" ==> r == loc
  {
    if name == "Channel" then loc.(channel := IdNum(id))
    else if name == "Bucket" then loc.(bucket := IdNum(id))
    else if name == "Range" then loc.(range := IdNum(id))
    else if name == "kpixAsic" then loc.(kpixLocal := id.GetOr(""))
    else loc
  }

  /** The locals after looking at a text child (lines 127-132): only the
      value may change, and text that reads no number keeps the previous
      one. */
  function TakeValue(loc: Locals, number: Option<real>): (r: Locals)
    ensures r.(value := loc.value) == loc
    ensures number.None? ==> r == loc
    ensures number.Some? ==> r.value == number.value
  {
    loc.(value := number.GetOr(loc.value))
  }

  /** parseXmlLevel(node, kpix, channel, bucket, range) on `store`. The
      uninitialised `value` is taken as 0.0. */
  function WalkLevel(store: Store, node: XmlNode, kpix: string, channel: Uint, bucket: Uint, range: Uint): (r: Store)
    requires StoreValid(store) && node.Element?
    ensures StoreValid(r) && store.Keys <= r.Keys
    decreases node, |node.children| + 1
  {
    WalkChildren(store, node, kpix, |node.children|, Locals(kpix, channel, bucket, range, 0.0)).0
  }

  /** The store and the locals after the loop has visited the first n
      children of `parent`. */
  function WalkChildren(store: Store, parent: XmlNode, kpix: string, n: nat, init: Locals): (r: (Store, Locals))
    requires StoreValid(store) && parent.Element? && n <= |parent.children|
    ensures StoreValid(r.0) && store.Keys <= r.0.Keys
    decreases parent, n
  {
    if n == 0 then (store, init)
    else
      var prev := WalkChildren(store, parent, kpix, n - 1, init);
      var s, loc := prev.0, prev.1;
      var child := parent.children[n - 1];
      match child
      case Element(name, id, _) =>
        var loc' := Override(loc, name, id);
        (WalkLevel(s, child, loc'.kpixLocal, loc'.channel, loc'.bucket, loc'.range), loc')
      case Text(number) =>
        var loc' := TakeValue(loc, number);
        var f := FieldOfTag(parent.name);
        if SlotInTable(loc.channel, loc.bucket, loc.range) && f.Some? then
          (StoreWrite(s, kpix, loc.channel, loc.bucket, loc.range, f.value, loc'.value), loc')
        else (s, loc')
      case Other => (s, loc)
  }

  /** What a text child writes (lines 127-146): in the context the earlier
      direct children have set up, a text child of an element named after
      field f stores its value (the number it reads, or the previous value
      when it reads none) into field f of the current slot of `kpix` when
      that slot is in the table, after which the getter returns it; out of
      the table, or under a tag that names no field, it writes nothing. */
  lemma LeafWrite(store: Store, parent: XmlNode, kpix: string, n: nat, init: Locals)
    requires StoreValid(store) && parent.Element? && 1 <= n <= |parent.children|
    requires parent.children[n - 1].Text?
    ensures var prev := WalkChildren(store, parent, kpix, n - 1, init).0;
            var loc := LocalsAfter(parent.children, n - 1, init);
            var v := TakeValue(loc, parent.children[n - 1].number).value;
            var r := WalkChildren(store, parent, kpix, n, init).0;
            && (SlotInTable(loc.channel, loc.bucket, loc.range) && FieldOfTag(parent.name).Some? ==>
                  && r == StoreWrite(prev, kpix, loc.channel, loc.bucket, loc.range, FieldOfTag(parent.name).value, v)
                  && GetValue(r, FieldOfTag(parent.name).value, kpix, loc.channel, loc.bucket, loc.range) == v)
            && (!SlotInTable(loc.channel, loc.bucket, loc.range) || FieldOfTag(parent.name).None? ==> r == prev)
  {
    LocalsScoping(store, parent, kpix, n - 1, init);
    var prev := WalkChildren(store, parent, kpix, n - 1, init).0;
    var loc := LocalsAfter(parent.children, n - 1, init);
    var v := TakeValue(loc, parent.children[n - 1].number).value;
    var f := FieldOfTag(parent.name);
    if SlotInTable(loc.channel, loc.bucket, loc.range) && f.Some? {
      ReadAfterWrite(prev, kpix, loc.channel, loc.bucket, loc.range, f.value, v,
                     f.value, kpix, loc.channel, loc.bucket, loc.range);
    }
  }

  /** The locals after the first n children, computed from those children
      alone: tags and ids of element children, numbers of text children. */
  function LocalsAfter(kids: seq<XmlNode>, n: nat, init: Locals): Locals
    requires n <= |kids|
  {
    if n == 0 then init
    else
      var loc := LocalsAfter(kids, n - 1, init);
      match kids[n - 1]
      case Element(name, id, _) => Override(loc, name, id)
      case Text(number) => TakeValue(loc, number)
      case Other => loc
  }

  /** Context scoping: the loop's locals depend only on the direct
      children seen so far, never on the store or on what the recursive
      calls do below them. So an override holds for the rest of the
      element's subtree and for its later siblings, and a call never
      changes its caller's context. */
  lemma {:induction false} LocalsScoping(store: Store, parent: XmlNode, kpix: string, n: nat, init: Locals)
    requires StoreValid(store) && parent.Element? && n <= |parent.children|
    ensures WalkChildren(store, parent, kpix, n, init).1 == LocalsAfter(parent.children, n, init)
  {
    if n > 0 {
      LocalsScoping(store, parent, kpix, n - 1, init);
    }
  }

  /** Some element of the subtree, the root included, carries one of the
      ten field tags. */
  predicate MentionsField(node: XmlNode) {
    node.Element? &&
    (FieldOfTag(node.name).Some? || exists i :: 0 <= i < |node.children| && MentionsField(node.children[i]))
  }

  /** Some element strictly below the root is a Channel, Bucket or Range
      element. */
  predicate SetsSlot(node: XmlNode) {
    node.Element? &&
    exists i :: 0 <= i < |node.children| && node.children[i].Element? &&
      (node.children[i].name in {"Channel", "Bucket", "Range"} || SetsSlot(node.children[i]))
  }

  /** Text under tags other than the ten field names writes nothing: a
      subtree without a field tag leaves the store as it was. */
  lemma {:induction false} NoFieldNoWrite(store: Store, node: XmlNode, kpix: string, channel: Uint, bucket: Uint, range: Uint)
    requires StoreValid(store) && node.Element? && !MentionsField(node)
    ensures WalkLevel(store, node, kpix, channel, bucket, range) == store
    decreases node, |node.children| + 1
  {
    NoFieldNoWriteKids(store, node, kpix, |node.children|, Locals(kpix, channel, bucket, range, 0.0));
  }

  lemma {:induction false} NoFieldNoWriteKids(store: Store, parent: XmlNode, kpix: string, n: nat, init: Locals)
    requires StoreValid(store) && parent.Element? && n <= |parent.children| && !MentionsField(parent)
    ensures WalkChildren(store, parent, kpix, n, init).0 == store
    decreases parent, n
  {
    if n > 0 {
      NoFieldNoWriteKids(store, parent, kpix, n - 1, init);
      var loc := WalkChildren(store, parent, kpix, n - 1, init).1;
      var child := parent.children[n - 1];
      if child.Element? {
        assert !MentionsField(child);
        var loc' := Override(loc, child.name, child.id);
        NoFieldNoWrite(store, child, loc'.kpixLocal, loc'.channel, loc'.bucket, loc'.range);
      }
    }
  }

  /** Values met outside the table are dropped: a subtree entered with an
      out-of-table slot and without a Channel, Bucket or Range element
      below it writes nothing and creates no entry. */
  lemma {:induction false} OutOfTableNoWrite(store: Store, node: XmlNode, kpix: string, channel: Uint, bucket: Uint, range: Uint)
    requires StoreValid(store) && node.Element? && !SetsSlot(node)
    requires !SlotInTable(channel, bucket, range)
    ensures WalkLevel(store, node, kpix, channel, bucket, range) == store
    decreases node, |node.children| + 1
  {
    OutOfTableNoWriteKids(store, node, kpix, |node.children|, Locals(kpix, channel, bucket, range, 0.0));
  }

  lemma {:induction false} OutOfTableNoWriteKids(store: Store, parent: XmlNode, kpix: string, n: nat, init: Locals)
    requires StoreValid(store) && parent.Element? && n <= |parent.children| && !SetsSlot(parent)
    requires !SlotInTable(init.channel, init.bucket, init.range)
    ensures WalkChildren(store, parent, kpix, n, init).0 == store
    ensures WalkChildren(store, parent, kpix, n, init).1.channel == init.channel
    ensures WalkChildren(store, parent, kpix, n, init).1.bucket == init.bucket
    ensures WalkChildren(store, parent, kpix, n, init).1.range == init.range
    decreases parent, n
  {
    if n > 0 {
      OutOfTableNoWriteKids(store, parent, kpix, n - 1, init);
      var loc := WalkChildren(store, parent, kpix, n - 1, init).1;
      var child := parent.children[n - 1];
      if child.Element? {
        assert !SetsSlot(child) && child.name !in {"Channel", "Bucket", "Range"};
        var loc' := Override(loc, child.name, child.id);
        OutOfTableNoWrite(store, child, loc'.kpixLocal, loc'.channel, loc'.bucket, loc'.range);
      }
    }
  }

  lemma AtoiExample()
    ensures Atoi("2000") == 2000
  {
    assert SkipSpace("2000") == "2000";
    assert DigitRun("2000") == 4 by {
      assert "2000"[1..] == "000" && "000"[1..] == "00" && "00"[1..] == "0" && "0"[1..] == [];
    }
    assert "2000"[..4] == "2000";
    assert "2000"[..3] == "200" && "200"[..2] == "20" && "20"[..1] == "2" && "2"[..0] == [];
  }

  /** A Channel element with id 2000 inside a group: the value below it
      and the value after it within the group are dropped, since the
      override holds for later siblings; the value after the group, back
      in the caller's channel 5, is stored. */
  lemma ChannelScopeExample(store: Store, v: real)
    requires StoreValid(store)
    ensures var leaf := Element("BaseMean", None, [Text(Some(v))]);
            var group := Element("group", None, [Element("Channel", Some("2000"), [leaf]), leaf]);
            var doc := Element("calibrationData", None, [group, leaf]);
            WalkLevel(store, doc, "s", 5, 0, 0) == StoreWrite(store, "s", 5, 0, 0, BaseMean, v)
  {
    var leaf := Element("BaseMean", None, [Text(Some(v))]);
    var ch := Element("Channel", Some("2000"), [leaf]);
    var group := Element("group", None, [ch, leaf]);
    var doc := Element("calibrationData", None, [group, leaf]);
    AtoiExample();
    var init := Locals("s", 5, 0, 0, 0.0);
    // inside the group, both leaves are visited with channel 2000
    assert !SetsSlot(leaf) && !SetsSlot(ch);
    OutOfTableNoWrite(store, ch, "s", 2000, 0, 0);
    OutOfTableNoWrite(store, leaf, "s", 2000, 0, 0);
    assert IdNum(Some("2000")) == 2000;
    assert WalkChildren(store, group, "s", 1, init).0 == store;
    assert WalkChildren(store, group, "s", 1, init).1 == init.(channel := 2000);
    assert WalkChildren(store, group, "s", 2, init).0 == store;
    assert WalkLevel(store, group, "s", 5, 0, 0) == store;
    // after the group, the document's own locals still hold channel 5
    assert WalkChildren(store, doc, "s", 1, init) == (store, init);
    assert FieldOfTag("BaseMean") == Some(BaseMean);
    assert WalkChildren(store, leaf, "s", 0, init) == (store, init);
    var leafKids := WalkChildren(store, leaf, "s", 1, init);
    assert leafKids.0 == StoreWrite(store, "s", 5, 0, 0, BaseMean, v);
    assert WalkLevel(store, leaf, "s", 5, 0, 0) == StoreWrite(store, "s", 5, 0, 0, BaseMean, v);
  }

  // ---------------------------------------------------------------------
  // The reader object
  // ---------------------------------------------------------------------

  /** KpixCalibRead: the map from serial number to that ASIC's table. */
  class KpixCalibRead {
    var asicList: Store

    predicate Valid()
      reads this
    {
      StoreValid(asicList)
    }

    /** The constructor starts with no serials (line 31). */
    constructor ()
      ensures Valid() && asicList == map[]
    {
      asicList := map[];
    }

    /** findKpix (lines 153-178): the position of the slot in the serial's
        table, or None (NULL). Outside the table it returns None and creates
        nothing; an unknown serial gives None without `create` and a new
        zeroed table with it. The bound on the channel is the corrected one
        (see FindGuardAsWritten). */
    method FindKpix(kpix: string, channel: Uint, bucket: Uint, range: Uint, create: bool) returns (slot: Option<nat>)
      requires Valid()
      modifies this
      ensures Valid()
      ensures slot.Some? <==> SlotInTable(channel, bucket, range) && (kpix in old(asicList) || create)
      ensures slot.Some? ==> kpix in asicList && slot.value == SlotIndex(channel, bucket, range) < TableSize
      ensures asicList == if slot.Some? && kpix !in old(asicList) then old(asicList)[kpix := FreshAsic()]
                          else old(asicList)
      ensures !create ==> slot.Some? == Lookup(asicList, kpix, channel, bucket, range).Some?
    {
      if channel >= 1024 { return None; }
      if bucket > 3 { return None; }
      if range > 1 { return None; }
      if kpix !in asicList {
        if create {
          asicList := asicList[kpix := FreshAsic()];
        } else {
          return None;
        }
      }
      SlotIndexLayout(channel, bucket, range, channel, bucket, range);
      slot := Some(SlotIndex(channel, bucket, range));
    }

    /** The getters baseMean ... calibInterceptErr (lines 181-258), the
        field named by `f`. */
    function Get(f: Field, kpix: string, channel: Uint, bucket: Uint, range: Uint): (v: real)
      reads this
      requires Valid()
      ensures !SlotInTable(channel, bucket, range) || kpix !in asicList ==> v == 0.0
      ensures SlotInTable(channel, bucket, range) && kpix in asicList
              ==> v == GetField(asicList[kpix][SlotIndex(channel, bucket, range)], f)
    {
      GetValue(asicList, f, kpix, channel, bucket, range)
    }

    /** parseXmlLevel (lines 80-150): visits the children of `node` in
        order, reassigning its locals from Channel/Bucket/Range/kpixAsic
        elements before descending into them, and storing each text value
        into the field named by this element's tag when the slot is inside
        the table. Text writes go to `kpix`, the serial this level was
        called with, not to kpixLocal. */
    method ParseXmlLevel(node: XmlNode, kpix: string, channel: Uint, bucket: Uint, range: Uint)
      requires Valid() && node.Element?
      modifies this
      ensures Valid()
      ensures asicList == WalkLevel(old(asicList), node, kpix, channel, bucket, range)
      decreases node
    {
      var kpixLocal := kpix;
      var topStr := node.name;
      var value := 0.0;
      var ch, bu, ra := channel, bucket, range;
      var init := Locals(kpix, channel, bucket, range, 0.0);
      ghost var store0 := asicList;
      var i := 0;
      while i < |node.children|
        invariant 0 <= i <= |node.children|
        invariant Valid()
        invariant (asicList, Locals(kpixLocal, ch, bu, ra, value)) == WalkChildren(store0, node, kpix, i, init)
      {
        var childNode := node.children[i];
        ghost var prev := asicList;
        ghost var loc := Locals(kpixLocal, ch, bu, ra, value);
        match childNode {
          case Element(nameStr, id, _) =>
            var idxNum: Uint, idxStr := 0, "";
            if id.Some? {
              idxNum := ToUint(Atoi(id.value));
              idxStr := id.value;
            }
            if nameStr == "Channel" { ch := idxNum; }
            else if nameStr == "Bucket" { bu := idxNum; }
            else if nameStr == "Range" { ra := idxNum; }
            else if nameStr == "kpixAsic" { kpixLocal := idxStr; }
            ParseXmlLevel(childNode, kpixLocal, ch, bu, ra);
          case Text(number) =>
            if number.Some? {
              value := number.value;
            }
            if bu < 4 && ch < 1024 && ra < 2 {
              var field := FieldOfTag(topStr);
              if field.Some? {
                var slot := FindKpix(kpix, ch, bu, ra, true);
                var table := asicList[kpix];
                assert table == if kpix in prev then prev[kpix] else FreshAsic();
                asicList := asicList[kpix := table[slot.value := SetField(table[slot.value], field.value, value)]];
                assert asicList == StoreWrite(prev, kpix, ch, bu, ra, field.value, value);
              }
            }
          case Other =>
        }
        i := i + 1;
      }
    }

    /** parse (lines 41-77). Reading the file and building the document
        are abstracted into `doc`: None when the file cannot be opened or no
        document is produced, in which case nothing changes. Otherwise the
        root element is walked with serial "" and slot (0, 0, 0). The store
        is never cleared, so successive parses merge. */
    method Parse(doc: Option<XmlNode>) returns (ok: bool)
      requires Valid() && (doc.Some? ==> doc.value.Element?)
      modifies this
      ensures Valid()
      ensures ok <==> doc.Some?
      ensures !ok ==> asicList == old(asicList)
      ensures ok ==> asicList == WalkLevel(old(asicList), doc.value, "", 0, 0, 0)
      ensures old(asicList).Keys <= asicList.Keys
    {
      if doc.None? {
        return false;
      }
      ParseXmlLevel(doc.value, "", 0, 0, 0);
      ok := true;
    }
  }
}
