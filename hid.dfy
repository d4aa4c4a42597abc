/** The USB HID class of the joystick (src/hid.rs): its Report Descriptor, the
    HID descriptor, the class part of the configuration descriptor, and the
    decisions of the two control-transfer handlers.

    Item layout follows section 6.2.2.2 of the USB Device Class Definition for
    HID 1.11 (a short item is a prefix byte holding bTag, bType and bSize,
    followed by 0, 1, 2 or 4 data bytes; the prefix 0xFE opens a long item),
    with the Main, Global and Local items of its sections 6.2.2.4, 6.2.2.7 and
    6.2.2.8. The HID descriptor follows section 6.2.1 of the same document. */
module Hid {
  import opened Wrappers
  import opened MachineInts
  import Types

  /** `REPORT_DESCR` (hid.rs:5-45), byte for byte, in the sections its
      comments mark out. */
  const REPORT_DESCR: seq<U8> :=
    HEADER_BYTES + AXIS_USAGE_BYTES + AXIS_FIELD_BYTES + DIAL_BYTES + BUTTON_BYTES + PADDING_BYTES

  /** Usage Page (Generic Desktop), Usage (Joystick), Collection (Application) */
  const HEADER_BYTES: seq<U8> := [0x05, 0x01, 0x09, 0x04, 0xA1, 0x01]
  /** Usage (Pointer), Collection (Physical), Usage Page (Generic Desktop),
      Usage (X), Usage (Y), Usage (Z), Usage (Rx) */
  const AXIS_USAGE_BYTES: seq<U8> := [0x09, 0x01, 0xA1, 0x00, 0x05, 0x01, 0x09, 0x30, 0x09, 0x31, 0x09, 0x32, 0x09, 0x33]
  /** Logical Minimum (-500), Logical Maximum (500), Report Size (16),
      Report Count (4), Input (Data, Variable, Absolute), End Collection */
  const AXIS_FIELD_BYTES: seq<U8> := [0x16, 0x0C, 0xFE, 0x26, 0xF4, 0x01, 0x75, 0x10, 0x95, 0x04, 0x81, 0x02, 0xC0]
  /** Usage (Slider), Usage (Dial), Logical Minimum (-500), Logical Maximum (500),
      Report Size (16), Report Count (2), Input (Data, Variable, Absolute) */
  const DIAL_BYTES: seq<U8> := [0x09, 0x36, 0x09, 0x37, 0x16, 0x0C, 0xFE, 0x26, 0xF4, 0x01, 0x75, 0x10, 0x95, 0x02, 0x81, 0x02]
  /** Usage Page (Button), Usage Minimum (1), Usage Maximum (6), Logical Minimum (0),
      Logical Maximum (1), Report Size (1), Report Count (6), Input (Data, Variable, Absolute) */
  const BUTTON_BYTES: seq<U8> := [0x05, 0x09, 0x19, 0x01, 0x29, 0x06, 0x15, 0x00, 0x25, 0x01, 0x75, 0x01, 0x95, 0x06, 0x81, 0x02]
  /** Report Count (1), Report Size (2), Input (Constant, Variable, Absolute), End Collection */
  const PADDING_BYTES: seq<U8> := [0x95, 0x01, 0x75, 0x02, 0x81, 0x03, 0xC0]

  // ---------------------------------------------------------------------
  // Short items
  // ---------------------------------------------------------------------

  datatype ItemType = MainItem | GlobalItem | LocalItem | ReservedItem

  /** The data bytes of a short item: bSize allows 0, 1, 2 or 4 of them. */
  datatype ItemData = NoData | Data1(b0: U8) | Data2(b0: U8, b1: U8) | Data4(b0: U8, b1: U8, b2: U8, b3: U8)

  datatype Item = Item(itemType: ItemType, tag: nat, data: ItemData)

  /** An item with a short-item encoding: a 4-bit tag, and not the one
      combination (tag 15, type 3, two data bytes) whose prefix is 0xFE. */
  predicate WellFormed(it: Item) {
    it.tag < 16 && !(it.itemType == ReservedItem && it.tag == 15 && it.data.Data2?)
  }

  type ShortItem = it: Item | WellFormed(it) witness Item(MainItem, 0, NoData)

  datatype ParseError = LongItem | Truncated

  const LONG_ITEM_PREFIX: U8 := 0xFE

  // Main item tags (section 6.2.2.4)
  const MAIN_INPUT: nat := 0x8
  const MAIN_COLLECTION: nat := 0xA
  const MAIN_END_COLLECTION: nat := 0xC
  // Global item tags (section 6.2.2.7)
  const GLOBAL_USAGE_PAGE: nat := 0x0
  const GLOBAL_LOGICAL_MINIMUM: nat := 0x1
  const GLOBAL_LOGICAL_MAXIMUM: nat := 0x2
  const GLOBAL_REPORT_SIZE: nat := 0x7
  const GLOBAL_REPORT_COUNT: nat := 0x9

  function TypeCode(t: ItemType): nat {
    match t
    case MainItem => 0
    case GlobalItem => 1
    case LocalItem => 2
    case ReservedItem => 3
  }

  function ItemTypeOf(code: nat): (t: ItemType)
    requires code < 4
    ensures TypeCode(t) == code
  {
    if code == 0 then MainItem
    else if code == 1 then GlobalItem
    else if code == 2 then LocalItem
    else ReservedItem
  }

  function DataBytes(d: ItemData): (r: seq<U8>)
    ensures |r| == DataSize(SizeCode(d))
  {
    match d
    case NoData => []
    case Data1(a) => [a]
    case Data2(a, b) => [a, b]
    case Data4(a, b, c, e) => [a, b, c, e]
  }

  /** bSize: the codes 0, 1, 2 and 3 stand for 0, 1, 2 and 4 data bytes. */
  function DataSize(code: nat): nat {
    if code == 3 then 4 else code
  }

  function SizeCode(d: ItemData): (code: nat)
    ensures code < 4
  {
    match d
    case NoData => 0
    case Data1(_) => 1
    case Data2(_, _) => 2
    case Data4(_, _, _, _) => 3
  }

  function DataOf(bytes: seq<U8>): (d: ItemData)
    requires |bytes| == 0 || |bytes| == 1 || |bytes| == 2 || |bytes| == 4
    ensures DataBytes(d) == bytes
    ensures SizeCode(d) == if |bytes| == 4 then 3 else |bytes|
  {
    if |bytes| == 0 then NoData
    else if |bytes| == 1 then Data1(bytes[0])
    else if |bytes| == 2 then Data2(bytes[0], bytes[1])
    else Data4(bytes[0], bytes[1], bytes[2], bytes[3])
  }

  /** Item data as an unsigned little-endian number (Report Size, Report Count). */
  function UnsignedValue(d: ItemData): nat {
    match d
    case NoData => 0
    case Data1(a) => a
    case Data2(a, b) => a + 0x100 * b
    case Data4(a, b, c, e) => a + 0x100 * b + 0x1_0000 * c + 0x100_0000 * e
  }

  /** Item data as a two's-complement little-endian number (Logical Minimum,
      Logical Maximum). */
  function SignedValue(d: ItemData): int {
    match d
    case NoData => 0
    case Data1(a) => if a >= 0x80 then a - 0x100 else a
    case Data2(_, b) => if b >= 0x80 then UnsignedValue(d) - 0x1_0000 else UnsignedValue(d)
    case Data4(_, _, _, e) => if e >= 0x80 then UnsignedValue(d) - 0x1_0000_0000 else UnsignedValue(d)
  }

  function Prefix(it: ShortItem): U8 {
    it.tag * 16 + TypeCode(it.itemType) * 4 + SizeCode(it.data)
  }

  /** The prefix byte gives back the tag, type and size it was built from, and
      is never the long-item prefix. */
  lemma PrefixDecodes(it: ShortItem)
    ensures Prefix(it) != LONG_ITEM_PREFIX
    ensures Prefix(it) / 16 == it.tag && Prefix(it) / 4 % 4 == TypeCode(it.itemType)
    ensures Prefix(it) % 4 == SizeCode(it.data)
  {
  }

  function EncodeItem(it: ShortItem): (r: seq<U8>)
    ensures |r| == 1 + DataSize(SizeCode(it.data))
  {
    var p := Prefix(it);
    match it.data
    case NoData => [p]
    case Data1(a) => [p, a]
    case Data2(a, b) => [p, a, b]
    case Data4(a, b, c, e) => [p, a, b, c, e]
  }

  /** The encoding of `items[i..]`. */
  function EncodeFrom(items: seq<ShortItem>, i: nat): seq<U8>
    requires i <= |items|
    decreases |items| - i
  {
    if i == |items| then [] else EncodeItem(items[i]) + EncodeFrom(items, i + 1)
  }

  function EncodeItems(items: seq<ShortItem>): seq<U8> {
    EncodeFrom(items, 0)
  }

  /** Reads one item at the front of `b`: the item and the number of bytes it
      occupies, which are exactly its encoding. */
  function ParseItem(b: seq<U8>): (r: Result<(ShortItem, nat), ParseError>)
    requires |b| > 0
    ensures r.Success? ==> 0 < r.value.1 <= |b| && b[..r.value.1] == EncodeItem(r.value.0)
    ensures r.Failure? && r.error == LongItem <==> b[0] == LONG_ITEM_PREFIX
    ensures r.Failure? && r.error == Truncated <==>
              b[0] != LONG_ITEM_PREFIX && |b| < 1 + DataSize(b[0] % 4)
  {
    var prefix := b[0];
    if prefix == LONG_ITEM_PREFIX then Failure(LongItem)
    else
      var size := DataSize(prefix % 4);
      if |b| < 1 + size then Failure(Truncated)
      else
        var it := Item(ItemTypeOf(prefix / 4 % 4), prefix / 16, DataOf(b[1..1 + size]));
        PrefixFields(prefix);
        assert WellFormed(it);
        assert Prefix(it) == prefix;
        assert b[..1 + size] == [prefix] + b[1..1 + size];
        Success((it, 1 + size))
  }

  /** A prefix byte is its tag, type and size fields side by side. */
  lemma PrefixFields(p: U8)
    ensures p == p / 16 * 16 + p / 4 % 4 * 4 + p % 4
    ensures p / 16 == 15 && p / 4 % 4 == 3 && p % 4 == 2 <==> p == LONG_ITEM_PREFIX
  {
  }

  /** Reads a whole descriptor as a sequence of items. */
  function ParseItems(b: seq<U8>): (r: Result<seq<ShortItem>, ParseError>)
    decreases |b|
  {
    if |b| == 0 then Success([])
    else
      var first :- ParseItem(b);
      var rest :- ParseItems(b[first.1..]);
      Success([first.0] + rest)
  }

  lemma ParseEncodedItem(it: ShortItem, tail: seq<U8>)
    ensures ParseItem(EncodeItem(it) + tail) == Success((it, |EncodeItem(it)|))
  {
    var b := EncodeItem(it) + tail;
    var size := DataSize(SizeCode(it.data));
    PrefixDecodes(it);
    assert b[1..1 + size] == DataBytes(it.data);
    assert DataOf(DataBytes(it.data)) == it.data;
  }

  lemma {:induction false} ParseEncodeFrom(items: seq<ShortItem>, i: nat)
    requires i <= |items|
    ensures ParseItems(EncodeFrom(items, i)) == Success(items[i..])
    decreases |items| - i
  {
    if i < |items| {
      var head := EncodeItem(items[i]);
      var tail := EncodeFrom(items, i + 1);
      assert EncodeFrom(items, i) == head + tail;
      ParseEncodedItem(items[i], tail);
      assert (head + tail)[|head|..] == tail;
      ParseEncodeFrom(items, i + 1);
      assert [items[i]] + items[i + 1..] == items[i..];
      assert ParseItems(head + tail) == Success([items[i]] + items[i + 1..]);
    } else {
      assert items[i..] == [];
    }
  }

  /** Parsing an encoding gives the items back. */
  lemma ParseEncodeItems(items: seq<ShortItem>)
    ensures ParseItems(EncodeItems(items)) == Success(items)
  {
    ParseEncodeFrom(items, 0);
    assert items[0..] == items;
  }

  lemma {:induction false} EncodeFromShift(a: seq<ShortItem>, b: seq<ShortItem>, j: nat)
    requires j <= |b|
    ensures EncodeFrom(a + b, |a| + j) == EncodeFrom(b, j)
    decreases |b| - j
  {
    if j < |b| {
      assert (a + b)[|a| + j] == b[j];
      EncodeFromShift(a, b, j + 1);
      assert EncodeFrom(a + b, |a| + j) == EncodeItem(b[j]) + EncodeFrom(a + b, |a| + j + 1);
    }
  }

  lemma {:induction false} EncodeFromAppend(a: seq<ShortItem>, b: seq<ShortItem>, i: nat)
    requires i <= |a|
    ensures EncodeFrom(a + b, i) == EncodeFrom(a, i) + EncodeItems(b)
    decreases |a| - i
  {
    if i == |a| {
      EncodeFromShift(a, b, 0);
    } else {
      assert (a + b)[i] == a[i];
      EncodeFromAppend(a, b, i + 1);
    }
  }

  lemma EncodeItemsAppend(a: seq<ShortItem>, b: seq<ShortItem>)
    ensures EncodeItems(a + b) == EncodeItems(a) + EncodeItems(b)
  {
    EncodeFromAppend(a, b, 0);
  }

  lemma EncodeItemsCons(it: ShortItem, rest: seq<ShortItem>)
    ensures EncodeItems([it] + rest) == EncodeItem(it) + EncodeItems(rest)
  {
    EncodeItemsAppend([it], rest);
    assert EncodeFrom([it], 1) == [];
    assert EncodeItems([it]) == EncodeItem(it) + EncodeFrom([it], 1);
  }

  /** A descriptor that parses is exactly the encoding of its items: the parser
      drops no byte. */
  lemma {:induction false} EncodeParseItems(b: seq<U8>)
    requires ParseItems(b).Success?
    ensures EncodeItems(ParseItems(b).value) == b
    decreases |b|
  {
    if |b| > 0 {
      var head := ParseItem(b);
      assert head.Success?;
      var it, n := head.value.0, head.value.1;
      var tail := ParseItems(b[n..]);
      assert tail.Success?;
      assert ParseItems(b).value == [it] + tail.value;
      EncodeParseItems(b[n..]);
      EncodeItemsCons(it, tail.value);
      assert b == b[..n] + b[n..];
    }
  }

  // ---------------------------------------------------------------------
  // Walking a descriptor
  // ---------------------------------------------------------------------

  /** The part of the global item state table that shapes an Input field. */
  datatype Globals = Globals(logicalMinimum: int, logicalMaximum: int, reportSize: nat, reportCount: nat)

  /** One Input item: `reportCount` fields of `reportSize` bits each. */
  datatype InputField = InputField(reportSize: nat, reportCount: nat,
                                   logicalMinimum: int, logicalMaximum: int, constant: bool)

  /** What a host learns by reading a descriptor front to back. */
  datatype DescriptorWalk = DescriptorWalk(globals: Globals, inputs: seq<InputField>,
                                           depth: nat, collections: nat, endCollections: nat,
                                           nestingOk: bool)

  const WALK_START: DescriptorWalk := DescriptorWalk(Globals(0, 0, 0, 0), [], 0, 0, 0, true)

  function UpdateGlobals(g: Globals, it: Item): Globals {
    if it.tag == GLOBAL_LOGICAL_MINIMUM then g.(logicalMinimum := SignedValue(it.data))
    else if it.tag == GLOBAL_LOGICAL_MAXIMUM then g.(logicalMaximum := SignedValue(it.data))
    else if it.tag == GLOBAL_REPORT_SIZE then g.(reportSize := UnsignedValue(it.data))
    else if it.tag == GLOBAL_REPORT_COUNT then g.(reportCount := UnsignedValue(it.data))
    else g
  }

  /** +1 for a Collection, -1 for an End Collection, 0 otherwise. */
  function Nesting(it: Item): int {
    if it.itemType == MainItem && it.tag == MAIN_COLLECTION then 1
    else if it.itemType == MainItem && it.tag == MAIN_END_COLLECTION then -1
    else 0
  }

  /** The effect of one item. Bit 0 of an Input item's data is Data (0) or
      Constant (1). */
  function Step(w: DescriptorWalk, it: Item): (r: DescriptorWalk)
    ensures r.collections - r.endCollections == w.collections - w.endCollections + Nesting(it)
  {
    match it.itemType
    case GlobalItem => w.(globals := UpdateGlobals(w.globals, it))
    case MainItem =>
      if it.tag == MAIN_INPUT then
        var g := w.globals;
        var field := InputField(g.reportSize, g.reportCount, g.logicalMinimum, g.logicalMaximum,
                                UnsignedValue(it.data) % 2 == 1);
        w.(inputs := w.inputs + [field])
      else if it.tag == MAIN_COLLECTION then
        w.(depth := w.depth + 1, collections := w.collections + 1)
      else if it.tag == MAIN_END_COLLECTION then
        if w.depth == 0 then w.(endCollections := w.endCollections + 1, nestingOk := false)
        else w.(depth := w.depth - 1, endCollections := w.endCollections + 1)
      else w
    case LocalItem => w
    case ReservedItem => w
  }

  /** The state after the first `k` items. */
  function WalkFirst(items: seq<ShortItem>, k: nat, w: DescriptorWalk): DescriptorWalk
    requires k <= |items|
  {
    if k == 0 then w else Step(WalkFirst(items, k - 1, w), items[k - 1])
  }

  function Walk(items: seq<ShortItem>, w: DescriptorWalk): DescriptorWalk {
    WalkFirst(items, |items|, w)
  }

  /** While nesting stays valid, `depth` is the number of open collections. */
  lemma {:induction false} WalkDepth(items: seq<ShortItem>, k: nat, w: DescriptorWalk)
    requires k <= |items|
    requires w.nestingOk && w.depth == w.collections - w.endCollections
    ensures var r := WalkFirst(items, k, w);
            r.nestingOk ==> r.depth == r.collections - r.endCollections
  {
    if k > 0 {
      WalkDepth(items, k - 1, w);
    }
  }

  lemma {:induction false} WalkFirstPrefix(a: seq<ShortItem>, b: seq<ShortItem>, k: nat, w: DescriptorWalk)
    requires k <= |a|
    ensures WalkFirst(a + b, k, w) == WalkFirst(a, k, w)
  {
    if k > 0 {
      assert (a + b)[k - 1] == a[k - 1];
      WalkFirstPrefix(a, b, k - 1, w);
    }
  }

  lemma {:induction false} WalkFirstAppend(a: seq<ShortItem>, b: seq<ShortItem>, k: nat, w: DescriptorWalk)
    requires k <= |b|
    ensures WalkFirst(a + b, |a| + k, w) == WalkFirst(b, k, Walk(a, w))
  {
    if k == 0 {
      WalkFirstPrefix(a, b, |a|, w);
    } else {
      assert (a + b)[|a| + k - 1] == b[k - 1];
      WalkFirstAppend(a, b, k - 1, w);
    }
  }

  /** Reading `a + b` is reading `a`, then `b` from where `a` left off. */
  lemma WalkAppend(a: seq<ShortItem>, b: seq<ShortItem>, w: DescriptorWalk)
    ensures Walk(a + b, w) == Walk(b, Walk(a, w))
  {
    WalkFirstAppend(a, b, |b|, w);
  }

  /** Collections are balanced: none is closed that was not opened, and all
      that were opened are closed. */
  predicate Balanced(w: DescriptorWalk) {
    w.nestingOk && w.depth == 0 && w.collections == w.endCollections
  }

  /** Bits occupied in the report by a sequence of Input items. */
  function ReportBits(fields: seq<InputField>): nat {
    if fields == [] then 0
    else fields[0].reportSize * fields[0].reportCount + ReportBits(fields[1..])
  }

  /** Parse a descriptor and read it front to back. */
  function ReadDescriptor(b: seq<U8>): (r: Result<DescriptorWalk, ParseError>)
    ensures r.Success? <==> ParseItems(b).Success?
    ensures r.Success? ==> r.value == Walk(ParseItems(b).value, WALK_START)
  {
    var items :- ParseItems(b);
    Success(Walk(items, WALK_START))
  }

  // ---------------------------------------------------------------------
  // The joystick's descriptor, read as items
  // ---------------------------------------------------------------------

  /** Generic Desktop / Joystick; opens the Application collection (hid.rs:6-8). */
  const HEADER_ITEMS: seq<ShortItem> := [
    Item(GlobalItem, 0x0, Data1(0x01)),   // Usage Page (Generic Desktop)
    Item(LocalItem, 0x0, Data1(0x04)),    // Usage (Joystick)
    Item(MainItem, 0xA, Data1(0x01))]     // Collection (Application)

  /** Pointer collection with the usages X, Y, Z, Rx (hid.rs:10-16). */
  const AXIS_USAGE_ITEMS: seq<ShortItem> := [
    Item(LocalItem, 0x0, Data1(0x01)),    // Usage (Pointer)
    Item(MainItem, 0xA, Data1(0x00)),     // Collection (Physical)
    Item(GlobalItem, 0x0, Data1(0x01)),   // Usage Page (Generic Desktop)
    Item(LocalItem, 0x0, Data1(0x30)),    // Usage (X)
    Item(LocalItem, 0x0, Data1(0x31)),    // Usage (Y)
    Item(LocalItem, 0x0, Data1(0x32)),    // Usage (Z)
    Item(LocalItem, 0x0, Data1(0x33))]    // Usage (Rx)

  /** Four 16-bit axes in -500..500; closes the Pointer collection (hid.rs:17-22). */
  const AXIS_FIELD_ITEMS: seq<ShortItem> := [
    Item(GlobalItem, 0x1, Data2(0x0C, 0xFE)),  // Logical Minimum (-500)
    Item(GlobalItem, 0x2, Data2(0xF4, 0x01)),  // Logical Maximum (500)
    Item(GlobalItem, 0x7, Data1(0x10)),        // Report Size (16)
    Item(GlobalItem, 0x9, Data1(0x04)),        // Report Count (4)
    Item(MainItem, 0x8, Data1(0x02)),          // Input (Data, Variable, Absolute)
    Item(MainItem, 0xC, NoData)]               // End Collection

  /** Two 16-bit dials in -500..500 (hid.rs:24-30). */
  const DIAL_ITEMS: seq<ShortItem> := [
    Item(LocalItem, 0x0, Data1(0x36)),         // Usage (Slider)
    Item(LocalItem, 0x0, Data1(0x37)),         // Usage (Dial)
    Item(GlobalItem, 0x1, Data2(0x0C, 0xFE)),  // Logical Minimum (-500)
    Item(GlobalItem, 0x2, Data2(0xF4, 0x01)),  // Logical Maximum (500)
    Item(GlobalItem, 0x7, Data1(0x10)),        // Report Size (16)
    Item(GlobalItem, 0x9, Data1(0x02)),        // Report Count (2)
    Item(MainItem, 0x8, Data1(0x02))]          // Input (Data, Variable, Absolute)

  /** Buttons 1 to 6, one bit each (hid.rs:32-39). */
  const BUTTON_ITEMS: seq<ShortItem> := [
    Item(GlobalItem, 0x0, Data1(0x09)),   // Usage Page (Button)
    Item(LocalItem, 0x1, Data1(0x01)),    // Usage Minimum (1)
    Item(LocalItem, 0x2, Data1(0x06)),    // Usage Maximum (6)
    Item(GlobalItem, 0x1, Data1(0x00)),   // Logical Minimum (0)
    Item(GlobalItem, 0x2, Data1(0x01)),   // Logical Maximum (1)
    Item(GlobalItem, 0x7, Data1(0x01)),   // Report Size (1)
    Item(GlobalItem, 0x9, Data1(0x06)),   // Report Count (6)
    Item(MainItem, 0x8, Data1(0x02))]     // Input (Data, Variable, Absolute)

  /** Two constant padding bits; closes the Application collection (hid.rs:41-44). */
  const PADDING_ITEMS: seq<ShortItem> := [
    Item(GlobalItem, 0x9, Data1(0x01)),   // Report Count (1)
    Item(GlobalItem, 0x7, Data1(0x02)),   // Report Size (2)
    Item(MainItem, 0x8, Data1(0x03)),     // Input (Constant, Variable, Absolute)
    Item(MainItem, 0xC, NoData)]          // End Collection

  const REPORT_ITEMS: seq<ShortItem> :=
    HEADER_ITEMS + AXIS_USAGE_ITEMS + AXIS_FIELD_ITEMS + DIAL_ITEMS + BUTTON_ITEMS + PADDING_ITEMS

  /** The Input items the joystick's descriptor declares, in report order. */
  const REPORT_FIELDS: seq<InputField> := [
    InputField(16, 4, -500, 500, false),
    InputField(16, 2, -500, 500, false),
    InputField(1, 6, 0, 1, false),
    InputField(2, 1, 0, 1, true)]

  lemma HeaderEncoding()
    ensures EncodeItems(HEADER_ITEMS) == HEADER_BYTES
  {
  }

  lemma AxisUsageEncoding()
    ensures EncodeItems(AXIS_USAGE_ITEMS) == AXIS_USAGE_BYTES
  {
  }

  lemma AxisFieldEncoding()
    ensures EncodeItems(AXIS_FIELD_ITEMS) == AXIS_FIELD_BYTES
  {
  }

  lemma DialEncoding()
    ensures EncodeItems(DIAL_ITEMS) == DIAL_BYTES
  {
  }

  lemma ButtonEncoding()
    ensures EncodeItems(BUTTON_ITEMS) == BUTTON_BYTES
  {
  }

  lemma PaddingEncoding()
    ensures EncodeItems(PADDING_ITEMS) == PADDING_BYTES
  {
  }

  /** `REPORT_DESCR` is exactly the encoding of the items its comments name. */
  lemma ReportDescriptorEncoding()
    ensures EncodeItems(REPORT_ITEMS) == REPORT_DESCR
  {
    var a, b, c, d, e, f := HEADER_ITEMS, AXIS_USAGE_ITEMS, AXIS_FIELD_ITEMS, DIAL_ITEMS, BUTTON_ITEMS, PADDING_ITEMS;
    HeaderEncoding();
    AxisUsageEncoding();
    AxisFieldEncoding();
    DialEncoding();
    ButtonEncoding();
    PaddingEncoding();
    EncodeItemsAppend(a, b);
    EncodeItemsAppend(a + b, c);
    EncodeItemsAppend(a + b + c, d);
    EncodeItemsAppend(a + b + c + d, e);
    EncodeItemsAppend(a + b + c + d + e, f);
  }

  // The state after each section; the literal lengths let the walk unfold.

  lemma HeaderWalk()
    ensures WalkFirst(HEADER_ITEMS, 3, DescriptorWalk(Globals(0, 0, 0, 0), [], 0, 0, 0, true))
         == DescriptorWalk(Globals(0, 0, 0, 0), [], 1, 1, 0, true)
  {
  }

  lemma AxisUsageWalk()
    ensures WalkFirst(AXIS_USAGE_ITEMS, 7, DescriptorWalk(Globals(0, 0, 0, 0), [], 1, 1, 0, true))
         == DescriptorWalk(Globals(0, 0, 0, 0), [], 2, 2, 0, true)
  {
  }

  lemma AxisFieldWalk()
    ensures WalkFirst(AXIS_FIELD_ITEMS, 6, DescriptorWalk(Globals(0, 0, 0, 0), [], 2, 2, 0, true))
         == DescriptorWalk(Globals(-500, 500, 16, 4), [InputField(16, 4, -500, 500, false)], 1, 2, 1, true)
  {
  }

  lemma DialWalk()
    ensures WalkFirst(DIAL_ITEMS, 7, DescriptorWalk(Globals(-500, 500, 16, 4), [InputField(16, 4, -500, 500, false)], 1, 2, 1, true))
         == DescriptorWalk(Globals(-500, 500, 16, 2), [InputField(16, 4, -500, 500, false), InputField(16, 2, -500, 500, false)], 1, 2, 1, true)
  {
  }

  lemma ButtonWalk()
    ensures WalkFirst(BUTTON_ITEMS, 8, DescriptorWalk(Globals(-500, 500, 16, 2), [InputField(16, 4, -500, 500, false), InputField(16, 2, -500, 500, false)], 1, 2, 1, true))
         == DescriptorWalk(Globals(0, 1, 1, 6), [InputField(16, 4, -500, 500, false), InputField(16, 2, -500, 500, false), InputField(1, 6, 0, 1, false)], 1, 2, 1, true)
  {
  }

  lemma PaddingWalk()
    ensures WalkFirst(PADDING_ITEMS, 4, DescriptorWalk(Globals(0, 1, 1, 6), [InputField(16, 4, -500, 500, false), InputField(16, 2, -500, 500, false), InputField(1, 6, 0, 1, false)], 1, 2, 1, true))
         == DescriptorWalk(Globals(0, 1, 2, 1), [InputField(16, 4, -500, 500, false), InputField(16, 2, -500, 500, false), InputField(1, 6, 0, 1, false), InputField(2, 1, 0, 1, true)], 0, 2, 2, true)
  {
  }

  /** Reading `REPORT_DESCR` as short items: four Input items of 16x4, 16x2,
      1x6 and 2x1 bits with the logical ranges -500..500, -500..500, 0..1 and
      0..1 (the last one constant padding), inside two balanced collections. */
  lemma ReportDescriptorWalk()
    ensures ParseItems(REPORT_DESCR) == Success(REPORT_ITEMS)
    ensures var w := Walk(REPORT_ITEMS, WALK_START);
            w.inputs == REPORT_FIELDS && Balanced(w) && w.collections == 2
  {
    ReportDescriptorEncoding();
    ParseEncodeItems(REPORT_ITEMS);
    var a, b, c, d, e, f := HEADER_ITEMS, AXIS_USAGE_ITEMS, AXIS_FIELD_ITEMS, DIAL_ITEMS, BUTTON_ITEMS, PADDING_ITEMS;
    assert |a| == 3 && |b| == 7 && |c| == 6 && |d| == 7 && |e| == 8 && |f| == 4;
    HeaderWalk();
    AxisUsageWalk();
    AxisFieldWalk();
    DialWalk();
    ButtonWalk();
    PaddingWalk();
    WalkAppend(a, b, WALK_START);
    WalkAppend(a + b, c, WALK_START);
    WalkAppend(a + b + c, d, WALK_START);
    WalkAppend(a + b + c + d, e, WALK_START);
    WalkAppend(a + b + c + d + e, f, WALK_START);
  }

  /** The declared report is 4*16 + 2*16 + 6*1 + 1*2 = 104 bits, the 13 bytes of
      `JoystickState` and of the interrupt endpoint's packet. */
  lemma ReportDescriptorSize()
    ensures ReadDescriptor(REPORT_DESCR) == Success(Walk(REPORT_ITEMS, WALK_START))
    ensures ReportBits(Walk(REPORT_ITEMS, WALK_START).inputs) == 104 == 8 * Types.REPORT_LEN
    ensures forall ifNum: U8, address: U8 ::
              8 * NewHidClass(ifNum, address).reportEp.maxPacketSize == ReportBits(REPORT_FIELDS)
  {
    ReportDescriptorWalk();
    ReportFieldsBits();
  }

  lemma ReportFieldsBits()
    ensures ReportBits(REPORT_FIELDS) == 104
  {
    var fs := REPORT_FIELDS;
    assert fs[1..][1..][1..][1..] == [];
  }

  // ---------------------------------------------------------------------
  // HID descriptor and configuration descriptor
  // ---------------------------------------------------------------------

  const HID_DESCRIPTOR_TYPE: U8 := 0x21
  const REPORT_DESCRIPTOR_TYPE: U8 := 0x22

  /** `REPORT_DESCR.len() as u16` (hid.rs:74, 119). */
  function ReportDescrLen(): (n: U16)
    ensures n == |REPORT_DESCR| == 0x48
  {
    |REPORT_DESCR| % U16_LIMIT
  }

  /** `descr_len as u8` and `(descr_len >> 8) as u8`: wDescriptorLength, low byte first. */
  function DescriptorLengthBytes(): (r: seq<U8>)
    ensures |r| == 2 && Word16(r[0], r[1]) == ReportDescrLen()
    ensures r == [0x48, 0x00]
  {
    [ReportDescrLen() % U8_LIMIT, ReportDescrLen() / U8_LIMIT % U8_LIMIT]
  }

  /** The body of the HID descriptor: bcdHID 0x0101 (HID 1.01), country 0,
      one class descriptor, of type Report, and its length (hid.rs:77-85). */
  function ClassDescriptorPayload(): (r: seq<U8>)
    ensures |r| == 7 && r[4] == REPORT_DESCRIPTOR_TYPE && r[5..] == DescriptorLengthBytes()
    ensures Word16(r[0], r[1]) == 0x0101 && r[2] == 0 && r[3] == 1
  {
    [0x01, 0x01, 0x00, 0x01, REPORT_DESCRIPTOR_TYPE] + DescriptorLengthBytes()
  }

  /** The 9-byte HID descriptor returned for GET_DESCRIPTOR(0x21) (hid.rs:122-132). */
  function HidDescriptor(): (r: seq<U8>)
    ensures r == [0x09, 0x21, 0x01, 0x01, 0x00, 0x01, 0x22, 0x48, 0x00]
  {
    [0x09, HID_DESCRIPTOR_TYPE, 0x01, 0x01, 0x00, 0x01, REPORT_DESCRIPTOR_TYPE]
      + DescriptorLengthBytes()
  }

  /** A descriptor as the configuration-descriptor writer frames it: bLength,
      bDescriptorType, then the body. */
  function Framed(descriptorType: U8, body: seq<U8>): (r: seq<U8>)
    requires |body| + 2 < U8_LIMIT
    ensures |r| == |body| + 2 && r[0] == |r| && r[1] == descriptorType && r[2..] == body
  {
    [(|body| + 2) as U8, descriptorType] + body
  }

  /** The interrupt IN endpoint the class allocates. */
  datatype EndpointIn = EndpointIn(address: U8, maxPacketSize: U16, interval: U8)

  /** `HIDClass`: its interface number and report endpoint. */
  datatype HidClass = HidClass(reportIf: U8, reportEp: EndpointIn)

  /** `HIDClass::new`: the allocator chooses the interface number and endpoint
      address; the class asks for 13-byte packets every 1 ms (hid.rs:52-58). */
  function NewHidClass(interfaceNumber: U8, endpointAddress: U8): (c: HidClass)
    ensures c.reportIf == interfaceNumber && c.reportEp.address == endpointAddress
    ensures c.reportEp.maxPacketSize == Types.REPORT_LEN && c.reportEp.interval == 1
  {
    HidClass(interfaceNumber, EndpointIn(endpointAddress, 13, 1))
  }

  datatype ConfigDescriptor =
    | InterfaceDescriptor(interfaceNumber: U8, interfaceClass: U8, subClass: U8, protocol: U8)
    | ClassDescriptor(descriptorType: U8, body: seq<U8>)
    | EndpointDescriptor(endpoint: EndpointIn)

  const USB_CLASS_HID: U8 := 0x03
  const USB_SUBCLASS_NONE: U8 := 0x00
  const USB_INTERFACE_GAMEPAD: U8 := 0x05

  /** `get_configuration_descriptors` (hid.rs:66-91): interface, HID
      descriptor, endpoint. The HID descriptor written here, once framed, is
      the one GET_DESCRIPTOR(0x21) returns. */
  function ConfigurationDescriptors(c: HidClass): (r: seq<ConfigDescriptor>)
    ensures |r| == 3
    ensures r[0] == InterfaceDescriptor(c.reportIf, 0x03, 0x00, 0x05)
    ensures r[1].ClassDescriptor? && |r[1].body| + 2 < U8_LIMIT
    ensures Framed(r[1].descriptorType, r[1].body) == HidDescriptor()
    ensures r[2] == EndpointDescriptor(c.reportEp)
  {
    [InterfaceDescriptor(c.reportIf, USB_CLASS_HID, USB_SUBCLASS_NONE, USB_INTERFACE_GAMEPAD),
     ClassDescriptor(HID_DESCRIPTOR_TYPE, ClassDescriptorPayload()),
     EndpointDescriptor(c.reportEp)]
  }

  // ---------------------------------------------------------------------
  // Control transfers
  // ---------------------------------------------------------------------

  datatype RequestType = Standard | Class | Vendor | ReservedType
  datatype Recipient = Device | Interface | Endpoint | Other | ReservedRecipient

  /** The SETUP packet of a control transfer. */
  datatype ControlRequest = ControlRequest(requestType: RequestType, recipient: Recipient,
                                           request: U8, value: U16, index: U16, length: U16)

  /** What a handler does with the transfer: `accept_with(data)`, `reject()`,
      or nothing, leaving it to the other classes. */
  datatype ControlResponse = Accept(data: seq<U8>) | Reject | Ignore

  const GET_DESCRIPTOR: U8 := 0x06
  const GET_REPORT: U8 := 0x01

  /** The empty report answered to GET_REPORT (hid.rs:162). */
  const EMPTY_REPORT: seq<U8> := [0, 0, 0, 0]

  /** `descriptor_type_index`: the high and low bytes of wValue. */
  function DescriptorTypeIndex(value: U16): (r: (U8, U8))
    ensures Word16(r.1, r.0) == value
  {
    (value / U8_LIMIT, value % U8_LIMIT)
  }

  /** A standard GET_DESCRIPTOR addressed to an interface, for `descriptorType`. */
  predicate IsDescriptorRequest(req: ControlRequest, descriptorType: U8) {
    && req.requestType == Standard && req.recipient == Interface
    && req.request == GET_DESCRIPTOR && DescriptorTypeIndex(req.value).0 == descriptorType
  }

  /** A class request for this class's interface (hid.rs:97-99, 149-151). */
  predicate IsClassRequest(c: HidClass, req: ControlRequest) {
    req.requestType == Class && req.recipient == Interface && req.index == c.reportIf
  }

  /** `control_out` (hid.rs:93-107): every class request for the interface is
      rejected, everything else left alone. */
  function ControlOut(c: HidClass, req: ControlRequest): (r: ControlResponse)
    ensures !r.Accept?
    ensures r == Reject <==> IsClassRequest(c, req)
  {
    if !IsClassRequest(c, req) then Ignore else Reject
  }

  /** `control_in` (hid.rs:109-169). A standard request other than the two
      descriptor reads is left alone, either at once or, for an interface
      GET_DESCRIPTOR of another type, by the class check. */
  function ControlIn(c: HidClass, req: ControlRequest): (r: ControlResponse)
    ensures r.Accept? <==>
              IsDescriptorRequest(req, HID_DESCRIPTOR_TYPE) || IsDescriptorRequest(req, REPORT_DESCRIPTOR_TYPE)
              || (IsClassRequest(c, req) && req.request == GET_REPORT)
    ensures r == Reject <==> IsClassRequest(c, req) && req.request != GET_REPORT
  {
    if req.requestType == Standard && req.recipient == Interface && req.request == GET_DESCRIPTOR
       && DescriptorTypeIndex(req.value).0 == HID_DESCRIPTOR_TYPE then
      Accept(HidDescriptor())
    else if req.requestType == Standard && req.recipient == Interface && req.request == GET_DESCRIPTOR
       && DescriptorTypeIndex(req.value).0 == REPORT_DESCRIPTOR_TYPE then
      Accept(REPORT_DESCR)
    else if req.requestType == Standard && !(req.recipient == Interface && req.request == GET_DESCRIPTOR) then
      Ignore
    else if !IsClassRequest(c, req) then
      Ignore
    else if req.request == GET_REPORT then
      Accept(EMPTY_REPORT)
    else
      Reject
  }

  /** GET_DESCRIPTOR(HID) answers the 9-byte HID descriptor, for any interface
      index, with wDescriptorLength 0x0048. */
  lemma GetHidDescriptor(c: HidClass, req: ControlRequest)
    requires IsDescriptorRequest(req, HID_DESCRIPTOR_TYPE)
    ensures ControlIn(c, req) == Accept([0x09, 0x21, 0x01, 0x01, 0x00, 0x01, 0x22, 0x48, 0x00])
    ensures Word16(ControlIn(c, req).data[7], ControlIn(c, req).data[8]) == |REPORT_DESCR|
  {
  }

  /** GET_DESCRIPTOR(Report) answers `REPORT_DESCR` verbatim, for any
      interface index, and that answer reads as `REPORT_FIELDS`. */
  lemma GetReportDescriptor(c: HidClass, req: ControlRequest)
    requires IsDescriptorRequest(req, REPORT_DESCRIPTOR_TYPE)
    ensures ControlIn(c, req) == Accept(REPORT_DESCR)
    ensures ReadDescriptor(ControlIn(c, req).data).Success?
    ensures ReadDescriptor(ControlIn(c, req).data).value.inputs == REPORT_FIELDS
  {
    ReportDescriptorWalk();
  }

  /** GET_REPORT for this interface answers four zero bytes, not a full
      13-byte report. */
  lemma GetReport(c: HidClass, req: ControlRequest)
    requires IsClassRequest(c, req) && req.request == GET_REPORT
    ensures ControlIn(c, req) == Accept(EMPTY_REPORT)
    ensures |ControlIn(c, req).data| == 4 < Types.REPORT_LEN
  {
  }

  /** No standard request is ever rejected; those that are not one of the two
      descriptor reads are left alone. */
  lemma StandardRequests(c: HidClass, req: ControlRequest)
    requires req.requestType == Standard
    requires !IsDescriptorRequest(req, HID_DESCRIPTOR_TYPE) && !IsDescriptorRequest(req, REPORT_DESCRIPTOR_TYPE)
    ensures ControlIn(c, req) == Ignore && ControlOut(c, req) == Ignore
  {
  }

  /** Vendor and reserved requests, and class requests for another recipient
      or interface, are left alone by both handlers. */
  lemma ForeignRequests(c: HidClass, req: ControlRequest)
    requires req.requestType != Standard && !IsClassRequest(c, req)
    ensures ControlIn(c, req) == Ignore && ControlOut(c, req) == Ignore
  {
  }
}
