/** The joystick input report `JoystickState` (src/types.rs) and its wire form.
    The firmware sends the packed struct's memory as it lies on a little-endian
    Cortex-M; here that view is an explicit serialiser with a decoder beside it. */
module Types {
  import opened Wrappers
  import opened MachineInts

  /** `#[repr(packed)] struct JoystickState`, fields in declaration order. */
  datatype JoystickState = JoystickState(
    leftX: I16, leftY: I16,
    rightX: I16, rightY: I16,
    dial1: I16, dial2: I16,
    buttons: U8)

  /** Number of `i16` fields, each two bytes on the wire. */
  const WORD_FIELDS: nat := 6
  /** `size_of::<JoystickState>()` for the packed layout: six `i16` and one `u8`. */
  const REPORT_LEN: nat := 2 * WORD_FIELDS + 1

  /** The `i16` field at position `k` of the declaration order. */
  function Word(s: JoystickState, k: nat): I16
    requires k < WORD_FIELDS
  {
    match k
    case 0 => s.leftX
    case 1 => s.leftY
    case 2 => s.rightX
    case 3 => s.rightY
    case 4 => s.dial1
    case _ => s.dial2
  }

  /** `JoystickState::from_ppm_time`: every axis, dial and button at zero. */
  function FromPpmTime(): (r: JoystickState)
    ensures forall k :: 0 <= k < WORD_FIELDS ==> Word(r, k) == 0
    ensures r.buttons == 0
  {
    JoystickState(0, 0, 0, 0, 0, 0, 0)
  }

  /** An `i16` in memory on a little-endian target: low byte first. */
  function LittleEndian(x: I16): (r: seq<U8>)
    ensures |r| == 2 && Word16(r[0], r[1]) == I16Bits(x)
  {
    [I16Bits(x) % 256, I16Bits(x) / 256]
  }

  function FromLittleEndian(lo: U8, hi: U8): (r: I16)
    ensures LittleEndian(r) == [lo, hi]
  {
    I16OfBits(Word16(lo, hi))
  }

  lemma LittleEndianRoundTrip(x: I16)
    ensures FromLittleEndian(LittleEndian(x)[0], LittleEndian(x)[1]) == x
  {
    var b := LittleEndian(x);
    I16BitsInjective(x);
    assert Word16(b[0], b[1]) == I16Bits(x);
  }

  /** `as_u8_slice`: the 13 bytes of the packed struct. */
  function AsU8Slice(s: JoystickState): (r: seq<U8>)
    ensures |r| == REPORT_LEN
    ensures forall k :: 0 <= k < WORD_FIELDS ==>
              Word16(r[2 * k], r[2 * k + 1]) == I16Bits(Word(s, k))
    ensures r[2 * WORD_FIELDS] == s.buttons
  {
    var r := LittleEndian(s.leftX) + LittleEndian(s.leftY)
           + LittleEndian(s.rightX) + LittleEndian(s.rightY)
           + LittleEndian(s.dial1) + LittleEndian(s.dial2)
           + [s.buttons];
    assert forall k :: 0 <= k < WORD_FIELDS ==> r[2 * k .. 2 * k + 2] == LittleEndian(Word(s, k));
    r
  }

  /** How a host reads the report back; a payload of any other length is not
      a `JoystickState`. */
  function FromU8Slice(b: seq<U8>): (r: Option<JoystickState>)
    ensures r.Some? <==> |b| == REPORT_LEN
  {
    if |b| != REPORT_LEN then None
    else Some(JoystickState(
      FromLittleEndian(b[0], b[1]), FromLittleEndian(b[2], b[3]),
      FromLittleEndian(b[4], b[5]), FromLittleEndian(b[6], b[7]),
      FromLittleEndian(b[8], b[9]), FromLittleEndian(b[10], b[11]),
      b[12]))
  }

  /** Decoding the serialised report recovers every field. */
  lemma RoundTrip(s: JoystickState)
    ensures FromU8Slice(AsU8Slice(s)) == Some(s)
  {
    var b := AsU8Slice(s);
    forall k | 0 <= k < WORD_FIELDS
      ensures FromLittleEndian(b[2 * k], b[2 * k + 1]) == Word(s, k)
    {
      assert Word16(b[2 * k], b[2 * k + 1]) == I16Bits(Word(s, k));
      LittleEndianRoundTrip(Word(s, k));
    }
    assert FromLittleEndian(b[0], b[1]) == Word(s, 0);
    assert FromLittleEndian(b[2], b[3]) == Word(s, 1);
    assert FromLittleEndian(b[4], b[5]) == Word(s, 2);
    assert FromLittleEndian(b[6], b[7]) == Word(s, 3);
    assert FromLittleEndian(b[8], b[9]) == Word(s, 4);
    assert FromLittleEndian(b[10], b[11]) == Word(s, 5);
  }

  /** Every 13-byte payload is the serialisation of exactly one report. */
  lemma BytesRoundTrip(b: seq<U8>)
    requires |b| == REPORT_LEN
    ensures FromU8Slice(b).Some? && AsU8Slice(FromU8Slice(b).value) == b
  {
    var s := FromU8Slice(b).value;
    var r := AsU8Slice(s);
    forall k | 0 <= k < WORD_FIELDS
      ensures r[2 * k] == b[2 * k] && r[2 * k + 1] == b[2 * k + 1]
    {
      assert LittleEndian(Word(s, k)) == [b[2 * k], b[2 * k + 1]];
    }
    assert forall i :: 0 <= i < REPORT_LEN ==> r[i] == b[i] by {
      forall i | 0 <= i < REPORT_LEN ensures r[i] == b[i] {
        if i < 2 * WORD_FIELDS {
          assert r[2 * (i / 2)] == b[2 * (i / 2)] && r[2 * (i / 2) + 1] == b[2 * (i / 2) + 1];
        }
      }
    }
  }

  /** Distinct reports never share a wire form. */
  lemma AsU8SliceInjective(s1: JoystickState, s2: JoystickState)
    requires AsU8Slice(s1) == AsU8Slice(s2)
    ensures s1 == s2
  {
    RoundTrip(s1);
    RoundTrip(s2);
  }

  /** The report the transmit task's body would send is thirteen zero bytes. */
  lemma FromPpmTimeIsZeroReport()
    ensures AsU8Slice(FromPpmTime()) == seq(REPORT_LEN, _ => 0)
  {
    var r := AsU8Slice(FromPpmTime());
    assert forall i :: 0 <= i < REPORT_LEN ==> r[i] == 0 by {
      forall i | 0 <= i < REPORT_LEN ensures r[i] == 0 {
        if i < 2 * WORD_FIELDS {
          var k := i / 2;
          assert Word16(r[2 * k], r[2 * k + 1]) == 0;
        }
      }
    }
  }
}
