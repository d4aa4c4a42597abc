/** The sequential parts of the RTIC application (src/main.rs): the initial
    shared and local resources, the `read_analog` task body, the `dma` buffer
    exchange and the payload of `usb_report`. Each task body is one atomic
    step; scheduling and locking are not modelled. */
module App {
  import opened Wrappers
  import opened MachineInts
  import opened Inputs
  import Types
  import Hid

  const ANALOG_PINS: nat := 6
  const DIGITAL_PINS: nat := 10
  /** `.take(2)`: only the first two analog channels are calibrated and scaled. */
  const CALIBRATED_CHANNELS: nat := 2
  /** The value of `analog_inputs` before the first conversion completes. */
  const INITIAL_ANALOG: U16 := 1500

  /** The whole of one channel's step in `read_analog`: `set_center(reading)`
      first when the user button is held, then `get(reading)`. Returns the new
      channel state and the axis value; for 12-bit readings `get` cannot trap. */
  function ProcessChannel(li: LinearInput, reading: U16, commit: bool): (r: (LinearInput, U16))
    requires WithinAdc(li) && reading <= ADC_MAX
    ensures Get(if commit then SetCenter(li, reading) else li, reading) == (r.0, Success(r.1))
    ensures r.1 <= RESOLUTION && WithinAdc(r.0)
  {
    var s := if commit then SetCenter(li, reading) else li;
    GetInRange(s, reading);
    var g := Get(s, reading);
    (g.0, g.1.value)
  }

  /** What one channel's step does to the channel: the first reading opens the
      envelope at half scale; while the button is held the reading becomes the
      committed centre, and a reading inside the envelope then scales to
      exactly half; otherwise a committed calibration stays as it is. */
  lemma ProcessChannelCases(li: LinearInput, reading: U16, commit: bool)
    requires WithinAdc(li) && reading <= ADC_MAX
    ensures var r := ProcessChannel(li, reading, commit);
      && (li.NoCalibration? ==> r.0 == OngoingCalibration(reading, reading) && r.1 == HALF_RESOLUTION)
      && (commit && !li.NoCalibration? ==> r.0 == Calibrated(li.start, reading, li.end))
      && (commit && !li.NoCalibration? && li.start <= reading <= li.end ==> r.1 == HALF_RESOLUTION)
      && (!commit && li.Calibrated? ==> r.0 == li)
      && (!commit && li.OngoingCalibration? ==>
            r.0 == OngoingCalibration(Min(li.start, reading), Max(li.end, reading)))
  {
    var r := ProcessChannel(li, reading, commit);
    var s := if commit then SetCenter(li, reading) else li;
    assert Get(s, reading) == (r.0, Success(r.1));
    if li.NoCalibration? {
      GetFirstSample(reading);
    } else if commit {
      assert s == Calibrated(li.start, reading, li.end);
      GetCalibratedKeepsState(s, reading);
      if li.start <= reading <= li.end {
        CommitThenGet(li, reading);
      }
    } else if li.Calibrated? {
      GetCalibratedKeepsState(li, reading);
    } else {
      GetWidensEnvelope(li, reading);
    }
  }

  /** The DMA stream: it owns one buffer, the ADC scan writes into it, and
      `next_transfer` swaps it for the buffer it is given. */
  class Transfer {
    var buffer: array<U16>

    constructor(first: array<U16>)
      ensures buffer == first
    {
      buffer := first;
    }

    /** One completed scan of the six channels (the peripheral's side). */
    method Convert(samples: seq<U16>)
      requires |samples| == buffer.Length
      modifies buffer
      ensures buffer[..] == samples
    {
      forall i | 0 <= i < buffer.Length {
        buffer[i] := samples[i];
      }
    }

    /** `next_transfer(next)`: takes `next` as the target of the following scan
        and hands back the buffer the last scan filled. */
    method NextTransfer(next: array<U16>) returns (filled: array<U16>)
      modifies this
      ensures filled == old(buffer) && buffer == next
    {
      filled := buffer;
      buffer := next;
    }
  }

  /** The resources the tasks share (`transfer`, `analog_inputs`) and the local
      ones (`buffer` of `dma`, `linear_inputs` of `read_analog`). */
  class Resources {
    const transfer: Transfer
    const analogInputs: array<U16>
    const linearInputs: array<LinearInput>
    var buffer: Option<array<U16>>

    /** Both DMA buffers and `analog_inputs` are distinct six-word arrays of
        12-bit samples; `dma`'s local slot holds a buffer between runs; every
        channel's envelope lies within the ADC range. */
    predicate Valid()
      reads this, transfer, transfer.buffer, analogInputs, linearInputs
      reads if buffer.Some? then {buffer.value} else {}
    {
      && analogInputs.Length == ANALOG_PINS
      && linearInputs.Length == ANALOG_PINS
      && transfer.buffer.Length == ANALOG_PINS
      && buffer.Some? && buffer.value.Length == ANALOG_PINS
      && buffer.value != transfer.buffer
      && analogInputs != transfer.buffer && analogInputs != buffer.value
      && (forall i :: 0 <= i < ANALOG_PINS ==> analogInputs[i] <= ADC_MAX)
      && (forall i :: 0 <= i < ANALOG_PINS ==> transfer.buffer[i] <= ADC_MAX)
      && (forall i :: 0 <= i < ANALOG_PINS ==> buffer.value[i] <= ADC_MAX)
      && (forall i :: 0 <= i < ANALOG_PINS ==> WithinAdc(linearInputs[i]))
    }

    /** `init`: two zeroed buffers, the first given to the transfer and the
        second kept by `dma`; `analog_inputs` at 1500; every channel
        uncalibrated. */
    constructor Init()
      ensures Valid()
      ensures analogInputs[..] == seq(ANALOG_PINS, _ => INITIAL_ANALOG)
      ensures forall i :: 0 <= i < ANALOG_PINS ==> linearInputs[i] == Default()
      ensures transfer.buffer[..] == seq(ANALOG_PINS, _ => 0)
      ensures buffer.Some? && buffer.value[..] == seq(ANALOG_PINS, _ => 0)
      ensures fresh(transfer) && fresh(transfer.buffer) && fresh(buffer.value)
    {
      var first := new U16[ANALOG_PINS](_ => 0);
      var second := new U16[ANALOG_PINS](_ => 0);
      transfer := new Transfer(first);
      analogInputs := new U16[ANALOG_PINS](_ => INITIAL_ANALOG);
      linearInputs := new LinearInput[ANALOG_PINS](_ => Default());
      buffer := Some(second);
    }

    /** A scan completes into the buffer the transfer owns. The ADC works at
        twelve bits, so every sample is at most 4095. */
    method ConversionComplete(samples: seq<U16>)
      requires Valid()
      requires |samples| == ANALOG_PINS
      requires forall i :: 0 <= i < |samples| ==> samples[i] <= ADC_MAX
      modifies transfer.buffer
      ensures Valid()
      ensures transfer.buffer[..] == samples
    {
      transfer.Convert(samples);
    }

    /** The `dma` task: hand the held buffer to the transfer, copy the filled
        one into `analog_inputs` and keep it as the next buffer to hand over. */
    method Dma()
      requires Valid()
      modifies this, transfer, analogInputs
      ensures Valid()
      ensures analogInputs[..] == old(transfer.buffer[..])
      ensures transfer.buffer == old(buffer.value)
      ensures buffer == Some(old(transfer.buffer))
      ensures buffer.value[..] == old(transfer.buffer[..])
      ensures linearInputs[..] == old(linearInputs[..])
    {
      var held := buffer.value;
      buffer := None;
      var filled := transfer.NextTransfer(held);
      forall i | 0 <= i < ANALOG_PINS {
        analogInputs[i] := filled[i];
      }
      buffer := Some(filled);
    }

    /** One iteration of `read_analog`'s channel loop: `set_center` on channel
        `i` when `commit`, then `get` with the same reading, in place. */
    method UpdateChannel(i: nat, commit: bool) returns (axis: U16)
      requires Valid() && i < ANALOG_PINS
      modifies linearInputs
      ensures Valid()
      ensures (linearInputs[i], axis) == ProcessChannel(old(linearInputs[i]), analogInputs[i], commit)
      ensures forall j :: 0 <= j < ANALOG_PINS && j != i ==> linearInputs[j] == old(linearInputs[j])
    {
      var reading := analogInputs[i];
      ghost var step := ProcessChannel(linearInputs[i], reading, commit);
      if commit {
        linearInputs[i] := SetCenter(linearInputs[i], reading);
      }
      var r := Get(linearInputs[i], reading);
      assert r == (step.0, Success(step.1));
      linearInputs[i] := r.0;
      axis := r.1.value;
    }

    /** The `read_analog` task: scale the first two channels (committing the
        current reading as centre first while the user button reads low) and
        sample the ten button pins (true when low). */
    method ReadAnalog(userButtonLow: bool, pinsLow: seq<bool>) returns (axes: seq<U16>, buttons: seq<bool>)
      requires Valid()
      requires |pinsLow| == DIGITAL_PINS
      modifies linearInputs
      ensures Valid()
      ensures |axes| == ANALOG_PINS
      ensures forall i :: 0 <= i < CALIBRATED_CHANNELS ==>
                (linearInputs[i], axes[i]) == ProcessChannel(old(linearInputs[i]), analogInputs[i], userButtonLow)
      ensures forall i :: CALIBRATED_CHANNELS <= i < ANALOG_PINS ==>
                axes[i] == 0 && linearInputs[i] == old(linearInputs[i])
      ensures buttons == pinsLow
    {
      var a := new U16[ANALOG_PINS](_ => 0);
      for i := 0 to CALIBRATED_CHANNELS
        modifies linearInputs, a
        invariant forall j :: 0 <= j < i ==>
                    (linearInputs[j], a[j]) == ProcessChannel(old(linearInputs[j]), analogInputs[j], userButtonLow)
        invariant forall j :: i <= j < ANALOG_PINS ==> a[j] == 0 && linearInputs[j] == old(linearInputs[j])
        invariant forall j :: 0 <= j < ANALOG_PINS ==> WithinAdc(linearInputs[j])
      {
        a[i] := UpdateChannel(i, userButtonLow);
      }
      axes := a[..];
      buttons := ReadButtons(pinsLow);
    }
  }

  /** The digital half of `read_analog`: each of the ten pull-up pins reads
      as pressed exactly when it is low. */
  method ReadButtons(pinsLow: seq<bool>) returns (buttons: seq<bool>)
    requires |pinsLow| == DIGITAL_PINS
    ensures |buttons| == DIGITAL_PINS
    ensures forall i :: 0 <= i < DIGITAL_PINS ==> buttons[i] == pinsLow[i]
  {
    var b := new bool[DIGITAL_PINS](_ => false);
    for i := 0 to DIGITAL_PINS
      invariant forall j :: 0 <= j < i ==> b[j] == pinsLow[j]
    {
      b[i] := pinsLow[i];
    }
    buttons := b[..];
  }

  /** The body of the `usb_report` task: the bytes it would hand to
      `HIDClass::write`, the serialised `from_ppm_time()` report, thirteen
      zeros that fill the interrupt endpoint's packet. `init` never spawns
      this task, so the firmware as written does not send them. */
  method UsbReport() returns (payload: seq<U8>)
    ensures payload == seq(Types.REPORT_LEN, _ => 0)
    ensures Types.FromU8Slice(payload) == Some(Types.FromPpmTime())
    ensures forall ifNum: U8, address: U8 ::
              |payload| == Hid.NewHidClass(ifNum, address).reportEp.maxPacketSize
  {
    var report := Types.FromPpmTime();
    payload := Types.AsU8Slice(report);
    Types.FromPpmTimeIsZeroReport();
    Types.RoundTrip(report);
  }
}
