/**
  The compass sensor adapter: one physical magnetometer presented as two
  logical sensors, the calibrated one (handle ID_M) and the raw one (handle
  ID_RM).

  The vendor calibration library is an oracle: whether its Magnetic_Enable and
  Magnetic_Disable symbols were resolved is a flag, each call into it is
  appended to a call log, and Magnetic_Calibrate is a function passed to the
  event handler. The base class is an oracle too: what its enable, setDelay
  and readEvents return is passed in, and each call to it is logged.
 */
module Compass {
  import opened CInt
  import opened Wrappers

  // Logical sensor handles. Their numeric values live in the sensor list
  // header, which is not part of this model; only their distinctness matters.
  const ID_M: int := 2
  const ID_RM: int := 3

  const EINVAL: int := 22

  // Bits of the selection mask and of the per-consumer validity mask.
  const SENSOR_NONE: bv32 := 0
  const SENSOR_M: bv32 := 1
  const SENSOR_RM: bv32 := 2
  const SENSOR_M_RM: bv32 := 3

  // Linux input event types.
  const EV_SYN: int := 0x00
  const EV_REL: int := 0x02

  // Relative-axis codes the kernel driver reports. Their numeric values live
  // in the sensor parameter header, which is not part of this model; only
  // their distinctness matters.
  const EVENT_TYPE_REL_MAGV_X: int := 0x00
  const EVENT_TYPE_REL_MAGV_Y: int := 0x01
  const EVENT_TYPE_REL_MAGV_Z: int := 0x02
  const EVENT_TYPE_MAG_TIME_HI: int := 0x07
  const EVENT_TYPE_MAG_TIME_LO: int := 0x08

  const KNOWN_CODES: set<int> := {EVENT_TYPE_REL_MAGV_X, EVENT_TYPE_REL_MAGV_Y, EVENT_TYPE_REL_MAGV_Z,
                                   EVENT_TYPE_MAG_TIME_HI, EVENT_TYPE_MAG_TIME_LO}

  const TIME_HI_SHIFT: nat := 32

  const NS_PER_MS: int := 1000000

  /** Fixed-point scale of the calibrated output: 1 uT is 2^16. */
  const FIXED_POINT_ONE: real := 65536.0

  /** The compass mounting matrix, row by row. */
  const MOUNTING_MATRIX: seq<int> := [0, -1, 0, 1, 0, 0, 0, 0, 1]

  /** One kernel input event. */
  datatype InputEvent = InputEvent(evType: int, code: int, value: int32)

  /** A calibrated magnetic vector; the components are the exact values of the vendor's floats. */
  datatype MagVec = MagVec(x: real, y: real, z: real, status: int)
  {
    function Axis(i: nat): real
      requires i < 3
    {
      if i == 0 then x else if i == 1 then y else z
    }
  }

  const ZERO_VEC: MagVec := MagVec(0.0, 0.0, 0.0, 0)

  /** What Magnetic_Calibrate returns (nonzero means a sample was produced) and what it writes to `out`. */
  datatype Calibration = Calibration(ret: int, out: MagVec)

  type Calibrator = (int32, int32, int32) -> Calibration

  /** Which capability symbols of the vendor library were resolved. */
  datatype VendorLibrary = VendorLibrary(hasEnable: bool, hasDisable: bool)

  /** A call from the adapter into the vendor library or into its base class. */
  datatype Call =
    | MagneticInitialize
    | MagneticEnable
    | MagneticDisable
    | MagneticSetDelay(delay: uint64)
    | MagneticCalibrate(x: int32, y: int32, z: int32)
    | BaseEnable(handle: int, en: int)
    | BaseSetDelay(handle: int, ns: int64)
    | BaseReadEvents

  /** The raw sample as accumulated from individual axis and timestamp events. */
  datatype CachedData = CachedData(x: int32, y: int32, z: int32, timeHi: uint32, timeLo: uint32)

  const ZERO_CACHE: CachedData := CachedData(0, 0, 0, 0, 0)

  /** The last published sample and which consumers have not yet read it. */
  datatype LastSample = LastSample(
    magnetic: MagVec,
    uncalibX: int32, uncalibY: int32, uncalibZ: int32,
    timestamp: int64,
    validMask: bv32)
  {
    function Uncalib(i: nat): int32
      requires i < 3
    {
      if i == 0 then uncalibX else if i == 1 then uncalibY else uncalibZ
    }
  }

  const ZERO_SAMPLE: LastSample := LastSample(ZERO_VEC, 0, 0, 0, 0, SENSOR_NONE)

  /** The event handed to the base class when a sample is published. */
  datatype PendingEvent = PendingEvent(magnetic: MagVec, timestamp: int64)

  predicate IsHandle(handle: int) {
    handle == ID_M || handle == ID_RM
  }

  function SelectBit(handle: int): bv32 {
    if handle == ID_M then SENSOR_M else SENSOR_RM
  }

  function OtherBit(handle: int): bv32 {
    if handle == ID_M then SENSOR_RM else SENSOR_M
  }

  /** Whether the last power call in the log switched the hardware on. */
  function HardwareOn(log: seq<Call>): bool
  {
    if log == [] then false
    else match log[|log| - 1]
      case MagneticEnable => true
      case MagneticDisable => false
      case _ => HardwareOn(log[..|log| - 1])
  }

  /** Only Magnetic_Enable and Magnetic_Disable change the hardware's power state. */
  lemma HardwareOnAppend(log: seq<Call>, c: Call)
    ensures HardwareOn(log + [c]) == (if c.MagneticEnable? then true
                                      else if c.MagneticDisable? then false
                                      else HardwareOn(log))
  {
  }

  /** The Magnetic_Enable call at index `i` of the log is followed by no Magnetic_Disable. */
  ghost predicate OnSince(log: seq<Call>, i: int)
  {
    0 <= i < |log| && log[i].MagneticEnable? && forall j :: i < j < |log| ==> !log[j].MagneticDisable?
  }

  /** The hardware is on exactly when some Magnetic_Enable in the log has no Magnetic_Disable after it. */
  lemma {:induction false} HardwareOnIffEnabledSince(log: seq<Call>)
    ensures HardwareOn(log) <==> exists i :: OnSince(log, i)
  {
    if log != [] {
      var n := |log| - 1;
      var prefix := log[..n];
      match log[n]
      case MagneticEnable =>
        assert OnSince(log, n);
      case MagneticDisable =>
        forall i
          ensures !OnSince(log, i)
        {
          if 0 <= i < n {
            assert log[n].MagneticDisable?;
          }
        }
      case _ =>
        HardwareOnIffEnabledSince(prefix);
        forall i
          ensures OnSince(log, i) <==> OnSince(prefix, i)
        {
          if 0 <= i < n {
            assert forall j :: i < j < n ==> prefix[j] == log[j];
          }
        }
    }
  }

  /** The argument passed to Magnetic_Set_Delay: nanoseconds to milliseconds, truncated, as uint64_t. */
  function DelayArgument(ns: int64): (arg: uint64)
    ensures 0 <= ns ==> arg * NS_PER_MS <= ns < arg * NS_PER_MS + NS_PER_MS
    ensures -NS_PER_MS < ns < 0 ==> arg == 0
    ensures ns <= -NS_PER_MS ==> TWO_63 <= arg
  {
    ToUint64(TruncDiv(ns, NS_PER_MS))
  }

  /** The sample timestamp `((uint64_t)time_hi << TIME_HI_SHIFT) | time_lo`. */
  function CombineTimestamp(hi: uint32, lo: uint32): (t: uint64)
    ensures t == hi * TWO_32 + lo
  {
    Pow2Of32();
    BitOrDisjoint(hi, lo, TIME_HI_SHIFT);
    BitOr(ShiftLeft64(hi, TIME_HI_SHIFT), lo)
  }

  /** The calibrated output `(long)(v * 65536.0)`. */
  function FixedPoint(v: real): int
  {
    TruncToInt(v * FIXED_POINT_ONE)
  }

  class CompassSensor {
    const library: VendorLibrary
    var selectMask: bv32        // mSelectMask
    var cached: CachedData      // mCachedCompassData
    var last: LastSample        // mLastCompassData
    var accuracy: int           // mAccuracy
    var pending: PendingEvent   // the base class's mPendingEvent
    var calls: seq<Call>

    ghost predicate Valid()
      reads this
    {
      && selectMask & !SENSOR_M_RM == 0
      && last.validMask & !SENSOR_M_RM == 0
      && accuracy == last.magnetic.status
      && (library.hasEnable && library.hasDisable ==>
            (HardwareOn(calls) <==> selectMask != SENSOR_NONE))
    }

    /** Loads the vendor library (its outcome is `library`), initializes it and zeroes both samples. */
    constructor (library: VendorLibrary)
      ensures Valid()
      ensures this.library == library
      ensures selectMask == SENSOR_NONE && accuracy == 0
      ensures cached == ZERO_CACHE && last == ZERO_SAMPLE
      ensures calls == [MagneticInitialize]
    {
      this.library := library;
      selectMask := SENSOR_NONE;
      cached := ZERO_CACHE;
      last := ZERO_SAMPLE;
      accuracy := 0;
      pending := PendingEvent(ZERO_VEC, 0);
      calls := [MagneticInitialize];
    }

    /** Switches one logical sensor on (`en != 0`) or off. `baseResult` is what the base class's enable returns. */
    method Enable(handle: int, en: int, baseResult: int) returns (ret: int)
      requires Valid()
      modifies this`selectMask, this`calls
      ensures Valid()
      // An unknown handle is refused and changes nothing.
      ensures !IsHandle(handle) ==>
        ret == -EINVAL && selectMask == old(selectMask) && calls == old(calls)
      // The handle's bit is set or cleared first, whatever happens next.
      ensures IsHandle(handle) && en != 0 ==> selectMask == old(selectMask) | SelectBit(handle)
      ensures IsHandle(handle) && en == 0 ==> selectMask == old(selectMask) & !SelectBit(handle)
      // Enabling while the other identity is on: both are on, no hardware call.
      ensures IsHandle(handle) && en != 0 && (old(selectMask) & OtherBit(handle)) != 0 ==>
        selectMask == SENSOR_M_RM && calls == old(calls) && ret == 0
      // Enabling while the other identity is off: the hardware is switched on, if the symbol exists.
      ensures IsHandle(handle) && en != 0 && (old(selectMask) & OtherBit(handle)) == 0 ==>
        selectMask != SENSOR_M_RM &&
        (if library.hasEnable
         then calls == old(calls) + [MagneticEnable, BaseEnable(handle, 1)] && ret == baseResult
         else calls == old(calls) && ret == -1)
      // Disabling while the other identity stays on: no hardware call.
      ensures IsHandle(handle) && en == 0 && (old(selectMask) & OtherBit(handle)) != 0 ==>
        selectMask != SENSOR_NONE && calls == old(calls) && ret == 0
      // Disabling the last identity: the hardware is switched off, if the symbol exists.
      ensures IsHandle(handle) && en == 0 && (old(selectMask) & OtherBit(handle)) == 0 ==>
        selectMask == SENSOR_NONE &&
        (if library.hasDisable
         then calls == old(calls) + [MagneticDisable, BaseEnable(handle, 0)] && ret == baseResult
         else calls == old(calls) && ret == -1)
    {
      if handle != ID_M && handle != ID_RM {
        return -EINVAL;
      }
      if en != 0 {
        selectMask := selectMask | SelectBit(handle);
        if selectMask != SENSOR_M_RM {
          if !library.hasEnable {
            return -1;
          }
          HardwareOnAppend(calls, MagneticEnable);
          calls := calls + [MagneticEnable];
          HardwareOnAppend(calls, BaseEnable(handle, 1));
          calls := calls + [BaseEnable(handle, 1)];
          return baseResult;
        }
      } else {
        selectMask := selectMask & !SelectBit(handle);
        if selectMask == SENSOR_NONE {
          if !library.hasDisable {
            return -1;
          }
          HardwareOnAppend(calls, MagneticDisable);
          calls := calls + [MagneticDisable];
          HardwareOnAppend(calls, BaseEnable(handle, 0));
          calls := calls + [BaseEnable(handle, 0)];
          return baseResult;
        }
      }
      return 0;
    }

    /** Passes the sampling period to the vendor library in milliseconds, then to the base class. */
    method SetDelay(handle: int, ns: int64, baseResult: int) returns (ret: int)
      requires Valid()
      modifies this`calls
      ensures Valid()
      ensures calls == old(calls) + [MagneticSetDelay(DelayArgument(ns)), BaseSetDelay(handle, ns)]
      ensures ret == baseResult
    {
      HardwareOnAppend(calls, MagneticSetDelay(DelayArgument(ns)));
      calls := calls + [MagneticSetDelay(DelayArgument(ns))];
      HardwareOnAppend(calls, BaseSetDelay(handle, ns));
      calls := calls + [BaseSetDelay(handle, ns)];
      ret := baseResult;
    }

    /** Consumes one kernel input event; returns whether a sample was published. */
    method HandleEvent(ev: InputEvent, calibrate: Calibrator) returns (produced: bool)
      requires Valid()
      modifies this`cached, this`last, this`accuracy, this`pending, this`calls
      ensures Valid()
      // Each known axis code overwrites exactly its own cached field.
      ensures ev.evType == EV_REL ==>
        !produced && last == old(last) && accuracy == old(accuracy) && pending == old(pending) && calls == old(calls)
      ensures ev.evType == EV_REL && ev.code == EVENT_TYPE_REL_MAGV_X ==> cached == old(cached).(x := ev.value)
      ensures ev.evType == EV_REL && ev.code == EVENT_TYPE_REL_MAGV_Y ==> cached == old(cached).(y := ev.value)
      ensures ev.evType == EV_REL && ev.code == EVENT_TYPE_REL_MAGV_Z ==> cached == old(cached).(z := ev.value)
      ensures ev.evType == EV_REL && ev.code == EVENT_TYPE_MAG_TIME_HI ==>
        cached == old(cached).(timeHi := ToUint32(ev.value))
      ensures ev.evType == EV_REL && ev.code == EVENT_TYPE_MAG_TIME_LO ==>
        cached == old(cached).(timeLo := ToUint32(ev.value))
      ensures ev.evType == EV_REL && ev.code !in KNOWN_CODES ==> cached == old(cached)
      // Any other event type than EV_REL and EV_SYN is ignored.
      ensures ev.evType != EV_REL && ev.evType != EV_SYN ==>
        !produced && cached == old(cached) && last == old(last) && accuracy == old(accuracy)
        && pending == old(pending) && calls == old(calls)
      // A synchronization event submits the cached raw axes to the calibration.
      ensures ev.evType == EV_SYN ==>
        cached == old(cached) && calls == old(calls) + [MagneticCalibrate(old(cached).x, old(cached).y, old(cached).z)]
      ensures ev.evType == EV_SYN ==>
        var c := old(cached);
        var result := calibrate(c.x, c.y, c.z);
        produced == (result.ret != 0) &&
        (result.ret != 0 ==>
          && last.magnetic == result.out
          && last.uncalibX == c.x && last.uncalibY == c.y && last.uncalibZ == c.z
          && last.timestamp == ToInt64(CombineTimestamp(c.timeHi, c.timeLo))
          && (c.timeHi < 0x8000_0000 ==> last.timestamp == c.timeHi * TWO_32 + c.timeLo)
          && last.validMask == SENSOR_M_RM
          && accuracy == result.out.status
          && pending == PendingEvent(result.out, last.timestamp)) &&
        (result.ret == 0 ==> last == old(last) && accuracy == old(accuracy) && pending == old(pending))
    {
      produced := false;
      if ev.evType == EV_REL {
        CacheField(ev.code, ev.value);
      } else if ev.evType == EV_SYN {
        produced := Synchronize(calibrate);
      }
    }

    /** An EV_REL event: a known axis or timestamp code overwrites its own cached field. */
    method CacheField(code: int, value: int32)
      modifies this`cached
      ensures code == EVENT_TYPE_REL_MAGV_X ==> cached == old(cached).(x := value)
      ensures code == EVENT_TYPE_REL_MAGV_Y ==> cached == old(cached).(y := value)
      ensures code == EVENT_TYPE_REL_MAGV_Z ==> cached == old(cached).(z := value)
      ensures code == EVENT_TYPE_MAG_TIME_HI ==> cached == old(cached).(timeHi := ToUint32(value))
      ensures code == EVENT_TYPE_MAG_TIME_LO ==> cached == old(cached).(timeLo := ToUint32(value))
      ensures code !in KNOWN_CODES ==> cached == old(cached)
    {
      if code == EVENT_TYPE_REL_MAGV_X {
        cached := cached.(x := value);
      } else if code == EVENT_TYPE_REL_MAGV_Y {
        cached := cached.(y := value);
      } else if code == EVENT_TYPE_REL_MAGV_Z {
        cached := cached.(z := value);
      } else if code == EVENT_TYPE_MAG_TIME_HI {
        cached := cached.(timeHi := ToUint32(value));
      } else if code == EVENT_TYPE_MAG_TIME_LO {
        cached := cached.(timeLo := ToUint32(value));
      }
    }

    /** An EV_SYN event: the cached raw axes go to the calibration, whose verdict decides whether a sample is published. */
    method Synchronize(calibrate: Calibrator) returns (produced: bool)
      requires Valid()
      modifies this`last, this`accuracy, this`pending, this`calls
      ensures Valid()
      ensures calls == old(calls) + [MagneticCalibrate(cached.x, cached.y, cached.z)]
      ensures
        var c := cached;
        var result := calibrate(c.x, c.y, c.z);
        produced == (result.ret != 0) &&
        (result.ret != 0 ==>
          && last.magnetic == result.out
          && last.uncalibX == c.x && last.uncalibY == c.y && last.uncalibZ == c.z
          && last.timestamp == ToInt64(CombineTimestamp(c.timeHi, c.timeLo))
          && (c.timeHi < 0x8000_0000 ==> last.timestamp == c.timeHi * TWO_32 + c.timeLo)
          && last.validMask == SENSOR_M_RM
          && accuracy == result.out.status
          && pending == PendingEvent(result.out, last.timestamp)) &&
        (result.ret == 0 ==> last == old(last) && accuracy == old(accuracy) && pending == old(pending))
    {
      produced := false;
      var request := MagneticCalibrate(cached.x, cached.y, cached.z);
      HardwareOnAppend(calls, request);
      calls := calls + [request];
      var result := calibrate(cached.x, cached.y, cached.z);
      if result.ret != 0 {
        var timestamp := CombineTimestamp(cached.timeHi, cached.timeLo);
        accuracy := result.out.status;
        last := LastSample(result.out, cached.x, cached.y, cached.z, ToInt64(timestamp), SENSOR_M_RM);
        pending := PendingEvent(last.magnetic, ToInt64(timestamp));
        produced := true;
      }
    }

    /**
      Reads the calibrated sample into `data[0..3]` in fixed point. When the
      calibrated consumer has already read the current sample, the base class
      is polled first; `readEventsResult` is what that poll returns.
     */
    method ReadSample(data: array<int>, readEventsResult: int) returns (res: int, timestamp: Option<int64>)
      requires Valid()
      requires data.Length >= 3
      modifies this`last, this`calls, data
      ensures Valid()
      ensures (old(last.validMask) & SENSOR_M) != 0 ==> calls == old(calls)
      ensures (old(last.validMask) & SENSOR_M) == 0 ==> calls == old(calls) + [BaseReadEvents]
      ensures (old(last.validMask) & SENSOR_M) == 0 && readEventsResult <= 0 ==>
        res == readEventsResult && timestamp == None && last == old(last) && data[..] == old(data[..])
      ensures (old(last.validMask) & SENSOR_M) != 0 || readEventsResult > 0 ==>
        && res == 1
        && timestamp == Some(old(last.timestamp))
        && data[..3] == [FixedPoint(old(last.magnetic.x)), FixedPoint(old(last.magnetic.y)),
                         FixedPoint(old(last.magnetic.z))]
        && data[3..] == old(data[3..])
        && last == old(last).(validMask := old(last.validMask) & !SENSOR_M)
        && (last.validMask & SENSOR_M) == 0
      // The raw consumer's bit is never touched.
      ensures (last.validMask & SENSOR_RM) == (old(last.validMask) & SENSOR_RM)
    {
      if last.validMask & SENSOR_M == 0 {
        HardwareOnAppend(calls, BaseReadEvents);
        calls := calls + [BaseReadEvents];
        if readEventsResult <= 0 {
          return readEventsResult, None;
        }
      }
      timestamp := Some(last.timestamp);
      for i := 0 to 3
        modifies data
        invariant forall j :: 0 <= j < i ==> data[j] == FixedPoint(last.magnetic.Axis(j))
        invariant forall j :: i <= j < data.Length ==> data[j] == old(data[j])
      {
        data[i] := FixedPoint(last.magnetic.Axis(i));
      }
      last := last.(validMask := last.validMask & !SENSOR_M);
      res := 1;
    }

    /**
      Reads the uncalibrated sample into `data[0..3]`. When the raw consumer
      has already read the current sample, the base class is polled first;
      `readEventsResult` is what that poll returns.
     */
    method ReadRawSample(data: array<real>, readEventsResult: int) returns (res: int, timestamp: Option<int64>)
      requires Valid()
      requires data.Length >= 3
      modifies this`last, this`calls, data
      ensures Valid()
      ensures (old(last.validMask) & SENSOR_RM) != 0 ==> calls == old(calls)
      ensures (old(last.validMask) & SENSOR_RM) == 0 ==> calls == old(calls) + [BaseReadEvents]
      ensures (old(last.validMask) & SENSOR_RM) == 0 && readEventsResult <= 0 ==>
        res == readEventsResult && timestamp == None && last == old(last) && data[..] == old(data[..])
      ensures (old(last.validMask) & SENSOR_RM) != 0 || readEventsResult > 0 ==>
        && res == 1
        && timestamp == Some(old(last.timestamp))
        && data[..3] == [old(last.uncalibX) as real, old(last.uncalibY) as real, old(last.uncalibZ) as real]
        && data[3..] == old(data[3..])
        && last == old(last).(validMask := old(last.validMask) & !SENSOR_RM)
        && (last.validMask & SENSOR_RM) == 0
      // The calibrated consumer's bit is never touched.
      ensures (last.validMask & SENSOR_M) == (old(last.validMask) & SENSOR_M)
    {
      if last.validMask & SENSOR_RM == 0 {
        HardwareOnAppend(calls, BaseReadEvents);
        calls := calls + [BaseReadEvents];
        if readEventsResult <= 0 {
          return readEventsResult, None;
        }
      }
      timestamp := Some(last.timestamp);
      for i := 0 to 3
        modifies data
        invariant forall j :: 0 <= j < i ==> data[j] == last.Uncalib(j) as real
        invariant forall j :: i <= j < data.Length ==> data[j] == old(data[j])
      {
        data[i] := last.Uncalib(i) as real;
      }
      last := last.(validMask := last.validMask & !SENSOR_RM);
      res := 1;
    }

    /** Writes the mounting matrix into `orient[0..9]`. */
    method GetOrientationMatrix(orient: array<int>)
      requires orient.Length >= 9
      modifies orient
      ensures orient[..9] == MOUNTING_MATRIX
      ensures orient[9..] == old(orient[9..])
    {
      orient[0] := 0;
      orient[1] := -1;
      orient[2] := 0;
      orient[3] := 1;
      orient[4] := 0;
      orient[5] := 0;
      orient[6] := 0;
      orient[7] := 0;
      orient[8] := 1;
    }

    /** The accuracy is the status the vendor reported for the last published sample (0 before any). */
    method GetAccuracy() returns (a: int)
      requires Valid()
      ensures a == last.magnetic.status
    {
      a := accuracy;
    }
  }

  /** The mounting matrix is a proper rotation: its rows are orthonormal and its determinant is 1. */
  lemma MountingMatrixIsRotation()
    ensures |MOUNTING_MATRIX| == 9
    ensures forall r, c :: 0 <= r < 3 && 0 <= c < 3 ==>
      MOUNTING_MATRIX[3 * r] * MOUNTING_MATRIX[3 * c]
      + MOUNTING_MATRIX[3 * r + 1] * MOUNTING_MATRIX[3 * c + 1]
      + MOUNTING_MATRIX[3 * r + 2] * MOUNTING_MATRIX[3 * c + 2] == (if r == c then 1 else 0)
    ensures var m := MOUNTING_MATRIX;
      m[0] * (m[4] * m[8] - m[5] * m[7]) - m[1] * (m[3] * m[8] - m[5] * m[6])
      + m[2] * (m[3] * m[7] - m[4] * m[6]) == 1
  {
  }

  // Client scenarios: what a caller of the adapter can rely on.

  /**
    Enabling the calibrated then the raw sensor switches the hardware on once;
    disabling the raw then the calibrated one switches it off once, at the end.
   */
  method EnableBothThenDisableBoth(onResult: int, offResult: int) returns (log: seq<Call>, rets: seq<int>)
    ensures log == [MagneticInitialize, MagneticEnable, BaseEnable(ID_M, 1), MagneticDisable, BaseEnable(ID_M, 0)]
    ensures rets == [onResult, 0, 0, offResult]
  {
    var sensor := new CompassSensor(VendorLibrary(true, true));
    var a := sensor.Enable(ID_M, 1, onResult);
    var b := sensor.Enable(ID_RM, 1, onResult);
    var c := sensor.Enable(ID_RM, 0, offResult);
    var d := sensor.Enable(ID_M, 0, offResult);
    log, rets := sensor.calls, [a, b, c, d];
  }

  /** A missing Magnetic_Enable makes enable fail, yet the selection mask records the sensor as on. */
  method EnableWithoutSymbol(handle: int, baseResult: int) returns (ret: int, mask: bv32, log: seq<Call>)
    requires IsHandle(handle)
    ensures ret == -1 && mask == SelectBit(handle) && log == [MagneticInitialize]
  {
    var sensor := new CompassSensor(VendorLibrary(false, true));
    ret := sensor.Enable(handle, 1, baseResult);
    mask, log := sensor.selectMask, sensor.calls;
  }

  /** The first read after construction always polls the base class, since no sample is valid yet. */
  method FirstReadPolls(library: VendorLibrary, readEventsResult: int) returns (res: int, log: seq<Call>)
    ensures log == [MagneticInitialize, BaseReadEvents]
    ensures readEventsResult <= 0 ==> res == readEventsResult
    ensures readEventsResult > 0 ==> res == 1
  {
    var sensor := new CompassSensor(library);
    var data := new int[3];
    var ts;
    res, ts := sensor.ReadSample(data, readEventsResult);
    log := sensor.calls;
  }

  /** Feeds one complete sample (three axes, both timestamp halves, a synchronization) to the adapter. */
  method FeedSample(sensor: CompassSensor, x: int32, y: int32, z: int32, hi: int32, lo: int32,
                    calibrate: Calibrator)
    requires sensor.Valid()
    requires calibrate(x, y, z).ret != 0
    modifies sensor`cached, sensor`last, sensor`accuracy, sensor`pending, sensor`calls
    ensures sensor.Valid()
    ensures sensor.calls == old(sensor.calls) + [MagneticCalibrate(x, y, z)]
    ensures sensor.last.validMask == SENSOR_M_RM
    ensures sensor.last.uncalibX == x && sensor.last.uncalibY == y && sensor.last.uncalibZ == z
    ensures 0 <= hi ==> sensor.last.timestamp == hi * TWO_32 + ToUint32(lo)
  {
    var ignored := sensor.HandleEvent(InputEvent(EV_REL, EVENT_TYPE_REL_MAGV_X, x), calibrate);
    ignored := sensor.HandleEvent(InputEvent(EV_REL, EVENT_TYPE_REL_MAGV_Y, y), calibrate);
    ignored := sensor.HandleEvent(InputEvent(EV_REL, EVENT_TYPE_REL_MAGV_Z, z), calibrate);
    ignored := sensor.HandleEvent(InputEvent(EV_REL, EVENT_TYPE_MAG_TIME_HI, hi), calibrate);
    ignored := sensor.HandleEvent(InputEvent(EV_REL, EVENT_TYPE_MAG_TIME_LO, lo), calibrate);
    assert sensor.cached.x == x && sensor.cached.y == y && sensor.cached.z == z;
    assert sensor.cached.timeHi == ToUint32(hi) && sensor.cached.timeLo == ToUint32(lo);
    assert sensor.calls == old(sensor.calls);
    ignored := sensor.HandleEvent(InputEvent(EV_SYN, 0, 0), calibrate);
  }

  /**
    One synchronized sample serves both consumers without polling again; a
    second calibrated read of the same sample polls the base class.
   */
  method OneSampleServesBothConsumers(x: int32, y: int32, z: int32, hi: int32, lo: int32,
                                      calibrate: Calibrator, pollResult: int)
    returns (magTime: Option<int64>, rawTime: Option<int64>, raw: seq<real>, log: seq<Call>, again: int)
    requires 0 <= hi
    requires calibrate(x, y, z).ret != 0
    ensures magTime == rawTime == Some(hi * TWO_32 + ToUint32(lo))
    ensures raw == [x as real, y as real, z as real]
    ensures log == [MagneticInitialize, MagneticCalibrate(x, y, z), BaseReadEvents]
    ensures again == (if pollResult <= 0 then pollResult else 1)
  {
    var sensor := new CompassSensor(VendorLibrary(true, true));
    FeedSample(sensor, x, y, z, hi, lo, calibrate);
    var mag := new int[3];
    var rawData := new real[3];
    var r1, r2, ts;
    r1, magTime := sensor.ReadSample(mag, pollResult);
    r2, rawTime := sensor.ReadRawSample(rawData, pollResult);
    raw := rawData[..];
    again, ts := sensor.ReadSample(mag, pollResult);
    log := sensor.calls;
  }
}
