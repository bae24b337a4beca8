# degaslte device glue, modelled in Dafny

This project models the two pieces of logic in the Samsung degaslte
device tree.

- **The compass sensor adapter** (`CompassSensor`). It presents one physical
  magnetometer as two logical sensors: the calibrated one (handle `ID_M`) and
  the raw one (handle `ID_RM`). A two-bit selection mask records which of them
  are enabled. The vendor library is switched on when the first one is
  enabled and off when the last one is disabled. `Magnetic_Enable` is called
  again whenever an enable leaves exactly one sensor on, even when that sensor
  was already on. `Magnetic_Disable` is called again whenever a disable leaves
  none on, even when none was on before. Kernel input events fill a
  cached raw sample one field at a time. On a synchronization event the
  vendor's calibration decides whether a sample is published. A two-bit
  validity mask lets each consumer read one published sample exactly once
  without polling the device again.
- **The vendor property initializer** (`property_override`,
  `vendor_load_properties`). On the target platform, the bootloader
  identifier selects one of two build identities (degasltezt for "T235Y",
  degasltexx for "T235"). Its four build properties are written over the
  system property table.

Files:

- `cint.dfy`, module `CInt`: the C++ integer semantics the adapter relies on.
  It covers fixed-width types, conversions modulo 2^32 and 2^64, division that
  truncates toward zero, the truncating float-to-integer cast, 64-bit shift
  and bitwise OR.
- `compass.dfy`, module `Compass`: the class `CompassSensor`, with the fields
  `selectMask`, `cached`, `last`, `accuracy`, the base class's pending event
  and a call log. Client scenarios come after the class.
- `degas_init.dfy`, module `DegasInit`: the profile selection as pure
  functions, and the class `PropertyArea`, whose `Override` and
  `VendorLoadProperties` update the table in place.
- `wrappers.dfy`, module `Wrappers`: `Option`.

External collaborators become oracles:

- The vendor library is a `VendorLibrary` value. It records whether
  `Magnetic_Enable` and `Magnetic_Disable` were resolved.
- Every call into the vendor library or the base class is appended to
  `calls`. `Magnetic_Calibrate` is a function parameter of `HandleEvent`.
- What the base class's `enable`, `setDelay` and `readEvents` return is a
  method parameter.
- The property table is a `map<string, string>`. An absent name reads as `""`.
  `ANDROID_TARGET` is the `target` parameter.

The class `CompassSensor` keeps one invariant (`Valid`).

- Both masks stay within `SENSOR_M_RM`.
- `accuracy` equals the status of the last published sample.
- When both power symbols exist, the hardware is on (the last power call in
  the log was `Magnetic_Enable`) exactly when the selection mask is not
  `SENSOR_NONE`.

## Model

| member | source | states |
|---|---|---|
| `CInt.ToUint32` | libsensors/CompassSensor.HSCDTD008A.cpp:158-161 | `(uint32_t)` of an event value is the unique 32-bit value congruent to it modulo 2^32; a non-negative value is kept, a negative one gains 2^32 |
| `CInt.ToUint64` | libsensors/CompassSensor.HSCDTD008A.cpp:140 | passing a signed value as `uint64_t` yields the unique value congruent to it modulo 2^64; negative values gain 2^64 |
| `CInt.ToInt64` | libsensors/CompassSensor.HSCDTD008A.cpp:189 | `(int64_t)` of an unsigned timestamp is the same number below 2^63, negative from 2^63 on, and congruent modulo 2^64 |
| `CInt.TruncDiv` | libsensors/CompassSensor.HSCDTD008A.cpp:140 | C++ `/` by a positive divisor truncates toward zero: the quotient times the divisor is within one divisor of the dividend, on the dividend's side of zero |
| `CInt.TruncToInt` | libsensors/CompassSensor.HSCDTD008A.cpp:224 | the `(long)` cast truncates toward zero: the result lies within 1 of the value, and no farther from zero |
| `CInt.BitOrDisjoint` | libsensors/CompassSensor.HSCDTD008A.cpp:171 | OR-ing a value shifted left by n with a value below 2^n equals their sum, for every n (proved by induction on n) |
| `Compass.CombineTimestamp` | libsensors/CompassSensor.HSCDTD008A.cpp:171 | the shift of `time_hi` by `TIME_HI_SHIFT` bitwise-OR-ed with `time_lo` equals `time_hi * 2^32 + time_lo` for every pair of 32-bit halves |
| `Compass.DelayArgument` | libsensors/CompassSensor.HSCDTD008A.cpp:136-142 | the delay handed to `Magnetic_Set_Delay` is the whole milliseconds in a non-negative `ns`; a period between -1 ms and 0 becomes 0; a period of -1 ms or less wraps to at least 2^63 |
| `Compass.HardwareOnIffEnabledSince` | libsensors/CompassSensor.HSCDTD008A.cpp:93-111 | the hardware is on exactly when the call log holds a `Magnetic_Enable` with no `Magnetic_Disable` after it; every other logged call leaves the power state as it was |
| `Compass.CompassSensor.constructor` | libsensors/CompassSensor.HSCDTD008A.cpp:67-77 | initializes the vendor library with one call; both masks are `SENSOR_NONE`; the cached and the last sample are zero; the accuracy is 0 |
| `Compass.CompassSensor.Enable` | libsensors/CompassSensor.HSCDTD008A.cpp:84-112 | an unknown handle returns `-EINVAL` and changes nothing. The handle's bit is always set or cleared first. Enabling while the other sensor is on gives `SENSOR_M_RM` with no call and returns 0. Enabling while the other is off calls `Magnetic_Enable`, then the base class, and returns the base result. Disabling while the other stays on makes no call and returns 0. Disabling the last sensor leaves `SENSOR_NONE`, calls `Magnetic_Disable`, then the base class. A missing symbol returns -1 with no call, but the mask has still changed. The power invariant is kept |
| `Compass.CompassSensor.SetDelay` | libsensors/CompassSensor.HSCDTD008A.cpp:136-142 | logs `Magnetic_Set_Delay` with the truncated millisecond argument, then the base class's setDelay with the original nanoseconds, and returns what the base class returns |
| `Compass.CompassSensor.HandleEvent` | libsensors/CompassSensor.HSCDTD008A.cpp:144-200 | an `EV_REL` event with one of the five known codes overwrites exactly that cached field. The timestamp halves are converted to `uint32_t`. Any other code changes nothing, and `EV_REL` never publishes. Other event types change nothing and return false. `EV_SYN` passes the cached x, y, z to the calibration. On success it publishes the calibrated vector and the raw axes, with timestamp `(int64_t)(hi*2^32 + lo)` (exactly `hi*2^32 + lo` while hi < 2^31). Both validity bits are set, the accuracy becomes the status, and the call returns true. On failure the last sample and the accuracy are untouched and the call returns false |
| `Compass.CompassSensor.ReadSample` | libsensors/CompassSensor.HSCDTD008A.cpp:209-231 | polls the base class exactly when the `SENSOR_M` bit is clear. A non-positive poll result is returned and nothing is written. Otherwise it writes the last timestamp and `(long)(v*65536)` of each calibrated axis into `data[0..3]`, leaves the rest of `data` alone, clears only `SENSOR_M`, and returns 1. The `SENSOR_RM` bit is never touched |
| `Compass.CompassSensor.ReadRawSample` | libsensors/CompassSensor.HSCDTD008A.cpp:239-261 | polls the base class exactly when the `SENSOR_RM` bit is clear. A non-positive poll result is returned and nothing is written. Otherwise it writes the last timestamp and the three uncalibrated axes, clears only `SENSOR_RM`, and returns 1. The `SENSOR_M` bit is never touched |
| `Compass.CompassSensor.GetOrientationMatrix` | libsensors/CompassSensor.HSCDTD008A.cpp:274-287 | writes the mounting matrix `[0,-1,0, 1,0,0, 0,0,1]` into `orient[0..9]` and nothing else |
| `Compass.CompassSensor.GetAccuracy` | libsensors/CompassSensor.HSCDTD008A.cpp:289-293 | returns the status the vendor reported with the last published sample (0 before any) |
| `Compass.MountingMatrixIsRotation` | libsensors/CompassSensor.HSCDTD008A.cpp:278-286 | the mounting matrix is a proper rotation: its rows are orthonormal and its determinant is 1 |
| `Compass.EnableBothThenDisableBoth` | libsensors/CompassSensor.HSCDTD008A.cpp:93-111 | enabling `ID_M` then `ID_RM` issues one `Magnetic_Enable`. Disabling `ID_RM` then `ID_M` issues one `Magnetic_Disable`, and only at the end. The middle two calls return 0 |
| `Compass.EnableWithoutSymbol` | libsensors/CompassSensor.HSCDTD008A.cpp:93-97 | with `Magnetic_Enable` unresolved, enabling returns -1 and calls nothing, yet the mask records the sensor as on |
| `Compass.FirstReadPolls` | libsensors/CompassSensor.HSCDTD008A.cpp:209-219 | since construction zeroes the validity mask, the first read always polls the base class; it returns the poll's result when that is not positive, else 1 |
| `Compass.FeedSample` | libsensors/CompassSensor.HSCDTD008A.cpp:146-194 | three axis events, both timestamp halves and a successful synchronization publish those axes, with both validity bits set and timestamp `hi*2^32 + lo` |
| `Compass.OneSampleServesBothConsumers` | libsensors/CompassSensor.HSCDTD008A.cpp:209-260 | after one published sample, the calibrated read and the raw read each return it with the same timestamp and no poll; a second calibrated read polls the base class |
| `DegasInit.ContainsPrefix` | init/init_degaslte.cpp:80-86 | a string containing `sub + rest` contains `sub`; so every bootloader containing "T235Y" also contains "T235" |
| `DegasInit.SelectProfile` | init/init_degaslte.cpp:80-92 | "T235Y" selects degasltezt; "T235" without "T235Y" selects degasltexx; no "T235" selects nothing |
| `DegasInit.LoadWrites` | init/init_degaslte.cpp:72-92 | off the target platform nothing is written; the only names ever written are the four build properties |
| `DegasInit.ApplyWrites` | init/init_degaslte.cpp:82-91 | a sequence of overrides adds exactly the written names to the table and keeps the value of every name it does not write |
| `DegasInit.ApplyProfileWrites` | init/init_degaslte.cpp:82-85 | the four overrides of a profile set fingerprint, description, model and device to the profile's values |
| `DegasInit.StampIdempotent` | init/init_degaslte.cpp:47-56 | writing the same build identity twice gives the same table as writing it once |
| `DegasInit.OtherPlatformWritesNothing` | init/init_degaslte.cpp:72-77 | when `ro.board.platform` differs from the target (an absent one reads as ""), the table is unchanged |
| `DegasInit.ZtBootloaderYieldsZt` | init/init_degaslte.cpp:80-85 | on the target platform, a bootloader containing "T235Y" yields exactly the four degasltezt values over the old table |
| `DegasInit.XxBootloaderYieldsXx` | init/init_degaslte.cpp:86-91 | on the target platform, a bootloader containing "T235" but not "T235Y" yields exactly the four degasltexx values |
| `DegasInit.UnknownBootloaderWritesNothing` | init/init_degaslte.cpp:86-92 | a bootloader containing neither identifier leaves the table unchanged |
| `DegasInit.OnlyBuildKeysWritten` | init/init_degaslte.cpp:82-91 | no property other than the four build properties is created, removed or changed |
| `DegasInit.LoadPropertiesIdempotent` | init/init_degaslte.cpp:58-92 | running the initializer a second time leaves the table as the first run left it |
| `DegasInit.PropertyArea.Override` | init/init_degaslte.cpp:47-56 | afterwards the table maps `prop` to `value`, whether it updated an existing entry or added a new one. Every other name is kept. Overriding with the value already present changes nothing, so doing it twice is doing it once |
| `DegasInit.PropertyArea.VendorLoadProperties` | init/init_degaslte.cpp:58-96 | the table afterwards is the old table with the initializer's writes applied (`LoadProperties`), so every lemma above applies to this method |

## Left out

- Library loading (`LoadLibrary`, libsensors/CompassSensor.HSCDTD008A.cpp:48-63): `dlopen` and `dlsym` are foreign calls. Their outcome is the `VendorLibrary` value. It records only the two symbols whose absence the code checks.
- Unchecked vendor calls: `Magnetic_Initialize`, `Magnetic_Set_Delay` and `Magnetic_Calibrate` are called without a null check (lines 74, 140, 166). A missing one would crash. The model logs the call either way.
- The calibration algorithm inside `Magnetic_Calibrate`: vendor code that is not available. It is an arbitrary function of the raw axes.
- The bias fields `x_bias`, `y_bias`, `z_bias` (lines 182-184): float subtraction with rounding. They are not part of `LastSample`.
- Compass.FixedPoint: calibrated components are the exact real values of the vendor's floats. The scaling by 65536 is exact in floating point because it is a power of two. An out-of-range `(long)` cast is undefined in C++ and is not modelled.
- Compass.CompassSensor.ReadRawSample: a raw axis is stored as its integer value, i.e. the `(float)` conversion is taken as exact. That holds for magnitudes up to 2^24. Like `ReadSample`, it treats the poll as not changing the sample state, so after a positive poll it copies the pre-poll sample, even one already read.
- `fillList` (lines 263-271): float constants and `minDelay` written into the HAL's sensor record. It is not one of the adapter's decisions.
- `getEnable` and `getDelay` (lines 118-134): they return base-class fields, and the base class is not part of this model.
- `SamsungSensorBase`: what its `enable`, `setDelay` and `readEvents` return is a parameter. The initial value of its `mPendingEvent` is taken as zero.
- Compass.CompassSensor.ReadSample: the real `readEvents` may deliver further input events to `handleEvent` before it returns. The model treats the poll as not changing the sample state, so after a positive poll it copies the pre-poll sample, even one already read.
- The mutex (lines 221, 227, 251, 257) and the unlocked read of `validMask` before it is taken: concurrency. Each read is one atomic step.
- Logging (`LOGI_IF`, `LOGE`, `ALOGI`). This includes the read of `ro.product.device` that only feeds a log line (init/init_degaslte.cpp:94-95).
- The system property calls: `__system_property_find`, `__system_property_update`, `__system_property_add` and `GetProperty` work on the in-memory map. Their return codes and the property value length limit are not modelled.
- Header constants: the values of `ID_M`, `ID_RM` and the `EVENT_TYPE_*` codes come from headers that are not part of this model. They are distinct placeholders, and the proofs rely only on their being distinct. The mask bits are taken as `SENSOR_M = 1`, `SENSOR_RM = 2` and `SENSOR_M_RM = 3`, which the enable logic requires. `TIME_HI_SHIFT` is 32. `EV_SYN` and `EV_REL` have their Linux values.

## Notes on the code

- Nothing checks that both timestamp halves arrived since the last synchronization. Line 171 combines whatever halves are cached, and the model does the same.
- `readSample` and `readRawSample` never consult `mSelectMask` (lines 213-219, 243-249), and neither does the model.
