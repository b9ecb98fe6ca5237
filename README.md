# MMA8452 accelerometer driver, modelled in Dafny

This project models the register-level driver for an MMA8452 three-axis
accelerometer in `src/lib.rs`. The driver talks to the device over an I2C
bus through a host port that runs one list of bus actions as one
transaction. The model covers each of these:

- the bus actions the driver issues, in order, for every operation;
- how it reads and rewrites CTRL_REG1 to switch between active and standby mode;
- how it packs an output-rate index into bits 3 to 5 of CTRL_REG1;
- how it clamps and encodes a scale range for XYZ_DATA_CFG;
- how it decodes the six burst-read bytes into three axis counts;
- when each operation returns a recoverable error, and when it aborts the process with a panic.

Files, one module each:

- `bus.dfy` (`Bus`): bus actions, replies, and the port. The port is an
  oracle. `Run` may answer any request in any way that fits it. It records
  every exchange, request and answer, in a ghost log.
- `registers.dfy` (`Registers`): the register and bus-address constants,
  and the byte formulas for the mode bit, the rate field, the scale
  encoding and the sample decoding.
- `rates.dfy` (`Rates`): the rate and scale tables, rounding a request down
  to a supported rate, and Rust's `position`.
- `transactions.dfy` (`Transactions`): the action list of each
  transaction, plus a pure *run function* for each driver operation that
  talks to the port and is not a single transaction with its result
  stated outright.
  - A run function is given the replies the port chose.
  - It yields the exact exchanges the operation performs, whether it
    returns or panics, and what it leaves in the driver's fields.
  - Replies for transactions the operation never reaches play no part.
- `accelerometer.dfy` (`Mma84`): the driver as a class.
  - The class holds the port and the mutable fields `outputRate` and
    `scaleRange`.
  - Each method returns, as ghost out-parameters, the replies it got.
  - The mode switches, the register read and write, the chip-id read and
    the two setters are proved against their run functions: the port's log grows by
    exactly the run's exchanges, and the outcome and the new field values
    are the run's.
  - `New`, `GetAcceleration` and `GetClosestOutputRate` have
    no run function of their own. Their ensures state the exchange, the
    outcome and the result directly.
- `properties.dfy` (`Properties`): lemmas over the run functions stating
  what the operations promise.

Errors come in two kinds:

- A `Result` (`Ok` / `Err(message)`) models a failure the caller can
  handle. The messages are the source's fixed strings.
- An `Outcome` (`Returned` / `Panicked(cause)`) models a panic, which ends
  the process. The cause records which panic it was:
  - `panic!` with a message;
  - `unwrap` of a failed port run;
  - `unwrap` of a missing index;
  - division by zero;
  - an index out of bounds.

Three behaviours of the code are easy to misread; the model follows the code:

- **`write_register`.** It puts `0x0 | addr << 1` on the bus as the
  address byte and transmits only the data byte. The register address is
  therefore used as a device address and never reaches the device. The
  model does this, and `Properties.WriteRunMisaddresses` states it.
- **`get_acceleration`.** The `1 + 0xFFF - v` branch (lines 131-133)
  looks like two's-complement sign recovery. The result goes into a `u16`,
  though, so it is the sample's magnitude and the sign is lost.
  `Registers.DecodeAxisIsMagnitude` and `Registers.DecodeAxisLosesSign`
  state this.
- **`set_scale_range`.** It stores any range up to 8 verbatim, including
  0, 3, 5, 6 and 7. After that call, `scale_range` need not be one of the
  supported ranges. A stored 0 makes the next `get_acceleration` whose
  burst read succeeds divide by zero; a failed burst read panics on its
  `unwrap` first.

## Model

| member | source | states |
|---|---|---|
| Registers.DeviceAddressBytes | src/lib.rs:100-107 | the write and read address bytes built from I2C_ADDRESS are 0x3A and 0x3B: the 7-bit address 0x1D with direction bit 0 and 1 |
| Registers.RegisterWriteAddress | src/lib.rs:85 | the address byte of `write_register` has direction bit 0 and carries the low seven bits of the register address |
| Registers.RegisterWriteAddressHitsDevice | src/lib.rs:81-88 | that address byte equals the accelerometer's write address only for registers 0x1D and 0x9D; for CTRL_REG1 it is 0x54 and for XYZ_DATA_CFG it is 0x1C |
| Registers.ActiveByte | src/lib.rs:55 | the active byte has bit 0 set and bits 1 to 7 as read |
| Registers.StandbyByte | src/lib.rs:72 | the standby byte has bit 0 cleared and bits 1 to 7 as read |
| Registers.ModeByte | src/lib.rs:55-72 | the byte a mode switch writes: the active byte of line 55 (bit 0 set) for active mode, and the standby byte of line 72 (bit 0 cleared) for standby |
| Registers.ModeByteIdempotent | src/lib.rs:47-78 | switching into a mode twice, or after the opposite mode, writes the same byte as switching once; the byte is unchanged exactly when bit 0 already matches the mode |
| Registers.RateByte | src/lib.rs:202-205 | the written CTRL_REG1 byte holds the index in bits 3 to 5 and keeps every other bit of the byte read |
| Registers.RateByteGuardIrrelevant | src/lib.rs:205 | the `idx != 0` guard makes no difference: the byte is always `current & 0xC7` OR-ed with `idx << 3` |
| Registers.ClampScale | src/lib.rs:221 | the stored range is at most 8, equals the request when the request is at most 8, and is 8 otherwise |
| Registers.ScaleEncoding | src/lib.rs:221-227 | the XYZ_DATA_CFG code is at most 2; it is 0 exactly below 4, 1 exactly from 4 to 7, and 2 exactly from 8 up |
| Registers.ScaleEncodingExamples | src/lib.rs:218-227 | 2, 4 and 8 encode as 0, 1 and 2; 9 encodes as 2; 0 and 3 encode as 0; 5 encodes as 1 |
| Registers.DecodeAxis | src/lib.rs:128-133 | a decoded count is at most 0x7FF when the MSB's top bit is clear, and between 1 and 0x800 when it is set |
| Registers.DecodeAxisIsMagnitude | src/lib.rs:128-133 | the decoded count is the absolute value of the 12-bit two's-complement sample in the MSB/LSB pair; the sample is negative exactly when the MSB's top bit is set |
| Registers.DecodeAxisLosesSign | src/lib.rs:131-133 | the samples +5 and -5 decode to the same count 5 |
| Registers.DecodeAxisExamples | src/lib.rs:128-133 | 0x7FF0 decodes to 0x7FF, 0x8000 to 0x800 and 0xFFF0 to 1 |
| Rates.OutputRates | src/lib.rs:161-163 | the rate table has NUM_OUTPUT_RATES entries |
| Rates.OutputRatesDescending | src/lib.rs:161-163 | the rate table is strictly descending and every entry is positive |
| Rates.ScaleRanges | src/lib.rs:166-168 | the scale table has NUM_SCALE_RANGES entries, and the entry at position i encodes as i |
| Rates.DefaultsSupported | src/lib.rs:17-21 | the default rate 12.5 Hz and the default range 2 G are in their tables |
| Rates.RoundDown | src/lib.rs:176-183 | on a descending table, the result is a table entry; it is not above x when the last entry is not; it is at least every entry not above x; it is the last entry when x is below all entries |
| Rates.ClosestOutputRate | src/lib.rs:171-184 | the early-return rounding of `get_closest_output_rate`; its properties are stated by the lemmas below |
| Rates.ClosestOutputRateRoundsDown | src/lib.rs:171-184 | a request of at most 0 gives 0; otherwise the result is a supported rate, at least every supported rate not above the request, and not above the request from 1.56 up; below 1.56 it is 1.56 |
| Rates.ClosestOutputRateMonotone | src/lib.rs:171-184 | a larger request never gets a smaller rate |
| Rates.ClosestOutputRateFixesTable | src/lib.rs:171-184 | every supported rate is its own closest rate |
| Rates.Position | src/lib.rs:196 | `position` finds the first index holding `x`, and finds nothing exactly when `x` is not in the sequence |
| Rates.ClosestOutputRateHasIndex | src/lib.rs:193-196 | the `unwrap` of `position` succeeds exactly when the request is positive |
| Rates.ClosestOutputRateExamples | src/lib.rs:171-184 | 0 and -3 give 0; 1000 and 800 give 800; 10 gives 6.25; 0.5 gives 1.56 |
| Rates.PositionOfSixPointTwoFive | src/lib.rs:196 | 6.25 Hz is at index 6 of the rate table |
| Transactions.ReadActions | src/lib.rs:100-107 | the read list: enable the bus, start at 0x3A, transmit the register address, repeated start at 0x3B, receive one byte, stop; `get_chip_id` (lines 145-152) issues the same list for CHIP_ID_REG |
| Transactions.WriteActions | src/lib.rs:83-88 | the write list: enable the bus, start at the shifted register address, transmit the data byte, stop |
| Transactions.ModeWriteActions | src/lib.rs:53-57 | the mode write-back: start at 0x3A, transmit CTRL_REG1 and the new value, stop, with no bus enable; lines 70-74 issue the same list |
| Transactions.BurstActions | src/lib.rs:119-125 | the burst read: start at 0x3A, transmit OUT_X_MSB, repeated start at 0x3B, receive six bytes, stop, with no bus enable |
| Transactions.ReadActionsSize | src/lib.rs:100-107 | the read of `read_register` asks for exactly one byte and transmits the register address; the read of `get_chip_id` (lines 145-152) is the same list for CHIP_ID_REG |
| Transactions.WriteActionsSize | src/lib.rs:83-88 | the transaction of `write_register` receives nothing |
| Transactions.ModeWriteActionsSize | src/lib.rs:53-57 | the write-back of the mode switches (also lines 70-74) receives nothing and does not enable the bus |
| Transactions.BurstActionsSize | src/lib.rs:119-125 | the burst read of `get_acceleration` receives six bytes and does not enable the bus |
| Transactions.ReadRun | src/lib.rs:97-113 | one exchange, whose reply is the port's; the result is `Ok` exactly when the port succeeded, holding the byte received, and otherwise the caller's message ("Unable to read register", or "Unable to read chip id") |
| Transactions.WriteRun | src/lib.rs:81-94 | one exchange, whose reply is the port's; `Ok` exactly when the port succeeded, otherwise "Unable to write to register" |
| Transactions.ModeRun | src/lib.rs:47-78 | the CTRL_REG1 read comes first; there is a second exchange exactly when that read succeeded; the switch returns exactly when both transactions succeed, and otherwise panics with the read error or on the write's `unwrap` |
| Transactions.SetOutputRateRun | src/lib.rs:187-215 | `set_output_rate` returns `Ok` exactly when the request is positive and all six transactions succeed |
| Transactions.ProgramRateRun | src/lib.rs:196-199 | the missing-index panic happens exactly when nothing is sent: the lookup either panics at once or goes on to the CTRL_REG1 read, its first exchange |
| Transactions.RateUpdateRun | src/lib.rs:199-214 | the update returns `Ok` exactly when its four transactions succeed, returns `Err` exactly when the CTRL_REG1 read or write failed, and otherwise panics only in the final mode switch, with its read error or `unwrap` |
| Transactions.SetScaleRangeRun | src/lib.rs:218-240 | `set_scale_range` returns `Ok` exactly when all five transactions succeed |
| Mma84.Accelerometer.Init | src/lib.rs:34-38 | the driver holds the given port, 12.5 Hz and 2 G |
| Mma84.Accelerometer.New | src/lib.rs:33-44 | `new` issues exactly one chip-id read; it returns a fresh driver with the defaults exactly when the read succeeds, whatever id is read; otherwise it panics with "Unable to read chip id" |
| Mma84.Accelerometer.ModeActive | src/lib.rs:47-61 | the port log and the outcome are those of the active-mode run |
| Mma84.Accelerometer.ModeStandby | src/lib.rs:64-78 | the port log and the outcome are those of the standby-mode run |
| Mma84.Accelerometer.SwitchMode | src/lib.rs:47-78 | the shared body of both mode methods meets the mode run for the requested mode |
| Mma84.Accelerometer.WriteRegister | src/lib.rs:81-94 | one transaction `[enable, start(addr << 1), tx[data], stop]`; the result is `Ok` exactly when the port succeeded, else "Unable to write to register" |
| Mma84.Accelerometer.ReadRegister | src/lib.rs:97-113 | one transaction `[enable, start(0x3A), tx[addr], start(0x3B), rx(1), stop]`; the result is the byte received, else "Unable to read register" |
| Mma84.Accelerometer.GetChipId | src/lib.rs:142-158 | the same read of CHIP_ID_REG, failing with "Unable to read chip id" |
| Mma84.Accelerometer.GetAcceleration | src/lib.rs:116-139 | one burst read and nothing else. A failed run panics and writes nothing. Scale 0 panics with a division by zero before any element is written. Otherwise each of the first three elements that exists receives the decoded count of its axis, later elements are untouched, and a buffer shorter than three panics at its length |
| Mma84.Accelerometer.GetClosestOutputRate | src/lib.rs:171-184 | the early-return scan yields the closest rate of the request |
| Mma84.Accelerometer.SetOutputRate | src/lib.rs:187-215 | the port log, the outcome and the new rate are those of the `set_output_rate` run; the scale range is unchanged |
| Mma84.Accelerometer.ProgramRate | src/lib.rs:196-214 | the index lookup and the rest of `set_output_rate` meet their run |
| Mma84.Accelerometer.UpdateRateField | src/lib.rs:199-214 | the CTRL_REG1 read, rewrite and return to active mode meet their run |
| Mma84.Accelerometer.SetScaleRange | src/lib.rs:218-240 | the port log, the outcome and the new range are those of the `set_scale_range` run; the output rate is unchanged |
| Properties.ModeRunWritesOnlyBitZero | src/lib.rs:47-78 | a failed CTRL_REG1 read panics with "Unable to read register" after that one exchange. Otherwise the mode switch writes `[start(0x3A), tx[CTRL_REG1, v], stop]` with no bus enable: `v` has bit 0 set to the mode and bits 1 to 7 as read. It returns exactly when that write succeeds and panics on its `unwrap` otherwise |
| Properties.ModeRunAlreadyInMode | src/lib.rs:47-78 | switching into the mode the device is already in writes back the byte read |
| Properties.SetOutputRateStoresClosest | src/lib.rs:190-211 | the old rate survives only a panicking standby; after a standby returns, the closest rate is stored even if later transactions fail; on any return, errors included, the stored rate is supported |
| Properties.SetOutputRateNonPositive | src/lib.rs:190-196 | a request of at most 0 Hz always panics; if the standby returned, it panics on the missing index with 0 stored and no exchange after the standby |
| Properties.SetOutputRateUnwrapNoneOnlyNonPositive | src/lib.rs:190-211 | the missing-index panic happens only for requests of at most 0 Hz after a successful standby |
| Properties.ProgramRateRunUnlisted | src/lib.rs:196 | the `unwrap` of `position` panics exactly when the stored rate is not in the rate table |
| Properties.RateUpdateRunWrites | src/lib.rs:199-208 | the register update starts with the CTRL_REG1 read; a failed read is its only exchange (the `try!` returns); after a successful read it writes the rate byte for the index back to CTRL_REG1 |
| Properties.SetOutputRateWritesRateBits | src/lib.rs:190-208 | when `set_output_rate` reaches the CTRL_REG1 write, the byte written holds in bits 3 to 5 the table index of the stored rate, and keeps every other bit as read |
| Properties.SetOutputRateErrStops | src/lib.rs:190-211 | `set_output_rate` returns `Err` exactly when the request is positive, the standby returned and the CTRL_REG1 read or write failed; the failed transaction is the last: three exchanges after a failed read, four after a failed write |
| Properties.SetOutputRateOkEndsActive | src/lib.rs:190-214 | a `set_output_rate` that returns `Ok` made exactly six exchanges, the last of them the write of CTRL_REG1 with bit 0 set, from the byte its last CTRL_REG1 read received |
| Properties.TenHertzUpdate | src/lib.rs:199-211 | the register update for index 6 on a CTRL_REG1 of 0x00 writes 0x30, then 0x31 when it switches to active |
| Properties.SetOutputRateTenHertz | src/lib.rs:187-214 | a 10 Hz request with every transaction succeeding stores 6.25 Hz, returns `Ok` and issues exactly the six exchanges listed: standby, CTRL_REG1 read, write of 0x30, active write of 0x31 |
| Properties.SetScaleRangeStoresClamped | src/lib.rs:218-233 | the clamped range is stored on every path, panics and errors included; when the standby returns, the next exchange writes the encoding of the range, at most 2, to XYZ_DATA_CFG |
| Properties.SetScaleRangeOkEndsActive | src/lib.rs:229-239 | a `set_scale_range` that returns `Ok` made exactly five exchanges, the last of them the write of CTRL_REG1 with bit 0 set, from the byte its second CTRL_REG1 read received |
| Properties.SetScaleRangeErrStops | src/lib.rs:229-236 | `set_scale_range` returns "Unable to write to register" exactly when the standby returned and the XYZ_DATA_CFG write failed; an `Err` run stops after three exchanges, without switching back to active |
| Properties.SetScaleRangeKeepsUnsupported | src/lib.rs:218-227 | a request of 3 stores 3, which is not a supported range, and writes code 0. The stored range is 0 exactly when 0 was requested. It is unsupported exactly when the request is below 8 and not 2 or 4 |
| Properties.WriteRunMisaddresses | src/lib.rs:81-88 | `write_register` starts with the shifted register address and transmits only the data byte; for CTRL_REG1 and XYZ_DATA_CFG it never addresses the accelerometer |

## Left out

- The host port and its serial transport: `run` is modelled as an oracle.
  - It may fail any transaction.
  - A successful reply fills exactly the receive buffers the request asks for.
  - Timing, the socket behind the port, and what the device actually answers are not modelled.
- Device physics. Register contents are whatever the port returns, so the
  model does not capture how the chip's state carries from one read to the
  next.
- Floating point. Rates are Dafny `real`s and the table entries are exact
  decimals. Every finite `f32` value is a real, and the source only
  compares requests with table entries taken from the same literals. So
  for every finite `f32` request the real model gives the same rate.
- NaN and infinite requests have no counterpart among the reals. In the
  source a NaN request fails every comparison on lines 173 and 178, so
  `get_closest_output_rate` returns 1.56. `set_output_rate` then finds
  1.56 at index 7 and programs it. An infinite request behaves like a very
  large or very negative real: 800 for positive infinity, 0 for negative
  infinity.
- The panic message of `unwrap`, and what happens after a panic. `Panicked`
  records only the cause, and the model says nothing about any later state.
- A panic in the middle of a setter leaves `outputRate` or `scaleRange` as
  the run function states. The model does not follow the process past that
  point.
- The test module at the end of `src/lib.rs`, and its socket-based port, are not part of this model.
- VALID_CHIP_ID and CTRL_REG4 are declared but never used by the driver, so they are not modelled.
- Concurrency: the driver owns its port exclusively, so there is nothing to model.
- The scale-conversion quotient of `get_acceleration` (line 135) is computed and discarded in the source. It is modelled only as the division-by-zero panic when the scale range is 0. For every other byte value the divisor is nonzero, so no other panic is possible.
- Mma84.Accelerometer.New: in the source the port is moved into the driver. Here the driver holds a reference to the port, so aliasing of the port is not excluded.
- Mma84.Accelerometer.SwitchMode, Mma84.Accelerometer.ProgramRate, Mma84.Accelerometer.UpdateRateField, Mma84.Accelerometer.SetOutputRate and Mma84.Accelerometer.SetScaleRange: a path that stops early hands back `Failure` placeholders as the ghost replies of the transactions it does not reach. The
  run functions ignore them.
