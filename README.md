# incyclist-ant-plus core, modelled in Dafny

This project models the core of the `incyclist-ant-plus` library, which drives ANT+ radio channels:

- **The channel** (`AntChannel.Channel`) sends messages to an ANT+ USB stick and matches the stick's replies to them.
  - It keeps a queue with at most one message in flight.
  - A newer message of the same type replaces an older one that was never sent.
  - Channel events and responses settle the message at the head of the queue, and the next one is then written.
  - Broadcast data for the channel is handed on to the attached sensor.
- **The profile decoders** turn ANT+ broadcast pages into per-device state records. They cover:
  - Fitness Equipment (`FitnessEquipment`), which also sends control pages: basic resistance, target power, wind and track resistance, user configuration (`FeCommands`);
  - Bicycle Power (`BicyclePower`);
  - Bike Cadence (`Cadence`);
  - combined Bike Speed and Cadence (`SpeedCadence`).

Each decoder keeps one record per transmitting device ID, in a `states` map held by its sensor class. A sensor notifies the channel when a data page for an accepted device arrives. For the Fitness Equipment sensor that is every such page. For the other three profiles it is only when the page changed the record.

How the model is built:

- **Records.** Each record is a datatype. Each page decoder is a function from the old record and the frame to the new record. Its contract says which fields the page may touch and what each new value means in terms of the raw bytes. A separate lemma or `ensures` gives each rollover counter, flag and sentinel value its meaning.
- **Classes.** The channel and the sensor objects are classes. Their methods update fields in place and state the whole new state.
- **JavaScript numbers.** Arithmetic that JavaScript performs on unguarded divisions (`x / 0`) is modelled by `JsNumber.Num`, which has `NaN` and the infinities. Every other quantity is an exact real or an integer.
- **Time.** Wall-clock time (`Date.now()`) is a parameter `now`.
- **Bit operations.** JavaScript's 32-bit bit operators are written out as arithmetic modulo 2^32 (`BaseSensor.Int32`, `BaseSensor.Uint32`).

## Model

| member | source | states |
|---|---|---|
| BaseSensor.NewSensorState | src/sensors/base-sensor.ts:5-32 | a fresh record holds only the device ID: no identification, no battery reading (status Invalid), no raw frame, no signal strength |
| BaseSensor.Sensor.constructor | src/sensors/base-sensor.ts:39-46 | a new sensor has the given device ID, no channel and the 10000 ms send timeout |
| BaseSensor.Sensor.SetChannel | src/sensors/base-sensor.ts:51-53 | the channel is replaced and nothing else changes |
| BaseSensor.Sensor.SetSendTimeout | src/sensors/base-sensor.ts:58-60 | the send timeout is replaced and nothing else changes |
| BaseSensor.Sensor.GetChannel | src/sensors/base-sensor.ts:48-50 | the channel last set by `SetChannel`, none before |
| BaseSensor.Sensor.GetDeviceID | src/sensors/base-sensor.ts:54-56 | the device ID the sensor was constructed with |
| BaseSensor.Sensor.GetSendTimeout | src/sensors/base-sensor.ts:61-63 | the timeout last set by `SetSendTimeout`, 10000 ms before |
| BaseSensor.Accepts | src/sensors/fitness-equipment-sensors.ts:147 | a sensor bound to device ID 0 accepts every device; one bound to another ID accepts exactly that device |
| BaseSensor.ReadScannerInfo | src/sensors/fitness-equipment-sensors.ts:135-140 | RSSI and threshold are read only when the extended-data flag 0x40 is set and the measurement-type byte is 0x20; both are signed bytes; a frame too short for the bytes it reads aborts the message (Node's read throws) |
| BaseSensor.Unwrap | src/sensors/fitness-equipment-sensors.ts:574-579 | a counter that did not go backwards is taken as is; over a wrap, the distance travelled is the difference modulo the counter's span |
| BaseSensor.DecodeBattery | src/sensors/bicycle-power-sensors.ts:314-345 | status flags 1-5 give New..Critical with voltage = coarse nibble + fraction/256 (integer part = low nibble, remainder = fraction/256); any other flag gives Invalid with no voltage |
| BaseSensor.Int32 | src/sensors/bicycle-power-sensors.ts:302-304 | the result is the signed 32-bit value congruent to the input modulo 2^32 (JavaScript `\|` and `<<`) |
| BaseSensor.Uint32 | src/sensors/bicycle-power-sensors.ts:304 | the result is the unsigned 32-bit value congruent to the input modulo 2^32 (JavaScript `>>>= 0`) |
| BaseSensor.SerialNumber | src/sensors/bicycle-power-sensors.ts:302-304 | the serial number's low 16 bits are the device ID and its high 16 bits the page's serial word |
| Frames.Bits4To6 | src/sensors/fitness-equipment-sensors.ts:500 | the condition field `(b & 0x70) >> 4` is a 3-bit value which, with the low nibble and bit 7, recomposes the byte |
| Frames.U16 | src/sensors/fitness-equipment-sensors.ts:445 | a little-endian 16-bit read: low byte first, high byte second |
| Frames.I8 | src/sensors/fitness-equipment-sensors.ts:137-138 | a signed byte: congruent to the raw byte modulo 256 and negative exactly when bit 7 is set |
| Frames.I16 | src/sensors/fitness-equipment-sensors.ts:514 | a signed little-endian 16-bit read congruent to the unsigned read modulo 2^16 |
| Frames.I32 | src/sensors/fitness-equipment-sensors.ts:629 | a signed little-endian 32-bit read congruent to the two unsigned words modulo 2^32 |
| JsNumber.FromInt | src/sensors/fitness-equipment-sensors.ts:596 | an integer becomes a finite number of the same value and sign |
| JsNumber.Add | src/sensors/bicycle-power-sensors.ts:290 | IEEE sum: NaN exactly for a NaN operand or opposite infinities; the exact sum for finite operands |
| JsNumber.Sub | src/sensors/bicycle-power-sensors.ts:290 | IEEE difference: NaN exactly for a NaN operand or like infinities; the exact difference for finite operands |
| JsNumber.Mul | src/sensors/bicycle-power-sensors.ts:244 | IEEE product: NaN exactly for a NaN operand or infinity times zero; the exact product for finite operands |
| JsNumber.Div | src/sensors/fitness-equipment-sensors.ts:596 | IEEE quotient: 0/0 and ∞/∞ are NaN, a nonzero finite value over zero is an infinity of the combined sign, finite over nonzero is the exact quotient |
| JsNumber.Round | src/sensors/bicycle-power-sensors.ts:287 | `Math.round`: an integer within half a unit of its argument, NaN and infinities kept |
| AntChannel.Channel.constructor | src/ant-channel.ts:24-29 | a new channel is idle, neither scanner nor sensor, with an empty queue, and satisfies the queue invariant |
| AntChannel.Channel.GetChannelNo | src/ant-channel.ts:38-40 | the channel number given at construction, which no method changes |
| AntChannel.Channel.OnDeviceData | src/ant-channel.ts:31-36 | a scanner channel announces 'detected' before 'data'; a sensor channel announces 'data' only; nothing else changes |
| AntChannel.DeviceDataEvents | src/ant-channel.ts:31-36 | the notification list ends with 'data' and holds 'detected' exactly when the channel scans |
| AntChannel.ScannerStartSequence | src/ant-channel.ts:59-64 | scanning starts with assign and ends with open-rx-scan; its six messages are of six distinct types; all but the two global ones carry this channel's number |
| AntChannel.SensorStartSequence | src/ant-channel.ts:96-102 | opening a sensor starts with assign (of the sensor's channel type) and ends with open; seven messages of distinct types, all addressed to this channel, one of them the sensor's device ID/type |
| AntChannel.Channel.StopScanner | src/ant-channel.ts:75-81 | a channel that is not scanning reports success and writes nothing; a scanning channel writes a close-channel message |
| AntChannel.Channel.StopSensor | src/ant-channel.ts:117-124 | a channel with no sensor reports success and writes nothing; otherwise a close-channel message is written |
| AntChannel.DropSuperseded | src/ant-channel.ts:261-271 | the loop removes exactly the queued entries of the same message type that still hold unsent data, keeps the rest in order, and leaves none behind |
| AntChannel.SplitQueue | src/ant-channel.ts:261-271 | kept and dropped entries partition the queue: each entry lands in exactly one of them |
| AntChannel.FindUnsent | src/ant-channel.ts:265 | `findIndex`: -1 exactly when no entry of the type holds unsent data, otherwise the first such entry |
| AntChannel.RemoveFirstUnsent | src/ant-channel.ts:266-270 | removing the first unsent entry of a type and searching again reaches the same kept list and the same dropped list |
| AntChannel.NothingUnsent | src/ant-channel.ts:271 | when no unsent entry of the type remains, the loop stops with the queue unchanged |
| AntChannel.Channel.SendMessage | src/ant-channel.ts:252-285 | a busy channel queues the message after dropping (and resolving false) every unsent one of its type; an idle channel writes it at once and becomes busy; a wrong channel number records a rejection; the queue invariant is kept |
| AntChannel.WithoutKeepsNoUnsent | src/ant-channel.ts:263-271 | dropping entries of one type cannot create an unsent entry of another type |
| AntChannel.WithoutKeepsUnique | src/ant-channel.ts:263-271 | dropping superseded entries keeps at most one unsent entry per message type |
| AntChannel.AppendKeepsUnique | src/ant-channel.ts:272 | appending a message whose type has no unsent entry keeps at most one unsent entry per type |
| AntChannel.WithoutKeepsHead | src/ant-channel.ts:263-271 | the entry in flight (head, already written) is never dropped, and every later entry still holds data |
| AntChannel.SupersedeKeepsShape | src/ant-channel.ts:261-273 | a busy send keeps the queue's shape: the head stays in flight, later entries hold data, one unsent entry per type |
| AntChannel.EventKindOf | src/ant-channel.ts:203-234 | channel event codes are sorted into completed, the seven failure codes, search timeout, rx failures and collision, each exactly |
| AntChannel.ReactionTo | src/ant-channel.ts:167-236 | a response (msg ≠ 1) settles the head only when it answers the head's message type, with the response code; event TX_COMPLETED settles it true, the seven failure codes settle it false, search timeout stops the scanner, and every other event code (RX_FAIL, RX_FAIL_GO_TO_SEARCH, CHANNEL_COLLISION and the unhandled ones) leaves the queue alone |
| AntChannel.EmittedFor | src/ant-channel.ts:167-241 | a channel event for this channel is announced as 'status'; any other frame for this channel is forwarded as 'message'; frames for other channels are dropped |
| AntChannel.Advance | src/ant-channel.ts:175-191 | after a settlement the queue loses its head and the new head is marked as written |
| AntChannel.Channel.Resolve | src/ant-channel.ts:175-182 | an empty queue is left alone; otherwise the head is removed, settled with the value, and the channel is no longer busy |
| AntChannel.Channel.Next | src/ant-channel.ts:184-191 | the head's data, if any, is written and cleared and the channel becomes busy; an empty queue changes nothing |
| AntChannel.Channel.OnMessage | src/ant-channel.ts:155-249 | emits exactly `EmittedFor`; on a settling reaction the head is settled, the queue advances and the next unsent message is written; search timeout writes close-channel only when scanning; the queue invariant is kept |
| AntChannel.Channel.AdvanceValid | src/ant-channel.ts:175-191 | settling the head and writing the next entry keeps at most one unsent entry per type and writes exactly the second entry's data |
| AntChannel.Dropped | src/ant-channel.ts:269 | every superseded entry is resolved false, one settlement per entry, in queue order |
| FeCommands.Trunc | src/sensors/fitness-equipment-sensors.ts:253 | `Math.trunc`: the integer between zero and the argument that is within one unit of it |
| FeCommands.LowByte | src/sensors/fitness-equipment-sensors.ts:266 | `x & 0xFF` is the byte congruent to x modulo 256, and a byte is kept as is |
| FeCommands.HighByte | src/sensors/fitness-equipment-sensors.ts:267 | `(x >> 8) & 0xFF` is a byte |
| FeCommands.WordBytes | src/sensors/fitness-equipment-sensors.ts:266-267 | the low and high byte recombine to x modulo 2^16 |
| FeCommands.CongruentBelow | src/sensors/fitness-equipment-sensors.ts:266-272 | values congruent modulo 2^32 agree modulo 16, 256, 4096 and 65536, so 32-bit truncation does not disturb the byte fields |
| FeCommands.Acknowledged | src/sensors/fitness-equipment-sensors.ts:274 | the nine payload bytes become an acknowledged-data message: channel number, then the eight page bytes |
| FeCommands.BasicResistancePayload | src/sensors/fitness-equipment-sensors.ts:278-299 | page 0x30 with six reserved 0xFF bytes, the resistance in half-percent units truncated into its last byte (absent means 0) |
| FeCommands.BasicResistanceRoundTrip | src/sensors/fitness-equipment-sensors.ts:285-295 | for 0 ≤ resistance < 128 the byte read back in half-percent units is the resistance rounded down to 0.5 % |
| FeCommands.TargetPowerPayload | src/sensors/fitness-equipment-sensors.ts:301-322 | page 0x31 with five reserved bytes and the power in quarter watts, truncated, as a little-endian word modulo 2^16 |
| FeCommands.TargetPowerRoundTrip | src/sensors/fitness-equipment-sensors.ts:308-318 | any power that is a whole number of quarter watts below 16384 W is read back exactly |
| FeCommands.Scaled | src/sensors/fitness-equipment-sensors.ts:331-343 | an absent value or the sentinel itself stays the sentinel; any other value is scaled and truncated |
| FeCommands.WindResistancePayload | src/sensors/fitness-equipment-sensors.ts:324-356 | page 0x32 with four reserved bytes; an absent field, or one equal to the sentinel 255, is sent as 0xFF; otherwise byte 5 is the wind coefficient / 0.01, byte 6 the wind speed + 127 and byte 7 the drafting factor / 0.01, each truncated and congruent modulo 256; a wind speed in [-127, 128) km/h reads back to within 1 km/h below |
| FeCommands.TrackResistancePayload | src/sensors/fitness-equipment-sensors.ts:358-387 | page 0x33 with four reserved bytes; the grade field is (slope + 200) / 0.01 truncated, little-endian modulo 2^16, or 0xFFFF when absent or equal to 0xFFFF; the rolling-resistance byte is the coefficient / 0.00005 truncated, congruent modulo 256, or 0xFF when absent or equal to 255 |
| FeCommands.TrackGradeRoundTrip | src/sensors/fitness-equipment-sensors.ts:366-382 | for -200 % ≤ slope < 455.35 % the grade read back (units 0.01 %, offset -200 %) is within 0.01 % below the slope |
| FeCommands.FMod10 | src/sensors/fitness-equipment-sensors.ts:258 | JavaScript `%` by 10 on a real: the remainder takes the dividend's sign and is the dividend minus a truncated multiple of 10 |
| FeCommands.ScaleUserConfiguration | src/sensors/fitness-equipment-sensors.ts:246-263 | an absent field, or one equal to its sentinel, becomes the sentinel 0xFFFF, 0xFFF, 0xFF or 0; otherwise the user weight is trunc(w · 100), the bicycle weight trunc(bw · 20) and the gear ratio trunc(g / 0.03); a wheel diameter in metres becomes trunc(d · 100) whole centimetres plus a millimetre offset that together give the diameter, the offset in [0, 10) for a non-negative diameter |
| FeCommands.UserConfigurationPayloadAsWritten | src/sensors/fitness-equipment-sensors.ts:239-276 | page 0x37 as the source builds it: the user-weight word modulo 2^16; byte 4 holds the bicycle weight's low nibble above the wheel offset's low nibble; byte 5 is bits 4-7 of the bicycle weight only, so the receiver's 12-bit field is the weight modulo 256; diameter and gear-ratio bytes congruent modulo 256 |
| FeCommands.BikeWeightTruncatedAsWritten | src/sensors/fitness-equipment-sensors.ts:270 | a 15 kg bicycle (300 units of 0.05 kg) is sent as 44 units (2.2 kg) by the as-written builder |
| FeCommands.UserConfigurationPayload | src/sensors/fitness-equipment-sensors.ts:239-276 | page 0x37 with the 12-bit bicycle weight split across the high nibble of byte 4 and all of byte 5; the user weight word, wheel offset nibble, diameter and gear ratio bytes each congruent to their field |
| FeCommands.BikeWeightNibbles | src/sensors/fitness-equipment-sensors.ts:269-270 | the low nibble plus 16 times the next byte of the truncated 32-bit value is the value modulo 4096 |
| FeCommands.BikeWeightRoundTrip | src/sensors/fitness-equipment-sensors.ts:247-270 | any bicycle weight from 0 to 204.75 kg is read back as its truncated 0.05 kg count |
| FitnessEquipment.NewFitnessEquipmentState | src/sensors/fitness-equipment-sensors.ts:11-91 | a fresh record carries only the device ID: no session values, no calibration, no equipment type or state, no paired devices |
| FitnessEquipment.Reset | src/sensors/fitness-equipment-sensors.ts:390-410 | resetting clears every session value (time, distance, speeds, heart rate, settings, metabolic and trainer values) and keeps everything else |
| FitnessEquipment.ResetDeterminedBySetup | src/sensors/fitness-equipment-sensors.ts:390-410 | any record with the session cleared and the same setup is the reset record: reset is the unique such record |
| FitnessEquipment.ResetIdempotent | src/sensors/fitness-equipment-sensors.ts:390-410 | resetting twice is resetting once |
| FitnessEquipment.EquipmentOf | src/sensors/fitness-equipment-sensors.ts:433-442 | type codes 19-25 name a specific equipment type, every other code is General, and a specific type maps back to its code |
| FitnessEquipment.HeartRateSourceOf | src/sensors/fitness-equipment-sensors.ts:449-470 | source bits 1, 2, 3 give ANT+, EM, hand contact (and map back); 0 gives no source |
| FitnessEquipment.TargetStatusOf | src/sensors/fitness-equipment-sensors.ts:601-606 | bits 0, 1, 2 give on target, low speed, high speed (and map back); 3 gives none |
| FitnessEquipment.ApplyState | src/sensors/fitness-equipment-sensors.ts:500-506 | codes 1-4 set the machine state (and map back), other codes clear it; READY also resets the session and keeps the setup; other codes change nothing else |
| FitnessEquipment.Accumulate | src/sensors/fitness-equipment-sensors.ts:482-489 | a rollover total never decreases, grows by less than one span per page, and its remainder is the raw field |
| FitnessEquipment.AccumulateStep | src/sensors/fitness-equipment-sensors.ts:483-489 | the source's unwrap-and-add step from a total whose remainder is the previous raw field lands on the next value with that remainder |
| FitnessEquipment.SecondsMod64 | src/sensors/fitness-equipment-sensors.ts:474 | JavaScript `% 64` on non-negative seconds: a value in [0, 64) differing from the input by a whole multiple of 64 |
| FitnessEquipment.AccumulateSeconds | src/sensors/fitness-equipment-sensors.ts:473-480 | elapsed time never decreases, grows by less than 64 s per page, and modulo 64 equals the page's quarter-second field divided by 4 |
| FitnessEquipment.CalibrationPage | src/sensors/fitness-equipment-sensors.ts:417-430 | page 0x01 touches only temperature, zero offset and spin-down time; temperature = raw/2 − 25 °C unless 0xFF; offset and spin-down only when their flag bit is set |
| FitnessEquipment.GeneralFields | src/sensors/fitness-equipment-sensors.ts:431-499 | page 0x10: equipment type from the low 5 bits; heart rate kept when 0xFF, else set with its source or cleared when the source bits are 0; elapsed time and distance accumulate over rollover; distance only when flagged; exactly one of virtual or real speed, in m/s |
| FitnessEquipment.GeneralPage | src/sensors/fitness-equipment-sensors.ts:431-511 | page 0x10 applies its fields, then the machine state from the flags byte |
| FitnessEquipment.SettingsFields | src/sensors/fitness-equipment-sensors.ts:512-525 | page 0x11: cycle length in metres unless 0xFF; incline in percent only within ±100 %; resistance unless 0xFF; nothing else |
| FitnessEquipment.SettingsPage | src/sensors/fitness-equipment-sensors.ts:512-537 | page 0x11 applies its fields, then the machine state |
| FitnessEquipment.MetabolicFields | src/sensors/fitness-equipment-sensors.ts:538-551 | page 0x12: METs in 0.01 units and burn rate in 0.1 kcal/h unless 0xFFFF; calories only when flagged |
| FitnessEquipment.MetabolicPage | src/sensors/fitness-equipment-sensors.ts:538-563 | page 0x12 applies its fields, then the machine state |
| FitnessEquipment.EventsSince | src/sensors/fitness-equipment-sensors.ts:574-579 | events between two counts: the modular difference, one fewer when the count wrapped (the source adds 255, not 256) |
| FitnessEquipment.TrainerPower | src/sensors/fitness-equipment-sensors.ts:570 | instantaneous power is 12 bits: byte 5 plus the low nibble of byte 6 |
| FitnessEquipment.TrainerFields | src/sensors/fitness-equipment-sensors.ts:564-606 | page 0x19: a changed event count is stored; cadence unless 0xFF; unless power is 0xFFF: instantaneous power, accumulated power over rollover (gain below 2^16), and average power = gain / events as a JavaScript division; trainer status = high nibble of byte 6; target status from the flag bits |
| FitnessEquipment.TrainerPage | src/sensors/fitness-equipment-sensors.ts:564-619 | page 0x19 applies its fields, then the machine state |
| FitnessEquipment.ManufacturerPage | src/sensors/fitness-equipment-sensors.ts:620-625 | page 0x50 sets hardware version, manufacturer ID and model number and nothing else |
| FitnessEquipment.ProductPage | src/sensors/fitness-equipment-sensors.ts:626-641 | page 0x51: software version = main revision plus supplemental/1000 unless 0xFF; the signed serial number is always stored |
| FitnessEquipment.NoSerialStoredAsMinusOne | src/sensors/fitness-equipment-sensors.ts:629-639 | the "no serial" pattern FF FF FF FF is stored as serial number -1, because a signed read never equals 0xFFFFFFFF |
| FitnessEquipment.PairedDevicesPage | src/sensors/fitness-equipment-sensors.ts:642-658 | page 0x56: index 0 restarts the list; a non-zero total appends the device with its ID, type and paired bit |
| FitnessEquipment.WithRawData | src/sensors/fitness-equipment-sensors.ts:413 | the frame is remembered as raw data and nothing else changes |
| FitnessEquipment.UpdateState | src/sensors/fitness-equipment-sensors.ts:412-662 | every frame is remembered; an unknown page changes nothing else; the device ID never changes |
| FitnessEquipment.ReadyPageForgetsSession | src/sensors/fitness-equipment-sensors.ts:500-614 | a state page that reports READY leaves the session cleared and the state READY, and keeps calibration and paired devices |
| FitnessEquipment.TotalsNeverDecrease | src/sensors/fitness-equipment-sensors.ts:473-594 | without a READY reset, elapsed time and accumulated power never decrease, nor does a distance that stays reported |
| FitnessEquipment.OneSpeedAfterGeneralPage | src/sensors/fitness-equipment-sensors.ts:493-499 | after a page 0x10 that does not report READY (which resets the session and deletes both speeds), exactly one of virtual and real speed is set, chosen by flag 0x08 |
| FitnessEquipment.RepeatedCountDividesByZero | src/sensors/fitness-equipment-sensors.ts:574-596 | on a page 0x19 with a power reading (not 0xFFF) that does not report READY, a repeated event count, or a wrap from 255 to 0, makes the average power NaN (no power gained) or +∞ (power gained) |
| FitnessEquipment.FirstZeroCountNotStored | src/sensors/fitness-equipment-sensors.ts:565-578 | a first event count of 0 equals the default and is not stored |
| FitnessEquipment.ChannelConfiguration | src/sensors/fitness-equipment-sensors.ts:110-118 | a receive channel, transmission type 0, never timing out, on RF channel 57, with period 8192 (four messages a second) |
| FitnessEquipment.WithScannerInfo | src/sensors/fitness-equipment-sensors.ts:135-140 | RSSI and threshold are each stored only when the scanner block supplied them; no other field changes |
| FitnessEquipment.FitnessEquipmentSensor.constructor | src/sensors/fitness-equipment-sensors.ts:97-99 | a new sensor has no channel, no device records and the default send timeout |
| FitnessEquipment.FitnessEquipmentSensor.Track | src/sensors/fitness-equipment-sensors.ts:131-140 | the device's record is created when missing and takes the frame's RSSI and threshold; a frame too short for them aborts |
| FitnessEquipment.FitnessEquipmentSensor.OnMessage | src/sensors/fitness-equipment-sensors.ts:119-154 | frames for another channel or device type, or with no channel attached, change nothing; otherwise the device's record is created, takes its scanner info and, for data messages, the decoded page; the channel is notified of every decoded data message for an accepted device, and no other channel state changes |
| FitnessEquipment.FitnessEquipmentSensor.Send | src/sensors/fitness-equipment-sensors.ts:201-237 | the command is handed to the channel's send: written at once when idle, queued behind the message in flight otherwise |
| FitnessEquipment.FitnessEquipmentSensor.SendUserConfiguration | src/sensors/fitness-equipment-sensors.ts:239-276 | the user-configuration page is handed to the channel, built with the corrected bicycle-weight mask of `FeCommands.UserConfigurationPayload` |
| FitnessEquipment.FitnessEquipmentSensor.SendBasicResistance | src/sensors/fitness-equipment-sensors.ts:278-299 | the basic-resistance page for this channel is handed to the channel |
| FitnessEquipment.FitnessEquipmentSensor.SendTargetPower | src/sensors/fitness-equipment-sensors.ts:301-322 | the target-power page for this channel is handed to the channel |
| FitnessEquipment.FitnessEquipmentSensor.SendWindResistance | src/sensors/fitness-equipment-sensors.ts:324-356 | the wind-resistance page for this channel is handed to the channel |
| FitnessEquipment.FitnessEquipmentSensor.SendTrackResistance | src/sensors/fitness-equipment-sensors.ts:358-387 | the track-resistance page for this channel is handed to the channel |
| BicyclePower.NewPowerState | src/sensors/bicycle-power-sensors.ts:11-66 | a fresh record has no readings, zeroed counters, both event times at creation time, no identification, and battery status Invalid |
| BicyclePower.CalibrationPage | src/sensors/bicycle-power-sensors.ts:139-148 | only calibration ID 0x10 with parameter 0x01 sets the offset; every other calibration page changes nothing |
| BicyclePower.PageCadence | src/sensors/bicycle-power-sensors.ts:159-162 | the cadence byte is absent exactly when it is 0xFF |
| BicyclePower.StallDelay | src/sensors/bicycle-power-sensors.ts:163 | the stall delay is the cadence itself in ms (62.5 ms with no cadence), as operator precedence makes it |
| BicyclePower.PowerOnlyPage | src/sensors/bicycle-power-sensors.ts:149-190 | page 0x10: a new event count stores time, cadence, accumulated and instantaneous power and pedal balance (right share with left = 100 − right when bit 7 is set); a repeated count zeroes cadence and power once the stall delay has passed and otherwise changes nothing |
| BicyclePower.CrankTorqueValues | src/sensors/bicycle-power-sensors.ts:238-245 | torque = torque ticks / (32 · events); cadence = 60 · events / period in seconds; power = angular velocity · torque; a zero period gives infinite cadence, and infinite power, or NaN when no torque accumulated |
| BicyclePower.Revolutions | src/sensors/bicycle-power-sensors.ts:210-238 | crank revolutions between two 8-bit counts: the difference modulo 256, between 1 and 255 when the count changed |
| BicyclePower.WordDelta | src/sensors/bicycle-power-sensors.ts:224-234 | the growth of a 16-bit accumulator: the difference modulo 2^16 |
| BicyclePower.CrankTorquePage | src/sensors/bicycle-power-sensors.ts:191-255 | page 0x12: a new event count stores the raw fields and computes torque, power and cadence from the deltas over rollover; a repeated count zeroes them once the stall delay has passed |
| BicyclePower.TorqueTicksStampOf | src/sensors/bicycle-power-sensors.ts:264 | the torque-ticks stamp is the little-endian word at page offset 7: page byte 7 low, the byte after the page high |
| BicyclePower.TorqueFrequencyCadence | src/sensors/bicycle-power-sensors.ts:283-288 | cadence is finite for positive events and ticks, and zero when no events passed and ticks ≠ 0 (with no ticks either it is NaN) |
| BicyclePower.TorqueFrequencyCadenceRpm | src/sensors/bicycle-power-sensors.ts:283-288 | the cadence is 60 / (seconds per event) rounded to the nearest rpm, with ticks of 0.5 ms |
| BicyclePower.TorqueFrequencyTorque | src/sensors/bicycle-power-sensors.ts:290-291 | torque = (torque frequency − offset) / (slope / 10) |
| BicyclePower.TorqueFrequencyPower | src/sensors/bicycle-power-sensors.ts:294 | power = torque · cadence · π / 30 |
| BicyclePower.TorqueFrequencyValues | src/sensors/bicycle-power-sensors.ts:283-294 | with positive revolutions and ticks and non-zero torque ticks and slope, all three are finite: the cadence lies within 0.5 of 120000 · events / ticks, the torque is (torqueTicks / (ticks · 0.0005) − offset) / (slope / 10), and the power is `TorqueFrequencyPower` of that torque and cadence; no revolutions give cadence 0 for ticks ≠ 0, and power 0 for ticks > 0, torque ticks ≠ 0 and slope ≠ 0 |
| BicyclePower.TorqueFrequencyPage | src/sensors/bicycle-power-sensors.ts:256-297 | page 0x20 changes nothing unless both the time stamp and the event count changed; then it stores the raw fields and the values from the rollover deltas (spans 255, 65400, 65535 as written) |
| BicyclePower.CountWrapGivesZeroCadence | src/sensors/bicycle-power-sensors.ts:268-270 | an event count wrapping from 255 to 0 is taken as no events, so the cadence comes out zero |
| BicyclePower.ManufacturerPage | src/sensors/bicycle-power-sensors.ts:298-306 | page 0x50 sets the manufacturer ID and a serial number built from the device ID and the page's serial word |
| BicyclePower.ProductPage | src/sensors/bicycle-power-sensors.ts:307-313 | page 0x51 sets hardware version, software version and model number and nothing else |
| BicyclePower.BatteryPage | src/sensors/bicycle-power-sensors.ts:314-345 | page 0x52: battery level unless 0xFF; voltage and status as decoded, voltage absent exactly when status is Invalid |
| BicyclePower.UpdateState | src/sensors/bicycle-power-sensors.ts:136-349 | unknown pages change nothing; the device ID never changes; only page 0x01 moves the offset and only page 0x50 moves identification |
| BicyclePower.ChannelConfiguration | src/sensors/bicycle-power-sensors.ts:84-92 | a receive channel, transmission type 0, never timing out, on RF channel 57, with period 8182 (about four messages a second) |
| BicyclePower.WithScannerInfo | src/sensors/bicycle-power-sensors.ts:112-117 | RSSI and threshold are each stored only when the scanner block supplied them; no other field changes |
| BicyclePower.PowerSensor.constructor | src/sensors/bicycle-power-sensors.ts:72-82 | a new sensor has no channel, no device records and the default send timeout |
| BicyclePower.PowerSensor.Track | src/sensors/bicycle-power-sensors.ts:108-117 | the device's record is created when missing and takes the frame's RSSI and threshold; a frame too short for them aborts |
| BicyclePower.PowerSensor.OnMessage | src/sensors/bicycle-power-sensors.ts:96-133 | frames for another channel or device type change nothing; otherwise the record is updated and the channel is notified exactly when a data message for an accepted device changed the record |
| Cadence.NewCadenceState | src/sensors/cadence-sensors.ts:11-35 | a fresh record holds only the device ID |
| Cadence.RevolutionCadence | src/sensors/cadence-sensors.ts:192-199 | with a previous sample, cadence · event interval = 60 · 1024 · revolutions, the interval taken over rollover; with none, no cadence (NaN is discarded) |
| Cadence.RevolutionCadenceIsRpm | src/sensors/cadence-sensors.ts:196 | for a count that did not wrap, the cadence is non-negative and is revolutions per minute over the event interval in 1/1024 s |
| Cadence.CountWrapGivesNegativeCadence | src/sensors/cadence-sensors.ts:196 | a revolution count wrapping from 65535 to 0 gives a negative cadence, since the count is not unwrapped |
| Cadence.CadenceEventPage | src/sensors/cadence-sensors.ts:170-206 | a new event time stores time, count and cadence (kept when none can be computed); a repeated event time zeroes the cadence after 5 s and otherwise changes nothing; records stay consistent |
| Cadence.OperatingTimePage | src/sensors/cadence-sensors.ts:110-117 | operating time is the 24-bit little-endian count doubled (2 s units), touching nothing else |
| Cadence.ManufacturerPage | src/sensors/cadence-sensors.ts:118-126 | manufacturer ID and a serial number built from the device ID and the page's serial word |
| Cadence.ProductPage | src/sensors/cadence-sensors.ts:127-133 | hardware version, software version and model number and nothing else |
| Cadence.BatteryPage | src/sensors/cadence-sensors.ts:134-161 | voltage and status as decoded, voltage absent exactly when status is Invalid |
| Cadence.MotionPage | src/sensors/cadence-sensors.ts:162-169 | page 5: `Motion` is bit 0 of data byte 1; bit 0 clear zeroes the cadence and reads nothing else; bit 0 set falls through to the page-0 decoding of the cadence event |
| Cadence.PageNumber | src/sensors/cadence-sensors.ts:109 | the page number ignores the toggle bit 0x80 |
| Cadence.UpdateState | src/sensors/cadence-sensors.ts:107-210 | pages above 5 change nothing; the device ID never changes; only pages 0 and 5 move the cadence; consistency is kept |
| Cadence.ToggleBitIgnored | src/sensors/cadence-sensors.ts:109 | two frames differing only in the toggle bit decode identically |
| Cadence.MotionClearZeroesCadence | src/sensors/cadence-sensors.ts:164-168 | a page 5 with bit 0 clear zeroes the cadence without touching the event time |
| Cadence.ChannelConfiguration | src/sensors/cadence-sensors.ts:53-61 | a receive channel, transmission type 0, never timing out, on RF channel 57, with period 8102 (about four messages a second) |
| Cadence.WithScannerInfo | src/sensors/cadence-sensors.ts:81-86 | RSSI and threshold are each stored only when the scanner block supplied them; no other field changes |
| Cadence.CadenceSensor.constructor | src/sensors/cadence-sensors.ts:41-52 | a new sensor has no channel, no device records and the default send timeout |
| Cadence.CadenceSensor.Track | src/sensors/cadence-sensors.ts:77-86 | the device's record is created when missing and takes the frame's RSSI and threshold; a frame too short for them aborts |
| Cadence.CadenceSensor.OnMessage | src/sensors/cadence-sensors.ts:65-102 | frames for another channel or device type change nothing; otherwise the record is updated and the channel is notified exactly when a data message for an accepted device changed the record |
| SpeedCadence.NewSpeedCadenceState | src/sensors/speed-cadence-sensors.ts:11-30 | a fresh record holds only the device ID |
| SpeedCadence.WheelDistance | src/sensors/speed-cadence-sensors.ts:151 | distance = wheel circumference · revolutions; NaN when there is no previous count |
| SpeedCadence.WheelSpeed | src/sensors/speed-cadence-sensors.ts:146-157 | with a previous sample, speed · interval in seconds = distance, the interval taken over rollover; with none, no speed |
| SpeedCadence.CadenceHalf | src/sensors/speed-cadence-sensors.ts:122-139 | the cadence half touches only cadence fields and event time; a new cadence time stores the sample and its cadence, a repeated one zeroes the cadence after 5 s |
| SpeedCadence.SpeedHalf | src/sensors/speed-cadence-sensors.ts:141-162 | the speed half touches only speed fields and event time; a new speed time stores the sample, distance and speed, a repeated one zeroes the speed after 5 s measured from the event time before the page |
| SpeedCadence.UpdateState | src/sensors/speed-cadence-sensors.ts:107-163 | the page is the cadence half followed by the speed half, both timed against the event time before the page; identification and scanner info are untouched; consistency is kept |
| SpeedCadence.SpeedZeroedBesideFreshCadence | src/sensors/speed-cadence-sensors.ts:110-162 | a fresh cadence event beside a stalled wheel still zeroes the speed, because the stall is timed against the old event time |
| SpeedCadence.SpeedFromRevolutions | src/sensors/speed-cadence-sensors.ts:141-157 | after a previous wheel sample, a new wheel event whose count did not wrap gives, for a circumference ≥ 0, distance = circumference · revolutions and a non-negative speed |
| SpeedCadence.ChannelConfiguration | src/sensors/speed-cadence-sensors.ts:52-60 | a receive channel, transmission type 0, never timing out, on RF channel 57, with period 8086 (about four messages a second) |
| SpeedCadence.WithScannerInfo | src/sensors/speed-cadence-sensors.ts:83-88 | RSSI and threshold are each stored only when the scanner block supplied them; no other field changes |
| SpeedCadence.SpeedCadenceSensor.constructor | src/sensors/speed-cadence-sensors.ts:38-41 | a new sensor has no channel, no records and the 2.118 m default wheel |
| SpeedCadence.SpeedCadenceSensor.SetWheelCircumference | src/sensors/speed-cadence-sensors.ts:64-66 | the circumference is replaced and the records are untouched |
| SpeedCadence.SpeedCadenceSensor.Track | src/sensors/speed-cadence-sensors.ts:79-88 | the device's record is created when missing and takes the frame's RSSI and threshold; a frame too short for them aborts |
| SpeedCadence.SpeedCadenceSensor.OnMessage | src/sensors/speed-cadence-sensors.ts:67-104 | frames for another channel or device type change nothing; otherwise the record is updated with the current wheel size and the channel is notified exactly when a data message for an accepted device changed the record |

## Left out

- Promises, `await`, the 5 s start timeout and the `setTimeout` handlers are not modelled, because the model has no asynchrony. A send returns a ticket, and settlements are recorded in the order they happen.
- `startScanner` and `startSensor` (src/ant-channel.ts:52-115) are modelled only by the command sequences they write. Each command waits for the stick's reply, and the scanner/sensor flag is set on success. That waiting and flag-setting is not a method here, because it needs the asynchrony above.
- `closeChannel` (src/ant-channel.ts:126-140) is modelled as writing the close-channel message. Its `removeAllListeners()`, which also detaches the sensors' listeners, is left out with the listener wiring (see `attach` below). Its `status` listener, which unassigns and frees the channel after `EVENT_CHANNEL_CLOSED`, is left out because it runs on a later event.
- AntChannel.Channel.StopScanner and AntChannel.Channel.StopSensor do not clear the scanner/sensor flag. The source clears it only after the awaited close completes. After a close they return false, where the source's promise resolves to `undefined` (also falsy), since the function has no `return` there.
- `attach` and `detach` (src/ant-channel.ts:142-152) are left out: the event-listener wiring is represented by the sensor's `base.channel` reference (`BaseSensor.Sensor.SetChannel`).
- The `status` event to sensors and FE `onEvent`/`logEvent` (src/sensors/fitness-equipment-sensors.ts:156-198) are left out, because they only log.
- FitnessEquipment.FitnessEquipmentSensor.Send leaves out these parts of the source's `send`, because they concern time, logging and a restart flag that nothing in the core sets:
  - the restart wait;
  - the logging;
  - the duration check that throws `Timeout`.
- FitnessEquipment.FitnessEquipmentSensor.Send returns the send's ticket, not the eventual boolean. It requires a channel, because the `send*` callers read the channel number first and would throw without one.
- The byte encodings of the `Messages` builders are not part of this model. Commands are a datatype carrying their message type and channel number; the channel byte of `setRxExt` and `openRxScan` is taken as 0.
- `consts.ts`, `index.ts`, the type declarations and the heart-rate sample are not part of this model. The constants used are restated in the `Consts` module.
- Floating point is modelled by exact reals. Rounding of decimal constants (0.01, 0.00005, π) and of quotients is not captured, except that unguarded divisions by zero follow IEEE rules through `JsNumber`.
- The send builders do not model NaN, infinite or non-numeric arguments. An absent argument is `None`.
- The notification payload (the state record passed with 'data') is not carried. Notifications record profile and device ID only.
- Records are values. The source shares one mutable state object between the sensor and the listener it notifies, and later updates are visible through it; that aliasing is not modelled.
- The `hashObject` change check is commented out in src/sensors/base-sensor.ts:83-91. "Changed" is modelled as structural inequality of the record before and after `updateState`.
- A frame too short for a page's reads makes Node throw, which aborts `onMessage` part-way. Decoders here require a frame with an extended device ID (`HasExtendedId`), and only the scanner-info read models the abort.
- FitnessEquipment.FitnessEquipmentSensor.SendUserConfiguration hands over the corrected page `FeCommands.UserConfigurationPayload`, not the page as written (`FeCommands.UserConfigurationPayloadAsWritten`, see Findings). The two differ only in byte 5, which as written keeps bits 4-7 of the bicycle weight instead of bits 4-11.
- Cadence.MotionPage follows the code of src/sensors/cadence-sensors.ts:164-168, which zeroes the cadence when bit 0 is clear. The comment on line 167 calls a set bit "stopped"; that reading is not modelled.
- BicyclePower.StallDelay and BicyclePower.PowerOnlyPage follow the code's operator precedence (`125000 / cadence ? cadence : 62.5`). The delay is therefore the cadence in ms, not 125000 / cadence as the comment suggests.

## Findings

| source | as written | input that shows it | evidently intended | confidence | as-written member | corrected member |
|---|---|---|---|---|---|---|
| src/sensors/fitness-equipment-sensors.ts:270 | the bicycle-weight MSB byte is `(mb>>4)&0xF`, keeping 4 of its 8 bits | bikeWeight 15 kg: mb = 300, bytes 4-5 are sent as 0xCF, 0x02 instead of 0xCF, 0x12, and read back as 44 units (2.2 kg) | `(mb>>4)&0xFF`, so the 12-bit weight field round-trips for 0-204.75 kg | not executed | FeCommands.BikeWeightTruncatedAsWritten | FeCommands.BikeWeightRoundTrip |
