# Bosch Smart Home Controller integration for Home Assistant — a Dafny model

This project models, in Dafny, how the Bosch Smart Home
Controller (SHC) integration for Home Assistant turns device attributes into
what Home Assistant shows, and turns Home Assistant commands into device
writes. The integration exists in four generations in the repository. The
model keeps them apart, one Dafny module per source file:

- `Custom*` modules: `custom_components/bosch_shc`, the current integration.
- `Shc*` modules: `bosch_shc`.
- `Boschshc*` modules: `boschshc`.
- `LegacyCover`: the top-level `cover.py`.

Covered:
- **Covers**: position and tilt from the device level and angle, and the closed state. Also who writes what on open, close, stop and set. Blinds route to the blinds level and the tilt axis.
- **Room climate**: the HVAC mode and preset derived from summer mode, operation mode, boost and low. Also the guarded setters and setpoint acceptance. The oldest generation also has the averaged valve tappet position and the heating action.
- **Alarm panels**: the prioritised panel state and the command forwarding.
- **Lights**: colour-mode selection, brightness scaling and the packed 24-bit RGB value.
- **Binary sensors and sensors**: state mappings, battery percentages and the sensor unique ids.
- **Unique-id migration** in the entity registry.
- **Device triggers**: the trigger list and its event filter.

How devices are modelled:
- A device the source mutates is a Dafny `class`. Fields the entity writes are `var`s; fields it only reads are `const`s where they never change.
- Every write, and every call such as `stop()` or `stop_blinds()`, is appended to the device's `requests` log. A method's contract therefore states the exact sequence of writes it sends.
- Read-only entities and pure mappings are functions over plain datatypes.

Numbers:
- Device floats (levels, angles, temperatures) are Dafny `real`s.
- `PyMath.Round` is Python's `round`, ties to even.
- `PyMath.Ceil` is `math.ceil`.
- `min(100, max(0, p))` is `PyMath.ClampPercent` or `PyMath.ClampPercentInt`.
- Python's `>>` and `& 0xFF` on integers agree with Dafny's `/` and `%` by powers of two, negative values included.

The newest cover reports no opening or closing state at all.

Where two generations share identical code (the `bosch_shc` and `boschshc`
preset getters and cover position, for instance), each generation keeps its
own member in its own module, so that every source file has a complete model.

## Model

| member | source | states |
|---|---|---|
| `PyMath.Round` | custom_components/bosch_shc/cover.py:83 | the result is within 0.5 of the argument, and on a tie it is even (Python 3 rounding) |
| `PyMath.RoundWithin` | custom_components/bosch_shc/light.py:84 | a value between two integers rounds to an integer between them |
| `PyMath.Ceil` | boschshc/climate.py:147 | the least integer not below the argument |
| `PyMath.ClampPercent` | bosch_shc/cover.py:103 | the result lies in [0, 100]; it is the identity on [0, 100], 0 below and 100 above |
| `PyMath.ClampPercentIdempotent` | bosch_shc/cover.py:103 | clamping twice equals clamping once |
| `PyMath.ClampPercentInt` | boschshc/climate.py:144-149 | the integer clamp lies in [0, 100]; it is the identity inside, 0 below and 100 above |
| `CustomCover.CoverPosition` | custom_components/bosch_shc/cover.py:80-83 | the reported position is within 0.5 of level·100, and in [0, 100] for a level in [0, 1] |
| `CustomCover.IsClosedAt` | custom_components/bosch_shc/cover.py:89-92 | closed exactly when the level lies in [−0.005, 0.005], i.e. when the rounded position is 0 |
| `CustomCover.LevelFor` | custom_components/bosch_shc/cover.py:102-105 | the written level times 100 is the requested position, unclamped; a position in [0, 100] gives a level in [0, 1] |
| `CustomCover.PositionRoundTrip` | custom_components/bosch_shc/cover.py:80-105 | after setting an integer position, the reported position is that position |
| `CustomCover.TiltPosition` | custom_components/bosch_shc/cover.py:146-149 | the tilt is within 0.5 of (1 − angle)·100, and in [0, 100] for an angle in [0, 1] |
| `CustomCover.AngleFor` | custom_components/bosch_shc/cover.py:159-162 | the target angle inverts the tilt, (1 − angle)·100 = tilt, and lies in [0, 1] for a tilt in [0, 100] |
| `CustomCover.TiltRoundTrip` | custom_components/bosch_shc/cover.py:146-162 | the tilt written, read back from the same angle, is the tilt requested |
| `CustomCover.TiltEndpoints` | custom_components/bosch_shc/cover.py:151-157 | open tilt is angle 0 and reports 100; closed tilt is angle 1 and reports 0 |
| `CustomCover.DeviceClassOf` | custom_components/bosch_shc/cover.py:72-78 | AWNING exactly for the model "MICROMODULE_AWNING", SHUTTER for every other model |
| `CustomCover.IntendedDeviceClass` | custom_components/bosch_shc/cover.py:115-118 | corrected rule: BLIND exactly for blinds; shutters keep the AWNING/SHUTTER rule |
| `CustomCover.BlindsNeverReportBlind` | custom_components/bosch_shc/cover.py:72-118 | as written, no blinds cover reports the BLIND class it declares |
| `CustomCover.ShutterControlCover.DeviceClass` | custom_components/bosch_shc/cover.py:72-78 | AWNING iff the device model is the awning micromodule |
| `CustomCover.ShutterControlCover.CurrentCoverPosition` | custom_components/bosch_shc/cover.py:80-83 | the position is in [0, 100] when the level is in [0, 1], and within 0.5 of level·100 |
| `CustomCover.ShutterControlCover.IsClosed` | custom_components/bosch_shc/cover.py:89-92 | closed iff the reported position is 0 |
| `CustomCover.ShutterControlCover.StopCover` | custom_components/bosch_shc/cover.py:85-87 | sends one stop and nothing else |
| `CustomCover.ShutterControlCover.OpenCover` | custom_components/bosch_shc/cover.py:94-96 | writes level 1.0 only; afterwards the position is 100 and the cover is not closed |
| `CustomCover.ShutterControlCover.CloseCover` | custom_components/bosch_shc/cover.py:98-100 | writes level 0.0 only; afterwards the position is 0 and the cover is closed |
| `CustomCover.ShutterControlCover.SetCoverPosition` | custom_components/bosch_shc/cover.py:102-105 | writes position/100 without clamping; afterwards the reported position is the requested one |
| `CustomCover.BlindsControlCover.DeviceClass` | custom_components/bosch_shc/cover.py:115-118 | inherits the shutter rule, so it is never BLIND |
| `CustomCover.BlindsControlCover.CurrentCoverPosition` | custom_components/bosch_shc/cover.py:80-83 | inherited: within 0.5 of level·100, read from `level` and not from the blinds level; in [0, 100] for a level in [0, 1] |
| `CustomCover.BlindsControlCover.IsClosed` | custom_components/bosch_shc/cover.py:89-92 | inherited: closed iff the reported position is 0, i.e. `level` within [−0.005, 0.005] |
| `CustomCover.BlindsControlCover.StopCover` | custom_components/bosch_shc/cover.py:85-87 | inherited: sends one stop |
| `CustomCover.BlindsControlCover.OpenCover` | custom_components/bosch_shc/cover.py:130-132 | writes blinds level 1.0 and leaves `level` untouched |
| `CustomCover.BlindsControlCover.CloseCover` | custom_components/bosch_shc/cover.py:134-136 | writes blinds level 0.0 and leaves `level` untouched |
| `CustomCover.BlindsControlCover.SetCoverPosition` | custom_components/bosch_shc/cover.py:138-141 | writes position/100 to the blinds level and leaves `level` untouched |
| `CustomCover.BlindsControlCover.StopCoverTilt` | custom_components/bosch_shc/cover.py:143-144 | sends one stop-blinds and nothing else |
| `CustomCover.BlindsControlCover.CurrentCoverTiltPosition` | custom_components/bosch_shc/cover.py:146-149 | the tilt is in [0, 100] for an angle in [0, 1]; angle 0 reports 100 and angle 1 reports 0 |
| `CustomCover.BlindsControlCover.OpenCoverTilt` | custom_components/bosch_shc/cover.py:151-153 | writes target angle 0, whose tilt is 100 |
| `CustomCover.BlindsControlCover.CloseCoverTilt` | custom_components/bosch_shc/cover.py:155-157 | writes target angle 1, whose tilt is 0 |
| `CustomCover.BlindsControlCover.SetCoverTiltPosition` | custom_components/bosch_shc/cover.py:159-162 | writes the inverted angle; once the current angle reaches it, the reported tilt is the requested one |
| `ShcCover.ClampedLevel` | bosch_shc/cover.py:99-104 | the written level lies in [0, 1]; it is position/100 inside [0, 100], 0 below and 1 above |
| `ShcCover.ClampedLevelIdempotent` | bosch_shc/cover.py:103 | a level written and requested again as a position is written unchanged |
| `ShcCover.ShutterControlCover.CurrentCoverPosition` | bosch_shc/cover.py:54-56 | level·100, in [0, 100] for a level in [0, 1], and 0 exactly at level 0 |
| `ShcCover.ShutterControlCover.IsClosed` | bosch_shc/cover.py:62-69 | always known; True exactly at level 0 (the None branch cannot be taken) |
| `ShcCover.ShutterControlCover.IsOpening` | bosch_shc/cover.py:71-79 | opening iff the operation state is OPENING |
| `ShcCover.ShutterControlCover.IsClosing` | bosch_shc/cover.py:81-89 | closing iff CLOSING; never opening and closing at once |
| `ShcCover.ShutterControlCover.StopCover` | bosch_shc/cover.py:58-60 | sends one stop |
| `ShcCover.ShutterControlCover.OpenCover` | bosch_shc/cover.py:91-93 | writes level 1.0; the cover is then not closed |
| `ShcCover.ShutterControlCover.CloseCover` | bosch_shc/cover.py:95-97 | writes level 0.0; the cover is then closed |
| `ShcCover.ShutterControlCover.SetCoverPosition` | bosch_shc/cover.py:99-104 | no position writes nothing; otherwise writes the clamped level, which stays in [0, 1] |
| `BoschshcCover.IntendedFlag` | boschshc/cover.py:132-152 | corrected getter: True iff the state is the expected one, False otherwise |
| `BoschshcCover.ShutterControlCover.Available` | boschshc/cover.py:103-106 | available iff the status is "AVAILABLE" |
| `BoschshcCover.ShutterControlCover.CurrentCoverPosition` | boschshc/cover.py:113-116 | level·100, in [0, 100] for a level in [0, 1], 0 exactly at level 0 |
| `BoschshcCover.ShutterControlCover.IsClosed` | boschshc/cover.py:123-130 | always known; True iff level·100 is 0 |
| `BoschshcCover.ShutterControlCover.IsOpening` | boschshc/cover.py:132-141 | as written: True while OPENING and None otherwise, never False |
| `BoschshcCover.ShutterControlCover.IsClosing` | boschshc/cover.py:143-152 | as written: True while CLOSING and None otherwise, never False |
| `BoschshcCover.NeverOpeningAndClosing` | boschshc/cover.py:132-152 | the two getters never both report True |
| `BoschshcCover.ShutterControlCover.StopCover` | boschshc/cover.py:118-121 | sends one stop |
| `BoschshcCover.ShutterControlCover.OpenCover` | boschshc/cover.py:154-156 | writes level 1.0; the cover is then not closed |
| `BoschshcCover.ShutterControlCover.CloseCover` | boschshc/cover.py:158-160 | writes level 0.0; the cover is then closed |
| `BoschshcCover.ShutterControlCover.SetCoverPosition` | boschshc/cover.py:162-167 | writes `clamp(p, 0, 100)/100`, in [0, 1], only when a position is given |
| `LegacyCover.LevelFor` | cover.py:120-126 | the level sent lies in [0, 1] and is position/100 for a position in [0, 100] |
| `LegacyCover.ShutterControlCover.constructor` | cover.py:38-47 | caches the raw level passed in, not level·100, with the state and the name |
| `LegacyCover.ShutterControlCover.Available` | cover.py:70-74 | the representation's availability |
| `LegacyCover.ShutterControlCover.IsClosed` | cover.py:101-108 | None without a level, True at level 0, False otherwise |
| `LegacyCover.ShutterControlCover.Update` | cover.py:146-150 | after a true refresh the cache holds level·100 and the device's state and name; a false refresh changes nothing; a refresh without a level fails |
| `LegacyCover.ShutterControlCover.StopCover` | cover.py:96-99 | sends one stop |
| `LegacyCover.ShutterControlCover.OpenCover` | cover.py:110-113 | sends `set_level(1.)` |
| `LegacyCover.ShutterControlCover.CloseCover` | cover.py:115-118 | sends `set_level(0.)` |
| `LegacyCover.ShutterControlCover.SetCoverPosition` | cover.py:120-126 | sends nothing without a position; otherwise the clamped level |
| `CustomClimate.RoundToHalf` | custom_components/bosch_shc/climate.py:175-176 | the stored setpoint is a whole number of half degrees within a quarter degree of the request, and stays in [5, 30] |
| `CustomClimate.RoundToHalfKeepsHalfSteps` | custom_components/bosch_shc/climate.py:176 | a temperature already on a half step is stored unchanged |
| `CustomClimate.ClimateControl.HvacMode` | custom_components/bosch_shc/climate.py:102-114 | OFF in summer mode whatever the operation mode; otherwise AUTO iff AUTOMATIC, else HEAT; always one of the offered modes |
| `CustomClimate.ClimateControl.HvacModes` | custom_components/bosch_shc/climate.py:116-119 | exactly AUTO, HEAT and OFF |
| `CustomClimate.ClimateControl.PresetMode` | custom_components/bosch_shc/climate.py:128-138 | BOOST iff boost is supported and on; ECO iff low and not boosting; NONE otherwise; always an offered preset |
| `CustomClimate.ClimateControl.PresetModes` | custom_components/bosch_shc/climate.py:140-146 | NONE and ECO, and BOOST exactly when boost is supported |
| `CustomClimate.ClimateControl.SetTemperature` | custom_components/bosch_shc/climate.py:158-176 | stores only when a temperature is given, the mode is not OFF, the preset is not ECO and 5 ≤ t ≤ 30; the stored value is a half step within [5, 30]; otherwise nothing is written |
| `CustomClimate.ClimateControl.SetHvacMode` | custom_components/bosch_shc/climate.py:178-208 | an unknown mode or an ECO preset changes nothing; otherwise the exact writes: AUTO/HEAT clear summer mode then set the operation mode, OFF sets summer mode only and keeps the operation mode; afterwards the mode is the one set |
| `CustomClimate.ClimateControl.SetPresetMode` | custom_components/bosch_shc/climate.py:210-236 | an offered preset becomes the reported one, BOOST with low off, ECO with low on and (where supported) boost off, NONE with both off; without boost support the boost flag is never touched; a preset not offered changes nothing; only changed flags are written, boost before low |
| `CustomClimate.ClimateControl.TurnOn` | custom_components/bosch_shc/climate.py:238-241 | from OFF and not ECO it yields HEAT: summer mode cleared, then MANUAL written, exactly those two writes; otherwise nothing is written and the fields are unchanged |
| `CustomClimate.ClimateControl.TurnOff` | custom_components/bosch_shc/climate.py:243-246 | yields OFF unless ECO blocks it; from a non-OFF mode it writes only summer mode on and keeps the operation mode; already OFF or ECO, nothing is written and the fields are unchanged |
| `ShcClimate.ClimateControl.HvacMode` | bosch_shc/climate.py:110-124 | AUTO iff AUTOMATIC, HEAT iff MANUAL, no mode for any other operation mode |
| `ShcClimate.ClimateControl.HvacModes` | bosch_shc/climate.py:126-128 | exactly AUTO and HEAT |
| `ShcClimate.ClimateControl.PresetMode` | bosch_shc/climate.py:137-146 | BOOST iff supported and on, ECO iff low and not boosting, NONE otherwise |
| `ShcClimate.ClimateControl.PresetModes` | bosch_shc/climate.py:148-153 | NONE and ECO, BOOST exactly when supported |
| `ShcClimate.ClimateControl.SetTemperature` | bosch_shc/climate.py:159-165 | stores exactly t iff a temperature is given and 5 ≤ t ≤ 30; otherwise the setpoint is unchanged and nothing is written |
| `ShcClimate.ClimateControl.SetHvacMode` | bosch_shc/climate.py:167-178 | AUTO/HEAT write AUTOMATIC/MANUAL and are then reported; any other mode changes nothing |
| `ShcClimate.ClimateControl.SetPresetMode` | bosch_shc/climate.py:180-205 | an allowed preset is then reported; BOOST leaves boost on and low off, ECO leaves low on and (where supported) boost off, NONE leaves both off; without boost support the boost flag is never touched; a disallowed preset changes nothing; only changed flags are written, boost before low |
| `BoschshcClimate.SumWithin` | boschshc/climate.py:137-142 | positions all in [lo, hi] sum to between n·lo and n·hi |
| `BoschshcClimate.CeilMeanBounds` | boschshc/climate.py:147 | ceil(total/n) is the least integer c with total ≤ c·n |
| `BoschshcClimate.MeanWithin` | boschshc/climate.py:143-149 | for percentages, the mean rounded up is a percentage, so the clamp has no effect |
| `BoschshcClimate.ValveTappetPositionOf` | boschshc/climate.py:135-151 | 0 without valves; always in [0, 100]; for percentages, the least integer not below the mean |
| `BoschshcClimate.ValveTappetPositionWithin` | boschshc/climate.py:137-149 | valves all within [lo, hi] report a room position within [lo, hi], so never above the most open valve |
| `BoschshcClimate.ValveTappetPositionOfEqual` | boschshc/climate.py:137-149 | valves all at k report k |
| `BoschshcClimate.ActionThresholds` | boschshc/climate.py:174-179 | valves all at most 5 percent open give at most 5; all above 5 give above 5 |
| `BoschshcClimate.ClimateControl.Positions` | boschshc/climate.py:137-142 | the positions of the room's valve tappet services, in order |
| `BoschshcClimate.ClimateControl.ValveTappetPosition` | boschshc/climate.py:135-151 | in [0, 100]; 0 without valves; for percentages, the rounded-up mean |
| `BoschshcClimate.ClimateControl.HvacAction` | boschshc/climate.py:174-179 | HEAT iff the room's valve position is above 5; IDLE without valves or with all valves at most 5 open |
| `BoschshcClimate.ClimateControl.HvacMode` | boschshc/climate.py:153-168 | AUTO iff AUTOMATIC, HEAT iff MANUAL, none otherwise |
| `BoschshcClimate.ClimateControl.HvacModes` | boschshc/climate.py:170-172 | exactly AUTO and HEAT |
| `BoschshcClimate.ClimateControl.PresetMode` | boschshc/climate.py:181-190 | BOOST iff supported and on, ECO iff low and not boosting, NONE otherwise |
| `BoschshcClimate.ClimateControl.PresetModes` | boschshc/climate.py:192-197 | NONE and ECO, BOOST exactly when supported |
| `BoschshcClimate.ClimateControl.SetTemperature` | boschshc/climate.py:203-209 | stores exactly t iff given and 5 ≤ t ≤ 30; nothing otherwise |
| `BoschshcClimate.ClimateControl.SetHvacMode` | boschshc/climate.py:211-222 | AUTO/HEAT write AUTOMATIC/MANUAL and are then reported; an unknown mode is a no-op |
| `BoschshcClimate.ClimateControl.SetPresetMode` | boschshc/climate.py:224-249 | an allowed preset is then reported; BOOST leaves boost on and low off, ECO leaves low on and (where supported) boost off, NONE leaves both off; without boost support the boost flag is never touched; a disallowed preset changes nothing; only changed flags are written, boost before low |
| `CustomAlarm.ArmedState` | custom_components/bosch_shc/alarm_control_panel.py:117-134 | FULL/PARTIAL/CUSTOM map to AWAY/HOME/CUSTOM_BYPASS one-to-one; any other profile has no state |
| `CustomAlarm.State` | custom_components/bosch_shc/alarm_control_panel.py:104-135 | ALARM_ON gives TRIGGERED whatever else holds; PRE_ALARM gives PENDING; then ARMING and DISARMED; armed reports the profile; with no alarm active, no state exactly for an unknown arming state or an armed system with an unknown profile |
| `CustomAlarm.ArmedStateInjective` | custom_components/bosch_shc/alarm_control_panel.py:117-134 | two armed systems with the same reported state have the same profile |
| `CustomAlarm.Call` | custom_components/bosch_shc/alarm_control_panel.py:162-180 | each command makes its one device call (disarm, full, partial, individual protection, mute), whatever code is passed |
| `CustomAlarm.CallInjective` | custom_components/bosch_shc/alarm_control_panel.py:162-180 | distinct commands make distinct calls |
| `CustomAlarm.SupportedFeatures` | custom_components/bosch_shc/alarm_control_panel.py:137-144 | arm away, arm home and arm custom bypass are all offered |
| `CustomAlarm.Available` | custom_components/bosch_shc/alarm_control_panel.py:94-97 | the system availability flag |
| `ShcAlarm.State` | bosch_shc/alarm_control_panel.py:48-82 | ARMING and DISARMED from the state; armed maps FULL/PARTIAL/CUSTOM to AWAY/HOME/CUSTOM_BYPASS; no state for any other state or profile; never TRIGGERED or PENDING |
| `ShcAlarm.Call` | bosch_shc/alarm_control_panel.py:110-124 | disarm, arm, partial arm and trigger, one call each |
| `ShcAlarm.CallInjective` | bosch_shc/alarm_control_panel.py:110-124 | distinct commands make distinct calls |
| `ShcAlarm.SupportedFeatures` | bosch_shc/alarm_control_panel.py:89-92 | arm away and arm home, but not custom bypass |
| `CustomLight.Unpack` | custom_components/bosch_shc/light.py:89-90 | every channel is in 0..255 for any raw integer; a 24-bit value is the sum of its shifted channels |
| `CustomLight.Pack` | custom_components/bosch_shc/light.py:114 | three channels pack into a 24-bit value |
| `CustomLight.UnpackPack` | custom_components/bosch_shc/light.py:90-114 | unpacking a packed colour gives back its channels |
| `CustomLight.PackUnpack` | custom_components/bosch_shc/light.py:90-114 | packing the channels of a 24-bit value gives back the value |
| `CustomLight.BrightnessFromDevice` | custom_components/bosch_shc/light.py:81-84 | within 0.5 of d·2.55, and in [0, 255] for d in [0, 100] |
| `CustomLight.BrightnessToDevice` | custom_components/bosch_shc/light.py:104-105 | never below 1; in [1, 100] for b in [0, 255]; within 0.5 of b·100/255 from b = 2 on |
| `CustomLight.BrightnessRoundTrip` | custom_components/bosch_shc/light.py:84-105 | a brightness from 2 to 255, written and read back, is off by at most one step |
| `CustomLight.SupportedColorModes` | custom_components/bosch_shc/light.py:44-74 | never empty; HS iff colour, COLOR_TEMP iff colour temperature; BRIGHTNESS or ONOFF appear only as the sole mode |
| `CustomLight.ColorModeFor` | custom_components/bosch_shc/light.py:46-74 | the reported mode is supported, and is COLOR_TEMP when both colour capabilities are present |
| `CustomLight.LightSwitch.constructor` | custom_components/bosch_shc/light.py:42-74 | builds the supported modes and the mode step by step, ending with the sets above |
| `CustomLight.LightSwitch.IsOn` | custom_components/bosch_shc/light.py:76-79 | on iff the device's binary state is on |
| `CustomLight.LightSwitch.BrightnessLevel` | custom_components/bosch_shc/light.py:81-84 | in [0, 255] for a device brightness in [0, 100] |
| `CustomLight.LightSwitch.Channels` | custom_components/bosch_shc/light.py:86-90 | channels in 0..255 that pack back to a 24-bit raw value |
| `CustomLight.LightSwitch.TurnOn` | custom_components/bosch_shc/light.py:98-118 | the light is on; the exact writes: brightness, colour temperature and RGB only when given and supported, then on only if it was off; the device then holds max(round(b·100/255), 1), the mired value and the packed colour; fields not written are unchanged; a written colour reads back as given |
| `CustomLight.LightSwitch.TurnOff` | custom_components/bosch_shc/light.py:120-122 | the light is off, from one write |
| `CustomBinarySensor.ShutterContactIsOn` | custom_components/bosch_shc/binary_sensor.py:188-191 | on iff the contact is OPEN |
| `CustomBinarySensor.ShutterContactDeviceClass` | custom_components/bosch_shc/binary_sensor.py:193-202 | DOOR exactly for ENTRANCE_DOOR and FRENCH_WINDOW; WINDOW for every other type, unknown types included |
| `CustomBinarySensor.VibrationIsOn` | custom_components/bosch_shc/binary_sensor.py:216-222 | on iff a vibration is detected |
| `CustomBinarySensor.MotionIsOn` | custom_components/bosch_shc/binary_sensor.py:270-283 | off without a parsed time; on iff at most 240 s have elapsed, a future time included |
| `CustomBinarySensor.MotionStaysOff` | custom_components/bosch_shc/binary_sensor.py:280-283 | once timed out, a motion stays off as time goes on |
| `CustomBinarySensor.MotionWasOn` | custom_components/bosch_shc/binary_sensor.py:280-283 | a motion on now was on at every earlier moment |
| `CustomBinarySensor.SmokeDetectorIsOn` | custom_components/bosch_shc/binary_sensor.py:346-349 | on iff the alarm state is not IDLE_OFF |
| `CustomBinarySensor.WaterLeakageIsOn` | custom_components/bosch_shc/binary_sensor.py:386-392 | on iff the leakage state is not NO_LEAKAGE |
| `CustomBinarySensor.SmokeDetectionSystemIsOn` | custom_components/bosch_shc/binary_sensor.py:457-463 | on iff the surveillance alarm is not ALARM_OFF |
| `CustomBinarySensor.BatteryIsOn` | custom_components/bosch_shc/binary_sensor.py:490-512 | on iff the level is not OK, so NOT_AVAILABLE, LOW and CRITICAL_LOW all report on |
| `ShcSensor.UniqueId` | bosch_shc/sensor.py:124-127 | the serial, an underscore, then the kind's word |
| `ShcSensor.UniqueIdInjective` | bosch_shc/sensor.py:124-208 | one id comes from one serial and one kind only |
| `ShcSensor.SensorIdsDistinct` | bosch_shc/sensor.py:124-208 | the temperature, humidity, power, energy and battery ids of one serial are pairwise distinct |
| `ShcSensor.BatteryState` | bosch_shc/sensor.py:210-227 | CRITICAL_LOW is 0, LOW_BATTERY is 20, OK is 100, NOT_AVAILABLE has no value; each percentage comes from exactly that level; defined values lie in [0, 100] |
| `ShcSensor.BatteryStateMonotone` | bosch_shc/sensor.py:213-225 | a worse battery level reports a strictly lower percentage |
| `ShcSensor.EnergyState` | bosch_shc/sensor.py:191-194 | kilowatt hours times 1000 is the consumption; non-negative and not larger for a non-negative consumption |
| `CustomEntity.Lower` | custom_components/bosch_shc/entity.py:45 | same length; each ASCII capital becomes its small letter |
| `CustomEntity.LowerIdempotent` | custom_components/bosch_shc/entity.py:45 | lower-casing twice is lower-casing once |
| `CustomEntity.OldUniqueId` | custom_components/bosch_shc/entity.py:41-46 | the serial, followed by `_attr` lower-cased when an attribute name is given |
| `CustomEntity.NewUniqueId` | custom_components/bosch_shc/entity.py:52-56 | `root_device_id_id`, followed by `_attr` lower-cased when an attribute name is given |
| `CustomEntity.EntityRegistry.EntityId` | custom_components/bosch_shc/entity.py:49 | the entity filed under a key, if any |
| `CustomEntity.EntityRegistry.UpdateUniqueId` | custom_components/bosch_shc/entity.py:58 | the registry re-files the entity under the new id, unless another entity holds it, when it refuses and nothing changes |
| `CustomEntity.MigrateToNewUniqueId` | custom_components/bosch_shc/entity.py:33-70 | nothing happens without an entry under the old id; a taken new id skips the migration with the registry unchanged; otherwise the entity moves from the old key to the new one |
| `CustomEntity.ShcEntity.UniqueId` | custom_components/bosch_shc/entity.py:81 | the base entity claims the new id without attribute name |
| `CustomEntity.ShcEntity.Available` | custom_components/bosch_shc/entity.py:134-137 | available iff the status is "AVAILABLE" |
| `CustomEntity.BatteryMigrationTarget` | custom_components/bosch_shc/binary_sensor.py:154-155 | battery sensors migrate with the name "Battery" onto exactly the `_battery` id they claim |
| `CustomDeviceTrigger.InputPairsMembers` | custom_components/bosch_shc/device_trigger.py:87-102 | an input pair is exactly a supported press type with one of the model's subtypes |
| `CustomDeviceTrigger.InputPairsCount` | custom_components/bosch_shc/device_trigger.py:87-102 | each supported press type contributes one pair per subtype |
| `CustomDeviceTrigger.TriggersCarry` | custom_components/bosch_shc/device_trigger.py:103-161 | every trigger carries platform "device", the queried device id and the domain; only the six known kinds have any |
| `CustomDeviceTrigger.InputTriggersExactly` | custom_components/bosch_shc/device_trigger.py:87-112 | the remote's and switch's triggers are exactly the supported press types crossed with the model's subtypes |
| `CustomDeviceTrigger.OneTriggerPerSubtype` | custom_components/bosch_shc/device_trigger.py:114-159 | MD gives one MOTION trigger with empty subtype; SD and SMOKE_DETECTION_SYSTEM give one ALARM trigger per subtype; SHC one SCENARIO trigger per scenario |
| `CustomDeviceTrigger.GetTriggers` | custom_components/bosch_shc/device_trigger.py:79-161 | an unknown device is an error; otherwise the nested loops build exactly the triggers above, in order |
| `CustomDeviceTrigger.AppendTriggers` | custom_components/bosch_shc/device_trigger.py:103-112 | appends one record per pair, in order |
| `CustomDeviceTrigger.EventFilter` | custom_components/bosch_shc/device_trigger.py:164-184 | an unsupported type is refused; otherwise an event trigger on "bosch_shc.event" with exactly the configured device id, type and subtype |
| `CustomDeviceTrigger.InputTriggersAttach` | custom_components/bosch_shc/device_trigger.py:87-184 | every listed remote or switch trigger can be attached, and listens for its own device's presses |

## Left out

- Read-after-write is assumed. In the program a property write is a call into the device library, and the value its getter returns comes back later, pushed by the controller. The model instead lets a write update the very field the getter reads at once. The post-state claims of these members rest on that assumption: `CustomCover.ShutterControlCover.OpenCover`, `CustomCover.ShutterControlCover.CloseCover`, `CustomCover.ShutterControlCover.SetCoverPosition`, `ShcCover.ShutterControlCover.OpenCover`, `ShcCover.ShutterControlCover.CloseCover`, `BoschshcCover.ShutterControlCover.OpenCover`, `BoschshcCover.ShutterControlCover.CloseCover`, the `SetHvacMode`, `SetPresetMode` and `SetTemperature` methods of all three climate generations, `CustomClimate.ClimateControl.TurnOn`, `CustomClimate.ClimateControl.TurnOff`, `CustomLight.LightSwitch.TurnOn` and `CustomLight.LightSwitch.TurnOff`. The request log holds what was actually sent. Only the blinds tilt keeps the written target angle apart from the reported current angle.
- Home Assistant plumbing is not modelled: setup functions, subscriptions and callbacks, polling, event-bus firing, logbook describers and logging.
- The device library (boschshcpy) is not part of this model. Devices are classes with the fields the entities read and write. Its calls are entries in a request log.
- Library enumerations are not visible in the repository. Each enumeration keeps the members the code compares against. Where the code falls through on an unlisted value, an extra `Other…`/`Unrecognised` case holds any other value. Where the code only tests one value (the shutter contact's OPEN, the cover's operation state), the remaining cases stand for every other value.
- `color_util` conversions are not modelled: mired/kelvin and RGB/HS are foreign floating-point calls. `CustomLight.LightSwitch.TurnOn` takes the colour temperature already in mireds and the colour already as RGB channels.
- The colour-temperature bounds of a light are not modelled, because they come from the same conversions.
- IEEE floating point is not modelled. Levels, angles and temperatures are exact reals, so no claim depends on float effects.
- Python's `round` on floats is modelled on the exact value. A float that Python stores slightly off a tie may round differently.
- The un-awaited `async_set_hvac_mode` inside the current `set_temperature` has no effect. It is modelled as such, and the HVAC mode argument is ignored.
- The datetime parsing in motion detection becomes an optional number of seconds. A parse failure is `None`, and the clock reading is a parameter.
- `CustomEntity.Lower`: models ASCII lower-casing only, because Python's `str.lower` follows the full Unicode tables.
- `CustomEntity.EntityRegistry.UpdateUniqueId`: models only the refusal of an id held by another entity. The registry's other checks are Home Assistant internals.
- `get_device_from_id` (the registry walk behind device triggers) becomes a parameter: the found device and its type, or none.
- `custom_components/bosch_shc/const.py` lacks several constants that `device_trigger.py` imports: `PRESS_LONG_RELEASED` is not there, nor are the WRC2, SWITCH2, SD and SDS subtype sets. The event types and subtype sets are therefore parameters (`EventConstants`), each set given in its iteration order.
- Python sets iterate in an unspecified order, so the order of triggers is modelled as that of the given sequences.
- Device info, names, icons, units, unit conversions and extra state attributes are not modelled. They are pass-throughs with no rule.
- Climate setpoint and temperature getters are not modelled for the same reason.
- The smoke detector's test and alarm-state services are not modelled. They forward a command unchanged.
- The fixed device classes (`_attr_device_class`) of the constant-class sensors are not modelled.
- The `bosch_shc` cover's `device_class` (bosch_shc/cover.py:48-51) is not modelled. It is the constant SHUTTER.
- Supported-feature flags of the covers and climate entities are not modelled. They are constants.
- The alarm panel's `code_format` and `code_arm_required` are the constants `CustomAlarm.CODE_FORMAT` (None) and `CustomAlarm.CODE_ARM_REQUIRED` (false). They carry no contract.
- `CustomCover.ShutterControlCover.SetCoverPosition` takes an integer position, because Home Assistant passes an integer `ATTR_POSITION`. `CustomCover.BlindsControlCover.SetCoverTiltPosition` likewise takes an integer tilt.
- The legacy `current_cover_position` (cover.py:92-94) is the cached field itself. The constructor and `Update` state what it holds.

## Findings

| source | as written | input that shows it | evidently intended | confidence | as-written member | corrected member |
|---|---|---|---|---|---|---|
| custom_components/bosch_shc/cover.py:72-78, 118 | `BlindsControlCover` sets `_attr_device_class = BLIND`, but the inherited `device_class` property overrides it, so blinds report SHUTTER (or AWNING) | any blinds device, e.g. model "BBL" | blinds report BLIND | medium, not executed | `CustomCover.BlindsNeverReportBlind` | `CustomCover.IntendedDeviceClass` |
| boschshc/cover.py:132-152 | `is_opening`/`is_closing` evaluate `False` in the `else` branch without returning it, so the getter returns None | operation state STOPPED | False when not opening (not closing) | high, not executed | `BoschshcCover.ShutterControlCover.IsOpening` | `BoschshcCover.IntendedFlag` |
