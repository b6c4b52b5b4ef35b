# Battery thermal control: zone machine and charge limiters

This project models the thermal core of a Samsung battery driver
(`drivers/battery/common/sec_battery_thermal.c`). On every monitoring tick
the driver:

- classifies the battery temperature into one of eight thermal zones, from
  COLD through COOL3, COOL2, COOL1, NORMAL, WARM and OVERHEAT up to
  OVERHEATLIMIT;
- debounces zone changes with a stray-tick counter (`bat_thm_count`);
- on a committed change, moves the zone boundaries by a hysteresis of 19
  and casts a bundle of swelling-policy votes (charge enable, fast-charge
  current, float voltage, top-off current, input voltage);
- on a tick that keeps the zone, runs the buck-recovery and recharge logic
  of WARM and OVERHEAT;
- runs a three-state USB-connector overheat monitor that can force
  OVERHEATLIMIT;
- runs six charge-source limiters (mix temperature, wireless, wireless TX,
  direct charge, PDIC and AFC). The wireless, direct-charge, PDIC and AFC
  limiters keep a latch and vote input and charging current caps; the mix
  limiter keeps a latch and votes an input cap only; the wireless-TX check
  keeps no latch and votes nothing, but records retry reasons and turns TX
  off or asks for a retry.

Layout:

- `types.dfy` (`ThermalTypes`): zones, voters, ballots, cable and
  platform-data records, constants.
- `readings.dfy` (`Readings`): which reading a check uses, and C integer
  division.
- `zones.dfy` (`Zones`): the threshold table with hysteresis and the
  classifier.
- `debounce.dfy` (`Debounce`): the debounce gate as a function, with lemmas
  over runs of ticks.
- `usb_monitor.dfy` (`UsbMonitor`): the USB monitor as a function, with
  lemmas over runs of ticks.
- `swelling.dfy` (`Swelling`): the vote bundles, health, swelling event and
  charging status of each zone and of the steady state.
- `limiters.dfy` (`Limiters`): each limiter's latch transition and caps as
  functions, the step-limit search loop, and the wireless-TX retry logic.
- `battery.dfy` (`BatteryThermal`): class `Battery`, the mutable battery
  record. Its methods update fields in place, just as the C functions do:
  - the threshold setter;
  - the USB monitor;
  - the thermal tick (`ThermalCheck` → `Tick` → `Settle` →
    `SteadyState` / `Commit`);
  - the six limiters.

  Each method is specified against the pure functions above. Frames are
  per field: a field outside a method's `modifies` is unchanged by it, and
  a field inside it that a path leaves alone is stated unchanged in that
  path's `ensures`.

Vote arbitration (`sec_vote`) is outside this core. A vote is recorded as the
last ballot each voter cast on each channel: `votes` is a map
`(Channel, Voter) -> Ballot`, and a group of `sec_vote` calls is a map
merged in with `+`. Calls whose effect happens elsewhere become entries in
`requests`, oldest first. These are TX enable and TX events, vote refresh,
hiccup mode, CC open, RX output-voltage regulation and dual-battery
supplement mode.

The class invariant `Valid` states three things:

- the debounce counter is either zero or below the needed count;
- GAP_OVER is only reachable with the connector-overheat feature;
- the wireless step tables have equal sizes.

Every method keeps it.

Where the code and descriptions of the driver disagree, the model follows
the code:

- The debounce counter is not reset when the reading comes back to the
  committed zone (`:904-905`). Stray ticks need not be consecutive and
  accumulate, and `Debounce.StraysBelowNeededKeepZone` and
  `Debounce.InterleavedStraysCommit` state this. A commit is the only thing
  that resets the counter.
- A closed PDIC latch at exactly the recovery temperature stays closed
  (`:425-426`).
- The non-HV-control AFC limiter votes only on first entry (`:491-497`).
- The direct-charge limiter has no release while the override or the LCD
  gate fails (`:363`).

The wireless check resets the recorded output level from the receiver's
reading before its decision (`:195-200`). The decision reads neither the
level nor the reading, so the model does the reset together with the voltage
step after the decision.

## Model

| member | source | states |
|---|---|---|
| Readings.PriorityTemp | drivers/battery/common/sec_battery_thermal.c:32-50 | with no sub-battery check the primary reading; otherwise one of the two readings: the hotter when both are above 250, the colder otherwise |
| Readings.TempByControlSource | drivers/battery/common/sec_battery_thermal.c:148-162 | CHG, USB and WPC sources select their thermistor; NONE, BAT and unknown ids fall back to the battery reading |
| Readings.CDiv | drivers/battery/common/sec_battery_thermal.c:93-94 | C division truncates toward zero: the quotient of the magnitudes, negated for opposite signs; equal to Dafny's `/` for non-negative operands |
| Zones.BaseTable | drivers/battery/common/sec_battery_thermal.c:515-530 | wireless and fake-wireless cables take the wireless table, every other cable the wired one |
| Zones.ThresholdsFor | drivers/battery/common/sec_battery_thermal.c:513-566 | each boundary between the zone and NORMAL moves by exactly 19 toward NORMAL (hot boundaries down, cool ones up, widening the zone), and no other boundary moves; NORMAL keeps the table; hot boundaries never rise and cool ones never fall |
| BatteryThermal.Battery.SetThreshold | drivers/battery/common/sec_battery_thermal.c:513-566 | the six threshold fields become `ThresholdsFor` of the cable and the current zone; nothing else changes |
| Zones.Classify | drivers/battery/common/sec_battery_thermal.c:683-701 | iff conditions for each zone: WARM-or-hotter exactly at or above normal/warm, OVERHEAT also at or above warm/overheat, cool zones at or below their boundaries in order from the coldest; never OVERHEATLIMIT |
| Zones.Candidate | drivers/battery/common/sec_battery_thermal.c:681-701 | the candidate is OVERHEATLIMIT exactly when the USB monitor trips; otherwise it is `Classify` of the battery reading against the current boundaries |
| Zones.ClassifyMonotone | drivers/battery/common/sec_battery_thermal.c:683-701 | on an ordered table a hotter reading never yields a colder zone |
| Zones.CommittedZoneSticks | drivers/battery/common/sec_battery_thermal.c:683-724 | a reading that leaves NORMAL for zone z classifies as z again once the boundaries are recomputed for z |
| Zones.RecoveryNeedsMargin | drivers/battery/common/sec_battery_thermal.c:532-565 | leaving a hot zone toward NORMAL needs a reading more than 19 below the boundary crossed to enter it; leaving a cool zone needs one more than 19 above its upper boundary |
| UsbMonitor.Gap | drivers/battery/common/sec_battery_thermal.c:581-589 | the largest of zero and the USB reading's excess over the battery reading (and over the sub-battery reading on a dual-battery device), i.e. the excess over the colder battery thermistor, or zero |
| UsbMonitor.Next | drivers/battery/common/sec_battery_thermal.c:580-631 | the result is true iff the new state is not NORMAL. From NORMAL: OVERHEATLIMIT iff the reading is at or above the threshold; below it, GAP_OVER iff prevention is on and the reading meets the protection temperature and the gap limit. OVERHEATLIMIT stays iff the reading is above recovery. GAP_OVER stays iff the reading is at or above the protection temperature, and resets without the feature |
| UsbMonitor.OverheatLimitLatches | drivers/battery/common/sec_battery_thermal.c:611-617 | once in OVERHEATLIMIT the monitor stays there through any run of readings above recovery |
| UsbMonitor.StaysNormalBelowThreshold | drivers/battery/common/sec_battery_thermal.c:591-610 | without the gap feature, a NORMAL monitor stays NORMAL while every reading stays below the threshold |
| BatteryThermal.Battery.UsbThmOverheatLimit | drivers/battery/common/sec_battery_thermal.c:568-633 | with USB check type NONE the USB reading is first overwritten by the battery reading; the new state and the result are `UsbMonitor.Next` of the old state; GAP_OVER only with the prevention feature |
| Debounce.Step | drivers/battery/common/sec_battery_thermal.c:704-718 | a candidate equal to the zone changes nothing, not even the counter; a differing candidate commits iff the incremented counter reaches the needed count, and the counter then restarts at 0; otherwise the counter goes up by one |
| Debounce.StraysBelowNeededKeepZone | drivers/battery/common/sec_battery_thermal.c:704-712 | while the counter plus the number of stray ticks stays below the needed count, the zone holds and the counter ends at exactly that sum, even when the strays are interleaved |
| Debounce.SteadyRunKeepsGate | drivers/battery/common/sec_battery_thermal.c:904-905 | any run of ticks whose candidate is the committed zone leaves zone and counter unchanged |
| Debounce.PersistentCandidateCommits | drivers/battery/common/sec_battery_thermal.c:704-718 | a persisting candidate commits on the tick that brings the counter to the needed count, and not before |
| Debounce.InterleavedStraysCommit | drivers/battery/common/sec_battery_thermal.c:704-712 | stray ticks accumulate across interleaved readings of the committed zone and across different candidate zones: once the counter plus the strays reaches the needed count less one, the next stray candidate commits with the counter back at 0 |
| BatteryThermal.Battery.SettledIsDebounceStep | drivers/battery/common/sec_battery_thermal.c:704-718 | the zone and counter that a settled tick leaves are those of `Debounce.Step` |
| BatteryThermal.Battery.Stop | drivers/battery/common/sec_battery_thermal.c:660-673 | with discharging or skip-swelling: no health change, zone NORMAL, swelling event cleared, the stop bundle voted, NORMAL thresholds |
| Swelling.StopBundle | drivers/battery/common/sec_battery_thermal.c:665-670 | the six withdrawals of the stopped path; its properties are the contract of `StopBundleShape` |
| Swelling.StopBundleShape | drivers/battery/common/sec_battery_thermal.c:665-670 | the stop bundle withdraws exactly six votes, the four SWELLING votes and both CHANGE_CHGMODE votes, and no other; the MUIC 5 V vote is left in place |
| Swelling.WarmMode | drivers/battery/common/sec_battery_thermal.c:789-803 | charging continues iff the voltage is at or below both the recharge and the float voltage; buck off iff above the float voltage and not (TX/UNO on with an HV or PD cable); charging off in every other case |
| Swelling.ZoneBundle | drivers/battery/common/sec_battery_thermal.c:727-891 | the votes of the transition handler per zone; its properties are the contracts of `ZoneBundleShape` and `ZoneBundleKeys` |
| Swelling.ZoneBundleShape | drivers/battery/common/sec_battery_thermal.c:727-891 | per zone: NORMAL withdraws exactly its five votes; OVERHEATLIMIT votes exactly buck off and the MUIC input cap at the 5 V code; OVERHEAT turns the buck off iff above the float voltage, and then with TX mode and an input-voltage vote above the 5 V code also votes the 5 V-code and NOT_SET overrides, otherwise charging off; COLD votes exactly charging off and the override withdrawal; the cool zones vote charging, low float, their current and the COOL3-only top-off; WARM votes high float, top-off, current and `WarmMode`; all but the hot extremes withdraw the input override |
| Swelling.ZoneBundleKeys | drivers/battery/common/sec_battery_thermal.c:727-891 | the exact set of votes each zone casts and no other: five in NORMAL, WARM and the cool zones; buck off and the MUIC cap in OVERHEATLIMIT; charge enable and the override withdrawal in COLD and in OVERHEAT at or below the float voltage; above it charge enable alone or with both overrides under wireless TX at an input-voltage vote above the 5 V code |
| Swelling.ZoneHealth | drivers/battery/common/sec_battery_thermal.c:745-890 | GOOD exactly in COOL3 through WARM; OVERHEAT, OVERHEATLIMIT and COLD health exactly in the zone of that name |
| Swelling.ZoneSwellingEvent | drivers/battery/common/sec_battery_thermal.c:725-871 | no event exactly in NORMAL and OVERHEATLIMIT; the high-temperature event exactly in WARM and OVERHEAT; the COOL1 and COOL2 events in their zones; the COOL3 event in COOL3 and COLD |
| Swelling.ZoneStatus | drivers/battery/common/sec_battery_thermal.c:893-903 | NOT_CHARGING outside COOL3..WARM; inside it FULL when already FULL or (with full-by-SoC) at capacity 100, CHARGING in every other case |
| Swelling.EmergencyRequests | drivers/battery/common/sec_battery_thermal.c:754-760 | port actions only in OVERHEATLIMIT outside low-power mode, and nothing but hiccup mode and CC open: hiccup mode iff the MUIC notifier is built in, CC open iff on a PD cable, hiccup first |
| Swelling.SteadyBundle | drivers/battery/common/sec_battery_thermal.c:907-967 | the votes of a tick that keeps the zone; its properties are the contract of `SteadyBundleShape` |
| Swelling.SteadyBundleShape | drivers/battery/common/sec_battery_thermal.c:907-967 | no votes outside OVERHEAT and WARM, nor in WARM with bad health; only swelling and full-charge voters; OVERHEAT votes exactly charging off iff health OVERHEAT, buck off and below recovery voltage; a WARM recharge votes exactly float voltage, full-charge release and charging; otherwise a WARM buck-off below recovery votes exactly charging off, and anything else nothing; a full WARM charge turns charging off |
| Swelling.SteadyRequests | drivers/battery/common/sec_battery_thermal.c:932-942 | dual-battery supplement mode is requested iff WARM, health GOOD, charging, full and dual battery |
| BatteryThermal.Battery.ApplyZoneVotes | drivers/battery/common/sec_battery_thermal.c:727-891 | the vote table gains the zone's bundle |
| BatteryThermal.Battery.IssueEmergency | drivers/battery/common/sec_battery_thermal.c:754-760 | the requests gain the zone's emergency port actions |
| BatteryThermal.Battery.SetZoneHealth | drivers/battery/common/sec_battery_thermal.c:727-891 | health and swelling event of the zone; every zone but OVERHEATLIMIT resets the USB monitor to NORMAL |
| BatteryThermal.Battery.SetZoneStatus | drivers/battery/common/sec_battery_thermal.c:893-903 | the charging status becomes `ZoneStatus` of the zone, the old status and the capacity |
| BatteryThermal.Battery.EnterZone | drivers/battery/common/sec_battery_thermal.c:725-903 | the transition handler's whole effect: bundle, health, status, swelling event, emergency requests, USB reset |
| BatteryThermal.Battery.SteadyState | drivers/battery/common/sec_battery_thermal.c:904-968 | health change cleared, steady bundle and requests added; the safety timer restarts exactly on a WARM recharge |
| BatteryThermal.Battery.Restart | drivers/battery/common/sec_battery_thermal.c:714-724 | zone becomes the candidate, counter 0, health change set, safety timer restarted, thresholds of the new zone |
| BatteryThermal.Battery.Commit | drivers/battery/common/sec_battery_thermal.c:714-903 | `Restart` followed by the transition handler of the new zone |
| BatteryThermal.Battery.Settle | drivers/battery/common/sec_battery_thermal.c:704-968 | steady handler for an unchanged candidate (everything else kept); one more stray tick and nothing else for a deferred candidate; a full commit otherwise |
| BatteryThermal.Battery.Tick | drivers/battery/common/sec_battery_thermal.c:680-968 | the USB monitor steps, and the candidate of the tick's readings is settled from the zone machine with the monitor's new state |
| BatteryThermal.Battery.ThermalCheck | drivers/battery/common/sec_battery_thermal.c:635-971 | stopped control resets to NORMAL and keeps counter, USB state and reading, safety timer, health, status and requests; check type NONE changes nothing; otherwise a running tick |
| Limiters.MixNext | drivers/battery/common/sec_battery_thermal.c:79-82 | the mix latch opens whenever the gate fails; a closed latch holds iff the temperature is above recovery; an open one closes iff both readings reach their high limits |
| Limiters.MixHoldsAboveRecovery | drivers/battery/common/sec_battery_thermal.c:80-82 | a closed mix latch survives any run of gated readings above recovery |
| Limiters.MixStaysOffWhileEitherCool | drivers/battery/common/sec_battery_thermal.c:80-81 | an open mix latch stays open while either reading stays below its high limit |
| Limiters.MixInputCurrent | drivers/battery/common/sec_battery_thermal.c:83-97 | the voted input current is the demand capped at full_check_current_1st + 50, never above either |
| Limiters.MixVotesKeepMixCap | drivers/battery/common/sec_battery_thermal.c:83-103 | merging a capped mix vote into a capped table keeps the mix vote within the cap |
| Limiters.OtherVotesKeepMixCap | drivers/battery/common/sec_battery_thermal.c:103 | bundles of other voters leave a capped mix vote capped |
| Limiters.MixCheck | drivers/battery/common/sec_battery_thermal.c:79-144 | latch as `MixNext`; only the mix-limit input vote, within the cap; OFF on release; no vote but a refresh on the DC-to-SC switch; an engagement requests exactly the TX high-temperature event and TX off when TX is on, and nothing otherwise; a release requests exactly the fast-charge refresh (when configured) and then the retry event (gated, last reason); the retry bit in both directions |
| BatteryThermal.Battery.CheckMixTemp | drivers/battery/common/sec_battery_thermal.c:53-145 | without both checks nothing changes; otherwise latch, votes, requests, retry reasons and skip-heating bit follow `MixCheck` of the old state |
| BatteryThermal.Battery.MixEngage | drivers/battery/common/sec_battery_thermal.c:83-112 | latch and skip-heating set, `MixInputCurrent` voted, TX turned off with a retry reason when on |
| BatteryThermal.Battery.MixRelease | drivers/battery/common/sec_battery_thermal.c:114-143 | latch open, vote withdrawn, refresh on DC builds, mix retry reason cleared with a retry event iff it was the last one |
| Limiters.ChgTempVotes | drivers/battery/common/sec_battery_thermal.c:430-432 | exactly the two CHG_TEMP votes, on, with the given input and charging currents |
| Limiters.ChgTempOff | drivers/battery/common/sec_battery_thermal.c:434-436 | exactly the two CHG_TEMP votes, withdrawn |
| Limiters.PdicNext | drivers/battery/common/sec_battery_thermal.c:424-444 | opens when the gate fails; a closed latch holds iff the reading is at or above recovery; an open one closes iff at or above high |
| Limiters.PdicHoldsDownToRecovery | drivers/battery/common/sec_battery_thermal.c:425-426 | a closed PDIC latch survives any run of gated readings at or above recovery, recovery itself included |
| Limiters.PdicInputCurrent | drivers/battery/common/sec_battery_thermal.c:427-428 | the configured limit times the 9 V code, divided by the bus voltage (C division); the limit itself when the bus is at the 9 V code |
| BatteryThermal.Battery.CheckPdicTemp | drivers/battery/common/sec_battery_thermal.c:417-445 | latch as `PdicNext`; a closed latch votes the PDIC caps on every check; a release withdraws both votes; otherwise votes unchanged |
| Limiters.AfcNext | drivers/battery/common/sec_battery_thermal.c:455-509 | opens when the gate fails; closes iff eligible and at or above high; a closed latch opens iff eligible and at or below recovery |
| Limiters.AfcCaps | drivers/battery/common/sec_battery_thermal.c:457-470 | charger limits for an HV wired cable, default currents for a high-power charger |
| BatteryThermal.Battery.CheckAfcTemp | drivers/battery/common/sec_battery_thermal.c:448-510 | latch as `AfcNext`; votes the caps only when it closes, withdraws both votes when it opens, votes nothing otherwise |
| Limiters.DchgNext | drivers/battery/common/sec_battery_thermal.c:363-409 | no change without the gate; closes iff hot, opens iff recovered, per source type |
| Limiters.DchgCaps | drivers/battery/common/sec_battery_thermal.c:364-404 | direct-charge limits on APDO, default currents on a bus at the 5 V code, charger limits otherwise |
| BatteryThermal.Battery.CheckDirectChgTemp | drivers/battery/common/sec_battery_thermal.c:356-413 | latch as `DchgNext`; a closed latch re-votes the caps of the source; a release withdraws both votes; nothing changes without the gate |
| Limiters.FirstAbove | drivers/battery/common/sec_battery_thermal.c:224-237 | the first index whose entry the reading exceeds: every earlier entry is not exceeded |
| Limiters.StepLimitIndex | drivers/battery/common/sec_battery_thermal.c:224-237 | found iff some entry is exceeded, and the index is the first such entry |
| Limiters.FirstAboveIsFirst | drivers/battery/common/sec_battery_thermal.c:224-225 | an exceeded entry preceded only by unexceeded ones is `FirstAbove` |
| Limiters.StepFcc | drivers/battery/common/sec_battery_thermal.c:226-231 | 12 W table for 12 W, 15 W table at or above 15 W, base table otherwise |
| Limiters.WpcDecide | drivers/battery/common/sec_battery_thermal.c:179-263 | the wireless latch, caps, step flag and target; its properties are the contract of `WpcDecideShape` |
| Limiters.WpcDecideShape | drivers/battery/common/sec_battery_thermal.c:179-263 | latch follows the hysteresis of the gated or LCD-on branch; closed forces the 5.5 V step, caps the charging current at the charging limit and the input at the gated limit (the by-TX limit, if lower, on a TX cable with that check) or the LCD-on limit; open sets no input cap, keeps the target and takes the step-limit current iff at or above recovery and some entry is exceeded |
| Limiters.WpcVotes | drivers/battery/common/sec_battery_thermal.c:307-315 | only the CHG_TEMP input and fast-charge votes; with an input cap both caps voted at their values; with a step limit only the charging cap at its value; otherwise both withdrawn |
| Limiters.VoutStep | drivers/battery/common/sec_battery_thermal.c:195-295 | non-HV cables change nothing; level becomes the (forced) target; a change is requested and AICL withdrawn iff unlocked; an unchanged 10 V or maximum level withdraws AICL iff unlatched |
| Limiters.AiclVotes | drivers/battery/common/sec_battery_thermal.c:287-294 | at most the AICL input vote, withdrawn, and present iff asked for |
| BatteryThermal.Battery.WpcDecision | drivers/battery/common/sec_battery_thermal.c:179-263 | latch, charging cap, step flag and target level are those of `WpcDecide`, and so is the input cap once clamped to the gate's limit |
| BatteryThermal.Battery.ApplyVout | drivers/battery/common/sec_battery_thermal.c:195-295 | level, requests and AICL vote follow `VoutStep` |
| BatteryThermal.Battery.FinishWpc | drivers/battery/common/sec_battery_thermal.c:265-315 | output-voltage step, then the CHG_TEMP votes of the clamped caps |
| BatteryThermal.Battery.VoteWpcCaps | drivers/battery/common/sec_battery_thermal.c:307-315 | the vote table gains `WpcVotes` of the caps |
| BatteryThermal.Battery.CheckWpcTemp | drivers/battery/common/sec_battery_thermal.c:166-317 | nothing changes without the check or a wireless cable; otherwise latch, level, requests and votes follow `WpcDecide` and `VoutStep` of the old state |
| Limiters.TxNext | drivers/battery/common/sec_battery_thermal.c:321-352 | TX on: at or above the high threshold adds the high reason, else at or below the low one adds the low reason; either way exactly the matching TX event and TX off are requested; otherwise nothing. TX off: the high reason clears iff at or below its recovery; failing that reason the low one clears iff at or above its recovery; the only request is the retry event, iff the last reason just cleared (TX is never re-enabled here) |
| BatteryThermal.Battery.CheckTxTemperature | drivers/battery/common/sec_battery_thermal.c:321-352 | retry reasons and requests follow `TxNext` |

## Left out

- Vote arbitration (`sec_vote`, `get_sec_vote_result`, `get_sec_voter_status`) is not part of this model. A vote is the last ballot per (channel, voter). The two results the core reads are parameters: the input-voltage result (`ivResult`) and the swelling voter's status (`voterStatus`).
- Power-supply property access is recorded as requests or parameters: the RX output-voltage read (`rxVout`), the regulation write and the dual-battery supplement call. Other external calls are recorded as requests: hiccup mode, CC open, TX enable and event, vote refresh.
- The `voutlock` mutex, logging and the zone-name table are left out. The CISD statistics counters are left out as well.
- `sec_bat_check_fullcharged` and `sec_bat_get_lpmode` are parameters (`fullCharged`, `lpMode`). The health, status and current-event setters are plain field writes, and only the swelling-mode, ISDB, vout-lock and skip-heating bits of the current event are kept.
- Compile-time switches are configuration flags. `CheckTxTemperature` exists only on TX-mode builds and `CheckDirectChgTemp` only on direct-charging builds, so each requires its flag.
- The 5 V and 9 V input-voltage codes (`SEC_INPUT_VOLTAGE_5V`, `SEC_INPUT_VOLTAGE_9V`) are defined outside this file. The model takes them as configuration (`Config.voltage`) and assumes nothing about their values: `Limiters.PdicInputCurrent` multiplies by the 9 V code, and `Swelling.ZoneBundle`, `Limiters.DchgCaps` and `BatteryThermal.Battery.CheckDirectChgTemp` vote the 5 V code or compare the bus voltage or the input-voltage vote with it.
- The wireless output-voltage codes and the RX power classes, also defined outside this file, are placeholders: only their distinctness and order matter to the model.
- Integers are unbounded; 32-bit overflow of the input-current products is not modelled. C division is modelled exactly (`CDiv`).
- On a deferred tick the C code writes the candidate into `thermal_zone` and then restores the old zone. The model never writes it; nothing reads the zone between the two writes.
- The bus-to-battery gap computed at the top of the thermal tick (`:650-653`) is only logged, so it is left out.
- BatteryThermal.Battery.CheckMixTemp: the cap on the mix-limit input vote (full_check_current_1st + 50) is not a class invariant. It is stated on `Limiters.MixCheck` (every vote it casts is capped) and `Limiters.MixVotesKeepMixCap` (merging keeps the cap), and `CheckMixTemp` merges exactly `MixCheck`'s votes.
- The divisions at `:93-94` (by `chg_float_voltage_conv` and by `input_voltage * 9 / 10`) and at `:428` (by `input_voltage`) are undefined in C for a zero divisor. `Limiters.MixInputCurrent`, `Limiters.MixCheck` and `BatteryThermal.Battery.CheckMixTemp` (the last two on the path that divides), `Limiters.PdicInputCurrent` and `BatteryThermal.Battery.CheckPdicTemp` (on the path that divides) therefore require a nonzero divisor, which excludes an input voltage from -1 to 1 for the mix limiter and 0 for the PDIC limiter. The model does not say what the driver does then.
- Latch exclusivity between the limiters sharing `chg_limit` is not stated. Which limiter runs for which cable is decided by the callers, which are not part of this model.
