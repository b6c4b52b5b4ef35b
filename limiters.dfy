/** The charge-source limiters: for each one, the next value of its latch
    and the currents it votes, as functions of the latch and the readings.
    The imperative checks in BatteryThermal are proved against these. */
module Limiters {
  import opened ThermalTypes
  import opened Readings

  function Min(a: int, b: int): (m: int)
    ensures m <= a && m <= b
    ensures m == a || m == b
  {
    if a <= b then a else b
  }

  /** The usual latch rule: an open latch closes at or above `high`, a
      closed one stays closed while the reading is above `recovery`. */
  predicate Hysteresis(latched: bool, t: int, high: int, recovery: int) {
    (!latched && t >= high) || (latched && t > recovery)
  }

  // ---------------------------------------------------------------- mix

  /** The mix-limit gate: no thermal-management override, LCD off, wired
      cable. */
  predicate MixGate(siopLevel: int, lcdStatus: bool, cable: Cable) {
    siopLevel >= 100 && !lcdStatus && cable.notWireless
  }

  /** The mix-limit latch after one check: it engages when both the
      battery (or backlight) and the charger are hot, holds while the
      battery stays above the recovery temperature, and always drops when
      the gate fails. */
  function MixNext(latched: bool, gate: bool, temp: int, chgTemp: int, mix: MixConfig): (r: bool)
    ensures !gate ==> !r
    ensures gate && latched ==> (r <==> temp > mix.highTempRecovery)
    ensures gate && !latched ==> (r <==> temp >= mix.highTemp && chgTemp >= mix.highChgTemp)
  {
    gate && ((!latched && temp >= mix.highTemp && chgTemp >= mix.highChgTemp) ||
             (latched && temp > mix.highTempRecovery))
  }

  /** The mix-limit latch after successive checks, each with its own gate,
      battery and charger readings. */
  function MixRun(latched: bool, ticks: seq<(bool, int, int)>, mix: MixConfig): bool
    decreases |ticks|
  {
    if ticks == [] then latched
    else MixRun(MixNext(latched, ticks[0].0, ticks[0].1, ticks[0].2, mix), ticks[1..], mix)
  }

  /** Once engaged the mix limit is kept, whatever the charger does, for
      as long as the gate holds and the battery stays above recovery. */
  lemma {:induction false} MixHoldsAboveRecovery(ticks: seq<(bool, int, int)>, mix: MixConfig)
    requires forall i :: 0 <= i < |ticks| ==> ticks[i].0 && ticks[i].1 > mix.highTempRecovery
    ensures MixRun(true, ticks, mix)
    decreases |ticks|
  {
    if ticks != [] {
      assert ticks[0].0 && ticks[0].1 > mix.highTempRecovery;
      MixHoldsAboveRecovery(ticks[1..], mix);
    }
  }

  /** A released mix limit stays released while either the battery or the
      charger stays below its engage temperature. */
  lemma {:induction false} MixStaysOffWhileEitherCool(ticks: seq<(bool, int, int)>, mix: MixConfig)
    requires forall i :: 0 <= i < |ticks| ==> ticks[i].1 < mix.highTemp || ticks[i].2 < mix.highChgTemp
    ensures !MixRun(false, ticks, mix)
    decreases |ticks|
  {
    if ticks != [] {
      assert ticks[0].1 < mix.highTemp || ticks[0].2 < mix.highChgTemp;
      MixStaysOffWhileEitherCool(ticks[1..], mix);
    }
  }

  /** The cap of the mix limit's input-current vote. */
  function MixCap(mix: MixConfig): int {
    mix.fullCheckCurrent1st + MIX_CURRENT_MARGIN
  }

  /** The mix-limit input vote, if on, is an amount no larger than `cap`. */
  predicate MixVoteCapped(v: Votes, cap: int) {
    (Input, MixLimit) in v && v[(Input, MixLimit)].on ==>
      v[(Input, MixLimit)].level.Amount? && v[(Input, MixLimit)].level.n <= cap
  }

  /** Votes of other voters leave the mix-limit vote as it was. */
  lemma OtherVotesKeepMixCap(v: Votes, b: Votes, cap: int)
    requires MixVoteCapped(v, cap)
    requires forall k :: k in b ==> k.1 != MixLimit
    ensures MixVoteCapped(v + b, cap)
  {
    assert (Input, MixLimit) !in b;
  }

  /** The bus-side current that carries the cap current at the float
      voltage through a converter of 90% efficiency at `inputVoltage`,
      in C integer arithmetic. */
  function MixDemand(mix: MixConfig, inputVoltage: int): int
    requires mix.chgFloatVoltageConv != 0 && CDiv(inputVoltage * 9, 10) != 0
  {
    CDiv(CDiv(mix.chgFloatVoltage, mix.chgFloatVoltageConv) * MixCap(mix), CDiv(inputVoltage * 9, 10))
  }

  /** The input current the mix limit votes: the demand, capped at
      full_check_current_1st + 50. */
  function MixInputCurrent(mix: MixConfig, inputVoltage: int): (r: int)
    requires mix.chgFloatVoltageConv != 0 && CDiv(inputVoltage * 9, 10) != 0
    ensures r <= MixCap(mix)
    ensures r <= MixDemand(mix, inputVoltage)
    ensures r == MixCap(mix) || r == MixDemand(mix, inputVoltage)
  {
    var demand := MixDemand(mix, inputVoltage);
    if demand > MixCap(mix) then MixCap(mix) else demand
  }

  /** A bundle that votes the mix limit only within the cap keeps every
      vote set within it. */
  lemma MixVotesKeepMixCap(v: Votes, b: Votes, cap: int)
    requires MixVoteCapped(v, cap) && MixVoteCapped(b, cap)
    ensures MixVoteCapped(v + b, cap)
  {
    if (Input, MixLimit) in b {
      assert (v + b)[(Input, MixLimit)] == b[(Input, MixLimit)];
    }
  }

  /** What one mix-temperature check leaves: the latch, the mix-limit
      vote it casts (none, on or off), the requests it issues, the TX
      retry reasons and the skip-heating-control event bit. */
  datatype MixOutcome = MixOutcome(latched: bool, votes: Votes, requests: seq<Request>, retry: set<TxRetry>,
                                   skipHeating: bool)

  /** The mix-temperature check once both temperature checks are
      configured. `gate` is MixGate, `temp` the battery (or backlight)
      reading and `chgTemp` the charger (or direct-charger) reading.
      `dcSwitch` says that a backlight check runs on an APDO source: the
      first engagement then only switches the charging source (a refresh
      of the fast-charge vote) and casts no vote. `refresh` says that a
      release also refreshes the fast-charge vote, `txOn` that TX mode is
      on and must be turned off on engagement. */
  function MixCheck(latched: bool, gate: bool, temp: int, chgTemp: int, dcSwitch: bool, refresh: bool,
                    txOn: bool, retry: set<TxRetry>, skipHeating: bool, mix: MixConfig, inputVoltage: int): (o: MixOutcome)
    requires MixNext(latched, gate, temp, chgTemp, mix) && !(dcSwitch && !latched) ==>
      mix.chgFloatVoltageConv != 0 && CDiv(inputVoltage * 9, 10) != 0
    ensures o.latched == MixNext(latched, gate, temp, chgTemp, mix)
    ensures forall k :: k in o.votes ==> k == (Input, MixLimit)
    ensures MixVoteCapped(o.votes, MixCap(mix))
    ensures latched && !o.latched ==> o.votes == map[(Input, MixLimit) := OFF]
    ensures o.latched && !(dcSwitch && !latched) ==>
      o.votes == map[(Input, MixLimit) := On(MixInputCurrent(mix, inputVoltage))]
    ensures o.latched && dcSwitch && !latched ==> o.votes == map[] && o.requests == [RefreshVote(Fcc)]
    ensures !latched && !o.latched ==>
      o.votes == map[] && o.requests == [] && o.retry == retry && o.skipHeating == skipHeating
    ensures o.skipHeating == (skipHeating || (o.latched && !(dcSwitch && !latched)))
    ensures o.latched && !(dcSwitch && !latched) ==>
      o.requests == if txOn then [SetTxEvent(TxHighTemp), SetTxEnable(false)] else []
    ensures latched && !o.latched ==>
      o.requests == (if refresh then [RefreshVote(Fcc)] else []) +
                    (if gate && RetryMixTemp in retry && retry - {RetryMixTemp} == {} then [SetTxEvent(TxRetryEvent)] else [])
    ensures SetTxEnable(false) in o.requests <==> o.latched && txOn && !(dcSwitch && !latched)
    ensures SetTxEvent(TxRetryEvent) in o.requests <==>
      gate && latched && !o.latched && RetryMixTemp in retry && retry - {RetryMixTemp} == {}
    ensures o.retry - {RetryMixTemp} == retry - {RetryMixTemp}
    ensures RetryMixTemp in o.retry <==>
      if o.latched then RetryMixTemp in retry || (txOn && !(dcSwitch && !latched))
      else RetryMixTemp in retry && !(gate && latched)
  {
    if !gate then
      if latched then MixOutcome(false, map[(Input, MixLimit) := OFF], if refresh then [RefreshVote(Fcc)] else [], retry, skipHeating)
      else MixOutcome(false, map[], [], retry, skipHeating)
    else if MixNext(latched, gate, temp, chgTemp, mix) then
      if dcSwitch && !latched then MixOutcome(true, map[], [RefreshVote(Fcc)], retry, skipHeating)
      else
        MixOutcome(true, map[(Input, MixLimit) := On(MixInputCurrent(mix, inputVoltage))],
                   if txOn then [SetTxEvent(TxHighTemp), SetTxEnable(false)] else [],
                   if txOn then retry + {RetryMixTemp} else retry, true)
    else if latched then
      var rest := retry - {RetryMixTemp};
      MixOutcome(false, map[(Input, MixLimit) := OFF],
                 (if refresh then [RefreshVote(Fcc)] else []) +
                 (if RetryMixTemp in retry && rest == {} then [SetTxEvent(TxRetryEvent)] else []),
                 rest, skipHeating)
    else MixOutcome(false, map[], [], retry, skipHeating)
  }

  // ------------------------------------------------- shared CHG_TEMP votes

  /** Both CHG_TEMP votes on, with the given (input, charging) currents. */
  function ChgTempVotes(c: (int, int)): (b: Votes)
    ensures b.Keys == {(Input, ChgTemp), (Fcc, ChgTemp)}
    ensures b[(Input, ChgTemp)] == On(c.0) && b[(Fcc, ChgTemp)] == On(c.1)
  {
    map[(Fcc, ChgTemp) := On(c.1), (Input, ChgTemp) := On(c.0)]
  }

  /** Both CHG_TEMP votes withdrawn. */
  function ChgTempOff(): (b: Votes)
    ensures b.Keys == {(Input, ChgTemp), (Fcc, ChgTemp)}
    ensures forall k :: k in b ==> b[k] == OFF
  {
    map[(Fcc, ChgTemp) := OFF, (Input, ChgTemp) := OFF]
  }

  // --------------------------------------------------------------- PDIC

  /** The PDIC gate: PD power ready, no override, LCD off. */
  predicate PdicGate(pdicPsRdy: bool, siopLevel: int, lcdStatus: bool) {
    pdicPsRdy && siopLevel >= 100 && !lcdStatus
  }

  /** The shared charge-limit latch after a PDIC check. A closed latch
      stays closed down to and including the recovery temperature and
      opens only strictly below it; it opens at once when the gate
      fails. */
  function PdicNext(latched: bool, gate: bool, chgTemp: int, chg: ChgConfig): (r: bool)
    ensures !gate ==> !r
    ensures gate && latched ==> (r <==> chgTemp >= chg.highTempRecovery)
    ensures gate && !latched ==> (r <==> chgTemp >= chg.highTemp)
  {
    if !gate then false
    else if (!latched && chgTemp >= chg.highTemp) || (latched && chgTemp >= chg.highTempRecovery) then true
    else if latched && chgTemp <= chg.highTempRecovery then false
    else latched
  }

  /** The latch after successive PDIC checks, each with its gate and
      charger reading. */
  function PdicRun(latched: bool, ticks: seq<(bool, int)>, chg: ChgConfig): bool
    decreases |ticks|
  {
    if ticks == [] then latched
    else PdicRun(PdicNext(latched, ticks[0].0, ticks[0].1, chg), ticks[1..], chg)
  }

  /** A closed PDIC latch survives any run of gated readings at or above
      recovery, the recovery temperature itself included. */
  lemma {:induction false} PdicHoldsDownToRecovery(ticks: seq<(bool, int)>, chg: ChgConfig)
    requires forall i :: 0 <= i < |ticks| ==> ticks[i].0 && ticks[i].1 >= chg.highTempRecovery
    ensures PdicRun(true, ticks, chg)
    decreases |ticks|
  {
    if ticks != [] {
      assert ticks[0].0 && ticks[0].1 >= chg.highTempRecovery;
      PdicHoldsDownToRecovery(ticks[1..], chg);
    }
  }

  /** The input current the PDIC limit votes: the configured limit times
      the 9 V code, divided by the bus voltage in C integer arithmetic; on a
      9 V bus it is the configured limit itself. */
  function PdicInputCurrent(chg: ChgConfig, codes: VoltageCodes, inputVoltage: int): (r: int)
    requires inputVoltage != 0
    ensures inputVoltage == codes.v9 ==> r == chg.inputLimitCurrent
    ensures inputVoltage > 0 && chg.inputLimitCurrent >= 0 && codes.v9 >= 0 ==>
      r == (chg.inputLimitCurrent * codes.v9) / inputVoltage
  {
    if inputVoltage == codes.v9 then
      CDivCancel(chg.inputLimitCurrent, codes.v9);
      CDiv(chg.inputLimitCurrent * codes.v9, inputVoltage)
    else CDiv(chg.inputLimitCurrent * codes.v9, inputVoltage)
  }

  // ---------------------------------------------------------------- AFC

  /** Whether the AFC limit applies to the cable: an HV wired cable, or,
      with HV control support, a charger whose maximum power reaches the
      PD charging power less a 500 mW margin. */
  predicate AfcEligible(hvCtrl: bool, cable: Cable, maxChargePower: int, chg: ChgConfig) {
    cable.hvWire || (hvCtrl && maxChargePower >= chg.pdChargingChargePower - PD_POWER_MARGIN)
  }

  /** The shared charge-limit latch after an AFC check: it closes at the
      high temperature on an eligible cable, opens at or below recovery on
      an eligible cable, is kept when the cable stops being eligible, and
      opens when the gate fails. */
  function AfcNext(latched: bool, gate: bool, eligible: bool, chgTemp: int, chg: ChgConfig): (r: bool)
    ensures !gate ==> !r
    ensures gate && !latched ==> (r <==> eligible && chgTemp >= chg.highTemp)
    ensures gate && latched ==> (r <==> !(eligible && chgTemp <= chg.highTempRecovery))
  {
    if !gate then false
    else if !latched then eligible && chgTemp >= chg.highTemp
    else !(eligible && chgTemp <= chg.highTempRecovery)
  }

  /** The (input, charging) currents voted when the AFC limit closes: the
      charger limits for an HV wired cable, the default currents for a
      high-power charger otherwise. */
  function AfcCaps(cable: Cable, chg: ChgConfig): (c: (int, int))
    ensures cable.hvWire ==> c == (chg.inputLimitCurrent, chg.chargingLimitCurrent)
    ensures !cable.hvWire ==> c == (chg.defaultInputCurrent, chg.defaultChargingCurrent)
  {
    if cable.hvWire then (chg.inputLimitCurrent, chg.chargingLimitCurrent)
    else (chg.defaultInputCurrent, chg.defaultChargingCurrent)
  }

  // ------------------------------------------------------ direct charge

  /** Whether the direct-charge latch closes: on an APDO source when the
      direct charger or the battery is hot, otherwise when the switching
      charger is hot. */
  predicate DchgHot(apdo: bool, dchgTemp: int, temperature: int, chgTemp: int, dchg: DchgConfig, chg: ChgConfig) {
    if apdo then dchgTemp >= dchg.highTemp || temperature >= dchg.highBattTemp
    else chgTemp >= chg.highTemp
  }

  /** Whether the direct-charge latch opens: on an APDO source when both
      the direct charger and the battery are back to recovery, otherwise
      when the switching charger is. */
  predicate DchgRecovered(apdo: bool, dchgTemp: int, temperature: int, chgTemp: int, dchg: DchgConfig, chg: ChgConfig) {
    if apdo then dchgTemp <= dchg.highTempRecovery && temperature <= dchg.highBattTempRecovery
    else chgTemp <= chg.highTempRecovery
  }

  /** The shared charge-limit latch after a direct-charge check. Without
      the gate nothing changes: this limiter has no release path. */
  function DchgNext(latched: bool, gate: bool, apdo: bool, dchgTemp: int, temperature: int, chgTemp: int,
                    dchg: DchgConfig, chg: ChgConfig): (r: bool)
    ensures !gate ==> r == latched
    ensures gate && !latched ==> (r <==> DchgHot(apdo, dchgTemp, temperature, chgTemp, dchg, chg))
    ensures gate && latched ==> (r <==> !DchgRecovered(apdo, dchgTemp, temperature, chgTemp, dchg, chg))
  {
    if !gate then latched
    else if !latched then DchgHot(apdo, dchgTemp, temperature, chgTemp, dchg, chg)
    else !DchgRecovered(apdo, dchgTemp, temperature, chgTemp, dchg, chg)
  }

  /** The (input, charging) currents the direct-charge limit votes: the
      direct-charge limits on an APDO source, the default currents on a
      5 V bus, the charger limits otherwise. */
  function DchgCaps(apdo: bool, inputVoltage: int, codes: VoltageCodes, dchg: DchgConfig, chg: ChgConfig): (c: (int, int))
    ensures apdo ==> c == (dchg.inputLimitCurrent, dchg.chargingLimitCurrent)
    ensures !apdo && inputVoltage == codes.v5 ==> c == (chg.defaultInputCurrent, chg.defaultChargingCurrent)
    ensures !apdo && inputVoltage != codes.v5 ==> c == (chg.inputLimitCurrent, chg.chargingLimitCurrent)
  {
    if apdo then (dchg.inputLimitCurrent, dchg.chargingLimitCurrent)
    else if inputVoltage == codes.v5 then (chg.defaultInputCurrent, chg.defaultChargingCurrent)
    else (chg.inputLimitCurrent, chg.chargingLimitCurrent)
  }

  // ---------------------------------------------------------- wireless

  /** The first step-limit entry whose temperature `v` exceeds, or
      |temps| when there is none. */
  function FirstAbove(temps: seq<int>, v: int): (i: nat)
    ensures i <= |temps|
    ensures forall j :: 0 <= j < i ==> v <= temps[j]
    ensures i < |temps| ==> v > temps[i]
    decreases |temps|
  {
    if temps == [] then 0
    else if v > temps[0] then 0
    else 1 + FirstAbove(temps[1..], v)
  }

  /** The step-limit search: scans the table in order and stops at the
      first entry whose temperature is exceeded. */
  method StepLimitIndex(temps: seq<int>, v: int) returns (found: bool, i: nat)
    ensures found <==> exists j :: 0 <= j < |temps| && v > temps[j]
    ensures found ==> i < |temps| && v > temps[i] && forall j :: 0 <= j < i ==> v <= temps[j]
    ensures i == FirstAbove(temps, v)
  {
    found := false;
    i := 0;
    while i < |temps|
      invariant 0 <= i <= |temps|
      invariant forall j :: 0 <= j < i ==> v <= temps[j]
      invariant FirstAbove(temps, v) >= i
    {
      if v > temps[i] {
        found := true;
        FirstAboveIsFirst(temps, v, i);
        return;
      }
      i := i + 1;
    }
  }

  /** An index past only unexceeded entries whose own entry is exceeded is
      the first such index. */
  lemma FirstAboveIsFirst(temps: seq<int>, v: int, i: nat)
    requires i < |temps| && v > temps[i]
    requires forall j :: 0 <= j < i ==> v <= temps[j]
    ensures FirstAbove(temps, v) == i
  {
  }

  /** The fast-charge current of step-limit entry `i` for the receiver's
      power class: the 12 W table, the 15 W table at or above 15 W, the
      base table otherwise. */
  function StepFcc(w: WpcConfig, rxPower: int, i: nat): (c: int)
    requires StepTablesSized(w) && i < |w.stepLimitTemp|
    ensures rxPower == RX_POWER_12W ==> c == w.stepLimitFcc12w[i]
    ensures rxPower != RX_POWER_12W && rxPower >= RX_POWER_15W ==> c == w.stepLimitFcc15w[i]
    ensures rxPower != RX_POWER_12W && rxPower < RX_POWER_15W ==> c == w.stepLimitFcc[i]
  {
    if rxPower == RX_POWER_12W then w.stepLimitFcc12w[i]
    else if rxPower >= RX_POWER_15W then w.stepLimitFcc15w[i]
    else w.stepLimitFcc[i]
  }

  /** What one wireless check decides before the output-voltage handling:
      the latch, the input and charging caps (INT_MAX for none), whether a
      step-limit current applies, and the output-voltage target. */
  datatype WpcOutcome = WpcOutcome(latched: bool, input: int, charging: int, step: bool, vout: int)

  /** The wireless limiter's decision. With the gate (no override, LCD
      off) the control-source reading drives the latch against the high
      and recovery temperatures of the cable's class, and an open latch at
      or above recovery falls back to the step-limit table. Without the
      gate only HV-class cables (not the vehicle pad) and the preparing HV
      cables use the LCD-on thresholds. A closed latch then clamps the
      input current to the limit of the branch it took. */
  function WpcDecide(w: WpcConfig, latched: bool, gate: bool, lcdEligible: bool, txCable: bool,
                     tempVal: int, lcdTempVal: int, high: int, recovery: int, vout: int, rxPower: int): WpcOutcome
    requires StepTablesSized(w)
  {
    if gate then
      if Hysteresis(latched, tempVal, high, recovery) then
        var input := if INT_MAX > w.inputLimitCurrent then
          (if txCable && w.inputLimitByTxCheck then w.inputLimitCurrentByTx else w.inputLimitCurrent)
        else INT_MAX;
        WpcOutcome(true, Min(input, w.inputLimitCurrent), Min(INT_MAX, w.chargingLimitCurrent), false, VOUT_5_5V_STEP)
      else if latched then WpcOutcome(false, INT_MAX, INT_MAX, false, vout)
      else if tempVal >= recovery && FirstAbove(w.stepLimitTemp, tempVal) < |w.stepLimitTemp| then
        WpcOutcome(false, INT_MAX, StepFcc(w, rxPower, FirstAbove(w.stepLimitTemp, tempVal)), true, vout)
      else WpcOutcome(false, INT_MAX, INT_MAX, false, vout)
    else if lcdEligible && Hysteresis(latched, lcdTempVal, w.lcdOnHighTemp, w.lcdOnHighTempRec) then
      var input := Min(INT_MAX, w.lcdOnInputLimitCurrent);
      WpcOutcome(true, Min(input, w.lcdOnInputLimitCurrent), Min(INT_MAX, w.chargingLimitCurrent), false, VOUT_5_5V_STEP)
    else WpcOutcome(false, INT_MAX, INT_MAX, false, vout)
  }

  /** The wireless decision: the latch follows the hysteresis of the
      branch the gate selects, a closed latch forces the 5.5 V step and
      caps both currents by that branch's limits, and an open latch keeps
      the target level, sets no input cap and takes the step-limit current
      exactly when the reading is at or above recovery and below some
      entry of the step table. */
  lemma WpcDecideShape(w: WpcConfig, latched: bool, gate: bool, lcdEligible: bool, txCable: bool,
                       tempVal: int, lcdTempVal: int, high: int, recovery: int, vout: int, rxPower: int)
    requires StepTablesSized(w)
    ensures var o := WpcDecide(w, latched, gate, lcdEligible, txCable, tempVal, lcdTempVal, high, recovery,
                               vout, rxPower);
      && (gate ==> (o.latched <==> Hysteresis(latched, tempVal, high, recovery)))
      && (!gate ==>
            (o.latched <==> lcdEligible && Hysteresis(latched, lcdTempVal, w.lcdOnHighTemp, w.lcdOnHighTempRec)))
      && (o.latched ==> o.vout == VOUT_5_5V_STEP && o.charging <= w.chargingLimitCurrent && !o.step)
      && (o.latched ==> o.charging == Min(INT_MAX, w.chargingLimitCurrent))
      && (o.latched && gate ==> o.input <= w.inputLimitCurrent)
      && (o.latched && gate && w.inputLimitCurrent < INT_MAX ==>
            o.input == if txCable && w.inputLimitByTxCheck then Min(w.inputLimitCurrentByTx, w.inputLimitCurrent)
                       else w.inputLimitCurrent)
      && (o.latched && gate && w.inputLimitCurrent >= INT_MAX ==> o.input == INT_MAX)
      && (o.latched && !gate ==> o.input <= w.lcdOnInputLimitCurrent)
      && (o.latched && !gate ==> o.input == Min(INT_MAX, w.lcdOnInputLimitCurrent))
      && (!o.latched ==> o.input == INT_MAX && o.vout == vout)
      && (o.step <==> gate && !latched && !o.latched && tempVal >= recovery &&
                      FirstAbove(w.stepLimitTemp, tempVal) < |w.stepLimitTemp|)
      && (o.step ==> o.charging == StepFcc(w, rxPower, FirstAbove(w.stepLimitTemp, tempVal)))
      && (!o.latched && !o.step ==> o.charging == INT_MAX)
  {
  }

  /** The CHG_TEMP votes of a wireless check: both caps while an input cap
      is set, the charging cap alone for a step limit, both withdrawn
      otherwise. */
  function WpcVotes(o: WpcOutcome): (b: Votes)
    ensures b.Keys <= {(Input, ChgTemp), (Fcc, ChgTemp)}
    ensures (Fcc, ChgTemp) in b
    ensures b[(Fcc, ChgTemp)].on <==> o.input != INT_MAX || o.step
    ensures (Input, ChgTemp) in b <==> !(o.input == INT_MAX && o.step)
    ensures (Input, ChgTemp) in b ==> (b[(Input, ChgTemp)].on <==> o.input != INT_MAX)
    ensures o.input != INT_MAX ==> b[(Input, ChgTemp)] == On(o.input)
    ensures (Input, ChgTemp) in b && o.input == INT_MAX ==> b[(Input, ChgTemp)] == OFF
    ensures b[(Fcc, ChgTemp)].on ==> b[(Fcc, ChgTemp)] == On(o.charging)
    ensures !b[(Fcc, ChgTemp)].on ==> b[(Fcc, ChgTemp)] == OFF
  {
    if o.input != INT_MAX then map[(Input, ChgTemp) := On(o.input), (Fcc, ChgTemp) := On(o.charging)]
    else if o.step then map[(Fcc, ChgTemp) := On(o.charging)]
    else map[(Fcc, ChgTemp) := OFF, (Input, ChgTemp) := OFF]
  }

  /** Whether a cable uses the LCD-on wireless thresholds when the gate
      fails: HV wireless cables other than the vehicle pad, and the two
      preparing HV cables. */
  predicate WpcLcdEligible(c: Cable) {
    (c.hvWireless && c.id != WirelessHvVehicle) || c.id == PrepareWirelessHv || c.id == PrepareWireless20
  }

  /** The output-voltage handling of a wireless check: the new level, the
      regulation request and whether the AICL input vote is withdrawn. */
  datatype VoutOutcome = VoutOutcome(level: int, requests: seq<Request>, aiclOff: bool)

  /** The level the check starts from: a receiver that reads back the
      5.5 V step on an HV cable resets the recorded level to it. */
  function VoutStart(hv: bool, level: int, rxVout: int): int {
    if hv && rxVout == VOUT_5_5V_STEP then VOUT_5_5V_STEP else level
  }

  /** The output-voltage step on an HV wireless cable: the target (forced
      to the 5.5 V step by high-temperature swelling, an ISDB event or
      sleep mode) becomes the level; a change is sent to the receiver and
      withdraws the AICL vote unless the vout lock holds, and an unchanged
      level at 10 V or at the maximum withdraws the AICL vote while the
      limit is open. Other cables keep their level. */
  function VoutStep(hv: bool, level: int, rxVout: int, target: int, forced: bool, locked: bool,
                    latched: bool, maxVout: int): (r: VoutOutcome)
    ensures !hv ==> r == VoutOutcome(level, [], false)
    ensures hv ==> r.level == if forced then VOUT_5_5V_STEP else target
    ensures r.requests != [] ==> r.requests == [SetRxVout(r.level)] && r.aiclOff
    ensures hv && r.level != VoutStart(hv, level, rxVout) ==> (r.requests != [] <==> !locked) && (r.aiclOff <==> !locked)
    ensures hv && r.level == VoutStart(hv, level, rxVout) ==>
      r.requests == [] && (r.aiclOff <==> (r.level == VOUT_10V || r.level == maxVout) && !latched)
  {
    if !hv then VoutOutcome(level, [], false)
    else
      var start := VoutStart(hv, level, rxVout);
      var v := if forced then VOUT_5_5V_STEP else target;
      if v != start then
        (if locked then VoutOutcome(v, [], false) else VoutOutcome(v, [SetRxVout(v)], true))
      else VoutOutcome(v, [], (v == VOUT_10V || v == maxVout) && !latched)
  }

  /** The AICL input vote withdrawn, or nothing. */
  function AiclVotes(off: bool): (b: Votes)
    ensures forall k :: k in b ==> k == (Input, Aicl) && b[k] == OFF
    ensures off <==> (Input, Aicl) in b
  {
    if off then map[(Input, Aicl) := OFF] else map[]
  }

  // --------------------------------------------------------------- TX

  /** What one TX temperature check leaves: the retry reasons and the
      requests issued, in order. */
  datatype TxOutcome = TxOutcome(retry: set<TxRetry>, requests: seq<Request>)

  /** The TX temperature check. While TX is on, a battery at or above the
      high threshold (or else at or below the low one) turns TX off and
      records the reason. While TX is off, the high-temperature reason is
      handled before the low one: a reason clears once the battery is back
      past its recovery temperature, and a retry is requested only when no
      other reason is left. */
  function TxNext(enabled: bool, retry: set<TxRetry>, temperature: int, tx: TxConfig): (o: TxOutcome)
    ensures enabled ==> o.retry >= retry && o.retry - retry <= {RetryHighTemp, RetryLowTemp}
    ensures !enabled ==> o.retry <= retry && retry - o.retry <= {RetryHighTemp, RetryLowTemp}
    ensures SetTxEnable(false) in o.requests <==> enabled && (temperature >= tx.highThreshold || temperature <= tx.lowThreshold)
    ensures SetTxEvent(TxRetryEvent) in o.requests <==> !enabled && o.retry == {} && o.retry != retry
    ensures !enabled && RetryHighTemp in retry ==> o.retry == retry || o.retry == retry - {RetryHighTemp}
    ensures enabled && temperature >= tx.highThreshold ==>
      o.retry == retry + {RetryHighTemp} && o.requests == [SetTxEvent(TxHighTemp), SetTxEnable(false)]
    ensures enabled && tx.highThreshold > temperature && temperature <= tx.lowThreshold ==>
      o.retry == retry + {RetryLowTemp} && o.requests == [SetTxEvent(TxLowTemp), SetTxEnable(false)]
    ensures !enabled ==> o.requests == if o.retry == {} && o.retry != retry then [SetTxEvent(TxRetryEvent)] else []
    ensures enabled && tx.lowThreshold < temperature < tx.highThreshold ==> o == TxOutcome(retry, [])
    ensures !enabled && RetryHighTemp in retry ==> (o.retry == retry - {RetryHighTemp} <==> temperature <= tx.highRecovery)
    ensures !enabled && RetryHighTemp !in retry && RetryLowTemp in retry ==>
      (o.retry == retry - {RetryLowTemp} <==> temperature >= tx.lowRecovery)
    ensures !enabled && RetryHighTemp !in retry && RetryLowTemp !in retry ==> o == TxOutcome(retry, [])
  {
    if enabled then
      if temperature >= tx.highThreshold then
        TxOutcome(retry + {RetryHighTemp}, [SetTxEvent(TxHighTemp), SetTxEnable(false)])
      else if temperature <= tx.lowThreshold then
        TxOutcome(retry + {RetryLowTemp}, [SetTxEvent(TxLowTemp), SetTxEnable(false)])
      else TxOutcome(retry, [])
    else if RetryHighTemp in retry then
      if temperature <= tx.highRecovery then
        var rest := retry - {RetryHighTemp};
        TxOutcome(rest, if rest == {} then [SetTxEvent(TxRetryEvent)] else [])
      else TxOutcome(retry, [])
    else if RetryLowTemp in retry then
      if temperature >= tx.lowRecovery then
        var rest := retry - {RetryLowTemp};
        TxOutcome(rest, if rest == {} then [SetTxEvent(TxRetryEvent)] else [])
      else TxOutcome(retry, [])
    else TxOutcome(retry, [])
  }
}
