/** The votes, health and charging status that the swelling policy sets:
    on a committed zone change (one bundle per zone), on every tick with
    an unchanged zone, and when thermal control is stopped. A bundle maps
    each (channel, voter) it writes to the ballot written; applying it to
    the vote table is `votes + bundle`. */
module Swelling {
  import opened ThermalTypes

  /** The voters the swelling policy uses; it never touches the
      limiters' voters. */
  predicate PolicyVoter(v: Voter) {
    v == Swelling || v == ChangeChgmode || v == MuicAbnormal || v == FullCharge
  }

  /** Votes withdrawn when the battery is discharging or swelling control
      is skipped. */
  function StopBundle(): Votes
  {
    map[(Topoff, Swelling) := OFF, (Fcc, Swelling) := OFF, (Fv, Swelling) := OFF,
        (Chgen, Swelling) := OFF, (Chgen, ChangeChgmode) := OFF, (Iv, ChangeChgmode) := OFF]
  }

  /** Stopping withdraws every swelling-policy vote and only those: the
      four swelling channels and the two charge-mode overrides. */
  lemma StopBundleShape()
    ensures var b := StopBundle();
      && b.Keys == {(Topoff, Swelling), (Fcc, Swelling), (Fv, Swelling), (Chgen, Swelling),
                    (Chgen, ChangeChgmode), (Iv, ChangeChgmode)}
      && (forall k :: k in b ==> b[k] == OFF)
      && (forall k :: k in b ==> PolicyVoter(k.1) && k.1 != MuicAbnormal)
  {
  }

  /** Charge-enable mode on entering WARM: above the swelling float
      voltage the buck goes off (only charging goes off while the device
      powers an accessory from an HV or PD cable); between the recharge
      voltage and the float voltage charging goes off; below it charging
      continues. */
  function WarmMode(cfg: Config, cable: Cable, voltageNow: int, txOrUno: bool): (m: ChgMode)
    ensures m == Charging <==> voltageNow <= cfg.swelling.swellingHighRechgVoltage && voltageNow <= cfg.swelling.highTempFloat
    ensures m == BuckOff <==>
      voltageNow > cfg.swelling.highTempFloat && !(txOrUno && (cable.hvWire || cable.pdWire))
    ensures m == Charging || m == BuckOff || m == ChargingOff
  {
    if voltageNow > cfg.swelling.highTempFloat then
      (if txOrUno && (cable.hvWire || cable.pdWire) then ChargingOff else BuckOff)
    else if voltageNow > cfg.swelling.swellingHighRechgVoltage then ChargingOff
    else Charging
  }

  /** The fast-charge current cap of a swelling zone, from the wireless
      table for wireless or fake-wireless cables. */
  function SwellingCurrent(cfg: Config, cable: Cable, zone: Zone): int
    requires zone in {Warm, Cool1, Cool2, Cool3}
  {
    var s := cfg.swelling;
    match zone
    case Warm => if cable.wirelessFake then s.wirelessWarmCurrent else s.wireWarmCurrent
    case Cool1 => if cable.wirelessFake then s.wirelessCool1Current else s.wireCool1Current
    case Cool2 => if cable.wirelessFake then s.wirelessCool2Current else s.wireCool2Current
    case Cool3 => if cable.wirelessFake then s.wirelessCool3Current else s.wireCool3Current
  }

  /** The votes issued when `zone` is committed. `ivResult` is the
      arbitrated input-voltage vote read back in OVERHEAT. */
  function ZoneBundle(zone: Zone, cfg: Config, cable: Cable, voltageNow: int, txOrUno: bool, ivResult: int): Votes
  {
    var s := cfg.swelling;
    match zone
    case OverheatLimit =>
      map[(Chgen, Swelling) := OnMode(BuckOff), (Iv, MuicAbnormal) := On(cfg.voltage.v5)]
    case Overheat =>
      if voltageNow > s.highTempFloat then
        (if cfg.features.wirelessTxMode && ivResult > cfg.voltage.v5
         then map[(Iv, ChangeChgmode) := On(cfg.voltage.v5), (Chgen, ChangeChgmode) := OnMode(NotSet)]
         else map[])
        + map[(Chgen, Swelling) := OnMode(BuckOff)]
      else
        map[(Chgen, Swelling) := OnMode(ChargingOff), (Iv, ChangeChgmode) := OFF]
    case Warm =>
      map[(Chgen, Swelling) := OnMode(WarmMode(cfg, cable, voltageNow, txOrUno)),
          (Fcc, Swelling) := On(SwellingCurrent(cfg, cable, Warm)),
          (Fv, Swelling) := On(s.highTempFloat),
          (Topoff, Swelling) := On(s.fullCheckCurrent2nd),
          (Iv, ChangeChgmode) := OFF]
    case Cool1 | Cool2 =>
      map[(Fcc, Swelling) := On(SwellingCurrent(cfg, cable, zone)),
          (Fv, Swelling) := On(s.lowTempFloat),
          (Topoff, Swelling) := OFF,
          (Chgen, Swelling) := OnMode(Charging),
          (Iv, ChangeChgmode) := OFF]
    case Cool3 =>
      map[(Fcc, Swelling) := On(SwellingCurrent(cfg, cable, Cool3)),
          (Fv, Swelling) := On(s.lowTempFloat),
          (Topoff, Swelling) := On(s.fullCheckCurrent2nd),
          (Chgen, Swelling) := OnMode(Charging),
          (Iv, ChangeChgmode) := OFF]
    case Cold =>
      map[(Chgen, Swelling) := OnMode(ChargingOff), (Iv, ChangeChgmode) := OFF]
    case Normal =>
      map[(Fcc, Swelling) := OFF, (Fv, Swelling) := OFF, (Topoff, Swelling) := OFF,
          (Chgen, Swelling) := OFF, (Iv, ChangeChgmode) := OFF]
  }

  /** What entering a zone votes: always a charge-enable ballot by the
      swelling voter, only policy voters; NORMAL withdraws the five
      swelling and override votes; every other zone sets charge enable;
      OVERHEATLIMIT turns the buck off and caps the input at 5 V and votes
      nothing else; OVERHEAT turns the buck off exactly above the float
      voltage (and then, with wireless TX and an input above 5 V, forces
      5 V and an unset charge mode through the override voter), otherwise
      turns charging off and withdraws the override; COLD turns charging
      off; the cool zones lower the float voltage and cap the current,
      COOL3 also raising the top-off current; WARM raises the top-off
      current, caps the current and picks the charge mode from the
      voltage; every zone but the hot extremes withdraws the input-voltage
      override. */
  lemma ZoneBundleShape(zone: Zone, cfg: Config, cable: Cable, voltageNow: int, txOrUno: bool, ivResult: int)
    ensures var b := ZoneBundle(zone, cfg, cable, voltageNow, txOrUno, ivResult);
      && (Chgen, Swelling) in b
      && (forall k :: k in b ==> PolicyVoter(k.1))
      && (zone == Normal ==>
            && b.Keys == {(Fcc, Swelling), (Fv, Swelling), (Topoff, Swelling), (Chgen, Swelling), (Iv, ChangeChgmode)}
            && forall k :: k in b ==> b[k] == OFF)
      && (zone != Normal ==> b[(Chgen, Swelling)].on)
      && (zone in {Overheat, OverheatLimit, Cold} ==>
            b[(Chgen, Swelling)] == OnMode(BuckOff) || b[(Chgen, Swelling)] == OnMode(ChargingOff))
      && (zone == OverheatLimit ==>
            && b.Keys == {(Chgen, Swelling), (Iv, MuicAbnormal)}
            && b[(Chgen, Swelling)] == OnMode(BuckOff)
            && b[(Iv, MuicAbnormal)] == On(cfg.voltage.v5))
      && (zone == Overheat ==>
            (b[(Chgen, Swelling)] == OnMode(BuckOff) <==> voltageNow > cfg.swelling.highTempFloat))
      && (zone == Overheat && voltageNow > cfg.swelling.highTempFloat ==>
            && ((Iv, ChangeChgmode) in b <==> cfg.features.wirelessTxMode && ivResult > cfg.voltage.v5)
            && ((Chgen, ChangeChgmode) in b <==> (Iv, ChangeChgmode) in b)
            && ((Iv, ChangeChgmode) in b ==>
                  b[(Iv, ChangeChgmode)] == On(cfg.voltage.v5) && b[(Chgen, ChangeChgmode)] == OnMode(NotSet)))
      && ((zone in {Warm, Cool1, Cool2, Cool3, Cold} ||
           (zone == Overheat && voltageNow <= cfg.swelling.highTempFloat)) ==>
            (Iv, ChangeChgmode) in b && b[(Iv, ChangeChgmode)] == OFF && (Chgen, ChangeChgmode) !in b)
      && (zone == Cold ==> b.Keys == {(Chgen, Swelling), (Iv, ChangeChgmode)} &&
                           b[(Chgen, Swelling)] == OnMode(ChargingOff))
      && (zone in {Cool1, Cool2, Cool3} ==>
            && (Fv, Swelling) in b && (Fcc, Swelling) in b && (Topoff, Swelling) in b
            && b[(Chgen, Swelling)] == OnMode(Charging)
            && b[(Fv, Swelling)] == On(cfg.swelling.lowTempFloat)
            && b[(Fcc, Swelling)] == On(SwellingCurrent(cfg, cable, zone))
            && b[(Topoff, Swelling)] == if zone == Cool3 then On(cfg.swelling.fullCheckCurrent2nd) else OFF)
      && (zone == Warm ==>
            && (Fv, Swelling) in b && (Topoff, Swelling) in b && (Fcc, Swelling) in b
            && b[(Fv, Swelling)] == On(cfg.swelling.highTempFloat)
            && b[(Topoff, Swelling)] == On(cfg.swelling.fullCheckCurrent2nd)
            && b[(Fcc, Swelling)] == On(SwellingCurrent(cfg, cable, Warm))
            && b[(Chgen, Swelling)] == OnMode(WarmMode(cfg, cable, voltageNow, txOrUno)))
  {
  }

  /** Exactly the votes entering each zone casts, and no others: five in
      NORMAL, WARM and the cool zones; buck off and the MUIC 5 V cap in
      OVERHEATLIMIT; charge enable and the override withdrawal in COLD and
      in OVERHEAT at or below the float voltage; above it charge enable
      alone, or with both overrides when wireless TX forces 5 V. */
  lemma ZoneBundleKeys(zone: Zone, cfg: Config, cable: Cable, voltageNow: int, txOrUno: bool, ivResult: int)
    ensures var b := ZoneBundle(zone, cfg, cable, voltageNow, txOrUno, ivResult);
      && (zone in {Normal, Warm, Cool1, Cool2, Cool3} ==>
            b.Keys == {(Chgen, Swelling), (Fcc, Swelling), (Fv, Swelling), (Topoff, Swelling), (Iv, ChangeChgmode)})
      && (zone == OverheatLimit ==> b.Keys == {(Chgen, Swelling), (Iv, MuicAbnormal)})
      && (zone == Cold ==> b.Keys == {(Chgen, Swelling), (Iv, ChangeChgmode)})
      && (zone == Overheat && voltageNow <= cfg.swelling.highTempFloat ==>
            b.Keys == {(Chgen, Swelling), (Iv, ChangeChgmode)})
      && (zone == Overheat && voltageNow > cfg.swelling.highTempFloat ==>
            b.Keys == {(Chgen, Swelling)} +
                      (if cfg.features.wirelessTxMode && ivResult > cfg.voltage.v5
                       then {(Iv, ChangeChgmode), (Chgen, ChangeChgmode)} else {}))
  {
  }

  /** The health reported on entering a zone. */
  function ZoneHealth(zone: Zone): (h: Health)
    ensures h == HealthGood <==> zone in {Cool3, Cool2, Cool1, Normal, Warm}
    ensures h == HealthOverheat <==> zone == Overheat
    ensures h == HealthOverheatLimit <==> zone == OverheatLimit
    ensures h == HealthCold <==> zone == Cold
  {
    match zone
    case OverheatLimit => HealthOverheatLimit
    case Overheat => HealthOverheat
    case Cold => HealthCold
    case _ => HealthGood
  }

  /** The swelling-mode event bits after entering a zone (they are cleared
      first; COLD reuses the COOL3 event). */
  function ZoneSwellingEvent(zone: Zone): (e: SwellingEvent)
    ensures e == NoSwelling <==> zone in {Normal, OverheatLimit}
    ensures e == HighTempSwelling <==> zone in {Warm, Overheat}
    ensures e == LowTempCool1 <==> zone == Cool1
    ensures e == LowTempCool2 <==> zone == Cool2
    ensures e == LowTempCool3 <==> zone in {Cool3, Cold}
  {
    match zone
    case Overheat | Warm => HighTempSwelling
    case Cool1 => LowTempCool1
    case Cool2 => LowTempCool2
    case Cool3 | Cold => LowTempCool3
    case _ => NoSwelling
  }

  /** The charging status after entering a zone: not charging in COLD,
      OVERHEAT and OVERHEATLIMIT; charging in the zones from COOL3 to WARM
      unless the battery is full (with full-by-SoC, also when the
      capacity reaches 100). */
  function ZoneStatus(zone: Zone, status: ChargingStatus, capacity: int, fullBySoc: bool): (s: ChargingStatus)
    ensures Rank(zone) < Rank(Cool3) || Rank(zone) > Rank(Warm) ==> s == StatusNotCharging
    ensures Rank(Cool3) <= Rank(zone) <= Rank(Warm) ==> s == StatusCharging || s == StatusFull
    ensures Rank(Cool3) <= Rank(zone) <= Rank(Warm) && status == StatusFull ==> s == StatusFull
    ensures Rank(Cool3) <= Rank(zone) <= Rank(Warm) && fullBySoc && capacity >= 100 ==> s == StatusFull
    ensures Rank(Cool3) <= Rank(zone) <= Rank(Warm) && status != StatusFull && !(fullBySoc && capacity >= 100) ==>
      s == StatusCharging
  {
    if Rank(zone) < Rank(Cool3) || Rank(zone) > Rank(Warm) then StatusNotCharging
    else if fullBySoc then
      (if capacity >= 100 || status == StatusFull then StatusFull else StatusCharging)
    else if status != StatusFull then StatusCharging
    else status
  }

  /** Emergency port actions on entering OVERHEATLIMIT outside low-power
      mode: hiccup mode (with the MUIC notifier) and, on PD cables, a
      forced CC open. */
  function EmergencyRequests(zone: Zone, lpMode: bool, muicNotifier: bool, pdWire: bool): (rs: seq<Request>)
    ensures rs != [] ==> zone == OverheatLimit && !lpMode
    ensures forall r :: r in rs ==> r == HiccupMode || r == CcOpen
    ensures HiccupMode in rs <==> zone == OverheatLimit && !lpMode && muicNotifier
    ensures CcOpen in rs <==> zone == OverheatLimit && !lpMode && pdWire
    ensures |rs| <= 2 && (|rs| == 2 ==> rs == [HiccupMode, CcOpen])
  {
    if zone == OverheatLimit && !lpMode then
      (if muicNotifier then [HiccupMode] else []) + (if pdWire then [CcOpen] else [])
    else []
  }

  /** Voltage below which the buck is switched back on. */
  function BuckRecoveryVoltage(cfg: Config): int {
    cfg.swelling.highTempFloat - cfg.swelling.buckRecoveryMargin
  }

  /** WARM with good health, charging off or buck off, and the voltage
      down to the recharge level: charging resumes and the safety timer
      restarts. */
  predicate WarmRecharge(zone: Zone, health: Health, voterStatus: ChgMode, voltageNow: int, cfg: Config) {
    zone == Warm && health == HealthGood && (voterStatus == ChargingOff || voterStatus == BuckOff) &&
    voltageNow <= cfg.swelling.swellingHighRechgVoltage
  }

  /** The votes issued on a tick that keeps the zone. `voterStatus` is the
      swelling voter's charge-enable mode read back from the arbiter and
      `fullCharged` the full-charge check. */
  function SteadyBundle(zone: Zone, health: Health, voterStatus: ChgMode, voltageNow: int, fullCharged: bool,
                        cfg: Config): Votes
  {
    var vRef := BuckRecoveryVoltage(cfg);
    match zone
    case Overheat =>
      if health == HealthOverheat && voterStatus == BuckOff && voltageNow < vRef then
        map[(Chgen, Swelling) := OnMode(ChargingOff)]
      else map[]
    case Warm =>
      if health != HealthGood then map[]
      else if voterStatus == Charging then
        (if fullCharged then map[(Chgen, Swelling) := OnMode(ChargingOff)] else map[])
      else if WarmRecharge(zone, health, voterStatus, voltageNow, cfg) then
        map[(Fv, Swelling) := On(cfg.swelling.highTempFloat), (Chgen, FullCharge) := OFF,
            (Chgen, Swelling) := OnMode(Charging)]
      else if voterStatus == BuckOff && voltageNow < vRef then
        map[(Chgen, Swelling) := OnMode(ChargingOff)]
      else map[]
    case _ => map[]
  }

  /** What a steady tick votes: nothing outside OVERHEAT and WARM, and
      nothing in WARM with bad health; only the swelling and full-charge
      voters; the charge-enable ballot is charging off, or charging again
      in WARM; in OVERHEAT the buck comes back on (charging off) exactly
      when the health is OVERHEAT, the buck is off and the voltage is below
      the recovery voltage; a WARM recharge restores the float voltage,
      lifts the full-charge vote and resumes charging; otherwise a WARM
      buck-off below the recovery voltage turns the buck back on; a full
      charge in WARM turns charging off. */
  lemma SteadyBundleShape(zone: Zone, health: Health, voterStatus: ChgMode, voltageNow: int, fullCharged: bool,
                          cfg: Config)
    ensures var b := SteadyBundle(zone, health, voterStatus, voltageNow, fullCharged, cfg);
      && (zone != Overheat && zone != Warm ==> b == map[])
      && (forall k :: k in b ==> k.1 == Swelling || k.1 == FullCharge)
      && ((Chgen, Swelling) in b ==>
            b[(Chgen, Swelling)] == OnMode(ChargingOff) || (zone == Warm && b[(Chgen, Swelling)] == OnMode(Charging)))
      && (zone == Overheat ==>
            (b != map[] <==> health == HealthOverheat && voterStatus == BuckOff && voltageNow < BuckRecoveryVoltage(cfg)))
      && (zone == Overheat && b != map[] ==> b == map[(Chgen, Swelling) := OnMode(ChargingOff)])
      && (zone == Warm && health != HealthGood ==> b == map[])
      && (WarmRecharge(zone, health, voterStatus, voltageNow, cfg) ==>
            && b.Keys == {(Chgen, Swelling), (Chgen, FullCharge), (Fv, Swelling)}
            && b[(Chgen, Swelling)] == OnMode(Charging)
            && b[(Chgen, FullCharge)] == OFF
            && b[(Fv, Swelling)] == On(cfg.swelling.highTempFloat))
      && (zone == Warm && health == HealthGood && voterStatus == Charging ==>
            b == if fullCharged then map[(Chgen, Swelling) := OnMode(ChargingOff)] else map[])
      && ((zone == Warm && health == HealthGood && voterStatus == BuckOff &&
           !WarmRecharge(zone, health, voterStatus, voltageNow, cfg) && voltageNow < BuckRecoveryVoltage(cfg)) ==>
            b == map[(Chgen, Swelling) := OnMode(ChargingOff)])
      && ((zone == Warm && health == HealthGood && voterStatus != Charging &&
           !WarmRecharge(zone, health, voterStatus, voltageNow, cfg) &&
           !(voterStatus == BuckOff && voltageNow < BuckRecoveryVoltage(cfg))) ==>
            b == map[])
  {
  }

  /** The dual-battery supplement-mode request issued when charging in
      WARM reaches full. */
  function SteadyRequests(zone: Zone, health: Health, voterStatus: ChgMode, fullCharged: bool, dualBattery: bool): (rs: seq<Request>)
    ensures rs == [] || rs == [DualBatteryChargingEnabled]
    ensures rs != [] <==> zone == Warm && health == HealthGood && voterStatus == Charging && fullCharged && dualBattery
  {
    if zone == Warm && health == HealthGood && voterStatus == Charging && fullCharged && dualBattery
    then [DualBatteryChargingEnabled] else []
  }
}
