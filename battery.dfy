/** The battery record and the thermal checks that update it in place:
    the threshold setter, the USB-connector monitor, the thermal-zone tick
    and the six charge-source limiters. */
module BatteryThermal {
  import opened ThermalTypes
  import opened Readings
  import opened Zones
  import Debounce
  import UsbMonitor
  import opened Swelling
  import opened Limiters

  /** The zone machine's part of the battery record: committed zone,
      debounce counter, health-change flag, health, charging status,
      swelling event, thresholds, safety timer, USB monitor state, votes
      and requests. */
  datatype ZoneMachine = ZoneMachine(zone: Zone, count: int, healthChange: bool, health: Health,
                                     status: ChargingStatus, swellingEvent: SwellingEvent,
                                     thresholds: Thresholds, expiredTime: int, prevSafetyTime: int,
                                     usb: UsbThm, votes: Votes, requests: seq<Request>)

  class Battery {
    /** Platform data, fixed at probe time. */
    const pdata: Config

    // Readings and status kept up to date by the rest of the driver.
    var temperature: int
    var blktTemp: int
    var chgTemp: int
    var dchgTemp: int
    var usbTemp: int
    var wpcTemp: int
    var subBatTemp: int
    var cable: Cable
    /** The wire status is a PD APDO type. */
    var wireStatusApdo: bool
    /** The PD source currently runs an APDO. */
    var nowIsApdo: bool
    var pdicPsRdy: bool
    var siopLevel: int
    var lcdStatus: bool
    var inputVoltage: int
    var maxChargePower: int
    var voltageNow: int
    var capacity: int
    var wcTxEnable: bool
    var unoEn: bool
    var sleepMode: bool
    var skipSwelling: bool
    var wpcMaxVoutLevel: int
    var wc20RxPower: int
    /** The ISDB and vout-lock bits of the current event. */
    var isdbEvent: bool
    var voutLockEvent: bool
    var overheatlimitThreshold: int
    var overheatlimitRecovery: int
    var usbProtectionTemp: int
    var tempGapBatUsb: int

    // State the thermal core owns.
    var status: ChargingStatus
    var health: Health
    var thermalZone: Zone
    var batThmCount: int
    var usbThmStatus: UsbThm
    var healthChange: bool
    /** The six zone boundaries in force. */
    var thresholds: Thresholds
    var mixLimit: bool
    var chgLimit: bool
    var txRetryCase: set<TxRetry>
    var expiredTime: int
    var prevSafetyTime: int
    var wpcVoutLevel: int
    /** The swelling-mode bits of the current event. */
    var swellingEvent: SwellingEvent
    /** The skip-heating-control bit of the current event. */
    var skipHeatingControl: bool
    /** The last ballot of every voter on every channel. */
    var votes: Votes
    /** Requests issued to other parts of the driver, oldest first. */
    var requests: seq<Request>

    /** The invariant every check keeps: the wireless step tables are
        sized alike, the debounce counter stays below the needed count (or
        at zero), and GAP_OVER only occurs with the connector-overheat
        feature. */
    predicate Valid()
      reads this`batThmCount, this`usbThmStatus
    {
      && StepTablesSized(pdata.wpc)
      && 0 <= batThmCount && (batThmCount == 0 || batThmCount < pdata.tempCheckCount)
      && (usbThmStatus == UsbGapOver ==> pdata.features.preventUsbConnOverheat)
    }

    /** A freshly probed battery: NORMAL zone, thresholds for NORMAL, no
        latch, no vote. */
    constructor (pdata: Config, cable: Cable)
      requires StepTablesSized(pdata.wpc)
      ensures Valid()
      ensures this.pdata == pdata && this.cable == cable
      ensures thermalZone == Normal && batThmCount == 0 && usbThmStatus == UsbNormal
      ensures thresholds == ThresholdsFor(pdata, cable, Normal)
      ensures !mixLimit && !chgLimit && txRetryCase == {} && votes == map[] && requests == []
    {
      this.pdata := pdata;
      this.cable := cable;
      thresholds := ThresholdsFor(pdata, cable, Normal);
      thermalZone := Normal;
      batThmCount := 0;
      usbThmStatus := UsbNormal;
      health := HealthGood;
      status := StatusDischarging;
      mixLimit, chgLimit := false, false;
      txRetryCase := {};
      swellingEvent := NoSwelling;
      votes := map[];
      requests := [];
    }

    /** One voter's ballot on one channel, replacing its previous one. */
    method Vote(ch: Channel, v: Voter, b: Ballot)
      modifies this`votes
      ensures votes == old(votes) + map[(ch, v) := b]
    {
      votes := votes[(ch, v) := b];
    }

    method Issue(r: Request)
      modifies this`requests
      ensures requests == old(requests) + [r]
    {
      requests := requests + [r];
    }

    // ------------------------------------------------------ thresholds

    /** Loads the breakpoint table of `c` and shifts the boundaries next
        to the current zone by the hysteresis. */
    method SetThreshold(c: Cable)
      modifies this`thresholds
      ensures thresholds == ThresholdsFor(pdata, c, thermalZone)
    {
      var t := if c.wirelessFake then pdata.wirelessTable else pdata.wireTable;
      match thermalZone {
        case OverheatLimit =>
          t := t.(warmOverheat := t.warmOverheat - HYSTERESIS, normalWarm := t.normalWarm - HYSTERESIS);
        case Overheat =>
          t := t.(warmOverheat := t.warmOverheat - HYSTERESIS, normalWarm := t.normalWarm - HYSTERESIS);
        case Warm =>
          t := t.(normalWarm := t.normalWarm - HYSTERESIS);
        case Cool1 =>
          t := t.(cool1Normal := t.cool1Normal + HYSTERESIS);
        case Cool2 =>
          t := t.(cool2Cool1 := t.cool2Cool1 + HYSTERESIS, cool1Normal := t.cool1Normal + HYSTERESIS);
        case Cool3 =>
          t := t.(cool3Cool2 := t.cool3Cool2 + HYSTERESIS, cool2Cool1 := t.cool2Cool1 + HYSTERESIS,
                  cool1Normal := t.cool1Normal + HYSTERESIS);
        case Cold =>
          t := t.(coldCool3 := t.coldCool3 + HYSTERESIS, cool3Cool2 := t.cool3Cool2 + HYSTERESIS,
                  cool2Cool1 := t.cool2Cool1 + HYSTERESIS, cool1Normal := t.cool1Normal + HYSTERESIS);
        case Normal =>
      }
      thresholds := t;
    }

    // ----------------------------------------------------- USB monitor

    /** The readings the USB monitor works on; with the USB check type
        NONE the USB reading is the battery reading. */
    function UsbReadingNow(): UsbMonitor.UsbReading
      reads this`usbTemp, this`temperature, this`subBatTemp
    {
      UsbMonitor.UsbReading(if pdata.usbTempCheck then usbTemp else temperature, temperature, subBatTemp)
    }

    /** The monitor step the current state and readings call for. */
    function UsbStepNow(): UsbMonitor.UsbStep
      reads this`usbThmStatus, this`usbTemp, this`temperature, this`subBatTemp,
            this`overheatlimitThreshold, this`overheatlimitRecovery, this`usbProtectionTemp, this`tempGapBatUsb
    {
      UsbMonitor.Next(pdata.features.preventUsbConnOverheat, pdata.features.dualBattery, usbThmStatus,
                      UsbReadingNow(),
                      UsbMonitor.UsbLimits(overheatlimitThreshold, overheatlimitRecovery, usbProtectionTemp, tempGapBatUsb))
    }

    /** One step of the USB-connector monitor; the result says whether it
        asks for OVERHEATLIMIT. */
    method UsbThmOverheatLimit() returns (over: bool)
      modifies this`usbTemp, this`usbThmStatus
      ensures usbTemp == old(UsbReadingNow()).usbTemp
      ensures UsbMonitor.UsbStep(usbThmStatus, over) == old(UsbStepNow())
      ensures usbThmStatus == UsbGapOver ==> pdata.features.preventUsbConnOverheat
    {
      if !pdata.usbTempCheck {
        usbTemp := temperature;
      }
      var prevent := pdata.features.preventUsbConnOverheat;
      if usbThmStatus == UsbNormal {
        var gap := 0;
        if prevent {
          var batThm := temperature;
          if pdata.features.dualBattery && temperature > subBatTemp {
            batThm := subBatTemp;
          }
          if usbTemp > batThm {
            gap := usbTemp - batThm;
          }
        }
        if usbTemp >= overheatlimitThreshold {
          usbThmStatus := UsbOverheatLimit;
          return true;
        } else if prevent && usbTemp >= usbProtectionTemp && gap >= tempGapBatUsb {
          usbThmStatus := UsbGapOver;
          return true;
        } else {
          usbThmStatus := UsbNormal;
          return false;
        }
      } else if usbThmStatus == UsbOverheatLimit {
        if usbTemp <= overheatlimitRecovery {
          usbThmStatus := UsbNormal;
          return false;
        } else {
          return true;
        }
      } else if prevent && usbThmStatus == UsbGapOver {
        if usbTemp < usbProtectionTemp {
          usbThmStatus := UsbNormal;
          return false;
        } else {
          return true;
        }
      } else {
        usbThmStatus := UsbNormal;
        return false;
      }
    }

    // ---------------------------------------------------- thermal zone

    /** Thermal control is stopped: the battery discharges or swelling
        control is skipped. */
    predicate Stopped()
      reads this`status, this`skipSwelling
    {
      status == StatusDischarging || skipSwelling
    }

    /** The battery reading the classifier uses. */
    function BatThm(): int
      reads this`temperature, this`subBatTemp
    {
      PriorityTemp(pdata.features.dualBattery && pdata.subBatTempCheck, temperature, subBatTemp)
    }

    /** The zone this tick's readings call for. */
    function TickCandidate(): Zone
      reads this`usbThmStatus, this`usbTemp, this`temperature, this`subBatTemp,
            this`overheatlimitThreshold, this`overheatlimitRecovery, this`usbProtectionTemp, this`tempGapBatUsb,
            this`thresholds
    {
      Candidate(UsbStepNow().over, BatThm(), thresholds)
    }

    /** The committed zone and the debounce counter. */
    function DebounceState(): Debounce.Gate
      reads this`thermalZone, this`batThmCount
    {
      Debounce.Gate(thermalZone, batThmCount)
    }

    /** Stops thermal control: back to NORMAL with every swelling vote
        withdrawn and the NORMAL thresholds. */
    method Stop()
      requires Valid()
      modifies this`healthChange, this`thermalZone, this`votes, this`swellingEvent,
               this`thresholds
      ensures Valid()
      ensures !healthChange && thermalZone == Normal && swellingEvent == NoSwelling
      ensures votes == old(votes) + StopBundle()
      ensures thresholds == ThresholdsFor(pdata, cable, Normal)
    {
      healthChange := false;
      thermalZone := Normal;
      votes := votes + StopBundle();
      swellingEvent := NoSwelling;
      SetThreshold(cable);
    }

    /** What the transition handler leaves, given the charging status,
        votes, requests and USB monitor state it started from. */
    predicate EnteredZone(status0: ChargingStatus, votes0: Votes, requests0: seq<Request>, usb0: UsbThm,
                          ivResult: int, lpMode: bool)
      reads this`thermalZone, this`votes, this`health, this`status, this`swellingEvent, this`requests,
            this`usbThmStatus, this`cable, this`voltageNow, this`wcTxEnable, this`unoEn, this`capacity
    {
      && votes == votes0 + ZoneBundle(thermalZone, pdata, cable, voltageNow, wcTxEnable || unoEn, ivResult)
      && health == ZoneHealth(thermalZone)
      && status == ZoneStatus(thermalZone, status0, capacity, pdata.features.enableFullBySoc)
      && swellingEvent == ZoneSwellingEvent(thermalZone)
      && requests == requests0 + EmergencyRequests(thermalZone, lpMode, pdata.features.muicNotifier, cable.pdWire)
      && usbThmStatus == if thermalZone == OverheatLimit then usb0 else UsbNormal
    }

    /** The transition handler for a newly committed zone: the zone's
        vote bundle, the emergency port actions of OVERHEATLIMIT, then
        health, swelling event and charging status. `ivResult` is the
        arbitrated input-voltage vote and `lpMode` the low-power
        (power-off charging) mode. */
    method EnterZone(ivResult: int, lpMode: bool)
      requires Valid()
      modifies this`usbThmStatus, this`swellingEvent, this`votes, this`health, this`status, this`requests
      ensures Valid()
      ensures EnteredZone(old(status), old(votes), old(requests), old(usbThmStatus), ivResult, lpMode)
    {
      SetZoneHealth();
      SetZoneStatus();
      IssueEmergency(lpMode);
      ApplyZoneVotes(ivResult);
    }

    /** The zone's vote bundle. */
    method ApplyZoneVotes(ivResult: int)
      requires Valid()
      modifies this`votes
      ensures Valid()
      ensures votes == old(votes) + ZoneBundle(thermalZone, pdata, cable, voltageNow, wcTxEnable || unoEn, ivResult)
    {
      var bundle := ZoneBundle(thermalZone, pdata, cable, voltageNow, wcTxEnable || unoEn, ivResult);
      votes := votes + bundle;
    }

    /** The emergency port actions of OVERHEATLIMIT outside low-power mode. */
    method IssueEmergency(lpMode: bool)
      modifies this`requests
      ensures requests == old(requests) + EmergencyRequests(thermalZone, lpMode, pdata.features.muicNotifier, cable.pdWire)
    {
      if thermalZone == OverheatLimit && !lpMode {
        if pdata.features.muicNotifier {
          Issue(HiccupMode);
        }
        if cable.pdWire {
          Issue(CcOpen);
        }
      }
    }

    /** Health, swelling event and USB monitor reset on entering a zone;
        every zone but OVERHEATLIMIT puts the USB monitor back to NORMAL. */
    method SetZoneHealth()
      modifies this`usbThmStatus, this`swellingEvent, this`health
      ensures health == ZoneHealth(thermalZone)
      ensures swellingEvent == ZoneSwellingEvent(thermalZone)
      ensures usbThmStatus == if thermalZone == OverheatLimit then old(usbThmStatus) else UsbNormal
    {
      swellingEvent := NoSwelling;
      match thermalZone {
        case OverheatLimit =>
          health := HealthOverheatLimit;
        case Overheat =>
          usbThmStatus := UsbNormal;
          swellingEvent := HighTempSwelling;
          health := HealthOverheat;
        case Warm =>
          usbThmStatus := UsbNormal;
          swellingEvent := HighTempSwelling;
          health := HealthGood;
        case Cool1 =>
          usbThmStatus := UsbNormal;
          swellingEvent := LowTempCool1;
          health := HealthGood;
        case Cool2 =>
          usbThmStatus := UsbNormal;
          swellingEvent := LowTempCool2;
          health := HealthGood;
        case Cool3 =>
          usbThmStatus := UsbNormal;
          swellingEvent := LowTempCool3;
          health := HealthGood;
        case Cold =>
          usbThmStatus := UsbNormal;
          swellingEvent := LowTempCool3;
          health := HealthCold;
        case Normal =>
          usbThmStatus := UsbNormal;
          health := HealthGood;
      }
    }

    /** The charging status on entering a zone. */
    method SetZoneStatus()
      modifies this`status
      ensures status == ZoneStatus(thermalZone, old(status), capacity, pdata.features.enableFullBySoc)
    {
      if thermalZone == OverheatLimit || thermalZone == Overheat || thermalZone == Cold {
        status := StatusNotCharging;
      } else if Rank(Cool3) <= Rank(thermalZone) <= Rank(Warm) {
        if pdata.features.enableFullBySoc {
          if capacity >= 100 || status == StatusFull {
            status := StatusFull;
          } else {
            status := StatusCharging;
          }
        } else if status != StatusFull {
          status := StatusCharging;
        }
      }
    }

    /** What the steady-state handler leaves, given the votes, requests
        and safety timer it started from. */
    predicate SteadyHandled(votes0: Votes, requests0: seq<Request>, expired0: int, safety0: int,
                            voterStatus: ChgMode, fullCharged: bool)
      reads this`healthChange, this`votes, this`requests, this`expiredTime, this`prevSafetyTime,
            this`thermalZone, this`health, this`voltageNow
    {
      && !healthChange
      && votes == votes0 + SteadyBundle(thermalZone, health, voterStatus, voltageNow, fullCharged, pdata)
      && requests == requests0 + SteadyRequests(thermalZone, health, voterStatus, fullCharged, pdata.features.dualBattery)
      && if WarmRecharge(thermalZone, health, voterStatus, voltageNow, pdata)
         then expiredTime == pdata.expiredTime && prevSafetyTime == 0
         else expiredTime == expired0 && prevSafetyTime == safety0
    }

    /** The handler for a tick that keeps the zone: buck recovery in
        OVERHEAT and WARM, full-charge stop and recharge in WARM.
        `voterStatus` is the swelling voter's charge-enable mode read back
        from the arbiter and `fullCharged` the full-charge check. */
    method SteadyState(voterStatus: ChgMode, fullCharged: bool)
      requires Valid()
      modifies this`healthChange, this`votes, this`requests, this`expiredTime, this`prevSafetyTime
      ensures Valid()
      ensures SteadyHandled(old(votes), old(requests), old(expiredTime), old(prevSafetyTime), voterStatus, fullCharged)
    {
      healthChange := false;
      var bundle := SteadyBundle(thermalZone, health, voterStatus, voltageNow, fullCharged, pdata);
      votes := votes + bundle;
      if WarmRecharge(thermalZone, health, voterStatus, voltageNow, pdata) {
        expiredTime := pdata.expiredTime;
        prevSafetyTime := 0;
      }
      if thermalZone == Warm && health == HealthGood && voterStatus == Charging && fullCharged &&
         pdata.features.dualBattery {
        Issue(DualBatteryChargingEnabled);
      }
    }

    /** The zone machine's part of the battery record. */
    function MachineNow(): ZoneMachine
      reads this`thermalZone, this`batThmCount, this`healthChange, this`health, this`status,
            this`swellingEvent, this`thresholds, this`expiredTime, this`prevSafetyTime, this`usbThmStatus,
            this`votes, this`requests
    {
      ZoneMachine(thermalZone, batThmCount, healthChange, health, status, swellingEvent, thresholds,
                  expiredTime, prevSafetyTime, usbThmStatus, votes, requests)
    }

    /** What settling `candidate` leaves, given the zone machine `m` it
        started from:
        - a candidate equal to the zone gets the steady-state handler;
        - a deferred candidate only counts one more stray tick;
        - a committed zone gets the thresholds of the new zone, a fresh
          safety timer and its transition handler. */
    predicate Settled(candidate: Zone, m: ZoneMachine, ivResult: int, voterStatus: ChgMode, fullCharged: bool,
                      lpMode: bool)
      reads this
    {
      if candidate == m.zone then
        && SteadyHandled(m.votes, m.requests, m.expiredTime, m.prevSafetyTime, voterStatus, fullCharged)
        && (thermalZone, batThmCount, health, status, swellingEvent, thresholds, usbThmStatus)
           == (m.zone, m.count, m.health, m.status, m.swellingEvent, m.thresholds, m.usb)
      else if m.count + 1 < pdata.tempCheckCount then
        MachineNow() == m.(count := m.count + 1)
      else
        && thermalZone == candidate && batThmCount == 0
        && healthChange && expiredTime == pdata.expiredTime && prevSafetyTime == 0
        && thresholds == ThresholdsFor(pdata, cable, thermalZone)
        && EnteredZone(m.status, m.votes, m.requests, m.usb, ivResult, lpMode)
    }

    /** Settling is the debounce gate's step: the committed zone and the
        counter move exactly as `Debounce.Step` says. */
    lemma SettledIsDebounceStep(candidate: Zone, m: ZoneMachine, ivResult: int, voterStatus: ChgMode,
                                fullCharged: bool, lpMode: bool)
      requires Settled(candidate, m, ivResult, voterStatus, fullCharged, lpMode)
      ensures DebounceState() == Debounce.Step(Debounce.Gate(m.zone, m.count), candidate, pdata.tempCheckCount)
    {
    }

    /** What a running tick does (battery check type other than NONE):
        the USB monitor steps, and the debounce gate settles the candidate
        of the readings from the zone machine with the monitor's new
        state. */
    twostate predicate Ticked(ivResult: int, voterStatus: ChgMode, fullCharged: bool, lpMode: bool)
      reads this
    {
      && usbTemp == old(UsbReadingNow()).usbTemp
      && Settled(old(TickCandidate()), old(MachineNow()).(usb := old(UsbStepNow()).status),
                 ivResult, voterStatus, fullCharged, lpMode)
    }

    /** One thermal tick. Stopped control resets to NORMAL; with the
        battery check type NONE nothing happens; otherwise the tick runs
        (see `Ticked`). `ivResult` is the arbitrated input-voltage vote,
        `voterStatus` the swelling voter's charge-enable mode read back
        from the arbiter, `fullCharged` the full-charge check and `lpMode`
        the low-power (power-off charging) mode. */
    method ThermalCheck(ivResult: int, voterStatus: ChgMode, fullCharged: bool, lpMode: bool)
      requires Valid()
      modifies this`healthChange, this`thermalZone, this`batThmCount, this`usbTemp, this`usbThmStatus,
               this`expiredTime, this`prevSafetyTime, this`swellingEvent, this`votes, this`health,
               this`status, this`requests,
               this`thresholds
      ensures Valid()
      ensures old(Stopped()) ==>
        && !healthChange && thermalZone == Normal && swellingEvent == NoSwelling
        && votes == old(votes) + StopBundle()
        && thresholds == ThresholdsFor(pdata, cable, Normal)
        && batThmCount == old(batThmCount) && usbThmStatus == old(usbThmStatus)
        && health == old(health) && status == old(status) && requests == old(requests)
        && usbTemp == old(usbTemp) && expiredTime == old(expiredTime) && prevSafetyTime == old(prevSafetyTime)
      ensures !old(Stopped()) && !pdata.tempCheck ==> unchanged(this)
      ensures !old(Stopped()) && pdata.tempCheck ==> Ticked(ivResult, voterStatus, fullCharged, lpMode)
    {
      if Stopped() {
        Stop();
        return;
      }
      if !pdata.tempCheck {
        return;
      }
      Tick(ivResult, voterStatus, fullCharged, lpMode);
    }

    /** A running tick: the USB monitor, then the debounce gate. */
    method Tick(ivResult: int, voterStatus: ChgMode, fullCharged: bool, lpMode: bool)
      requires Valid()
      modifies this`healthChange, this`thermalZone, this`batThmCount, this`usbTemp, this`usbThmStatus,
               this`expiredTime, this`prevSafetyTime, this`swellingEvent, this`votes, this`health,
               this`status, this`requests,
               this`thresholds
      ensures Valid()
      ensures Ticked(ivResult, voterStatus, fullCharged, lpMode)
    {
      var batThm := BatThm();
      var over := UsbThmOverheatLimit();
      var candidate := Candidate(over, batThm, thresholds);
      Settle(candidate, ivResult, voterStatus, fullCharged, lpMode);
    }

    /** The debounce gate on a zone candidate and the handler it selects. */
    method Settle(candidate: Zone, ivResult: int, voterStatus: ChgMode, fullCharged: bool, lpMode: bool)
      requires Valid()
      modifies this`healthChange, this`thermalZone, this`batThmCount, this`usbThmStatus,
               this`expiredTime, this`prevSafetyTime, this`swellingEvent, this`votes, this`health,
               this`status, this`requests,
               this`thresholds
      ensures Valid()
      ensures Settled(candidate, old(MachineNow()), ivResult, voterStatus, fullCharged, lpMode)
    {
      if candidate == thermalZone {
        SteadyState(voterStatus, fullCharged);
      } else if batThmCount + 1 < pdata.tempCheckCount {
        batThmCount := batThmCount + 1;
      } else {
        Commit(candidate, ivResult, lpMode);
      }
    }

    /** Commits a new zone: counter back to zero, a fresh safety timer,
        the thresholds of the new zone and its transition handler. */
    method Commit(candidate: Zone, ivResult: int, lpMode: bool)
      requires Valid()
      modifies this`healthChange, this`thermalZone, this`batThmCount, this`usbThmStatus,
               this`expiredTime, this`prevSafetyTime, this`swellingEvent, this`votes, this`health,
               this`status, this`requests,
               this`thresholds
      ensures Valid()
      ensures thermalZone == candidate && batThmCount == 0 && healthChange
      ensures expiredTime == pdata.expiredTime && prevSafetyTime == 0
      ensures thresholds == ThresholdsFor(pdata, cable, thermalZone)
      ensures EnteredZone(old(status), old(votes), old(requests), old(usbThmStatus), ivResult, lpMode)
    {
      Restart(candidate);
      EnterZone(ivResult, lpMode);
    }

    /** The bookkeeping of a commit: the zone itself, the health-change
        flag, the debounce counter back to zero, a fresh safety timer and
        the thresholds of the new zone. */
    method Restart(candidate: Zone)
      modifies this`healthChange, this`thermalZone, this`batThmCount, this`expiredTime, this`prevSafetyTime,
               this`thresholds
      ensures thermalZone == candidate && batThmCount == 0 && healthChange
      ensures expiredTime == pdata.expiredTime && prevSafetyTime == 0
      ensures thresholds == ThresholdsFor(pdata, cable, thermalZone)
    {
      thermalZone := candidate;
      healthChange := true;
      batThmCount := 0;
      expiredTime := pdata.expiredTime;
      prevSafetyTime := 0;
      SetThreshold(cable);
    }

    // ------------------------------------------------- charge limiters

    /** The direct charger runs on an APDO source (direct charging only). */
    predicate ApdoStatus()
      reads this`wireStatusApdo, this`nowIsApdo
    {
      pdata.features.directCharging && wireStatusApdo && nowIsApdo
    }

    /** The mix check's inputs, read from the battery. */
    function MixTemp(): int
      reads this`blktTemp, this`temperature
    {
      if pdata.blktTempCheck then blktTemp else temperature
    }

    function MixChgTemp(): int
      reads this`wireStatusApdo, this`nowIsApdo, this`dchgTemp, this`chgTemp
    {
      if ApdoStatus() then dchgTemp else chgTemp
    }

    predicate MixGateNow()
      reads this`siopLevel, this`lcdStatus, this`cable
    {
      MixGate(siopLevel, lcdStatus, cable)
    }

    /** The path of the mix check that computes the input current, which
        divides by the float-voltage conversion and by 90% of the bus
        voltage. */
    predicate MixDivides()
      reads this
    {
      MixNext(mixLimit, MixGateNow(), MixTemp(), MixChgTemp(), pdata.mix) &&
      !(pdata.blktTempCheck && ApdoStatus() && !mixLimit)
    }

    /** What the mix check calls for in the current state. */
    function MixNow(): MixOutcome
      reads this
      requires MixDivides() ==> pdata.mix.chgFloatVoltageConv != 0 && CDiv(inputVoltage * 9, 10) != 0
    {
      MixCheck(mixLimit, MixGateNow(), MixTemp(), MixChgTemp(), pdata.blktTempCheck && ApdoStatus(),
               pdata.features.directCharging && pdata.blktTempCheck, pdata.features.wirelessTxMode && wcTxEnable,
               txRetryCase, skipHeatingControl, pdata.mix, inputVoltage)
    }

    /** The mix-temperature limiter: with both the battery and the charger
        temperature checks configured, the latch, the mix-limit input
        vote, the TX requests and retry reasons and the skip-heating bit
        follow `MixCheck`; otherwise nothing changes. */
    method CheckMixTemp()
      requires Valid()
      requires pdata.tempCheck && pdata.chgTempCheck && MixDivides() ==>
        pdata.mix.chgFloatVoltageConv != 0 && CDiv(inputVoltage * 9, 10) != 0
      modifies this`mixLimit, this`votes, this`requests, this`txRetryCase, this`skipHeatingControl
      ensures Valid()
      ensures !(pdata.tempCheck && pdata.chgTempCheck) ==>
        && mixLimit == old(mixLimit) && votes == old(votes) && requests == old(requests)
        && txRetryCase == old(txRetryCase) && skipHeatingControl == old(skipHeatingControl)
      ensures pdata.tempCheck && pdata.chgTempCheck ==>
        && mixLimit == old(MixNow()).latched
        && votes == old(votes) + old(MixNow()).votes
        && requests == old(requests) + old(MixNow()).requests
        && txRetryCase == old(MixNow()).retry
        && skipHeatingControl == old(MixNow()).skipHeating
    {
      if !pdata.tempCheck || !pdata.chgTempCheck {
        return;
      }
      ghost var o := MixNow();
      ghost var refresh := if pdata.features.directCharging && pdata.blktTempCheck then [RefreshVote(Fcc)] else [];
      var temp := temperature;
      if pdata.blktTempCheck {
        temp := blktTemp;
      }
      var apdo := pdata.features.directCharging && wireStatusApdo && nowIsApdo;
      var chg := if apdo then dchgTemp else chgTemp;
      if siopLevel >= 100 && !lcdStatus && cable.notWireless {
        if (!mixLimit && temp >= pdata.mix.highTemp && chg >= pdata.mix.highChgTemp) ||
           (mixLimit && temp > pdata.mix.highTempRecovery) {
          if pdata.blktTempCheck && apdo && !mixLimit {
            // switching from the direct to the switching charger
            assert o == MixOutcome(true, map[], [RefreshVote(Fcc)], txRetryCase, skipHeatingControl);
            mixLimit := true;
            Issue(RefreshVote(Fcc));
            return;
          }
          ghost var txOn := pdata.features.wirelessTxMode && wcTxEnable;
          assert o == MixOutcome(true, map[(Input, MixLimit) := On(MixInputCurrent(pdata.mix, inputVoltage))],
                                 if txOn then [SetTxEvent(TxHighTemp), SetTxEnable(false)] else [],
                                 if txOn then txRetryCase + {RetryMixTemp} else txRetryCase, true);
          MixEngage();
        } else if mixLimit {
          ghost var rest := txRetryCase - {RetryMixTemp};
          assert o == MixOutcome(false, map[(Input, MixLimit) := OFF],
                                 refresh + (if RetryMixTemp in txRetryCase && rest == {} then [SetTxEvent(TxRetryEvent)] else []),
                                 rest, skipHeatingControl);
          MixRelease(true);
        } else {
          assert o == MixOutcome(false, map[], [], txRetryCase, skipHeatingControl);
        }
      } else if mixLimit {
        assert o == MixOutcome(false, map[(Input, MixLimit) := OFF], refresh, txRetryCase, skipHeatingControl);
        MixRelease(false);
      } else {
        assert o == MixOutcome(false, map[], [], txRetryCase, skipHeatingControl);
      }
    }

    /** Engaging the mix limit: the input cap `MixInputCurrent` is voted,
        heating control is skipped, and TX mode, when on, is turned off
        with a high-temperature event and a retry reason. */
    method MixEngage()
      requires Valid()
      requires pdata.mix.chgFloatVoltageConv != 0 && CDiv(inputVoltage * 9, 10) != 0
      modifies this`mixLimit, this`votes, this`requests, this`txRetryCase, this`skipHeatingControl
      ensures Valid()
      ensures mixLimit && skipHeatingControl
      ensures votes == old(votes) + map[(Input, MixLimit) := On(MixInputCurrent(pdata.mix, inputVoltage))]
      ensures var txOn := pdata.features.wirelessTxMode && wcTxEnable;
        && requests == old(requests) + (if txOn then [SetTxEvent(TxHighTemp), SetTxEnable(false)] else [])
        && txRetryCase == if txOn then old(txRetryCase) + {RetryMixTemp} else old(txRetryCase)
    {
      var maxInput := pdata.mix.fullCheckCurrent1st + MIX_CURRENT_MARGIN;
      var input := CDiv(CDiv(pdata.mix.chgFloatVoltage, pdata.mix.chgFloatVoltageConv) * maxInput,
                        CDiv(inputVoltage * 9, 10));
      if input > maxInput {
        input := maxInput;
      }
      mixLimit := true;
      skipHeatingControl := true;
      Vote(Input, MixLimit, On(input));
      if pdata.features.wirelessTxMode && wcTxEnable {
        Issue(SetTxEvent(TxHighTemp));
        txRetryCase := txRetryCase + {RetryMixTemp};
        Issue(SetTxEnable(false));
      }
    }

    /** Releasing the mix limit: the vote is withdrawn, the fast-charge
        vote refreshed on direct-charging builds that check the blkt
        thermistor, and, when `clearRetry`, the mix retry reason is
        cleared with a retry event if it was the last one. */
    method MixRelease(clearRetry: bool)
      requires Valid()
      modifies this`mixLimit, this`votes, this`requests, this`txRetryCase
      ensures Valid()
      ensures !mixLimit
      ensures votes == old(votes) + map[(Input, MixLimit) := OFF]
      ensures requests == old(requests) +
        (if pdata.features.directCharging && pdata.blktTempCheck then [RefreshVote(Fcc)] else []) +
        (if clearRetry && RetryMixTemp in old(txRetryCase) && old(txRetryCase) - {RetryMixTemp} == {}
         then [SetTxEvent(TxRetryEvent)] else [])
      ensures txRetryCase == if clearRetry then old(txRetryCase) - {RetryMixTemp} else old(txRetryCase)
    {
      mixLimit := false;
      if pdata.features.directCharging && pdata.blktTempCheck {
        Issue(RefreshVote(Fcc));
      }
      Vote(Input, MixLimit, OFF);
      if clearRetry && RetryMixTemp in txRetryCase {
        if txRetryCase - {RetryMixTemp} == {} {
          Issue(SetTxEvent(TxRetryEvent));
        }
        txRetryCase := txRetryCase - {RetryMixTemp};
      }
    }

    /** The wireless limiter's decision in the current state. */
    function WpcNow(): WpcOutcome
      reads this`cable, this`chgLimit, this`siopLevel, this`lcdStatus, this`temperature, this`chgTemp,
            this`usbTemp, this`wpcTemp, this`wpcMaxVoutLevel, this`wc20RxPower
      requires StepTablesSized(pdata.wpc)
    {
      var wc20 := cable.id == HvWireless20;
      WpcDecide(pdata.wpc, chgLimit, siopLevel >= 100 && !lcdStatus, WpcLcdEligible(cable), cable.id == WirelessTx,
                TempByControlSource(pdata.wpc.controlSource, temperature, chgTemp, usbTemp, wpcTemp),
                TempByControlSource(pdata.wpc.lcdOnControlSource, temperature, chgTemp, usbTemp, wpcTemp),
                if wc20 then pdata.wpc.highTemp else pdata.wpc.nonWc20HighTemp,
                if wc20 then pdata.wpc.highTempRecovery else pdata.wpc.nonWc20HighTempRecovery,
                if wc20 then wpcMaxVoutLevel else VOUT_10V, wc20RxPower)
    }

    /** Whether the wireless output is forced down to the 5.5 V step: high-
        temperature swelling, an ISDB event on ISDB builds, or sleep mode. */
    predicate VoutForced()
      reads this`swellingEvent, this`isdbEvent, this`sleepMode
    {
      swellingEvent == HighTempSwelling || (pdata.features.isdbChargingControl && isdbEvent) || sleepMode
    }

    /** The output-voltage step of the wireless check in the current
        state, given the receiver's reading `rxVout`. */
    function VoutNow(rxVout: int): VoutOutcome
      reads this
      requires StepTablesSized(pdata.wpc)
    {
      VoutStep(cable.hvWireless, wpcVoutLevel, rxVout, WpcNow().vout, VoutForced(),
               voutLockEvent, WpcNow().latched, wpcMaxVoutLevel)
    }

    /** The wireless limiter on a wireless cable: the latch and the
        CHG_TEMP votes follow `WpcDecide`, the output-voltage level, the
        regulation request and the AICL vote follow `VoutStep`. `rxVout`
        is the output voltage read back from the receiver. */
    method CheckWpcTemp(rxVout: int)
      requires Valid()
      modifies this`chgLimit, this`wpcVoutLevel, this`votes, this`requests
      ensures Valid()
      ensures !(pdata.wpcTempCheck && cable.wireless) ==>
        chgLimit == old(chgLimit) && wpcVoutLevel == old(wpcVoutLevel) && votes == old(votes) && requests == old(requests)
      ensures pdata.wpcTempCheck && cable.wireless ==>
        && chgLimit == old(WpcNow()).latched
        && wpcVoutLevel == old(VoutNow(rxVout)).level
        && votes == old(votes) + AiclVotes(old(VoutNow(rxVout)).aiclOff) + WpcVotes(old(WpcNow()))
        && requests == old(requests) + old(VoutNow(rxVout)).requests
    {
      if !pdata.wpcTempCheck || !cable.wireless {
        return;
      }
      ghost var o := WpcNow();
      // The decision reads neither the recorded output level nor the
      // receiver's reading, so the level is reset from `rxVout` together
      // with the voltage step, after the decision.
      ghost var v := VoutNow(rxVout);
      var input, charging, doStep, vout := WpcDecision();
      assert v == VoutStep(cable.hvWireless, wpcVoutLevel, rxVout, vout, VoutForced(), voutLockEvent,
                           chgLimit, wpcMaxVoutLevel);
      assert WpcVotes(WpcOutcome(chgLimit, WpcClamp(input), charging, doStep, VOUT_5_5V_STEP)) == WpcVotes(o);
      FinishWpc(rxVout, input, charging, doStep, vout);
    }

    /** The input cap of a wireless check once a closed latch clamps it to
        the limit of its gate. */
    function WpcClamp(input: int): int
      reads this`chgLimit, this`siopLevel, this`lcdStatus
    {
      if !chgLimit then input
      else Min(input, if siopLevel >= 100 && !lcdStatus then pdata.wpc.inputLimitCurrent
                      else pdata.wpc.lcdOnInputLimitCurrent)
    }

    /** The rest of a wireless check once the decision is made: the
        output-voltage step towards `vout`, then the CHG_TEMP votes of the
        clamped caps. */
    method FinishWpc(rxVout: int, input: int, charging: int, doStep: bool, vout: int)
      requires Valid()
      modifies this`wpcVoutLevel, this`votes, this`requests
      ensures Valid()
      ensures var r := old(VoutStep(cable.hvWireless, wpcVoutLevel, rxVout, vout, VoutForced(), voutLockEvent,
                                    chgLimit, wpcMaxVoutLevel));
        && wpcVoutLevel == r.level
        && requests == old(requests) + r.requests
        && votes == old(votes) + AiclVotes(r.aiclOff)
                   + WpcVotes(WpcOutcome(chgLimit, WpcClamp(input), charging, doStep, VOUT_5_5V_STEP))
    {
      ApplyVout(rxVout, vout);
      var capped := input;
      if chgLimit {
        if siopLevel >= 100 && !lcdStatus && capped > pdata.wpc.inputLimitCurrent {
          capped := pdata.wpc.inputLimitCurrent;
        } else if (siopLevel < 100 || lcdStatus) && capped > pdata.wpc.lcdOnInputLimitCurrent {
          capped := pdata.wpc.lcdOnInputLimitCurrent;
        }
      }
      VoteWpcCaps(capped, charging, doStep);
    }

    /** The CHG_TEMP votes of a wireless check, from its caps. */
    method VoteWpcCaps(input: int, charging: int, doStep: bool)
      requires Valid()
      modifies this`votes
      ensures Valid()
      ensures votes == old(votes) + WpcVotes(WpcOutcome(chgLimit, input, charging, doStep, VOUT_5_5V_STEP))
    {
      if input != INT_MAX {
        votes := votes[(Input, ChgTemp) := On(input)][(Fcc, ChgTemp) := On(charging)];
      } else if doStep {
        votes := votes[(Fcc, ChgTemp) := On(charging)];
      } else {
        votes := votes[(Fcc, ChgTemp) := OFF][(Input, ChgTemp) := OFF];
      }
    }

    /** The wireless latch and caps: the latch, the charging cap
        (`INT_MAX` for none), whether a step limit applies and the target
        output level are those of `WpcDecide`; so is the input cap once a
        latched check clamps it to the limit of its gate. */
    method WpcDecision() returns (input: int, charging: int, doStep: bool, vout: int)
      requires StepTablesSized(pdata.wpc)
      modifies this`chgLimit
      ensures var o := old(WpcNow());
        && chgLimit == o.latched && charging == o.charging && doStep == o.step && vout == o.vout
        && o.input == WpcClamp(input)
    {
      input, charging, doStep := INT_MAX, INT_MAX, false;
      var high, recovery;
      if cable.id == HvWireless20 {
        vout, high, recovery := wpcMaxVoutLevel, pdata.wpc.highTemp, pdata.wpc.highTempRecovery;
      } else {
        vout, high, recovery := VOUT_10V, pdata.wpc.nonWc20HighTemp, pdata.wpc.nonWc20HighTempRecovery;
      }
      if siopLevel >= 100 && !lcdStatus {
        var t := TempByControlSource(pdata.wpc.controlSource, temperature, chgTemp, usbTemp, wpcTemp);
        if (!chgLimit && t >= high) || (chgLimit && t > recovery) {
          chgLimit := true;
          if input > pdata.wpc.inputLimitCurrent {
            if cable.id == WirelessTx && pdata.wpc.inputLimitByTxCheck {
              input := pdata.wpc.inputLimitCurrentByTx;
            } else {
              input := pdata.wpc.inputLimitCurrent;
            }
          }
          if charging > pdata.wpc.chargingLimitCurrent {
            charging := pdata.wpc.chargingLimitCurrent;
          }
          vout := VOUT_5_5V_STEP;
        } else if chgLimit {
          chgLimit := false;
        } else if t >= recovery {
          var found, i := StepLimitIndex(pdata.wpc.stepLimitTemp, t);
          if found {
            if wc20RxPower == RX_POWER_12W {
              charging := pdata.wpc.stepLimitFcc12w[i];
            } else if wc20RxPower >= RX_POWER_15W {
              charging := pdata.wpc.stepLimitFcc15w[i];
            } else {
              charging := pdata.wpc.stepLimitFcc[i];
            }
            doStep := true;
          }
        }
      } else if (cable.hvWireless && cable.id != WirelessHvVehicle) ||
                cable.id == PrepareWirelessHv || cable.id == PrepareWireless20 {
        var t := TempByControlSource(pdata.wpc.lcdOnControlSource, temperature, chgTemp, usbTemp, wpcTemp);
        if (!chgLimit && t >= pdata.wpc.lcdOnHighTemp) || (chgLimit && t > pdata.wpc.lcdOnHighTempRec) {
          if input > pdata.wpc.lcdOnInputLimitCurrent {
            input := pdata.wpc.lcdOnInputLimitCurrent;
          }
          if charging > pdata.wpc.chargingLimitCurrent {
            charging := pdata.wpc.chargingLimitCurrent;
          }
          chgLimit := true;
          vout := VOUT_5_5V_STEP;
        } else if chgLimit {
          chgLimit := false;
        }
      } else if chgLimit {
        chgLimit := false;
      }
    }

    /** Moving an HV wireless receiver to the target output level `vout`
        (or the 5.5 V step when forced): a change is requested and the
        AICL vote withdrawn unless the level is locked; an unchanged level
        at 10 V or the maximum withdraws the AICL vote while unlatched.
        A receiver reading back the 5.5 V step first resets the recorded
        level to it. */
    method ApplyVout(rxVout: int, vout: int)
      requires Valid()
      modifies this`wpcVoutLevel, this`votes, this`requests
      ensures Valid()
      ensures var r := VoutStep(cable.hvWireless, old(wpcVoutLevel), rxVout, vout, VoutForced(), voutLockEvent,
                                chgLimit, wpcMaxVoutLevel);
        && wpcVoutLevel == r.level
        && requests == old(requests) + r.requests
        && votes == old(votes) + AiclVotes(r.aiclOff)
    {
      if cable.hvWireless && rxVout == VOUT_5_5V_STEP && wpcVoutLevel != VOUT_5_5V_STEP {
        wpcVoutLevel := VOUT_5_5V_STEP;
      }
      if cable.hvWireless {
        var target := vout;
        if swellingEvent == HighTempSwelling || (pdata.features.isdbChargingControl && isdbEvent) || sleepMode {
          target := VOUT_5_5V_STEP;
        }
        if target != wpcVoutLevel {
          wpcVoutLevel := target;
          if !voutLockEvent {
            Issue(SetRxVout(target));
            Vote(Input, Aicl, OFF);
          }
        } else if (wpcVoutLevel == VOUT_10V || wpcVoutLevel == wpcMaxVoutLevel) && !chgLimit {
          Vote(Input, Aicl, OFF);
        }
      }
    }

    /** The TX temperature check (TX-mode builds only): the retry reasons
        and the issued requests follow `TxNext`. */
    method CheckTxTemperature()
      requires pdata.features.wirelessTxMode
      modifies this`txRetryCase, this`requests
      ensures txRetryCase == TxNext(wcTxEnable, old(txRetryCase), temperature, pdata.tx).retry
      ensures requests == old(requests) + TxNext(wcTxEnable, old(txRetryCase), temperature, pdata.tx).requests
    {
      if wcTxEnable {
        if temperature >= pdata.tx.highThreshold {
          Issue(SetTxEvent(TxHighTemp));
          txRetryCase := txRetryCase + {RetryHighTemp};
          Issue(SetTxEnable(false));
        } else if temperature <= pdata.tx.lowThreshold {
          Issue(SetTxEvent(TxLowTemp));
          txRetryCase := txRetryCase + {RetryLowTemp};
          Issue(SetTxEnable(false));
        }
      } else if RetryHighTemp in txRetryCase {
        if temperature <= pdata.tx.highRecovery {
          txRetryCase := txRetryCase - {RetryHighTemp};
          if txRetryCase == {} {
            Issue(SetTxEvent(TxRetryEvent));
          }
        }
      } else if RetryLowTemp in txRetryCase {
        if temperature >= pdata.tx.lowRecovery {
          txRetryCase := txRetryCase - {RetryLowTemp};
          if txRetryCase == {} {
            Issue(SetTxEvent(TxRetryEvent));
          }
        }
      }
    }

    /** The direct-charge limiter (direct-charging builds only). With the
        gate (no override, LCD off) the shared latch follows `DchgNext` and
        a closed latch re-votes the caps of the source on every check;
        without the gate nothing changes, not even a closed latch. */
    method CheckDirectChgTemp()
      requires Valid()
      requires pdata.features.directCharging
      modifies this`chgLimit, this`votes
      ensures Valid()
      ensures pdata.dchgTempCheck ==>
        chgLimit == DchgNext(old(chgLimit), siopLevel >= 100 && !lcdStatus, nowIsApdo, dchgTemp, temperature, chgTemp,
                             pdata.dchg, pdata.chg)
      ensures !(pdata.dchgTempCheck && siopLevel >= 100 && !lcdStatus) ==>
        chgLimit == old(chgLimit) && votes == old(votes)
      ensures pdata.dchgTempCheck && siopLevel >= 100 && !lcdStatus && chgLimit ==>
        votes == old(votes) + ChgTempVotes(DchgCaps(nowIsApdo, inputVoltage, pdata.voltage, pdata.dchg, pdata.chg))
      ensures old(chgLimit) && !chgLimit ==> votes == old(votes) + ChgTempOff()
      ensures !old(chgLimit) && !chgLimit ==> votes == old(votes)
    {
      if !pdata.dchgTempCheck {
        return;
      }
      if siopLevel >= 100 && !lcdStatus {
        var c: (int, int);
        if !chgLimit && nowIsApdo && (dchgTemp >= pdata.dchg.highTemp || temperature >= pdata.dchg.highBattTemp) {
          c := (pdata.dchg.inputLimitCurrent, pdata.dchg.chargingLimitCurrent);
          chgLimit := true;
          votes := votes + ChgTempVotes(c);
        } else if !chgLimit && !nowIsApdo && chgTemp >= pdata.chg.highTemp {
          if inputVoltage == pdata.voltage.v5 {
            c := (pdata.chg.defaultInputCurrent, pdata.chg.defaultChargingCurrent);
          } else {
            c := (pdata.chg.inputLimitCurrent, pdata.chg.chargingLimitCurrent);
          }
          chgLimit := true;
          votes := votes + ChgTempVotes(c);
        } else if chgLimit {
          if (dchgTemp <= pdata.dchg.highTempRecovery && temperature <= pdata.dchg.highBattTempRecovery && nowIsApdo) ||
             (chgTemp <= pdata.chg.highTempRecovery && !nowIsApdo) {
            chgLimit := false;
            votes := votes + ChgTempOff();
          } else {
            if nowIsApdo {
              c := (pdata.dchg.inputLimitCurrent, pdata.dchg.chargingLimitCurrent);
            } else if inputVoltage == pdata.voltage.v5 {
              c := (pdata.chg.defaultInputCurrent, pdata.chg.defaultChargingCurrent);
            } else {
              c := (pdata.chg.inputLimitCurrent, pdata.chg.chargingLimitCurrent);
            }
            chgLimit := true;
            votes := votes + ChgTempVotes(c);
          }
        }
      }
    }

    /** The PDIC limiter: the shared latch follows `PdicNext`; a closed
        latch votes the PDIC caps on every check and a release withdraws
        both CHG_TEMP votes. The input cap divides by the bus voltage. */
    method CheckPdicTemp()
      requires Valid()
      requires pdata.chgTempCheck && PdicGate(pdicPsRdy, siopLevel, lcdStatus) && PdicNext(chgLimit, true, chgTemp, pdata.chg) ==>
        inputVoltage != 0
      modifies this`chgLimit, this`votes
      ensures Valid()
      ensures !pdata.chgTempCheck ==> chgLimit == old(chgLimit) && votes == old(votes)
      ensures pdata.chgTempCheck ==> chgLimit == PdicNext(old(chgLimit), PdicGate(pdicPsRdy, siopLevel, lcdStatus), chgTemp, pdata.chg)
      ensures pdata.chgTempCheck && chgLimit ==>
        inputVoltage != 0 &&
        votes == old(votes) + ChgTempVotes((PdicInputCurrent(pdata.chg, pdata.voltage, inputVoltage), pdata.chg.chargingLimitCurrent))
      ensures old(chgLimit) && !chgLimit ==> votes == old(votes) + ChgTempOff()
      ensures !old(chgLimit) && !chgLimit ==> votes == old(votes)
    {
      if !pdata.chgTempCheck {
        return;
      }
      if pdicPsRdy && siopLevel >= 100 && !lcdStatus {
        if (!chgLimit && chgTemp >= pdata.chg.highTemp) || (chgLimit && chgTemp >= pdata.chg.highTempRecovery) {
          var input := CDiv(pdata.chg.inputLimitCurrent * pdata.voltage.v9, inputVoltage);
          var charging := pdata.chg.chargingLimitCurrent;
          chgLimit := true;
          votes := votes + ChgTempVotes((input, charging));
        } else if chgLimit && chgTemp <= pdata.chg.highTempRecovery {
          chgLimit := false;
          votes := votes + ChgTempOff();
        }
      } else if chgLimit {
        chgLimit := false;
        votes := votes + ChgTempOff();
      }
    }

    /** The AFC limiter: the shared latch follows `AfcNext` on the cables
        `AfcEligible` admits (HV-control builds admit high-power chargers
        besides HV wired cables); it votes its caps only when it closes and
        withdraws both CHG_TEMP votes when it opens. */
    method CheckAfcTemp()
      requires Valid()
      modifies this`chgLimit, this`votes
      ensures Valid()
      ensures !pdata.chgTempCheck ==> chgLimit == old(chgLimit) && votes == old(votes)
      ensures pdata.chgTempCheck ==>
        chgLimit == AfcNext(old(chgLimit), siopLevel >= 100 && !lcdStatus,
                            AfcEligible(pdata.features.supportHvCtrl, cable, maxChargePower, pdata.chg), chgTemp, pdata.chg)
      ensures !old(chgLimit) && chgLimit ==> votes == old(votes) + ChgTempVotes(AfcCaps(cable, pdata.chg))
      ensures old(chgLimit) && !chgLimit ==> votes == old(votes) + ChgTempOff()
      ensures chgLimit == old(chgLimit) ==> votes == old(votes)
    {
      if !pdata.chgTempCheck {
        return;
      }
      var hvPower := maxChargePower >= pdata.chg.pdChargingChargePower - PD_POWER_MARGIN;
      if siopLevel >= 100 && !lcdStatus {
        if pdata.features.supportHvCtrl {
          if !chgLimit && cable.hvWire && chgTemp >= pdata.chg.highTemp {
            var c := (pdata.chg.inputLimitCurrent, pdata.chg.chargingLimitCurrent);
            chgLimit := true;
            votes := votes + ChgTempVotes(c);
          } else if !chgLimit && hvPower && chgTemp >= pdata.chg.highTemp {
            var c := (pdata.chg.defaultInputCurrent, pdata.chg.defaultChargingCurrent);
            chgLimit := true;
            votes := votes + ChgTempVotes(c);
          } else if chgLimit && cable.hvWire {
            if chgTemp <= pdata.chg.highTempRecovery {
              chgLimit := false;
              votes := votes + ChgTempOff();
            }
          } else if chgLimit && hvPower {
            if chgTemp <= pdata.chg.highTempRecovery {
              chgLimit := false;
              votes := votes + ChgTempOff();
            }
          }
        } else {
          if (!chgLimit && cable.hvWire && chgTemp >= pdata.chg.highTemp) ||
             (chgLimit && cable.hvWire && chgTemp > pdata.chg.highTempRecovery) {
            if !chgLimit {
              var c := (pdata.chg.inputLimitCurrent, pdata.chg.chargingLimitCurrent);
              chgLimit := true;
              votes := votes + ChgTempVotes(c);
            }
          } else if chgLimit && cable.hvWire && chgTemp <= pdata.chg.highTempRecovery {
            chgLimit := false;
            votes := votes + ChgTempOff();
          }
        }
      } else if chgLimit {
        chgLimit := false;
        votes := votes + ChgTempOff();
      }
    }
  }
}
