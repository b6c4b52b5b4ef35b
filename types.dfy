/** Vocabulary of the battery thermal core: zones, vote channels and voters,
    the cable classification the core consults, and the platform data
    (`pdata`) it reads. */
module ThermalTypes {

  /** The eight battery thermal zones, in the order of the driver's enum
      (cold to hot). */
  datatype Zone = Cold | Cool3 | Cool2 | Cool1 | Normal | Warm | Overheat | OverheatLimit

  /** Position of a zone in the enum; the driver compares zones by it. */
  function Rank(z: Zone): (r: nat)
    ensures r <= 7
    ensures r == 4 <==> z == Normal
  {
    match z
    case Cold => 0
    case Cool3 => 1
    case Cool2 => 2
    case Cool1 => 3
    case Normal => 4
    case Warm => 5
    case Overheat => 6
    case OverheatLimit => 7
  }

  /** States of the USB-connector overheat monitor. */
  datatype UsbThm = UsbNormal | UsbOverheatLimit | UsbGapOver

  /** Charge-enable modes carried by votes on the charge-enable channel. */
  datatype ChgMode = Charging | ChargingOff | BuckOff | NotSet

  /** Arbitrated channels and the voters of this core. */
  datatype Channel = Topoff | Fcc | Fv | Chgen | Iv | Input
  datatype Voter = Swelling | ChangeChgmode | MixLimit | ChgTemp | Aicl | MuicAbnormal | FullCharge

  /** A vote's value: an amount (mA, mV, V) or a charge-enable mode. */
  datatype Level = Amount(n: int) | Mode(m: ChgMode)

  /** The last vote a voter cast on a channel. */
  datatype Ballot = Ballot(on: bool, level: Level)

  /** What `sec_vote(channel, voter, false, 0)` records. */
  const OFF: Ballot := Ballot(false, Amount(0))

  function On(n: int): Ballot { Ballot(true, Amount(n)) }
  function OnMode(m: ChgMode): Ballot { Ballot(true, Mode(m)) }

  /** Last ballot per (channel, voter). */
  type Votes = map<(Channel, Voter), Ballot>

  datatype Health = HealthGood | HealthOverheat | HealthOverheatLimit | HealthCold | HealthOther

  datatype ChargingStatus = StatusCharging | StatusDischarging | StatusNotCharging | StatusFull | StatusUnknown

  /** The swelling-mode group of the current-event bits. */
  datatype SwellingEvent = NoSwelling | HighTempSwelling | LowTempCool1 | LowTempCool2 | LowTempCool3

  /** Reasons recorded in `tx_retry_case`; other bits of that mask are `RetryOther`. */
  datatype TxRetry = RetryMixTemp | RetryHighTemp | RetryLowTemp | RetryOther

  datatype TxEvent = TxHighTemp | TxLowTemp | TxRetryEvent

  /** Fire-and-forget requests the core issues to other parts of the driver. */
  datatype Request =
    | SetTxEvent(event: TxEvent)
    | SetTxEnable(enable: bool)
    | RefreshVote(channel: Channel)
    | HiccupMode
    | CcOpen
    | SetRxVout(level: int)
    | DualBatteryChargingEnabled

  /** Temperature-control source ids; any other id is `SourceOther`. */
  datatype TempSource = SourceNone | SourceBatThm | SourceChgThm | SourceUsbThm | SourceWpcThm | SourceOther(code: int)

  /** The cable types that the core tests by equality. */
  datatype CableId = HvWireless20 | WirelessTx | WirelessHvVehicle | PrepareWirelessHv | PrepareWireless20 | OtherCable

  /** A cable type together with the answers of the cable-class tests
      the core applies to it (`is_wireless_type` and friends). */
  datatype Cable = Cable(
    id: CableId,
    wireless: bool,
    wirelessFake: bool,
    notWireless: bool,
    hvWireless: bool,
    hvWire: bool,
    pdWire: bool)

  /** The six zone boundaries, coldest first. */
  datatype Thresholds = Thresholds(
    coldCool3: int,
    cool3Cool2: int,
    cool2Cool1: int,
    cool1Normal: int,
    normalWarm: int,
    warmOverheat: int)

  /** Boundaries increase from cold to hot. */
  predicate Ordered(t: Thresholds) {
    t.coldCool3 <= t.cool3Cool2 <= t.cool2Cool1 <= t.cool1Normal < t.normalWarm <= t.warmOverheat
  }

  /** THERMAL_HYSTERESIS_2 */
  const HYSTERESIS: int := 19
  /** Above this both battery readings count as hot (tenths of a degree). */
  const STANDARD_TEMP: int := 250
  const INT_MAX: int := 0x7fff_ffff
  /** Margin added to the first top-off current for the mix-temperature cap (mA). */
  const MIX_CURRENT_MARGIN: int := 50
  /** Margin below the PD charging power at which AFC limiting applies (mW). */
  const PD_POWER_MARGIN: int := 500
  /** Wireless output-voltage levels; only their distinctness matters here. */
  const VOUT_5_5V_STEP: int := 1
  const VOUT_10V: int := 2
  /** Wireless received-power classes, in increasing order. */
  const RX_POWER_12W: int := 12
  const RX_POWER_15W: int := 15

  /** Compile-time switches of the driver. */
  datatype Features = Features(
    dualBattery: bool,
    directCharging: bool,
    wirelessTxMode: bool,
    supportHvCtrl: bool,
    preventUsbConnOverheat: bool,
    isdbChargingControl: bool,
    enableFullBySoc: bool,
    muicNotifier: bool)

  datatype SwellingConfig = SwellingConfig(
    highTempFloat: int,
    lowTempFloat: int,
    swellingHighRechgVoltage: int,
    buckRecoveryMargin: int,
    fullCheckCurrent2nd: int,
    wireWarmCurrent: int,
    wirelessWarmCurrent: int,
    wireCool1Current: int,
    wirelessCool1Current: int,
    wireCool2Current: int,
    wirelessCool2Current: int,
    wireCool3Current: int,
    wirelessCool3Current: int)

  datatype MixConfig = MixConfig(
    highTemp: int,
    highChgTemp: int,
    highTempRecovery: int,
    fullCheckCurrent1st: int,
    chgFloatVoltage: int,
    chgFloatVoltageConv: int)

  datatype WpcConfig = WpcConfig(
    highTemp: int,
    highTempRecovery: int,
    nonWc20HighTemp: int,
    nonWc20HighTempRecovery: int,
    controlSource: TempSource,
    lcdOnControlSource: TempSource,
    inputLimitCurrent: int,
    inputLimitByTxCheck: bool,
    inputLimitCurrentByTx: int,
    chargingLimitCurrent: int,
    lcdOnHighTemp: int,
    lcdOnHighTempRec: int,
    lcdOnInputLimitCurrent: int,
    stepLimitTemp: seq<int>,
    stepLimitFcc: seq<int>,
    stepLimitFcc12w: seq<int>,
    stepLimitFcc15w: seq<int>)

  /** The step-limit current tables are as long as the temperature table. */
  predicate StepTablesSized(w: WpcConfig) {
    |w.stepLimitFcc| >= |w.stepLimitTemp| && |w.stepLimitFcc12w| >= |w.stepLimitTemp| &&
    |w.stepLimitFcc15w| >= |w.stepLimitTemp|
  }

  datatype TxConfig = TxConfig(highThreshold: int, lowThreshold: int, highRecovery: int, lowRecovery: int)

  datatype ChgConfig = ChgConfig(
    highTemp: int,
    highTempRecovery: int,
    inputLimitCurrent: int,
    chargingLimitCurrent: int,
    defaultInputCurrent: int,
    defaultChargingCurrent: int,
    pdChargingChargePower: int)

  datatype DchgConfig = DchgConfig(
    highTemp: int,
    highBattTemp: int,
    highTempRecovery: int,
    highBattTempRecovery: int,
    inputLimitCurrent: int,
    chargingLimitCurrent: int)

  /** Platform data. A `...Check` flag is false when the corresponding
      temperature-check type is NONE. */
  /** The codes of the 5 V and 9 V bus levels (SEC_INPUT_VOLTAGE_5V and
      SEC_INPUT_VOLTAGE_9V, defined outside this file). The bus voltage
      and the arbitrated input-voltage vote are read in the same unit, so
      the model takes the codes as configuration and assumes nothing
      about their values. */
  datatype VoltageCodes = VoltageCodes(v5: int, v9: int)

  datatype Config = Config(
    voltage: VoltageCodes,
    features: Features,
    tempCheck: bool,
    chgTempCheck: bool,
    blktTempCheck: bool,
    subBatTempCheck: bool,
    usbTempCheck: bool,
    wpcTempCheck: bool,
    dchgTempCheck: bool,
    wireTable: Thresholds,
    wirelessTable: Thresholds,
    tempCheckCount: int,
    expiredTime: int,
    swelling: SwellingConfig,
    mix: MixConfig,
    wpc: WpcConfig,
    tx: TxConfig,
    chg: ChgConfig,
    dchg: DchgConfig)
}
