/** The USB-connector overheat monitor (sec_usb_thm_overheatlimit) as a
    function of its state and one set of readings. */
module UsbMonitor {
  import opened ThermalTypes

  /** The monitor's limits (battery fields set up outside this core). */
  datatype UsbLimits = UsbLimits(threshold: int, recovery: int, protectionTemp: int, gapLimit: int)

  /** One tick's readings: the USB thermistor (already replaced by the
      battery reading when the USB check type is NONE), the battery and the
      sub-battery thermistors. */
  datatype UsbReading = UsbReading(usbTemp: int, temperature: int, subBatTemp: int)

  /** The monitor's next state and whether it asks for OVERHEATLIMIT. */
  datatype UsbStep = UsbStep(status: UsbThm, over: bool)

  /** How far the USB thermistor is above the battery: against the colder
      of the two battery thermistors on a dual-battery device; zero when
      the USB side is not hotter. That is the largest of zero and the
      USB reading's excess over each battery reading considered. */
  function Gap(dualBattery: bool, r: UsbReading): (g: int)
    ensures g >= 0
    ensures g >= r.usbTemp - r.temperature
    ensures dualBattery ==> g >= r.usbTemp - r.subBatTemp
    ensures g == 0 || g == r.usbTemp - r.temperature || (dualBattery && g == r.usbTemp - r.subBatTemp)
  {
    var batThm := if dualBattery && r.temperature > r.subBatTemp then r.subBatTemp else r.temperature;
    if r.usbTemp > batThm then r.usbTemp - batThm else 0
  }

  /** One step of the monitor. `prevent` is the connector-overheat
      prevention feature that adds the GAP_OVER state; without it a
      GAP_OVER status falls into the catch-all branch and resets. */
  function Next(prevent: bool, dualBattery: bool, status: UsbThm, r: UsbReading, lim: UsbLimits): (s: UsbStep)
    ensures s.over <==> s.status != UsbNormal
    ensures s.status == UsbGapOver ==> prevent
    ensures status == UsbNormal ==> (s.status == UsbOverheatLimit <==> r.usbTemp >= lim.threshold)
    ensures status == UsbNormal && s.status == UsbGapOver ==>
      r.usbTemp >= lim.protectionTemp && Gap(dualBattery, r) >= lim.gapLimit
    ensures (status == UsbNormal && prevent && r.usbTemp < lim.threshold &&
             r.usbTemp >= lim.protectionTemp && Gap(dualBattery, r) >= lim.gapLimit) ==> s.status == UsbGapOver
    ensures status == UsbOverheatLimit ==> s.status != UsbGapOver && (s.over <==> r.usbTemp > lim.recovery)
    ensures status == UsbGapOver && prevent ==>
      s.status != UsbOverheatLimit && (s.over <==> r.usbTemp >= lim.protectionTemp)
    ensures status == UsbGapOver && !prevent ==> s == UsbStep(UsbNormal, false)
  {
    match status
    case UsbNormal =>
      if r.usbTemp >= lim.threshold then UsbStep(UsbOverheatLimit, true)
      else if prevent && r.usbTemp >= lim.protectionTemp && Gap(dualBattery, r) >= lim.gapLimit then
        UsbStep(UsbGapOver, true)
      else UsbStep(UsbNormal, false)
    case UsbOverheatLimit =>
      if r.usbTemp <= lim.recovery then UsbStep(UsbNormal, false) else UsbStep(UsbOverheatLimit, true)
    case UsbGapOver =>
      if prevent then
        (if r.usbTemp < lim.protectionTemp then UsbStep(UsbNormal, false) else UsbStep(UsbGapOver, true))
      else UsbStep(UsbNormal, false)
  }

  /** The state after successive ticks. */
  function Run(prevent: bool, dualBattery: bool, status: UsbThm, rs: seq<UsbReading>, lim: UsbLimits): UsbThm
    decreases |rs|
  {
    if rs == [] then status
    else Run(prevent, dualBattery, Next(prevent, dualBattery, status, rs[0], lim).status, rs[1..], lim)
  }

  /** Once tripped at the overheat limit the monitor stays there, whatever
      the battery does, until a USB reading at or below the recovery
      temperature. */
  lemma {:induction false} OverheatLimitLatches(prevent: bool, dualBattery: bool, rs: seq<UsbReading>, lim: UsbLimits)
    requires forall i :: 0 <= i < |rs| ==> rs[i].usbTemp > lim.recovery
    ensures Run(prevent, dualBattery, UsbOverheatLimit, rs, lim) == UsbOverheatLimit
    decreases |rs|
  {
    if rs != [] {
      assert rs[0].usbTemp > lim.recovery;
      OverheatLimitLatches(prevent, dualBattery, rs[1..], lim);
    }
  }

  /** Without the gap feature, a monitor in NORMAL never trips while every
      USB reading stays below the overheat threshold. */
  lemma {:induction false} StaysNormalBelowThreshold(dualBattery: bool, rs: seq<UsbReading>, lim: UsbLimits)
    requires forall i :: 0 <= i < |rs| ==> rs[i].usbTemp < lim.threshold
    ensures Run(false, dualBattery, UsbNormal, rs, lim) == UsbNormal
    decreases |rs|
  {
    if rs != [] {
      assert rs[0].usbTemp < lim.threshold;
      StaysNormalBelowThreshold(dualBattery, rs[1..], lim);
    }
  }
}
