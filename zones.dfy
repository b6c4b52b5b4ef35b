/** Zone boundaries with hysteresis, and the zone classifier. */
module Zones {
  import opened ThermalTypes

  /** The breakpoint table for a cable type: wireless (or fake wireless)
      cables use the wireless set, every other cable the wired set. */
  function BaseTable(cfg: Config, cable: Cable): (b: Thresholds)
    ensures cable.wirelessFake ==> b == cfg.wirelessTable
    ensures !cable.wirelessFake ==> b == cfg.wireTable
  {
    if cable.wirelessFake then cfg.wirelessTable else cfg.wireTable
  }

  /** The boundaries in force while the battery sits in `zone`
      (sec_bat_set_threshold): every boundary between the zone and NORMAL
      is moved HYSTERESIS toward NORMAL (the hot ones down, the cool ones
      up), widening the zone, so that leaving it needs a reading
      HYSTERESIS past the boundary that was crossed to enter it.
      NORMAL keeps the table as it is. */
  function ThresholdsFor(cfg: Config, cable: Cable, zone: Zone): (t: Thresholds)
    ensures var b := BaseTable(cfg, cable);
      && t.warmOverheat == b.warmOverheat - (if Rank(zone) >= Rank(Overheat) then HYSTERESIS else 0)
      && t.normalWarm == b.normalWarm - (if Rank(zone) >= Rank(Warm) then HYSTERESIS else 0)
      && t.cool1Normal == b.cool1Normal + (if Rank(zone) <= Rank(Cool1) then HYSTERESIS else 0)
      && t.cool2Cool1 == b.cool2Cool1 + (if Rank(zone) <= Rank(Cool2) then HYSTERESIS else 0)
      && t.cool3Cool2 == b.cool3Cool2 + (if Rank(zone) <= Rank(Cool3) then HYSTERESIS else 0)
      && t.coldCool3 == b.coldCool3 + (if zone == Cold then HYSTERESIS else 0)
    ensures zone == Normal ==> t == BaseTable(cfg, cable)
    ensures t.normalWarm <= BaseTable(cfg, cable).normalWarm && t.warmOverheat <= BaseTable(cfg, cable).warmOverheat
    ensures t.cool1Normal >= BaseTable(cfg, cable).cool1Normal && t.coldCool3 >= BaseTable(cfg, cable).coldCool3
  {
    var b := BaseTable(cfg, cable);
    match zone
    case OverheatLimit | Overheat =>
      b.(warmOverheat := b.warmOverheat - HYSTERESIS, normalWarm := b.normalWarm - HYSTERESIS)
    case Warm => b.(normalWarm := b.normalWarm - HYSTERESIS)
    case Cool1 => b.(cool1Normal := b.cool1Normal + HYSTERESIS)
    case Cool2 =>
      b.(cool2Cool1 := b.cool2Cool1 + HYSTERESIS, cool1Normal := b.cool1Normal + HYSTERESIS)
    case Cool3 =>
      b.(cool3Cool2 := b.cool3Cool2 + HYSTERESIS, cool2Cool1 := b.cool2Cool1 + HYSTERESIS,
         cool1Normal := b.cool1Normal + HYSTERESIS)
    case Cold =>
      b.(coldCool3 := b.coldCool3 + HYSTERESIS, cool3Cool2 := b.cool3Cool2 + HYSTERESIS,
         cool2Cool1 := b.cool2Cool1 + HYSTERESIS, cool1Normal := b.cool1Normal + HYSTERESIS)
    case Normal => b
  }

  /** The zone a battery reading falls in: the hot boundaries are tested
      first (a reading at or above normal/warm is never a cool zone), then
      the cool ones from the coldest up; each boundary belongs to the zone
      away from NORMAL. */
  function Classify(t: int, th: Thresholds): (z: Zone)
    ensures z != OverheatLimit
    ensures Rank(z) >= Rank(Warm) <==> t >= th.normalWarm
    ensures z == Overheat <==> t >= th.normalWarm && t >= th.warmOverheat
    ensures Rank(z) <= Rank(Cool1) <==> t < th.normalWarm && t <= th.cool1Normal
    ensures z == Cold <==> t < th.normalWarm && t <= th.cool1Normal && t <= th.coldCool3
    ensures z == Cool3 <==> t < th.normalWarm && t <= th.cool1Normal && th.coldCool3 < t <= th.cool3Cool2
    ensures z == Cool2 <==> t < th.normalWarm && t <= th.cool1Normal && th.coldCool3 < t && th.cool3Cool2 < t <= th.cool2Cool1
  {
    if t >= th.normalWarm then
      (if t >= th.warmOverheat then Overheat else Warm)
    else if t <= th.cool1Normal then
      (if t <= th.coldCool3 then Cold
       else if t <= th.cool3Cool2 then Cool3
       else if t <= th.cool2Cool1 then Cool2
       else Cool1)
    else Normal
  }

  /** The zone candidate of a tick: a tripped USB monitor forces
      OVERHEATLIMIT, otherwise the battery reading is classified. */
  function Candidate(usbOver: bool, t: int, th: Thresholds): (z: Zone)
    ensures usbOver <==> z == OverheatLimit
    ensures !usbOver ==> z == Classify(t, th)
  {
    if usbOver then OverheatLimit else Classify(t, th)
  }

  /** On an ordered table a hotter reading never gives a colder zone. */
  lemma ClassifyMonotone(t1: int, t2: int, th: Thresholds)
    requires Ordered(th)
    requires t1 <= t2
    ensures Rank(Classify(t1, th)) <= Rank(Classify(t2, th))
  {
  }

  /** The hysteresis never undoes a transition: a reading that moves the
      battery out of NORMAL into zone z still classifies as z against the
      boundaries recomputed for z. */
  lemma CommittedZoneSticks(cfg: Config, cable: Cable, t: int)
    requires Ordered(BaseTable(cfg, cable))
    ensures var z := Classify(t, ThresholdsFor(cfg, cable, Normal));
      Classify(t, ThresholdsFor(cfg, cable, z)) == z
  {
  }

  /** The boundary between a cool zone and the next warmer zone. */
  function UpperBoundary(b: Thresholds, z: Zone): int
    requires Rank(z) <= Rank(Cool1)
  {
    match z
    case Cold => b.coldCool3
    case Cool3 => b.cool3Cool2
    case Cool2 => b.cool2Cool1
    case Cool1 => b.cool1Normal
  }

  /** Hysteresis in both directions: out of a hot zone toward NORMAL only
      below normal/warm minus HYSTERESIS, out of OVERHEAT only below
      warm/overheat minus HYSTERESIS, and out of a cool zone toward NORMAL
      only above its upper boundary plus HYSTERESIS (when the cool shift
      does not reach the warm boundary). */
  lemma RecoveryNeedsMargin(cfg: Config, cable: Cable, z: Zone, t: int)
    requires var b := BaseTable(cfg, cable); Ordered(b) && b.cool1Normal + HYSTERESIS < b.normalWarm
    ensures var b := BaseTable(cfg, cable);
      var now := Classify(t, ThresholdsFor(cfg, cable, z));
      && (Rank(z) >= Rank(Warm) && Rank(now) < Rank(Warm) ==> t < b.normalWarm - HYSTERESIS)
      && (Rank(z) >= Rank(Overheat) && Rank(now) < Rank(Overheat) ==> t < b.warmOverheat - HYSTERESIS || t < b.normalWarm - HYSTERESIS)
      && (Rank(z) <= Rank(Cool1) && Rank(now) > Rank(z) ==> t > UpperBoundary(b, z) + HYSTERESIS)
  {
    var b := BaseTable(cfg, cable);
    var th := ThresholdsFor(cfg, cable, z);
    var now := Classify(t, th);
    if Rank(z) <= Rank(Cool1) && Rank(now) > Rank(z) {
      if t >= th.normalWarm {
        assert th.normalWarm == b.normalWarm;
      } else {
        assert t > UpperBoundary(th, z);
      }
    }
  }
}
