/** The colour bands of the power-monitoring panel (elevatexy_simulation_arm.py):
    total step functions from a reading to a display colour. */
module PowerPanel {

  /** Display colours, in increasing order of alarm. */
  datatype Color = Green | Yellow | Orange | Red

  function Severity(c: Color): nat
  {
    match c
    case Green => 0
    case Yellow => 1
    case Orange => 2
    case Red => 3
  }

  // DroneParams battery thresholds (6S LiPo volts, percentages)
  const VoltageNominal: real := 22.2
  const VoltageLow: real := 21.0
  const VoltageCritical: real := 18.0
  const LowBattery: int := 30
  const ReturnHomeBattery: int := 25
  const CriticalBattery: int := 15

  /** get_voltage_color: four bands cut at 22.2, 21.0 and 18.0 V. */
  function VoltageColor(voltage: real): (c: Color)
    ensures c == Green <==> voltage >= VoltageNominal
    ensures c == Yellow <==> VoltageLow <= voltage < VoltageNominal
    ensures c == Orange <==> VoltageCritical <= voltage < VoltageLow
    ensures c == Red <==> voltage < VoltageCritical
  {
    if voltage >= VoltageNominal then Green
    else if voltage >= VoltageLow then Yellow
    else if voltage >= VoltageCritical then Orange
    else Red
  }

  /** get_power_color: three bands cut at 150 and 300 W; never red. */
  function PowerColor(power: real): (c: Color)
    ensures c == Green <==> power < 150.0
    ensures c == Yellow <==> 150.0 <= power < 300.0
    ensures c == Orange <==> power >= 300.0
    ensures c != Red
  {
    if power < 150.0 then Green
    else if power < 300.0 then Yellow
    else Orange
  }

  /** get_battery_level_color: four bands cut at 30, 25 and 15 percent. */
  function BatteryLevelColor(level: int): (c: Color)
    ensures c == Green <==> level >= LowBattery
    ensures c == Yellow <==> ReturnHomeBattery <= level < LowBattery
    ensures c == Orange <==> CriticalBattery <= level < ReturnHomeBattery
    ensures c == Red <==> level < CriticalBattery
  {
    if level >= LowBattery then Green
    else if level >= ReturnHomeBattery then Yellow
    else if level >= CriticalBattery then Orange
    else Red
  }

  /** A lower voltage or battery level never shows a calmer colour, and a
      higher power draw never shows a calmer colour. */
  lemma ColorsMonotone(v1: real, v2: real, p1: real, p2: real, l1: int, l2: int)
    requires v1 <= v2 && p1 <= p2 && l1 <= l2
    ensures Severity(VoltageColor(v2)) <= Severity(VoltageColor(v1))
    ensures Severity(PowerColor(p1)) <= Severity(PowerColor(p2))
    ensures Severity(BatteryLevelColor(l2)) <= Severity(BatteryLevelColor(l1))
  {
  }
}
