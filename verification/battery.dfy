/**
 The battery row of the device panel (script.js `createBatteryElement` and
 the battery branch of `getDeviceInfo`). The level is the integer percentage
 script.js computes with `Math.round(battery.level * 100)`.
 */
module Battery {

  /** The CSS class that colours the battery bar. */
  datatype Tier = Low | Medium | High
  {
    function ClassName(): string
    {
      match this
      case Low => "battery-low"
      case Medium => "battery-medium"
      case High => "battery-high"
    }

    function Order(): nat
    {
      match this
      case Low => 0
      case Medium => 1
      case High => 2
    }
  }

  /** The tier for a level: at most 20 is low, at most 50 is medium, anything
      else (including levels the platform should never report) is high. */
  function TierOf(level: int): (t: Tier)
    ensures t == Low <==> level <= 20
    ensures t == Medium <==> 20 < level <= 50
    ensures t == High <==> 50 < level
  {
    if level <= 20 then Low
    else if level <= 50 then Medium
    else High
  }

  /** A higher level never gets a lower tier. */
  lemma TierMonotonic(a: int, b: int)
    requires a <= b
    ensures TierOf(a).Order() <= TierOf(b).Order()
  {
  }

  /** The text after the percentage: `battery.charging ? 'Charging' : 'Discharging'`. */
  function ChargeLabel(charging: bool): string
  {
    if charging then "Charging" else "Discharging"
  }

  /** The rendered battery element: a bar of class `tier` and width
      `widthPercent`%, and the caption `<labelPercent>% (<status>)`. */
  datatype BatteryView = BatteryView(tier: Tier, widthPercent: int, labelPercent: int, status: string)

  /** `createBatteryElement(level, status)`: the same level drives the bar
      width, the caption and the tier. */
  function BatteryElement(level: int, status: string): (v: BatteryView)
    ensures v.widthPercent == level && v.labelPercent == level
    ensures v.tier.ClassName() == "battery-low" <==> level <= 20
    ensures v.tier.ClassName() == "battery-medium" <==> 20 < level <= 50
    ensures v.tier.ClassName() == "battery-high" <==> 50 < level
    ensures v.status == status
  {
    BatteryView(TierOf(level), level, level, status)
  }

  /** What the battery query yielded: `getBattery` missing from `navigator`,
      its promise rejected, or a reading. */
  datatype BatteryProbe = Unsupported | Rejected | Resolved(level: int, charging: bool)
}
