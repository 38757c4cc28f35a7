/** The dashboard's classification of the readings: four moisture bands, each
    with a status, a colour and an icon, and a three-way temperature label. */
module DataPanel {

  const Optimal := "Optimal"
  const Good := "Good"
  const Low := "Low"
  const Critical := "Critical"

  const Green := "#22c55e"
  const Yellow := "#eab308"
  const Orange := "#f97316"
  const Red := "#ef4444"

  const Droplet := "\U{1F4A7}"
  const Warning := "\U{26A0}\U{FE0F}"
  const Alarm := "\U{1F6A8}"

  /** `getMoistureStatus`: above 60, above 40, above 25, and the rest. */
  function GetMoistureStatus(moisture: real): (s: string)
    ensures s == Optimal <==> moisture > 60.0
    ensures s == Good <==> 40.0 < moisture <= 60.0
    ensures s == Low <==> 25.0 < moisture <= 40.0
    ensures s == Critical <==> moisture <= 25.0
  {
    if moisture > 60.0 then Optimal
    else if moisture > 40.0 then Good
    else if moisture > 25.0 then Low
    else Critical
  }

  /** `getStatusColor`. */
  function GetStatusColor(moisture: real): (c: string)
    ensures c in {Green, Yellow, Orange, Red}
  {
    if moisture > 60.0 then Green
    else if moisture > 40.0 then Yellow
    else if moisture > 25.0 then Orange
    else Red
  }

  /** `getStatusIcon`. */
  function GetStatusIcon(moisture: real): (i: string)
    ensures i in {Droplet, Warning, Alarm}
  {
    if moisture > 60.0 then Droplet
    else if moisture > 40.0 then Droplet
    else if moisture > 25.0 then Warning
    else Alarm
  }

  /** The temperature indicator: above 28 hot, below 18 cool, otherwise normal. */
  function TemperatureLabel(temperature: real): (l: string)
    ensures l == "\U{1F525} Hot" <==> temperature > 28.0
    ensures l == "\U{2744}\U{FE0F} Cool" <==> temperature < 18.0
    ensures l == "\U{1F321}\U{FE0F} Normal" <==> 18.0 <= temperature <= 28.0
  {
    if temperature > 28.0 then "\U{1F525} Hot"
    else if temperature < 18.0 then "\U{2744}\U{FE0F} Cool"
    else "\U{1F321}\U{FE0F} Normal"
  }

  /** How healthy a status is, `Critical` lowest. */
  function StatusRank(s: string): int {
    if s == Optimal then 3 else if s == Good then 2 else if s == Low then 1 else 0
  }

  /** Moister soil never gets a worse status. */
  lemma StatusMonotone(drier: real, moister: real)
    requires drier <= moister
    ensures StatusRank(GetMoistureStatus(drier)) <= StatusRank(GetMoistureStatus(moister))
  {
  }

  /** Colour and status use the same thresholds: two readings share a colour exactly
      when they share a status. */
  lemma ColorMatchesStatus(m1: real, m2: real)
    ensures GetStatusColor(m1) == GetStatusColor(m2) <==> GetMoistureStatus(m1) == GetMoistureStatus(m2)
  {
  }

  /** The icon coarsens the status: the two top bands share the droplet, `Low` warns
      and `Critical` alarms. */
  lemma IconFollowsStatus(moisture: real)
    ensures GetStatusIcon(moisture) == Droplet <==> GetMoistureStatus(moisture) in {Optimal, Good}
    ensures GetStatusIcon(moisture) == Warning <==> GetMoistureStatus(moisture) == Low
    ensures GetStatusIcon(moisture) == Alarm <==> GetMoistureStatus(moisture) == Critical
  {
  }
}
