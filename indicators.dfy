/** The display rules written inline in the dashboard's markup: the change
    line of a KPI tile, and the status badge and trend cell of a campaign
    row. Each is a total case split from a value to Tailwind class tokens and
    text.

    Numbers are JavaScript numbers, modelled as reals; how the runtime prints
    a number is the parameter `show`. The KPI rule and the campaign trend rule
    are two separate rules that disagree at zero, as in the source. */
module Indicators {

  const Emerald := "text-emerald-400"
  const Red := "text-red-400"
  const Gray := "text-gray-400"

  /** The class that turns the KPI arrow upside down. */
  const Rotated := "transform rotate-180"

  const ActiveBadge := "bg-cyan-900 text-cyan-400"
  const InactiveBadge := "bg-gray-700 text-gray-400"

  const Up := '▲'
  const Down := '▼'
  const Dash := "—"

  /** `Math.abs`. */
  function Abs(x: real): (m: real)
    ensures m >= 0.0
    ensures m == x || m == -x
  {
    if x < 0.0 then -x else x
  }

  /** What a KPI tile shows under its value: the colour class of the line,
      the extra class of the arrow icon, the magnitude and its text. */
  datatype KpiChangeLine = KpiChangeLine(colour: string, arrow: string, magnitude: real, text: string)

  /** Change line of `KpiMetric`: non-negative changes are emerald with the
      arrow upright, negative ones red with the arrow rotated; the number
      shown is the absolute change. */
  function KpiChange(change: real, show: real -> string): (line: KpiChangeLine)
    ensures line.colour == Emerald <==> change >= 0.0
    ensures line.colour == Red <==> change < 0.0
    ensures line.arrow == Rotated <==> change < 0.0
    ensures line.arrow == "" <==> change >= 0.0
    ensures line.magnitude >= 0.0 && (line.magnitude == change || line.magnitude == -change)
    ensures line.text == show(line.magnitude) + "% vs last period"
  {
    var magnitude := Abs(change);
    KpiChangeLine(
      if change >= 0.0 then Emerald else Red,
      if change < 0.0 then Rotated else "",
      magnitude,
      show(magnitude) + "% vs last period")
  }

  /** Opposite non-zero changes show the same text and opposite colours and
      arrows. */
  lemma KpiChangeSymmetric(change: real, show: real -> string)
    requires change != 0.0
    ensures KpiChange(-change, show).text == KpiChange(change, show).text
    ensures KpiChange(-change, show).magnitude == KpiChange(change, show).magnitude
    ensures KpiChange(-change, show).colour != KpiChange(change, show).colour
    ensures KpiChange(-change, show).arrow != KpiChange(change, show).arrow
  {
  }

  /** The 'Avg. CPC' tile's change of -2.1 is shown red, arrow rotated,
      with magnitude 2.1. */
  lemma NegativeKpiScenario(show: real -> string)
    ensures KpiChange(-2.1, show) == KpiChangeLine(Red, Rotated, 2.1, show(2.1) + "% vs last period")
  {
  }

  /** Class tokens of the campaign status badge: cyan exactly for the
      status "Active", gray for every other status. */
  function StatusBadge(status: string): (classes: string)
    ensures classes == ActiveBadge <==> status == "Active"
    ensures classes == InactiveBadge <==> status != "Active"
  {
    if status == "Active" then ActiveBadge else InactiveBadge
  }

  /** The trend cell of a campaign row: its colour class and its text. */
  datatype TrendCell = TrendCell(colour: string, text: string)

  /** Trend cell of `RealTimeCampaigns`: "▲ t%" in emerald for a rise,
      "▼ |t|%" in red for a fall, and "—" in gray for no change. */
  function CampaignTrend(trend: real, show: real -> string): (cell: TrendCell)
    ensures cell.colour == Emerald <==> trend > 0.0
    ensures cell.colour == Red <==> trend < 0.0
    ensures cell.colour == Gray <==> trend == 0.0
    ensures cell.text == Dash <==> trend == 0.0
    ensures |cell.text| >= 1
    ensures cell.text[0] == Up <==> trend > 0.0
    ensures cell.text[0] == Down <==> trend < 0.0
    ensures trend != 0.0 ==> cell.text == [cell.text[0]] + " " + show(Abs(trend)) + "%"
  {
    if trend > 0.0 then TrendCell(Emerald, [Up] + " " + show(trend) + "%")
    else if trend < 0.0 then TrendCell(Red, [Down] + " " + show(Abs(trend)) + "%")
    else TrendCell(Gray, Dash)
  }

  /** Every trend falls in exactly one of the three cases. */
  lemma CampaignTrendExclusive(trend: real, show: real -> string)
    ensures var cell := CampaignTrend(trend, show);
      && (cell.colour == Emerald || cell.colour == Red || cell.colour == Gray)
      && !(cell.colour == Emerald && cell.colour == Red)
      && !(cell.colour == Emerald && cell.colour == Gray)
      && !(cell.colour == Red && cell.colour == Gray)
  {
  }

  /** A rise and a fall of the same size show opposite glyphs, opposite
      colours and the same magnitude text. */
  lemma CampaignTrendSymmetric(trend: real, show: real -> string)
    requires trend != 0.0
    ensures var up, down := CampaignTrend(trend, show), CampaignTrend(-trend, show);
      && up.text[0] != down.text[0]
      && up.colour != down.colour
      && up.text[1..] == down.text[1..]
  {
    var up, down := CampaignTrend(trend, show), CampaignTrend(-trend, show);
    assert Abs(trend) == Abs(-trend);
    assert up.text[1..] == " " + show(Abs(trend)) + "%";
    assert down.text[1..] == " " + show(Abs(trend)) + "%";
  }

  /** The two sign rules disagree at zero: a KPI change of 0 is emerald with
      an upright arrow, a campaign trend of 0 is a gray dash. */
  lemma ZeroDisagreement(show: real -> string)
    ensures KpiChange(0.0, show).colour == Emerald && KpiChange(0.0, show).arrow == ""
    ensures CampaignTrend(0.0, show).colour == Gray && CampaignTrend(0.0, show).text == Dash
    ensures KpiChange(0.0, show).colour != CampaignTrend(0.0, show).colour
  {
  }

  /** The two rules agree away from zero: a KPI change and a campaign trend
      of the same non-zero value get the same colour class. */
  lemma NonZeroAgreement(value: real, show: real -> string)
    requires value != 0.0
    ensures KpiChange(value, show).colour == CampaignTrend(value, show).colour
  {
  }
}
