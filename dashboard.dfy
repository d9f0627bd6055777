/** The dashboard's classification and mapping of an analysis result. */
module Dashboard {
  import opened JsString

  /** The three bands of a 0-100 risk score. */
  datatype Band = High | Medium | Low

  /** The banding the comment on `getRiskScoreColor` describes: red for high
      (70 and up), yellow for medium (40 up to 70), green for low. */
  function ScoreBand(score: real): Band {
    if score >= 70.0 then High else if score >= 40.0 then Medium else Low
  }

  /** `getRiskScoreColor`. */
  function RiskScoreColor(score: real): string {
    if score >= 70.0 then "text-red-400"
    else if score >= 40.0 then "text-yellow-400"
    else "text-green-400"
  }

  /** The bar colour of the supplier risk score (Tailwind red, yellow, green 500). */
  function BarColor(score: real): string {
    if score >= 70.0 then "#EF4444" else if score >= 40.0 then "#F59E0B" else "#10B981"
  }

  /** The text class partitions the scores into the three bands. */
  lemma RiskScoreColorBands(score: real)
    ensures RiskScoreColor(score) == "text-red-400" <==> score >= 70.0
    ensures RiskScoreColor(score) == "text-yellow-400" <==> 40.0 <= score < 70.0
    ensures RiskScoreColor(score) == "text-green-400" <==> score < 40.0
  {
  }

  /** The bar and the figure beneath it always show the same band. */
  lemma BarMatchesText(score: real)
    ensures ScoreBand(score) == High <==> RiskScoreColor(score) == "text-red-400" && BarColor(score) == "#EF4444"
    ensures ScoreBand(score) == Medium <==> RiskScoreColor(score) == "text-yellow-400" && BarColor(score) == "#F59E0B"
    ensures ScoreBand(score) == Low <==> RiskScoreColor(score) == "text-green-400" && BarColor(score) == "#10B981"
  {
  }

  /** Raising a score never lowers its band. */
  lemma BandMonotone(s1: real, s2: real)
    requires s1 <= s2
    ensures ScoreBand(s1) == High ==> ScoreBand(s2) == High
    ensures ScoreBand(s1) == Medium ==> ScoreBand(s2) != Low
  {
  }

  /** One bar of the chart. */
  datatype ChartEntry = ChartEntry(name: string, value: real)

  /** The label of the bar at position `index`: `Metric ${index + 1}`. */
  function MetricName(index: nat): string {
    "Metric " + NatToString(index + 1)
  }

  /** `chartDisplayData`: one bar per value, in order, labelled from 1. */
  function ChartDisplayData(chartData: seq<real>): (entries: seq<ChartEntry>)
    ensures |entries| == |chartData|
    ensures forall i :: 0 <= i < |chartData| ==>
              entries[i] == ChartEntry(MetricName(i), chartData[i])
  {
    if chartData == [] then []
    else
      var n := |chartData| - 1;
      ChartDisplayData(chartData[..n]) + [ChartEntry(MetricName(n), chartData[n])]
  }

  /** Different positions get different labels. */
  lemma MetricNameInjective(i: nat, j: nat)
    requires MetricName(i) == MetricName(j)
    ensures i == j
  {
    var prefix := "Metric ";
    assert MetricName(i)[|prefix|..] == NatToString(i + 1);
    assert MetricName(j)[|prefix|..] == NatToString(j + 1);
    NatToStringInjective(i + 1, j + 1);
  }

  /** So the bars are labelled distinctly. */
  lemma ChartNamesDistinct(chartData: seq<real>, i: nat, j: nat)
    requires i < |chartData| && j < |chartData| && i != j
    ensures ChartDisplayData(chartData)[i].name != ChartDisplayData(chartData)[j].name
  {
    if MetricName(i) == MetricName(j) {
      MetricNameInjective(i, j);
    }
  }

  /** `glowClass`. */
  function GlowClass(glowEffect: string): (c: string)
    ensures c == "animate-pulse bg-red-500" <==> glowEffect == "pulse-red"
    ensures c == "bg-blue-500" <==> glowEffect != "pulse-red"
  {
    if glowEffect == "pulse-red" then "animate-pulse bg-red-500" else "bg-blue-500"
  }

  /** The colour a risk level is shown in. */
  datatype Tone = Red | Yellow | Blue

  function ToneName(t: Tone): string {
    match t
    case Red => "red"
    case Yellow => "yellow"
    case Blue => "blue"
  }

  /** CRITICAL is red, WARNING yellow, anything else blue. */
  function LevelTone(riskLevel: string): Tone {
    if riskLevel == "CRITICAL" then Red else if riskLevel == "WARNING" then Yellow else Blue
  }

  /** The header's bottom border class (the first nested ternary). */
  function BorderClass(riskLevel: string): string {
    if riskLevel == "CRITICAL" then "border-red-500"
    else if riskLevel == "WARNING" then "border-yellow-500"
    else "border-blue-500"
  }

  /** The risk-level subtitle's text class (the second nested ternary). */
  function SubtitleClass(riskLevel: string): string {
    if riskLevel == "CRITICAL" then "text-red-900"
    else if riskLevel == "WARNING" then "text-yellow-900"
    else "text-blue-900"
  }

  /** Border and subtitle always agree on the level's colour. */
  lemma HeaderTonesAgree(riskLevel: string)
    ensures BorderClass(riskLevel) == "border-" + ToneName(LevelTone(riskLevel)) + "-500"
    ensures SubtitleClass(riskLevel) == "text-" + ToneName(LevelTone(riskLevel)) + "-900"
  {
    match LevelTone(riskLevel)
    case Red => RedClasses();
    case Yellow => YellowClasses();
    case Blue => BlueClasses();
  }

  lemma RedClasses()
    ensures "border-" + "red" + "-500" == "border-red-500"
    ensures "text-" + "red" + "-900" == "text-red-900"
  {
  }

  lemma YellowClasses()
    ensures "border-" + "yellow" + "-500" == "border-yellow-500"
    ensures "text-" + "yellow" + "-900" == "text-yellow-900"
  {
  }

  lemma BlueClasses()
    ensures "border-" + "blue" + "-500" == "border-blue-500"
    ensures "text-" + "blue" + "-900" == "text-blue-900"
  {
  }

  /** The delivery impact class: red exactly for "Delayed". */
  function DeliveryClass(deliveryImpact: string): (c: string)
    ensures c == "text-red-400" <==> deliveryImpact == "Delayed"
    ensures c == "text-green-400" <==> deliveryImpact != "Delayed"
  {
    if deliveryImpact == "Delayed" then "text-red-400" else "text-green-400"
  }

  /** The geopolitical zone: the title's first space-separated word. */
  function ZoneLabel(title: string): (zone: string)
    ensures StartsWith(title, zone) && ' ' !in zone
    ensures ' ' in title ==> |zone| < |title| && title[|zone|] == ' '
    ensures ' ' !in title ==> zone == title
  {
    Before(title, ' ')
  }
}
