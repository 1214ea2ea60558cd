/** The create-simli usage tracker: a running estimate of the characters
    sent to the speech service, shown with a colour and a warning that
    both step up above 5000 and above 8000 characters. */
module Usage {
  import opened Common

  const ModerateAbove := 5000
  const HighAbove := 8000

  /** The estimated total and when the session started (milliseconds). */
  datatype Tracker = Tracker(estimated: int, sessionStart: Option<int>)

  /** The three bands the display distinguishes, in increasing order. */
  datatype Band = Normal | Moderate | High

  function Rank(b: Band): nat {
    match b
    case Normal => 0
    case Moderate => 1
    case High => 2
  }

  /** `getUsageColor`. */
  function UsageColor(usage: int): (c: string)
    ensures usage > HighAbove ==> c == "text-red-500"
    ensures ModerateAbove < usage <= HighAbove ==> c == "text-yellow-500"
    ensures usage <= ModerateAbove ==> c == "text-green-500"
  {
    if usage > 8000 then "text-red-500"
    else if usage > 5000 then "text-yellow-500"
    else "text-green-500"
  }

  datatype Warning = Warning(alert: bool, message: string, color: string)

  /** `getUsageWarning`: the icon is an alert triangle above the moderate
      threshold and an info sign otherwise. */
  function UsageWarning(usage: int): (w: Warning)
    ensures w.alert <==> usage > ModerateAbove
    ensures usage > HighAbove ==> w.message == "High usage - approaching free tier limit"
    ensures ModerateAbove < usage <= HighAbove ==> w.message == "Moderate usage - monitor your quota"
    ensures usage <= ModerateAbove ==> w.message == "Usage within normal range"
  {
    if usage > 8000 then
      Warning(true, "High usage - approaching free tier limit", "bg-red-100 border-red-500 text-red-700")
    else if usage > 5000 then
      Warning(true, "Moderate usage - monitor your quota", "bg-yellow-100 border-yellow-500 text-yellow-700")
    else
      Warning(false, "Usage within normal range", "bg-green-100 border-green-500 text-green-700")
  }

  /** The band a colour names. */
  function ColorBand(c: string): Option<Band> {
    if c == "text-red-500" then Some(High)
    else if c == "text-yellow-500" then Some(Moderate)
    else if c == "text-green-500" then Some(Normal)
    else None
  }

  /** The band a warning names. */
  function WarningBand(w: Warning): Option<Band> {
    if w.message == "High usage - approaching free tier limit" then Some(High)
    else if w.message == "Moderate usage - monitor your quota" then Some(Moderate)
    else if w.message == "Usage within normal range" then Some(Normal)
    else None
  }

  /** The band by the thresholds, strictly above each. */
  function BandOf(usage: int): (b: Band)
    ensures b == High <==> usage > HighAbove
    ensures b == Normal <==> usage <= ModerateAbove
  {
    if usage > HighAbove then High else if usage > ModerateAbove then Moderate else Normal
  }

  /** The colour and the warning always name the same band, the one the
      thresholds give. */
  lemma ColorAgreesWithWarning(usage: int)
    ensures ColorBand(UsageColor(usage)) == Some(BandOf(usage))
    ensures WarningBand(UsageWarning(usage)) == Some(BandOf(usage))
  {
  }

  /** The bands are monotone in the usage. */
  lemma BandMonotone(u: int, v: int)
    requires u <= v
    ensures Rank(BandOf(u)) <= Rank(BandOf(v))
  {
  }

  /** The mount effect: the total starts at zero with the session clock. */
  function Mount(now: int): (t: Tracker)
    ensures t.estimated == 0 && t.sessionStart == Some(now)
    ensures UsageColor(t.estimated) == "text-green-500"
  {
    Tracker(0, Some(now))
  }

  /** `addUsage`: the total grows by exactly the characters added. */
  function AddUsage(t: Tracker, characters: int): (r: Tracker)
    ensures r.estimated - t.estimated == characters
    ensures r.sessionStart == t.sessionStart
    ensures characters >= 0 ==> Rank(BandOf(t.estimated)) <= Rank(BandOf(r.estimated))
  {
    var r := t.(estimated := t.estimated + characters);
    if characters >= 0 then BandMonotone(t.estimated, r.estimated); r else r
  }

  /** `Math.round(ms / 1000)`: JavaScript rounds halves upward. */
  function RoundedSeconds(ms: int): (s: int)
    ensures s * 1000 - 500 <= ms < s * 1000 + 500
  {
    (ms + 500) / 1000
  }

  datatype Panel = Panel(color: string, warning: Warning, sessionSeconds: Option<int>)

  /** What the tracker renders: nothing when hidden; otherwise the colour,
      the warning and the session age once the session has started. */
  function Render(visible: bool, t: Tracker, now: int): (p: Option<Panel>)
    ensures p.None? <==> !visible
    ensures p.Some? ==> p.value.color == UsageColor(t.estimated) && p.value.warning == UsageWarning(t.estimated)
    ensures p.Some? ==> (p.value.sessionSeconds.Some? <==> t.sessionStart.Some?)
    ensures p.Some? && t.sessionStart.Some? ==>
      p.value.sessionSeconds.value * 1000 - 500 <= now - t.sessionStart.value < p.value.sessionSeconds.value * 1000 + 500
  {
    if !visible then None
    else
      var age := match t.sessionStart
        case None => None
        case Some(start) => Some(RoundedSeconds(now - start));
      Some(Panel(UsageColor(t.estimated), UsageWarning(t.estimated), age))
  }
}
