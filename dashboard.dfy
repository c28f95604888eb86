/** The staff dashboard's two pure classifiers: the triage badge shown for a
    score and the colour shown for an urgency level. */
module Dashboard {
  import TriageQueue

  /** A badge as the dashboard renders it: its label and its colour. */
  datatype Badge = Badge(text: string, color: string)

  /** Badge for a triage score: thresholds 80, 60, 40 and 20, each closed below. */
  function TriageBadge(score: int): (b: Badge)
    ensures b.text == "CRITICAL" <==> score >= 80
    ensures b.text == "URGENT" <==> 60 <= score < 80
    ensures b.text == "MODERATE" <==> 40 <= score < 60
    ensures b.text == "ROUTINE" <==> 20 <= score < 40
    ensures b.text == "LOW" <==> score < 20
  {
    if score >= 80 then Badge("CRITICAL", "#dc2626")
    else if score >= 60 then Badge("URGENT", "#ea580c")
    else if score >= 40 then Badge("MODERATE", "#f59e0b")
    else if score >= 20 then Badge("ROUTINE", "#3b82f6")
    else Badge("LOW", "#10b981")
  }

  /** Severity rank of a badge label, LOW = 0 up to CRITICAL = 4. */
  function BadgeRank(b: Badge): nat {
    if b.text == "CRITICAL" then 4
    else if b.text == "URGENT" then 3
    else if b.text == "MODERATE" then 2
    else if b.text == "ROUTINE" then 1
    else 0
  }

  /** Every badge label comes with its own fixed colour. */
  lemma BadgeColors(score: int)
    ensures var b := TriageBadge(score);
            && (b.text == "CRITICAL" ==> b.color == "#dc2626")
            && (b.text == "URGENT" ==> b.color == "#ea580c")
            && (b.text == "MODERATE" ==> b.color == "#f59e0b")
            && (b.text == "ROUTINE" ==> b.color == "#3b82f6")
            && (b.text == "LOW" ==> b.color == "#10b981")
  {
  }

  /** The exact boundaries: each threshold belongs to the higher badge. */
  lemma BadgeBoundaries()
    ensures TriageBadge(80).text == "CRITICAL" && TriageBadge(79).text == "URGENT"
    ensures TriageBadge(60).text == "URGENT" && TriageBadge(59).text == "MODERATE"
    ensures TriageBadge(40).text == "MODERATE" && TriageBadge(39).text == "ROUTINE"
    ensures TriageBadge(20).text == "ROUTINE" && TriageBadge(19).text == "LOW"
  {
  }

  /** A higher score never shows a less severe badge. */
  lemma BadgeMonotone(s1: int, s2: int)
    requires s1 <= s2
    ensures BadgeRank(TriageBadge(s1)) <= BadgeRank(TriageBadge(s2))
  {
  }

  const Green := "#4ade80"
  const Yellow := "#fbbf24"
  const Red := "#f87171"

  /** Colour for an urgency level: green up to 3, yellow up to 7, red above. */
  function UrgencyColor(level: int): (c: string)
    ensures c == Green <==> level <= 3
    ensures c == Yellow <==> 3 < level <= 7
    ensures c == Red <==> level > 7
  {
    if level <= 3 then Green
    else if level <= 7 then Yellow
    else Red
  }

  /** On the levels 1..10 the colours are exactly the stats endpoint's urgency buckets. */
  lemma UrgencyColorMatchesStats(level: int)
    requires 1 <= level <= 10
    ensures UrgencyColor(level) == Green <==> TriageQueue.LowUrgency(level)
    ensures UrgencyColor(level) == Yellow <==> TriageQueue.ModerateUrgency(level)
    ensures UrgencyColor(level) == Red <==> TriageQueue.HighUrgency(level)
  {
  }
}
