/**
 * The two decisions on the student dashboard: the rank shown for an
 * attendance percentage, and the ordinal suffix after the year of study.
 * Percentages are exact reals here.
 */
module StudentDashboard {
  import opened Types

  /** The rank label's thresholds: 95, 85 and 75 percent. */
  function RankLabel(percentage: real): (rank: string)
    ensures percentage >= 95.0 ==> rank == "Excellent"
    ensures 85.0 <= percentage < 95.0 ==> rank == "Good"
    ensures 75.0 <= percentage < 85.0 ==> rank == "Average"
    ensures percentage < 75.0 ==> rank == "Below Average"
  {
    if percentage >= 95.0 then "Excellent"
    else if percentage >= 85.0 then "Good"
    else if percentage >= 75.0 then "Average"
    else "Below Average"
  }

  /** The position of a rank label from lowest (0) to highest (3). */
  function RankLevel(rank: string): nat {
    if rank == "Excellent" then 3
    else if rank == "Good" then 2
    else if rank == "Average" then 1
    else 0
  }

  /** The ordinal suffix after the year: "st", "nd", "rd", and "th" for anything else, a missing year too. */
  function YearSuffix(year: Option<int>): (suffix: string)
    ensures year == Some(1) <==> suffix == "st"
    ensures year == Some(2) <==> suffix == "nd"
    ensures year == Some(3) <==> suffix == "rd"
    ensures year != Some(1) && year != Some(2) && year != Some(3) <==> suffix == "th"
  {
    if year == Some(1) then "st"
    else if year == Some(2) then "nd"
    else if year == Some(3) then "rd"
    else "th"
  }

  // ---------------------------------------------------------------------
  // Properties
  // ---------------------------------------------------------------------

  /** The level of the label is the number of thresholds the percentage reaches. */
  lemma RankLevelCountsThresholds(p: real)
    ensures RankLevel(RankLabel(p)) ==
      (if p >= 95.0 then 1 else 0) + (if p >= 85.0 then 1 else 0) + (if p >= 75.0 then 1 else 0)
  {
  }

  /** A higher percentage never gets a lower label. */
  lemma RankMonotone(p: real, q: real)
    requires p <= q
    ensures RankLevel(RankLabel(p)) <= RankLevel(RankLabel(q))
  {
    RankLevelCountsThresholds(p);
    RankLevelCountsThresholds(q);
  }

  /** The four labels are distinct, so the label determines the band. */
  lemma RankLabelDeterminesBand(p: real, q: real)
    requires RankLabel(p) == RankLabel(q)
    ensures (p >= 95.0 <==> q >= 95.0) && (p >= 85.0 <==> q >= 85.0) && (p >= 75.0 <==> q >= 75.0)
  {
    RankLevelCountsThresholds(p);
    RankLevelCountsThresholds(q);
  }
}
