/** The careers page: the colour classes of a job's match-score badge. */
module Careers {

  const MatchGreen := "text-metric-green bg-metric-green/10"
  const MatchPrimary := "text-primary bg-primary/10"
  const MatchOrange := "text-metric-orange bg-metric-orange/10"

  /**
    `getMatchColor`: the badge classes for a match score. Green from 90,
    primary from 80 to 89, orange below 80; every score gets exactly one.
   */
  function MatchColor(score: int): (colour: string)
    ensures colour == MatchGreen <==> score >= 90
    ensures colour == MatchPrimary <==> 80 <= score < 90
    ensures colour == MatchOrange <==> score < 80
  {
    if score >= 90 then MatchGreen else if score >= 80 then MatchPrimary else MatchOrange
  }

  /** The bucket's rank: orange 0, primary 1, green 2. */
  function MatchRank(colour: string): nat
  {
    if colour == MatchGreen then 2 else if colour == MatchPrimary then 1 else 0
  }

  /** A higher score never gets a lower bucket. */
  lemma MatchColorMonotone(a: int, b: int)
    requires a <= b
    ensures MatchRank(MatchColor(a)) <= MatchRank(MatchColor(b))
  {
  }
}
