/** The scoring rules of one turn, and the high-score rule of the end screen. */
module Scoring {

  /// The largest streak; it multiplies the points of a match.
  const MaxStreak: int := 3

  function Max(a: int, b: int): int { if a >= b then a else b }
  function Min(a: int, b: int): int { if a <= b then a else b }

  /** The score after a mismatch, as the game writes it: two points off from
      two points up, a single point drops to zero, zero stays zero. On a score
      that is not negative this is two points off with a floor of zero, and it
      never makes such a score negative. */
  function ScoreAfterMismatch(score: int): (r: int)
    ensures score >= 0 ==> r == Max(score - 2, 0)
    ensures score >= 0 ==> 0 <= r <= score
    ensures score < 0 ==> r == score
  {
    if score >= 2 then score - 2
    else if score == 1 then 0
    else score
  }

  /** The streak after a match that does not win: one more, up to MaxStreak.
      From any streak in 0..MaxStreak it stays in 1..MaxStreak. */
  function StreakAfterMatch(streak: int): (r: int)
    ensures r == Min(streak + 1, MaxStreak) || (streak > MaxStreak && r == streak)
    ensures 0 <= streak <= MaxStreak ==> 1 <= r <= MaxStreak
  {
    if streak < MaxStreak then streak + 1 else streak
  }

  /** Points for a match: five times the streak, but five when the streak is
      zero. For a streak in 0..MaxStreak that is 5 to 15 points. */
  function MatchPoints(streak: int): (r: int)
    ensures r == 5 * Max(streak, 1)
    ensures 0 <= streak <= MaxStreak ==> 5 <= r <= 5 * MaxStreak
  {
    if streak > 0 then 5 * streak else 5
  }

  /** The high score kept after a session ends with `score`: the new score if
      it beats the stored one, the stored one otherwise. */
  function HighScoreAfter(score: int, stored: int): (r: int)
    ensures r >= score && r >= stored
    ensures r == score || r == stored
    ensures r != stored <==> score > stored
  {
    if score > stored then score else stored
  }
}
