/** The fixed configuration of the game (main.js:5-6 and the countdown length at main.js:297). */
module Constants {
  /** At most this many players may be on the court, and exactly this many start a quarter. */
  const MaxPlayersOnCourt: nat := 5

  /** A game has four quarters; each player's PER list is indexed by quarter. */
  const NumQuarters: nat := 4

  /** A quarter's countdown starts at 12 (seconds standing in for minutes). */
  const QuarterSeconds: nat := 12
}
