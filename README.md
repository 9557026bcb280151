# Space Jam PER game engine, modelled in Dafny

This project models the game engine of `main.js`. The page is a basketball line-up game:
a coach moves cartoon players between a bench and a court, plays four twelve-second
quarters, and sees the court's average PER (player efficiency rating) for each quarter
and for the whole game.

The model has seven modules:

- `Constants` holds the court size 5, the 4 quarters and the 12-second quarter.
- `Text` covers the two string splits `processPlayers` uses. One is `split(',')`. The
  other is `split(/\r\n|\n/)`, proved equal to cutting at LF and trimming the CR off
  every line but the last.
- `PlayerStats` is the grouping of stat lines into `playerMap`, given as pure definitions
  on the `Table` value (key order plus map). The lemmas about key order and list contents
  are here.
- `Seqs` holds the two player containers as sequences of names. `appendChild` of a
  button is "take it out of the container it is in, append it to the other".
- `Aggregate` has reference definitions of the court's PER sum, its average and the game
  total. It also proves that the add-one and remove-one updates agree with recomputing.
- `Countdown` is the interval counter: started at 12, it expires on the 13th firing.
- `Game` is one class whose fields are the globals of main.js lines 2-17. It also has
  `court` and `bench`, the two DOM containers; `countdowns`, the running intervals; and
  a ghost `lineups` history with the court that played each finished quarter.
  - Its methods are `processPlayers`, `movePlayer`, `startNextQuarter`, one firing of
    the interval callback (`Tick`), `endQuarter`, the recompute of `updateCardsInGame`,
    and `endGame`.
  - The constructor, `MovePlayer`, `StartNextQuarter` and `Tick` keep the class invariant
    `Valid()`. `MoveToCourt` and `MoveToBench` keep its roster and sums parts, and
    `EndQuarter` and `EndGame` re-establish it. `ProcessPlayers` promises no part of it:
    the constructor sets it up after loading.
    `StartNextQuarterAsWritten`, the code as written, is proved to break it.
  - Under the invariant, court and bench split the roster, and `playersOnCourt` is the
    court's size, at most 5.
  - The running sum and average always equal the recomputed ones for the current court
    and quarter.
  - A countdown runs only during a quarter in play, with a full court.
  - `currentQuarter` stays within 0..3. `totalAvePER` is the accumulated contribution of
    the recorded quarters.

`parseFloat` and `x => parseFloat(x.toPrecision(4))` are the class's function fields
`parse` and `round`; the model treats them as unknown functions. PER values are exact
`real`s.

## Model

| member | source | states |
|---|---|---|
| Text.Split | main.js:30 | `s.split(sep)` always yields at least one piece; its meaning is stated by `Text.JoinSplit`, `Text.SplitPiecesFree` and `Text.SplitJoin` |
| Text.SplitLines | main.js:22 | the line split always yields at least one line; its meaning is stated by `Text.SplitLinesByLineFeed` |
| PlayerStats.Step | main.js:30-47 | one pass of the loop body; `PlayerStats.StepKeys` and `PlayerStats.StepValues` state which key it adds and which list it extends |
| PlayerStats.Ingest | main.js:28-48 | the loop over the lines; `PlayerStats.IngestWellFormed` states the key order it keeps |
| PlayerStats.Load | main.js:28-48 | the loop from the empty map; `PlayerStats.LoadKeys`, `PlayerStats.LoadOrder` and `PlayerStats.LoadValues` state its keys, their order and the lists |
| PlayerStats.StepKeys | main.js:37-41 | one pass adds a key exactly when the line is used and names a player not yet seen, appending that name to the key order |
| PlayerStats.StepValues | main.js:43-47 | one pass appends the line's parsed PER to the list of the player it names, and changes no other list |
| PlayerStats.StatLines | main.js:22-25 | the line split with the header line shifted off; `PlayerStats.LoadKeys` and `PlayerStats.LoadValues` are stated over these lines |
| PlayerStats.Kept | main.js:32 | a line is used unless its comma split has at most one field; `PlayerStats.LoadKeys` and `PlayerStats.LoadValues` quantify over the used lines |
| PlayerStats.NameOf | main.js:35 | the player name is field 1 of the comma split; the keys of `PlayerStats.LoadKeys` are these names |
| PlayerStats.PerText | main.js:44 | the text given to `parseFloat` is field 9, or "undefined" when the line has fewer than ten fields; `PlayerStats.LoadValues` lists its parsed values |
| Aggregate.Contribution | main.js:241-269 | quarters 1-3 add their rounded average, quarter 4 its unrounded average; `Aggregate.FullGameTotal` and `Game.Game.Tick` state the resulting total |
| Countdown.ExpiresOnTick | main.js:310-313 | the firing that finds the counter at 0 is the one that clears the interval; `Countdown.ExpiryTick` states when that is |
| Text.JoinSplit | main.js:30 | joining the pieces of `s.split(sep)` with `sep` gives `s` back, so the split loses no character |
| Text.SplitPiecesFree | main.js:30 | no piece of a split contains the separator |
| Text.SplitJoin | main.js:30 | splitting the join of separator-free pieces gives exactly those pieces, so the split is the inverse of the join |
| Text.SplitLinesByLineFeed | main.js:22 | the line split at `\r\n` or `\n` equals cutting at every LF and taking one trailing CR off every line but the last |
| PlayerStats.FirstMention | main.js:37-41 | the index of the first used line naming the player: that line names them, no earlier line does, and it is the line count when no line does |
| PlayerStats.IngestWellFormed | main.js:37-41 | every pass of the loop keeps the key order and the map's keys in agreement, each key listed once |
| PlayerStats.LoadKeysFirst | main.js:32-41 | a name is a key of the built map exactly when some used line after the header names it |
| PlayerStats.LoadKeys | main.js:32-41 | the keys are exactly the names in field 1 of the lines with more than one field, in both directions |
| PlayerStats.LoadMentioned | main.js:32-41 | every name in the key order comes from some used line |
| PlayerStats.LoadOrder | main.js:37-41 | keys are ordered by the line that first names them, i.e. first-seen order |
| PlayerStats.LoadValues | main.js:43-47 | each player's list is the parsed field 9 (or `undefined`) of every used line naming them, in input order, and the empty list for a name no used line names (that such a name is not a key at all is `PlayerStats.LoadKeys`) |
| Seqs.Without | main.js:168 | the container an element leaves keeps every other element, and only those |
| Seqs.WithoutPresent | main.js:168 | taking a present player out of a duplicate-free container removes exactly one entry and keeps it duplicate-free |
| Seqs.PartitionToCourt | main.js:168 | moving a bench player to the court keeps court and bench a split of the roster |
| Seqs.PartitionToBench | main.js:189 | moving a court player to the bench keeps court and bench a split of the roster |
| Aggregate.AddDelta | main.js:162-163 | a player coming on adds exactly their PER for the quarter to the recomputed court sum |
| Aggregate.RemoveDelta | main.js:174-177 | a player going off takes exactly their PER for the quarter out of the recomputed court sum |
| Aggregate.FullGameTotal | main.js:233-270 | after four quarters the total is the rounded averages of quarters 1-3 plus the unrounded average of quarter 4 |
| Countdown.ExpiryTick | main.js:305-321 | from a counter of `s` the countdown has expired within `t` firings exactly when `t > s` |
| Countdown.QuarterLastsThirteenTicks | main.js:297-313 | the quarter's countdown survives twelve firings and ends on the thirteenth |
| Game.ToCourtKeepsRoster | main.js:153-168 | a bench player coming on to a court with fewer than five keeps the roster invariant with the count one higher |
| Game.ToBenchKeepsRoster | main.js:170-189 | a court player going off keeps the roster invariant with the count one lower |
| Game.ToCourtKeepsSums | main.js:159-164 | the incremental sum and average after coming on equal the recomputed sum and average of the new court |
| Game.ToBenchKeepsSums | main.js:171-183 | the incremental sum and average after going off equal the recomputed ones, and both are exactly 0 when the court empties, with no division by zero |
| Game.RecordQuarter | main.js:237-241 | closing a quarter with a full court adds that quarter's contribution to the recorded total |
| Game.LoadedRoster | main.js:50-51 | after loading, every player is on the bench, the court is empty and the sums are 0 |
| Game.Game.constructor | main.js:2-17 | the globals start at 0, `false` and empty; `playerMap` is the grouping of the stat text; every player is on the bench; the invariant holds |
| Game.Game.ProcessPlayers | main.js:20-52 | the loop builds exactly the grouping of the stat lines after the header; then every key is appended to the bench in key order |
| Game.Game.MovePlayer | main.js:143-191 | during a quarter nothing changes. A full court refuses a bench player: that happens exactly when a bench player is clicked with five on court, and nothing changes. Otherwise the player moves to the end of the other container, and the count, sum and average follow. The invariant is kept |
| Game.Game.MoveToCourt | main.js:153-169 | the count rises by one, the sum gains the player's PER, the player is appended to the court and leaves the bench; roster and sums invariants kept |
| Game.Game.MoveToBench | main.js:170-190 | the count drops by one, the sum loses the player's PER or both values become exactly 0 on an empty court, and the player moves to the bench; roster and sums invariants kept |
| Game.Game.StartNextQuarter | main.js:286-301 | a quarter starts exactly when five are on court and no quarter is in play; it then sets `quarterInPlay` and starts a countdown at 12; otherwise nothing changes |
| Game.Game.StartNextQuarterAsWritten | main.js:286-301 | as written, a quarter starts whenever five are on court; a click during a quarter leaves two countdowns running and breaks the invariant |
| Game.Game.Tick | main.js:305-321 | with no countdown nothing changes. While the counter is at least 1, the firing shows it and counts down. On expiry the countdown stops, the court is recorded, and `endQuarter` runs exactly when `currentQuarter < 3`, `endGame` otherwise. The game average is the total over four |
| Game.Game.EndQuarter | main.js:233-260 | substitutions are allowed again, the rounded average is added to the total, the quarter advances by one, and the sums are recomputed for the new quarter; invariant kept |
| Game.Game.UpdateCardsInGame | main.js:196-228 | the sum is rebuilt over the court for the current quarter and the average is that sum over the number of players on court, which must not be zero |
| Game.Game.EndGame | main.js:264-281 | the game freezes with `quarterInPlay` left true, the last average is added unrounded and the result is the total over four quarters |

## Left out

- DOM rendering is not modelled: buttons, images, player cards, the timer and PER
  displays, `innerText`, `toPrecision` display strings and `alert` (main.js:55-138, 165,
  186, 200, 227, 235, 244, 253-259, 273-280). The only DOM effect kept is which container
  a player's button is in.
- `setInterval`, `clearInterval` and the 1000 ms period are not modelled. Each firing of
  the callback is one call of `Tick`, and a running interval is one entry of `countdowns`.
- `window.onload` and the embedded CSV literal (main.js:325-385) are not modelled. The
  constructor takes any stat text.
- Floating point is not modelled. `parseFloat` and the four-digit rounding are arbitrary
  functions `parse` and `round`, and PER values are exact reals, so NaN and rounding error
  do not arise.
- `parseFloat(stats[9])` on a line with fewer than ten fields reads `undefined`. The model
  passes it the text "undefined", as JavaScript's string conversion does.
- Game.Game.constructor: requires every player to have at least four PER values. The
  source still loads a player with fewer: every key holds at least one value, so the read
  of quarter 0 at main.js:130 succeeds. It fails later, in `endQuarter`, at the read of
  main.js:200, after main.js:238-247 have already changed `quarterInPlay`, `totalAvePER`
  and `currentQuarter`. The model does not capture that partly updated state.
- Game.Game.StartNextQuarterAsWritten: the model shows only that a second countdown is
  started. It does not go on to simulate the two intervals firing side by side.
- Game.Game.UpdateCardsInGame: requires a non-empty court. The source calls it only from
  `endQuarter`, where the court holds five players; on an empty court it would divide by
  zero.
- `movePlayer` is modelled for the buttons the game creates, one per player. A click on
  any other element cannot happen on the page.

## Findings

| source | as written | input that shows it | evidently intended | confidence | as-written member | corrected member |
|---|---|---|---|---|---|---|
| main.js:286-301 | `startNextQuarter` checks only that five players are on court, not whether a quarter is already in play or the game is over | five players on court; press Start, then press Start again before the countdown ends: a second interval starts, so `endQuarter`/`endGame` later run twice, skipping a quarter and adding an average twice. A press after the game ended passes the same check, but main.js:278 empties `gameButton`, and whether that removes the Start button depends on the page's HTML, which is not part of this model | a quarter can be started only when none is in play | not executed | Game.Game.StartNextQuarterAsWritten | Game.Game.StartNextQuarter |
