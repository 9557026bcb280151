/** The game engine of main.js: the module-level globals (main.js:2-17) as the fields of one
    `Game`, the two DOM containers `playersOnBench` and `playersOnCourt` as the sequences
    `bench` and `court` of player names in child order, and the interval timer as `Tick`. */
module Game {
  import opened Constants
  import opened Seqs
  import opened Text
  import opened PlayerStats
  import opened Aggregate
  import opened Countdown

  /** What a click on a player button did (main.js:143-191). */
  datatype MoveResult =
    | Moved            // the player changed container
    | QuarterInPlay    // ignored: a quarter is being played or the game is over
    | CourtFull        // refused with the "only 5 players" alert

  /** What one firing of the quarter's interval did (main.js:305-321). */
  datatype TickResult =
    | NoCountdown                 // no interval is running
    | Counting(shown: int)        // the clock shows `shown`:00 and keeps running
    | QuarterEnded                // `endQuarter` ran
    | GameEnded(averagePER: real) // `endGame` ran and reported the game average

  /** The roster invariant: the key order lists each player once, every player has four
      quarters of PER, court and bench split the players between them, and the count
      `playersOnCourt` is the court's size, at most five. */
  ghost predicate Roster(names: seq<string>, per: map<string, seq<real>>, court: seq<string>,
                         bench: seq<string>, count: int)
  {
    KeyOrder(names, per) && FourQuarters(per)
    && Partition(names, court, bench)
    && count == |court| <= MaxPlayersOnCourt
    && Covers(per, court)
  }

  /** The running sum and average agree with recomputing them over the court in quarter `q`. */
  ghost predicate Sums(per: map<string, seq<real>>, court: seq<string>, q: int, sum: real, average: real)
  {
    0 <= q < NumQuarters && sum == CourtPER(per, court, q) && average == CourtAverage(per, court, q)
  }

  /** A bench player coming on to a court with room keeps the roster invariant. */
  lemma ToCourtKeepsRoster(names: seq<string>, per: map<string, seq<real>>, court: seq<string>,
                           bench: seq<string>, count: int, p: string)
    requires Roster(names, per, court, bench, count) && p in bench && count < MaxPlayersOnCourt
    ensures Roster(names, per, court + [p], Without(bench, p), count + 1)
  {
    PartitionToCourt(names, court, bench, p);
    assert p in names;
  }

  /** A court player going to the bench keeps the roster invariant. */
  lemma ToBenchKeepsRoster(names: seq<string>, per: map<string, seq<real>>, court: seq<string>,
                           bench: seq<string>, count: int, p: string)
    requires Roster(names, per, court, bench, count) && p in court
    ensures Roster(names, per, Without(court, p), bench + [p], count - 1)
  {
    PartitionToBench(names, court, bench, p);
    WithoutPresent(court, p);
  }

  /** The incremental update of main.js:162-164 gives the recomputed sum and average. */
  lemma ToCourtKeepsSums(per: map<string, seq<real>>, court: seq<string>, q: int, sum: real,
                         average: real, p: string)
    requires Covers(per, court) && p in per && |per[p]| >= NumQuarters
    requires Sums(per, court, q, sum, average)
    ensures Covers(per, court + [p])
    ensures Sums(per, court + [p], q, sum + per[p][q], (sum + per[p][q]) / (|court| + 1) as real)
  {
    AddDelta(per, court, p, q);
  }

  /** The incremental update of main.js:174-183 gives the recomputed sum and average, with
      both exactly 0 once the court is empty. */
  lemma ToBenchKeepsSums(per: map<string, seq<real>>, court: seq<string>, q: int, sum: real,
                         average: real, p: string)
    requires Covers(per, court) && NoDup(court) && p in court
    requires Sums(per, court, q, sum, average)
    ensures Covers(per, Without(court, p))
    ensures var left := |court| - 1;
            Sums(per, Without(court, p), q,
                 if left != 0 then sum - per[p][q] else 0.0,
                 if left != 0 then (sum - per[p][q]) / left as real else 0.0)
  {
    RemoveDelta(per, court, p, q);
    WithoutPresent(court, p);
  }

  /** The finished quarters' courts are full and covered, and `total` is their accumulated
      averages. */
  ghost predicate History(per: map<string, seq<real>>, lineups: seq<seq<string>>, total: real,
                          round: real -> real)
  {
    |lineups| <= NumQuarters
    && (forall q :: 0 <= q < |lineups| ==> |lineups[q]| == MaxPlayersOnCourt && Covers(per, lineups[q]))
    && total == Total(per, lineups, round)
  }

  /** Closing a quarter with a full court whose average is `average` (main.js:237 and
      main.js:268) adds that quarter's contribution to the total. */
  lemma RecordQuarter(per: map<string, seq<real>>, lineups: seq<seq<string>>, total: real,
                      round: real -> real, court: seq<string>, average: real)
    requires History(per, lineups, total, round) && |lineups| < NumQuarters
    requires |court| == MaxPlayersOnCourt && Covers(per, court)
    requires average == CourtAverage(per, court, |lineups|)
    ensures History(per, lineups + [court], total + Contribution(average, |lineups|, round), round)
  {
    var l := lineups + [court];
    assert l[..|l| - 1] == lineups;
  }

  /** The state `window.onload` leaves: every player on the bench, none on the court. */
  lemma LoadedRoster(t: Table)
    requires WellFormed(t) && Complete(t)
    ensures Roster(t.names, t.per, [], t.names, 0)
    ensures Sums(t.per, [], 0, 0.0, 0.0)
  {
  }

  class Game {
    /** `parseFloat`, applied to a field's text. */
    const parse: string -> real
    /** `x => parseFloat(x.toPrecision(4))`, rounding to four significant digits. */
    const round: real -> real

    /** `playerMap` (main.js:2): key order and lookup. */
    var playerNames: seq<string>
    var playerStats: map<string, seq<real>>

    /** The ids of the player buttons under `playersOnCourt` and `playersOnBench`, in order. */
    var court: seq<string>
    var bench: seq<string>

    var currentQuarter: int
    var playersOnCourt: int
    var quarterInPlay: bool
    var quarterPER: real
    var quarterAvePER: real
    var totalAvePER: real

    /** The `secondsInQuarter` of each running interval, oldest first. */
    var countdowns: seq<int>

    /** The court that played each finished quarter. */
    ghost var lineups: seq<seq<string>>

    /** Court and bench split the roster between them. */
    ghost predicate RosterValid()
      reads this`playerNames, this`playerStats, this`court, this`bench, this`playersOnCourt
    {
      Roster(playerNames, playerStats, court, bench, playersOnCourt)
    }

    /** The running sum and average are those of the current court in the current quarter. */
    ghost predicate SumsValid()
      reads this`playerStats, this`court, this`currentQuarter, this`quarterPER, this`quarterAvePER
    {
      Sums(playerStats, court, currentQuarter, quarterPER, quarterAvePER)
    }

    /** The game is over: `endGame` has frozen it with no interval left. */
    ghost predicate GameOver()
      reads this`quarterInPlay, this`countdowns
    {
      quarterInPlay && countdowns == []
    }

    /** At most one countdown, only while a quarter is in play, and a quarter is in play only
        with a full court. */
    ghost predicate ClockValid()
      reads this`countdowns, this`quarterInPlay, this`playersOnCourt
    {
      |countdowns| <= 1
      && (countdowns != [] ==> quarterInPlay && 0 <= countdowns[0] <= QuarterSeconds)
      && (quarterInPlay ==> playersOnCourt == MaxPlayersOnCourt)
    }

    /** Each finished quarter's court is recorded, and `totalAvePER` is their accumulated
        averages. */
    ghost predicate Recorded()
      reads this`lineups, this`playerStats, this`totalAvePER
    {
      History(playerStats, lineups, totalAvePER, round)
    }

    /** One lineup per finished quarter: all four once the game is over. */
    ghost predicate HistoryValid()
      reads this`currentQuarter, this`quarterInPlay, this`countdowns, this`lineups, this`playerStats,
              this`totalAvePER
    {
      0 <= currentQuarter < NumQuarters && Recorded()
      && (if GameOver() then |lineups| == NumQuarters && currentQuarter == NumQuarters - 1
          else |lineups| == currentQuarter)
    }

    ghost predicate Valid()
      reads this
    {
      RosterValid() && SumsValid() && ClockValid() && HistoryValid()
    }

    /** `window.onload` (main.js:325): fresh globals, then `processPlayers` on the stat text.
        Every player needs a PER for all four quarters: the source fails at main.js:200 on a
        player who has fewer. */
    constructor (allPlayerStats: string, parse: string -> real, round: real -> real)
      requires Complete(Load(StatLines(allPlayerStats), parse))
      ensures Valid()
      ensures this.parse == parse && this.round == round
      ensures playerNames == Load(StatLines(allPlayerStats), parse).names
      ensures playerStats == Load(StatLines(allPlayerStats), parse).per
      ensures bench == playerNames && court == []
      ensures currentQuarter == 0 && !quarterInPlay && countdowns == []
      ensures quarterPER == 0.0 && quarterAvePER == 0.0 && totalAvePER == 0.0
    {
      this.parse := parse;
      this.round := round;
      playerNames, playerStats := [], map[];
      court, bench := [], [];
      currentQuarter, playersOnCourt, quarterInPlay := 0, 0, false;
      quarterPER, quarterAvePER, totalAvePER := 0.0, 0.0, 0.0;
      countdowns, lineups := [], [];
      new;
      ProcessPlayers(allPlayerStats);
      IngestWellFormed(EmptyTable, StatLines(allPlayerStats), parse);
      Settle();
    }

    /** The state right after loading: every player on the bench and all counters at 0. */
    ghost method Settle()
      requires WellFormed(Table(playerNames, playerStats)) && Complete(Table(playerNames, playerStats))
      requires bench == playerNames && court == [] && playersOnCourt == 0
      requires currentQuarter == 0 && !quarterInPlay && countdowns == [] && lineups == []
      requires quarterPER == 0.0 && quarterAvePER == 0.0 && totalAvePER == 0.0
      ensures Valid()
    {
      LoadedRoster(Table(playerNames, playerStats));
    }

    /** `processPlayers` (main.js:20-52): adds every used stat line to `playerMap`, then
        `displayPlayerBench` puts a button for every key on the bench. */
    method ProcessPlayers(allPlayerStats: string)
      modifies this`playerNames, this`playerStats, this`bench
      ensures Table(playerNames, playerStats)
           == Ingest(Table(old(playerNames), old(playerStats)), StatLines(allPlayerStats), parse)
      ensures bench == old(bench) + playerNames
    {
      var allPlayerStatLines := SplitLines(allPlayerStats);
      allPlayerStatLines := allPlayerStatLines[1..];
      ghost var start := Table(playerNames, playerStats);
      for i := 0 to |allPlayerStatLines|
        invariant Table(playerNames, playerStats) == Ingest(start, allPlayerStatLines[..i], parse)
        invariant bench == old(bench)
      {
        var statLine := allPlayerStatLines[i];
        assert allPlayerStatLines[..i + 1][..i] == allPlayerStatLines[..i];
        var stats := Split(statLine, ',');
        if |stats| <= 1 {
          continue;
        }
        var playerName := stats[1];
        if playerName !in playerStats {
          playerNames := playerNames + [playerName];
          playerStats := playerStats[playerName := []];
        }
        var per := parse(if |stats| > 9 then stats[9] else "undefined");
        playerStats := playerStats[playerName := playerStats[playerName] + [per]];
      }
      assert allPlayerStatLines[..|allPlayerStatLines|] == allPlayerStatLines;
      bench := bench + playerNames;
    }

    /** `movePlayer` (main.js:143-191): a click on `player`'s button. */
    method MovePlayer(player: string) returns (result: MoveResult)
      requires Valid() && player in playerNames
      modifies this`court, this`bench, this`playersOnCourt, this`quarterPER, this`quarterAvePER
      ensures Valid()
      ensures old(quarterInPlay) <==> result == QuarterInPlay
      ensures result == CourtFull
          <==> !old(quarterInPlay) && player in old(bench) && old(playersOnCourt) >= MaxPlayersOnCourt
      ensures result != Moved ==>
                court == old(court) && bench == old(bench) && playersOnCourt == old(playersOnCourt)
                && quarterPER == old(quarterPER) && quarterAvePER == old(quarterAvePER)
      ensures result == Moved && player in old(bench) ==>
                court == old(court) + [player] && bench == Without(old(bench), player)
                && playersOnCourt == old(playersOnCourt) + 1
                && quarterPER == old(quarterPER) + playerStats[player][currentQuarter]
      ensures result == Moved && player in old(court) ==>
                court == Without(old(court), player) && bench == old(bench) + [player]
                && playersOnCourt == old(playersOnCourt) - 1
                && (playersOnCourt == 0 ==> quarterPER == 0.0 && quarterAvePER == 0.0)
                && (playersOnCourt != 0 ==>
                      quarterPER == old(quarterPER) - playerStats[player][currentQuarter])
    {
      if quarterInPlay {
        return QuarterInPlay;
      }
      if player in bench {
        if playersOnCourt >= MaxPlayersOnCourt {
          return CourtFull;
        }
        MoveToCourt(player);
      } else {
        MoveToBench(player);
      }
      result := Moved;
    }

    /** The bench branch of `movePlayer` with room on the court (main.js:159-168): the count,
        the sum and the average take the player in, and the button moves to the court. */
    method MoveToCourt(player: string)
      requires RosterValid() && SumsValid() && player in bench && playersOnCourt < MaxPlayersOnCourt
      modifies this`court, this`bench, this`playersOnCourt, this`quarterPER, this`quarterAvePER
      ensures RosterValid() && SumsValid()
      ensures court == old(court) + [player] && bench == Without(old(bench), player)
      ensures playersOnCourt == old(playersOnCourt) + 1
      ensures quarterPER == old(quarterPER) + playerStats[player][currentQuarter]
    {
      playersOnCourt := playersOnCourt + 1;
      quarterPER := quarterPER + playerStats[player][currentQuarter];
      quarterAvePER := quarterPER / playersOnCourt as real;
      court := court + [player];
      bench := Without(bench, player);
      ToCourtKeepsRoster(playerNames, playerStats, old(court), old(bench), old(playersOnCourt), player);
      ToCourtKeepsSums(playerStats, old(court), currentQuarter, old(quarterPER), old(quarterAvePER), player);
    }

    /** The court branch of `movePlayer` (main.js:170-190): the count drops, the sum and the
        average give the player up (both are set to exactly 0 when the court empties), and the
        button moves to the bench. */
    method MoveToBench(player: string)
      requires RosterValid() && SumsValid() && player in court
      modifies this`court, this`bench, this`playersOnCourt, this`quarterPER, this`quarterAvePER
      ensures RosterValid() && SumsValid()
      ensures court == Without(old(court), player) && bench == old(bench) + [player]
      ensures playersOnCourt == old(playersOnCourt) - 1
      ensures playersOnCourt == 0 ==> quarterPER == 0.0 && quarterAvePER == 0.0
      ensures playersOnCourt != 0 ==> quarterPER == old(quarterPER) - playerStats[player][currentQuarter]
    {
      playersOnCourt := playersOnCourt - 1;
      if playersOnCourt != 0 {
        quarterPER := quarterPER - playerStats[player][currentQuarter];
        quarterAvePER := quarterPER / playersOnCourt as real;
      } else {
        quarterPER := 0.0;
        quarterAvePER := 0.0;
      }
      bench := bench + [player];
      court := Without(court, player);
      ToBenchKeepsRoster(playerNames, playerStats, old(court), old(bench), old(playersOnCourt), player);
      ToBenchKeepsSums(playerStats, old(court), currentQuarter, old(quarterPER), old(quarterAvePER), player);
    }

    /** `startNextQuarter` (main.js:286-323) with the missing check added: a quarter starts only
        with exactly five players on the court AND no quarter in play. */
    method StartNextQuarter() returns (started: bool)
      requires Valid()
      modifies this`quarterInPlay, this`countdowns
      ensures Valid()
      ensures started == (!old(quarterInPlay) && old(playersOnCourt) == MaxPlayersOnCourt)
      ensures started ==> quarterInPlay && countdowns == [QuarterSeconds]
      ensures !started ==> quarterInPlay == old(quarterInPlay) && countdowns == old(countdowns)
    {
      if quarterInPlay || playersOnCourt != MaxPlayersOnCourt {
        return false;
      }
      var secondsInQuarter := QuarterSeconds;
      quarterInPlay := true;
      countdowns := countdowns + [secondsInQuarter];
      started := true;
    }

    /** `startNextQuarter` as main.js:286-323 writes it: only the court size is checked, so a
        click while a quarter is in play (or after the game) starts a second interval. */
    method StartNextQuarterAsWritten() returns (started: bool)
      requires Valid()
      modifies this`quarterInPlay, this`countdowns
      ensures started == (old(playersOnCourt) == MaxPlayersOnCourt)
      ensures started ==> quarterInPlay && countdowns == old(countdowns) + [QuarterSeconds]
      ensures !started ==> quarterInPlay == old(quarterInPlay) && countdowns == old(countdowns)
      ensures started && old(countdowns) != [] ==> |countdowns| == 2 && !Valid()
    {
      if playersOnCourt != MaxPlayersOnCourt {
        return false;
      }
      var secondsInQuarter := QuarterSeconds;
      quarterInPlay := true;
      countdowns := countdowns + [secondsInQuarter];
      started := true;
    }

    /** One firing of the interval callback (main.js:305-321). */
    method Tick() returns (result: TickResult)
      requires Valid()
      modifies this`countdowns, this`quarterInPlay, this`totalAvePER, this`currentQuarter,
               this`quarterPER, this`quarterAvePER, this`lineups
      ensures Valid()
      ensures court == old(court) && bench == old(bench)
      ensures old(countdowns) == [] ==>
                result == NoCountdown && countdowns == [] && quarterInPlay == old(quarterInPlay)
                && currentQuarter == old(currentQuarter) && totalAvePER == old(totalAvePER)
                && quarterPER == old(quarterPER) && quarterAvePER == old(quarterAvePER)
      ensures old(countdowns) != [] && !ExpiresOnTick(old(countdowns[0])) ==>
                result == Counting(old(countdowns[0])) && countdowns == [old(countdowns[0]) - 1]
                && quarterInPlay && currentQuarter == old(currentQuarter)
                && totalAvePER == old(totalAvePER)
                && quarterPER == old(quarterPER) && quarterAvePER == old(quarterAvePER)
      ensures old(countdowns) != [] && ExpiresOnTick(old(countdowns[0])) ==>
                countdowns == [] && lineups == old(lineups) + [old(court)]
                && (old(currentQuarter) < NumQuarters - 1 <==> result == QuarterEnded)
                && (old(currentQuarter) == NumQuarters - 1 <==> result.GameEnded?)
      ensures result == QuarterEnded ==>
                !quarterInPlay && currentQuarter == old(currentQuarter) + 1
                && totalAvePER == old(totalAvePER) + round(old(quarterAvePER))
      ensures result.GameEnded? ==>
                GameOver() && currentQuarter == old(currentQuarter)
                && totalAvePER == old(totalAvePER) + old(quarterAvePER)
                && result.averagePER == totalAvePER / NumQuarters as real
                && result.averagePER == Total(playerStats, lineups, round) / NumQuarters as real
    {
      if countdowns == [] {
        return NoCountdown;
      }
      var secondsInQuarter := countdowns[0];
      result := Counting(secondsInQuarter);
      secondsInQuarter := secondsInQuarter - 1;
      if secondsInQuarter < 0 {
        countdowns := [];
        if currentQuarter < 3 {
          EndQuarter();
          result := QuarterEnded;
        } else {
          var averagePER := EndGame();
          result := GameEnded(averagePER);
        }
      } else {
        countdowns := [secondsInQuarter];
      }
    }

    /** `endQuarter` (main.js:233-260): substitutions are allowed again, the quarter's rounded
        average is added to the total and the next quarter's PER is loaded. */
    method EndQuarter()
      requires RosterValid() && SumsValid() && Recorded() && |lineups| == currentQuarter
      requires quarterInPlay && countdowns == [] && playersOnCourt == MaxPlayersOnCourt
      requires 0 <= currentQuarter < NumQuarters - 1
      modifies this`quarterInPlay, this`totalAvePER, this`currentQuarter, this`quarterPER,
               this`quarterAvePER, this`lineups
      ensures Valid()
      ensures !quarterInPlay && currentQuarter == old(currentQuarter) + 1
      ensures totalAvePER == old(totalAvePER) + round(old(quarterAvePER))
      ensures lineups == old(lineups) + [court]
    {
      RecordQuarter(playerStats, lineups, totalAvePER, round, court, quarterAvePER);
      quarterInPlay := false;
      totalAvePER := totalAvePER + round(quarterAvePER);
      lineups := lineups + [court];
      currentQuarter := currentQuarter + 1;
      UpdateCardsInGame();
    }

    /** The recompute of `updateCardsInGame` (main.js:203-223): the sum is rebuilt from
        nothing over the court and divided by the number of players. */
    method UpdateCardsInGame()
      requires Covers(playerStats, court) && 0 <= currentQuarter < NumQuarters
      requires playersOnCourt == |court| && playersOnCourt != 0
      modifies this`quarterPER, this`quarterAvePER
      ensures quarterPER == CourtPER(playerStats, court, currentQuarter)
      ensures quarterAvePER == CourtAverage(playerStats, court, currentQuarter)
    {
      quarterPER := 0.0;
      quarterAvePER := 0.0;
      var currentPlayers := court;
      for playerIndex := 0 to |currentPlayers|
        invariant Covers(playerStats, currentPlayers[..playerIndex])
        invariant quarterPER == CourtPER(playerStats, currentPlayers[..playerIndex], currentQuarter)
      {
        var playerName := currentPlayers[playerIndex];
        assert currentPlayers[..playerIndex + 1][..playerIndex] == currentPlayers[..playerIndex];
        var playerPER := playerStats[playerName][currentQuarter];
        quarterPER := quarterPER + playerPER;
      }
      assert currentPlayers[..|currentPlayers|] == court;
      quarterAvePER := quarterPER / playersOnCourt as real;
    }

    /** `endGame` (main.js:264-281): substitutions stay blocked for good, the last quarter's
        average is added unrounded (`parseFloat` of a number gives the number back) and the
        game average is the total over four. */
    method EndGame() returns (averagePER: real)
      requires RosterValid() && SumsValid() && Recorded() && |lineups| == currentQuarter
      requires quarterInPlay && countdowns == [] && playersOnCourt == MaxPlayersOnCourt
      requires currentQuarter == NumQuarters - 1
      modifies this`quarterInPlay, this`totalAvePER, this`lineups
      ensures Valid() && GameOver()
      ensures totalAvePER == old(totalAvePER) + old(quarterAvePER)
      ensures lineups == old(lineups) + [court]
      ensures averagePER == totalAvePER / NumQuarters as real
    {
      RecordQuarter(playerStats, lineups, totalAvePER, round, court, quarterAvePER);
      quarterInPlay := true;
      totalAvePER := totalAvePER + quarterAvePER;
      lineups := lineups + [court];
      averagePER := totalAvePER / NumQuarters as real;
    }
  }
}
