/** The PER of the players on the court: the running sum `quarterPER`, the average
    `quarterAvePER` (main.js:15-16) and the game total `totalAvePER` (main.js:17). */
module Aggregate {
  import opened Constants
  import opened Seqs

  /** Every player in `court` has a PER value for each quarter. */
  ghost predicate Covers(per: map<string, seq<real>>, court: seq<string>) {
    forall p :: p in court ==> p in per && |per[p]| >= NumQuarters
  }

  /** Player `p`'s PER in quarter `q`; only ever taken where `Covers` holds, the 0 outside
      it keeps the reference definitions below total. */
  ghost function PerOf(per: map<string, seq<real>>, p: string, q: nat): real {
    if p in per && q < |per[p]| then per[p][q] else 0.0
  }

  /** Reference sum: the PER in quarter `q` of the players in `court`, added in court order
      as the loop at main.js:211-220 does. */
  ghost function CourtPER(per: map<string, seq<real>>, court: seq<string>, q: nat): real
    decreases |court|
  {
    if court == [] then 0.0
    else CourtPER(per, court[..|court| - 1], q) + PerOf(per, court[|court| - 1], q)
  }

  /** Reference average: the sum over the number of players, and 0 for an empty court. */
  ghost function CourtAverage(per: map<string, seq<real>>, court: seq<string>, q: nat): real
  {
    if |court| == 0 then 0.0 else CourtPER(per, court, q) / |court| as real
  }

  /** A player who comes on adds exactly their own PER to the sum. */
  lemma AddDelta(per: map<string, seq<real>>, court: seq<string>, p: string, q: nat)
    requires Covers(per, court) && p in per && |per[p]| >= NumQuarters && q < NumQuarters
    ensures Covers(per, court + [p])
    ensures CourtPER(per, court + [p], q) == CourtPER(per, court, q) + per[p][q]
  {
    assert (court + [p])[..|court|] == court;
  }

  /** A player who goes off takes exactly their own PER out of the sum, so the incremental
      update of main.js:177 agrees with recomputing the sum. */
  lemma {:induction false} RemoveDelta(per: map<string, seq<real>>, court: seq<string>, p: string, q: nat)
    requires Covers(per, court) && NoDup(court) && p in court && q < NumQuarters
    ensures Covers(per, Without(court, p))
    ensures CourtPER(per, Without(court, p), q) == CourtPER(per, court, q) - per[p][q]
    decreases |court|
  {
    var init, last := court[..|court| - 1], court[|court| - 1];
    assert court == init + [last];
    assert Covers(per, init);
    assert NoDup(init);
    if last == p {
      assert p !in init;
      WithoutAbsent(init, p);
    } else {
      RemoveDelta(per, init, p, q);
      assert Without(court, p) == Without(init, p) + [last];
      AddDelta(per, Without(init, p), last, q);
    }
  }

  /** The contribution of quarter `q` to `totalAvePER`: `endQuarter` adds the average rounded
      to four significant digits (main.js:241) for quarters 0 to 2, `endGame` adds the last
      quarter's average as it is (main.js:269). */
  ghost function Contribution(average: real, q: nat, round: real -> real): real {
    if q < NumQuarters - 1 then round(average) else average
  }

  /** Reference total: the contributions of the quarters whose lineups are given, where
      `lineups[q]` is the court that played quarter `q`. */
  ghost function Total(per: map<string, seq<real>>, lineups: seq<seq<string>>, round: real -> real): real
    decreases |lineups|
  {
    if lineups == [] then 0.0
    else
      var q := |lineups| - 1;
      Total(per, lineups[..q], round) + Contribution(CourtAverage(per, lineups[q], q), q, round)
  }

  /** After the four quarters the total is the three rounded quarter averages plus the
      last one unrounded. */
  lemma {:induction false} FullGameTotal(per: map<string, seq<real>>, lineups: seq<seq<string>>, round: real -> real)
    requires |lineups| == NumQuarters
    ensures Total(per, lineups, round)
         == round(CourtAverage(per, lineups[0], 0)) + round(CourtAverage(per, lineups[1], 1))
            + round(CourtAverage(per, lineups[2], 2)) + CourtAverage(per, lineups[3], 3)
  {
    var l3, l2, l1 := lineups[..3], lineups[..2], lineups[..1];
    assert l3[..2] == l2 && l2[..1] == l1 && l1[..0] == [];
    assert Total(per, l1, round) == round(CourtAverage(per, lineups[0], 0));
    assert Total(per, l2, round) == Total(per, l1, round) + round(CourtAverage(per, lineups[1], 1));
    assert Total(per, l3, round) == Total(per, l2, round) + round(CourtAverage(per, lineups[2], 2));
  }
}
