/**
 * The list of recent results: one row per finished match with the stored
 * prediction, its verdict and the result, and the badge each row shows.
 */
module LastResults {
  import opened Wrappers
  import opened Fixtures
  import opened PredictionService
  import opened PredictionBox

  /** One row of the list; `game` is the row's `match` field, a reserved word in Dafny. */
  datatype Row = Row(game: Match, prediction: Option<Outcome>, success: Option<bool>, actualResult: Outcome)

  /** The result as this list computes it: from the HOME side's point of view, whoever is tracked. */
  function HomeResult(m: Match): (r: Outcome)
    ensures r == Win <==> m.home > m.away
    ensures r == Lose <==> m.home < m.away
  {
    if m.home > m.away then Win
    else if m.home < m.away then Lose
    else Draw
  }

  /**
   * The home-side result equals the tracked club's result when the club
   * plays at home, and is its mirror image otherwise: an away win of the
   * club is listed as LOSE.
   */
  lemma HomeResultVersusMatchResult(m: Match)
    ensures m.homeTeam.id == TrackedTeamId ==> HomeResult(m) == MatchResult(m)
    ensures m.homeTeam.id != TrackedTeamId ==> HomeResult(m) == Mirror(MatchResult(m))
  {
  }

  /** A concrete case: the tracked club winning 2-0 away is listed with result LOSE. */
  lemma AwayWinListedAsLose()
    ensures var m := Match(1, Team(57, "Arsenal"), Team(TrackedTeamId, "Chelsea"), 0, 2);
            MatchResult(m) == Win && HomeResult(m) == Lose
  {
  }

  /** The row for one match, given what loadPrediction found for it. */
  function RowFor(m: Match, saved: Option<StoredPrediction>): (row: Row)
    ensures row.game == m
    ensures row.prediction.None? <==> saved.None?
    ensures saved.Some? ==> row.prediction == Some(saved.value.prediction) && row.success == saved.value.success
    ensures saved.None? ==> row.success.None?
    ensures row.actualResult == Win <==> m.home > m.away
    ensures row.actualResult == Lose <==> m.home < m.away
  {
    Row(m,
        if saved.Some? then Some(saved.value.prediction) else None,
        if saved.Some? then saved.value.success else None,
        HomeResult(m))
  }

  /** The rows for the matches, in order, looked up in the storage without changing it. */
  function Results(matches: seq<Match>, available: bool, entries: map<string, StoredPrediction>): (rows: seq<Row>)
    ensures |rows| == |matches|
    ensures forall i :: 0 <= i < |rows| ==>
              var saved := Lookup(available, entries, matches[i].id);
              rows[i].game == matches[i] &&
              (rows[i].prediction.None? <==> saved.None?) &&
              (saved.Some? ==> rows[i].prediction == Some(saved.value.prediction)) &&
              (rows[i].success.None? <==> saved.None? || saved.value.success.None?) &&
              (rows[i].success.Some? ==> rows[i].success == saved.value.success) &&
              (rows[i].actualResult == Win <==> matches[i].home > matches[i].away) &&
              (rows[i].actualResult == Lose <==> matches[i].home < matches[i].away)
  {
    seq(|matches|, i requires 0 <= i < |matches| => RowFor(matches[i], Lookup(available, entries, matches[i].id)))
  }

  /** What a row shows under the score: "No prediction", or the prediction with a tick or a cross. */
  datatype Badge = NoPrediction | Guess(prediction: Outcome, tick: bool)

  function BadgeOf(row: Row): (b: Badge)
    ensures b.NoPrediction? <==> row.prediction.None?
    ensures b.Guess? ==> b.prediction == row.prediction.value
    ensures b.Guess? ==> (b.tick <==> row.success == Some(true))
  {
    match row.prediction
    case None => NoPrediction
    case Some(p) => Guess(p, row.success.GetOr(false))
  }

  /** A prediction still waiting for its result is shown with a cross, not with a tick. */
  lemma UnresolvedShowsCross(m: Match, saved: StoredPrediction)
    requires WellFormed(saved) && saved.resolvedAt.None?
    ensures BadgeOf(RowFor(m, Some(saved))) == Guess(saved.prediction, false)
  {
  }
}
