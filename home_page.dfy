/**
 * The home page: which fixtures it shows, and the colour class of each
 * recent result.
 */
module HomePage {
  import opened Wrappers
  import opened Fixtures
  import opened PredictionService
  import opened PredictionBox

  /** The style class of a result row: win, loss or draw. */
  datatype ResultClass = WinClass | LossClass | DrawClass

  /** The tracked club's goal difference: home minus away when it plays at home, away minus home otherwise. */
  function GoalDifference(m: Match): int {
    if m.homeTeam.id == TrackedTeamId then m.home - m.away else m.away - m.home
  }

  /** getResultClass: win, loss or draw by the sign of the tracked club's goal difference. */
  function GetResultClass(m: Match): (c: ResultClass)
    ensures c == WinClass <==> (if m.homeTeam.id == TrackedTeamId then m.home > m.away else m.away > m.home)
    ensures c == LossClass <==> (if m.homeTeam.id == TrackedTeamId then m.home < m.away else m.away < m.home)
  {
    var diff := GoalDifference(m);
    if diff > 0 then WinClass
    else if diff < 0 then LossClass
    else DrawClass
  }

  /** The style class names the same outcome getMatchResult computes, for every match. */
  lemma ResultClassAgrees(m: Match)
    ensures GetResultClass(m) == WinClass <==> MatchResult(m) == Win
    ensures GetResultClass(m) == LossClass <==> MatchResult(m) == Lose
    ensures GetResultClass(m) == DrawClass <==> MatchResult(m) == Draw
  {
  }

  /** A provider response: whether it succeeded, and the `matches` field of its body if present. */
  datatype Response = Response(ok: bool, matches: Option<seq<Match>>)

  /** What the page renders: the error view, or the next match, the recent results and their classes. */
  datatype Page =
    | ErrorView
    | Loaded(nextMatch: Option<Match>, previousMatches: seq<Match>, resultClasses: seq<ResultClass>)

  /** The page for the two provider responses: scheduled fixtures (limit 1) and finished ones (limit 5). */
  function Home(upcoming: Response, previous: Response): (p: Page)
    ensures p.ErrorView? <==> !upcoming.ok || !previous.ok
    ensures p.Loaded? ==>
              p.nextMatch == (if upcoming.matches.Some? && |upcoming.matches.value| > 0
                              then Some(upcoming.matches.value[0]) else None)
    ensures p.Loaded? ==> p.previousMatches == previous.matches.GetOr([])
    ensures p.Loaded? ==>
              |p.resultClasses| == |p.previousMatches| &&
              forall i :: 0 <= i < |p.previousMatches| ==>
                (p.resultClasses[i] == WinClass <==> MatchResult(p.previousMatches[i]) == Win) &&
                (p.resultClasses[i] == LossClass <==> MatchResult(p.previousMatches[i]) == Lose)
  {
    if !upcoming.ok || !previous.ok then ErrorView
    else
      var nextMatch := match upcoming.matches
        case Some(ms) => if |ms| > 0 then Some(ms[0]) else None
        case None => None;
      var previousMatches := previous.matches.GetOr([]);
      var classes := seq(|previousMatches|, i requires 0 <= i < |previousMatches| => GetResultClass(previousMatches[i]));
      assert forall i :: 0 <= i < |previousMatches| ==> classes[i] == GetResultClass(previousMatches[i]);
      Loaded(nextMatch, previousMatches, classes)
  }
}
