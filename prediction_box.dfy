/**
 * The prediction box of the next fixture: the outcome rule for a finished
 * match, the pass that resolves pending predictions of finished matches,
 * and the box's own state (choice, lock, status banner).
 */
module PredictionBox {
  import opened Wrappers
  import opened Fixtures
  import opened PredictionService

  // ---------------------------------------------------------------------
  // Outcome rule
  // ---------------------------------------------------------------------

  /** getMatchResult: the outcome for the tracked club, which is the home side exactly when its id is the tracked one. */
  function MatchResult(m: Match): (r: Outcome)
    ensures r == Win <==> (if m.homeTeam.id == TrackedTeamId then m.home > m.away else m.away > m.home)
    ensures r == Lose <==> (if m.homeTeam.id == TrackedTeamId then m.home < m.away else m.away < m.home)
  {
    var trackedAtHome := m.homeTeam.id == TrackedTeamId;
    var goalsFor := if trackedAtHome then m.home else m.away;
    var goalsAgainst := if trackedAtHome then m.away else m.home;
    if goalsFor > goalsAgainst then Win
    else if goalsFor < goalsAgainst then Lose
    else Draw
  }

  /**
   * Exchanging the sides keeps the outcome when the tracked club plays on
   * exactly one side, and mirrors it otherwise.
   */
  lemma MatchResultSymmetry(m: Match)
    ensures (m.homeTeam.id == TrackedTeamId) != (m.awayTeam.id == TrackedTeamId) ==>
              MatchResult(Swapped(m)) == MatchResult(m)
    ensures (m.homeTeam.id == TrackedTeamId) == (m.awayTeam.id == TrackedTeamId) ==>
              MatchResult(Swapped(m)) == Mirror(MatchResult(m))
  {
  }

  // ---------------------------------------------------------------------
  // Resolving pending predictions
  // ---------------------------------------------------------------------

  /** A record exists for the fixture and has no result yet. */
  predicate Pending(available: bool, entries: map<string, StoredPrediction>, fixtureId: int) {
    var saved := Lookup(available, entries, fixtureId);
    saved.Some? && saved.value.result.None?
  }

  /** A pending record once the finished match `m` has resolved it. */
  function Settled(saved: StoredPrediction, m: Match, now: int): StoredPrediction {
    var actual := MatchResult(m);
    saved.(result := Some(actual), success := Some(saved.prediction == actual), resolvedAt := Some(now))
  }

  /** One iteration of the resolving pass, for the finished match `m`. */
  function ResolveOne(available: bool, entries: map<string, StoredPrediction>, m: Match, now: int)
    : (after: map<string, StoredPrediction>)
    ensures after.Keys == entries.Keys
    ensures after - {Key(m.id)} == entries - {Key(m.id)}
    ensures !Pending(available, entries, m.id) ==> after == entries
    ensures Pending(available, entries, m.id) ==>
              Lookup(available, after, m.id) == Some(Settled(entries[Key(m.id)], m, now))
    ensures !Pending(available, after, m.id)
  {
    match Lookup(available, entries, m.id)
    case None => entries
    case Some(saved) =>
      if saved.result.None? then
        var actual := MatchResult(m);
        ResultSaved(available, entries, m.id, Some(actual), saved.prediction == actual, now)
      else
        entries
  }

  /** The storage after the resolving pass over `ms`, in order. */
  function ResolveAll(available: bool, entries: map<string, StoredPrediction>, ms: seq<Match>, now: int)
    : (after: map<string, StoredPrediction>)
    ensures after.Keys == entries.Keys
    ensures !available ==> after == entries
    decreases |ms|
  {
    if ms == [] then entries
    else ResolveOne(available, ResolveAll(available, entries, ms[..|ms| - 1], now), ms[|ms| - 1], now)
  }

  /** The keys whose records the pass over `ms` may touch: pending records of the listed matches. */
  function PendingKeys(available: bool, entries: map<string, StoredPrediction>, ms: seq<Match>): set<string> {
    set i | 0 <= i < |ms| && Pending(available, entries, ms[i].id) :: Key(ms[i].id)
  }

  /** A fixture that is not pending (no record, or already resolved) stays so through one iteration. */
  lemma ResolveOneKeepsSettled(available: bool, entries: map<string, StoredPrediction>, m: Match, now: int, id: int)
    requires !Pending(available, entries, id)
    ensures Lookup(available, ResolveOne(available, entries, m, now), id) == Lookup(available, entries, id)
  {
  }

  /** A fixture pending after the pass was pending before it, with the very same record. */
  lemma {:induction false} PendingBefore(available: bool, entries: map<string, StoredPrediction>, ms: seq<Match>, now: int, id: int)
    requires Pending(available, ResolveAll(available, entries, ms, now), id)
    ensures Pending(available, entries, id)
    ensures Lookup(available, ResolveAll(available, entries, ms, now), id) == Lookup(available, entries, id)
    decreases |ms|
  {
    if ms != [] {
      var prefix, m := ms[..|ms| - 1], ms[|ms| - 1];
      var before := ResolveAll(available, entries, prefix, now);
      KeyInjective(id, m.id);
      if Pending(available, before, id) {
        PendingBefore(available, entries, prefix, now, id);
        if id != m.id {
          assert Key(id) !in {Key(m.id)};
        }
      } else {
        ResolveOneKeepsSettled(available, before, m, now, id);
      }
    }
  }

  /**
   * The pass keeps the set of keys, and changes nothing outside the
   * pending records of the listed matches; in particular no resolved
   * record and no foreign entry is touched.
   */
  lemma {:induction false} ResolveAllFrame(available: bool, entries: map<string, StoredPrediction>, ms: seq<Match>, now: int)
    ensures ResolveAll(available, entries, ms, now).Keys == entries.Keys
    ensures forall k :: k in entries && k !in PendingKeys(available, entries, ms) ==>
              ResolveAll(available, entries, ms, now)[k] == entries[k]
    decreases |ms|
  {
    if ms != [] {
      var prefix, m := ms[..|ms| - 1], ms[|ms| - 1];
      var before := ResolveAll(available, entries, prefix, now);
      var touched, touched' := PendingKeys(available, entries, ms), PendingKeys(available, entries, prefix);
      ResolveAllFrame(available, entries, prefix, now);
      assert touched' <= touched by {
        forall k | k in touched' ensures k in touched {
          var i :| 0 <= i < |prefix| && Pending(available, entries, prefix[i].id) && k == Key(prefix[i].id);
          assert ms[i] == prefix[i];
        }
      }
      if Pending(available, before, m.id) {
        PendingBefore(available, entries, prefix, now, m.id);
        assert Key(m.id) in touched;
      }
      forall k | k in entries && k !in touched
        ensures ResolveOne(available, before, m, now)[k] == entries[k]
      {
        if k == Key(m.id) {
          assert !Pending(available, before, m.id);
        } else {
          assert k !in {Key(m.id)};
        }
      }
    }
  }

  /** A match's fixture is untouched by a pass over matches of other fixtures. */
  lemma {:induction false} ResolveAllElsewhere(available: bool, entries: map<string, StoredPrediction>, ms: seq<Match>, now: int, id: int)
    requires forall i :: 0 <= i < |ms| ==> ms[i].id != id
    ensures Lookup(available, ResolveAll(available, entries, ms, now), id) == Lookup(available, entries, id)
    decreases |ms|
  {
    if ms != [] {
      var prefix, m := ms[..|ms| - 1], ms[|ms| - 1];
      ResolveAllElsewhere(available, entries, prefix, now, id);
      KeyInjective(id, m.id);
      assert Key(id) !in {Key(m.id)};
    }
  }

  /**
   * A pending record of a listed fixture ends up resolved by the FIRST
   * match of that fixture: result from the score, success when the
   * prediction equals it; later matches of the same fixture find it
   * resolved and leave it alone.
   */
  lemma {:induction false} ResolveAllSettles(available: bool, entries: map<string, StoredPrediction>, ms: seq<Match>, now: int, i: nat)
    requires i < |ms| && Pending(available, entries, ms[i].id)
    requires forall j :: 0 <= j < i ==> ms[j].id != ms[i].id
    ensures Lookup(available, ResolveAll(available, entries, ms, now), ms[i].id) ==
            Some(Settled(entries[Key(ms[i].id)], ms[i], now))
    decreases |ms|
  {
    var prefix, m := ms[..|ms| - 1], ms[|ms| - 1];
    var before := ResolveAll(available, entries, prefix, now);
    if i == |ms| - 1 {
      ResolveAllElsewhere(available, entries, prefix, now, m.id);
    } else {
      assert prefix[i] == ms[i];
      ResolveAllSettles(available, entries, prefix, now, i);
      ResolveOneKeepsSettled(available, before, m, now, ms[i].id);
    }
  }

  /** After the pass no listed fixture is pending any more. */
  lemma {:induction false} ResolveAllLeavesNonePending(available: bool, entries: map<string, StoredPrediction>, ms: seq<Match>, now: int)
    ensures forall i :: 0 <= i < |ms| ==> !Pending(available, ResolveAll(available, entries, ms, now), ms[i].id)
    decreases |ms|
  {
    if ms != [] {
      var prefix, m := ms[..|ms| - 1], ms[|ms| - 1];
      var before := ResolveAll(available, entries, prefix, now);
      ResolveAllLeavesNonePending(available, entries, prefix, now);
      forall i | 0 <= i < |ms| ensures !Pending(available, ResolveOne(available, before, m, now), ms[i].id) {
        if i < |prefix| {
          assert ms[i] == prefix[i];
          ResolveOneKeepsSettled(available, before, m, now, ms[i].id);
        }
      }
    }
  }

  /** A pass over matches none of which is pending changes nothing. */
  lemma {:induction false} ResolveAllQuiet(available: bool, entries: map<string, StoredPrediction>, ms: seq<Match>, now: int)
    requires forall i :: 0 <= i < |ms| ==> !Pending(available, entries, ms[i].id)
    ensures ResolveAll(available, entries, ms, now) == entries
    decreases |ms|
  {
    if ms != [] {
      var prefix := ms[..|ms| - 1];
      assert forall i :: 0 <= i < |prefix| ==> prefix[i] == ms[i];
      ResolveAllQuiet(available, entries, prefix, now);
    }
  }

  /** Running the pass a second time, at any later time, changes nothing. */
  lemma ResolveAllIdempotent(available: bool, entries: map<string, StoredPrediction>, ms: seq<Match>, now: int, later: int)
    ensures ResolveAll(available, ResolveAll(available, entries, ms, now), ms, later) == ResolveAll(available, entries, ms, now)
  {
    ResolveAllLeavesNonePending(available, entries, ms, now);
    ResolveAllQuiet(available, ResolveAll(available, entries, ms, now), ms, later);
  }

  /** The pass keeps every record's fixture id, prediction and lock time, and keeps records well formed. */
  lemma {:induction false} ResolveAllKeepsLock(available: bool, entries: map<string, StoredPrediction>, ms: seq<Match>, now: int)
    ensures forall k :: k in entries ==>
              var after := ResolveAll(available, entries, ms, now);
              k in after && after[k].fixtureId == entries[k].fixtureId &&
              after[k].prediction == entries[k].prediction && after[k].lockedAt == entries[k].lockedAt &&
              (WellFormed(entries[k]) ==> WellFormed(after[k]))
    decreases |ms|
  {
    if ms != [] {
      var prefix, m := ms[..|ms| - 1], ms[|ms| - 1];
      var before := ResolveAll(available, entries, prefix, now);
      ResolveAllKeepsLock(available, entries, prefix, now);
      forall k | k in before
        ensures var after := ResolveOne(available, before, m, now);
                k in after && after[k].fixtureId == before[k].fixtureId &&
                after[k].prediction == before[k].prediction && after[k].lockedAt == before[k].lockedAt &&
                (WellFormed(before[k]) ==> WellFormed(after[k]))
      {
        if k != Key(m.id) {
          assert k !in {Key(m.id)};
        }
      }
    }
  }

  /** Fixture 100, tracked club at home, WIN locked, final score 2-1: the record becomes WIN and correct. */
  lemma ScenarioHomeWin(now: int, later: int)
    ensures var m := Match(100, Team(TrackedTeamId, "Chelsea"), Team(57, "Arsenal"), 2, 1);
            var locked := Saved(true, map[], 100, Win, now);
            Lookup(true, ResolveAll(true, locked, [m], later), 100) ==
              Some(StoredPrediction(100, Win, now, Some(Win), Some(true), Some(later)))
  {
  }

  /** The same fixture with DRAW locked: the record becomes WIN and wrong. */
  lemma ScenarioWrongDraw(now: int, later: int)
    ensures var m := Match(100, Team(TrackedTeamId, "Chelsea"), Team(57, "Arsenal"), 2, 1);
            var locked := Saved(true, map[], 100, Draw, now);
            Lookup(true, ResolveAll(true, locked, [m], later), 100) ==
              Some(StoredPrediction(100, Draw, now, Some(Win), Some(false), Some(later)))
  {
  }

  /** A finished fixture without a record still has none after the pass. */
  lemma ScenarioNoRecord(entries: map<string, StoredPrediction>, m: Match, now: int)
    requires Lookup(true, entries, m.id).None?
    ensures Lookup(true, ResolveAll(true, entries, [m], now), m.id).None?
  {
  }

  // ---------------------------------------------------------------------
  // The box's state
  // ---------------------------------------------------------------------

  /** The status banner: none yet, "locked" or "resolved". */
  datatype Status = NoStatus | LockedStatus | ResolvedStatus

  /** The revealed result and whether the prediction was right (`resultInfo`). */
  datatype Verdict = Verdict(result: Outcome, success: bool)

  datatype Banner = Banner(status: Status, resultInfo: Option<Verdict>)

  /**
   * The banner after the resolving pass: an iteration that resolves the
   * box's own fixture switches it to "resolved" with that verdict.
   */
  function Announce(available: bool, entries: map<string, StoredPrediction>, ms: seq<Match>,
                    fixture: Option<Match>, now: int, initial: Banner): (b: Banner)
    ensures b == initial || (b.status == ResolvedStatus && b.resultInfo.Some?)
    decreases |ms|
  {
    if ms == [] then initial
    else
      var prefix, m := ms[..|ms| - 1], ms[|ms| - 1];
      var shown := Announce(available, entries, prefix, fixture, now, initial);
      var before := ResolveAll(available, entries, prefix, now);
      match Lookup(available, before, m.id)
      case Some(saved) =>
        if saved.result.None? && fixture.Some? && fixture.value.id == m.id then
          var actual := MatchResult(m);
          Banner(ResolvedStatus, Some(Verdict(actual, saved.prediction == actual)))
        else shown
      case None => shown
  }

  /** Without a pending record for the box's fixture, the pass leaves the banner alone. */
  lemma {:induction false} AnnounceQuiet(available: bool, entries: map<string, StoredPrediction>, ms: seq<Match>,
                                         fixture: Option<Match>, now: int, initial: Banner)
    requires fixture.None? || !Pending(available, entries, fixture.value.id)
    ensures Announce(available, entries, ms, fixture, now, initial) == initial
    decreases |ms|
  {
    if ms != [] {
      var prefix, m := ms[..|ms| - 1], ms[|ms| - 1];
      AnnounceQuiet(available, entries, prefix, fixture, now, initial);
      if fixture.Some? && fixture.value.id == m.id && Pending(available, ResolveAll(available, entries, prefix, now), m.id) {
        PendingBefore(available, entries, prefix, now, m.id);
      }
    }
  }

  /**
   * When none of the listed matches is the box's own fixture, no iteration
   * can announce it, so the banner stays as it was, whether or not the
   * fixture's record is pending.
   */
  lemma {:induction false} AnnounceUnlisted(available: bool, entries: map<string, StoredPrediction>, ms: seq<Match>,
                                            fixture: Option<Match>, now: int, initial: Banner)
    requires fixture.Some? && forall i :: 0 <= i < |ms| ==> ms[i].id != fixture.value.id
    ensures Announce(available, entries, ms, fixture, now, initial) == initial
    decreases |ms|
  {
    if ms != [] {
      var prefix := ms[..|ms| - 1];
      assert forall i :: 0 <= i < |prefix| ==> prefix[i] == ms[i];
      AnnounceUnlisted(available, entries, prefix, fixture, now, initial);
    }
  }

  /**
   * With a pending record for the box's own fixture, the pass switches the
   * banner to "resolved" with the verdict of the first listed match of that
   * fixture: its result, and whether the stored prediction equals it.
   */
  lemma {:induction false} AnnounceSettles(available: bool, entries: map<string, StoredPrediction>, ms: seq<Match>,
                                           fixture: Option<Match>, now: int, initial: Banner, i: nat)
    requires fixture.Some? && i < |ms| && ms[i].id == fixture.value.id
    requires Pending(available, entries, ms[i].id)
    requires forall j :: 0 <= j < i ==> ms[j].id != ms[i].id
    ensures Announce(available, entries, ms, fixture, now, initial) ==
            Banner(ResolvedStatus, Some(Verdict(MatchResult(ms[i]), entries[Key(ms[i].id)].prediction == MatchResult(ms[i]))))
    decreases |ms|
  {
    var prefix, m := ms[..|ms| - 1], ms[|ms| - 1];
    if i == |ms| - 1 {
      ResolveAllElsewhere(available, entries, prefix, now, m.id);
    } else {
      assert prefix[i] == ms[i];
      AnnounceSettles(available, entries, prefix, fixture, now, initial, i);
      ResolveAllSettles(available, entries, prefix, now, i);
    }
  }

  /** Everything the box shows: the selected choice, the lock and the banner. */
  datatype View = View(choice: Option<Outcome>, locked: bool, status: Status, resultInfo: Option<Verdict>)

  /** The box after it found an existing record for its fixture. */
  function ShowExisting(v: View, existing: StoredPrediction): (r: View)
    ensures r.choice == Some(existing.prediction) && r.locked
    ensures existing.result.Some? ==>
              r.status == ResolvedStatus && r.resultInfo == Some(Verdict(existing.result.value, existing.success == Some(true)))
    ensures existing.result.None? ==> r.status == LockedStatus && r.resultInfo == v.resultInfo
  {
    var locked := v.(choice := Some(existing.prediction), locked := true);
    match existing.result
    case Some(result) => locked.(status := ResolvedStatus, resultInfo := Some(Verdict(result, existing.success.GetOr(false))))
    case None => locked.(status := LockedStatus)
  }

  /** One more iteration of the pass, as the loop performs it. */
  lemma ResolveStep(available: bool, entries: map<string, StoredPrediction>, ms: seq<Match>, i: nat,
                    fixture: Option<Match>, now: int, initial: Banner)
    requires i < |ms|
    ensures var before, m := ResolveAll(available, entries, ms[..i], now), ms[i];
            ResolveAll(available, entries, ms[..i + 1], now) == ResolveOne(available, before, m, now) &&
            Announce(available, entries, ms[..i + 1], fixture, now, initial) ==
              match Lookup(available, before, m.id)
              case Some(saved) =>
                if saved.result.None? && fixture.Some? && fixture.value.id == m.id
                then Banner(ResolvedStatus, Some(Verdict(MatchResult(m), saved.prediction == MatchResult(m))))
                else Announce(available, entries, ms[..i], fixture, now, initial)
              case None => Announce(available, entries, ms[..i], fixture, now, initial)
  {
    assert ms[..i + 1][..i] == ms[..i];
  }

  class Component {
    /** The next fixture, if any. */
    const fixture: Option<Match>
    /** The finished matches whose predictions are to be resolved. */
    const previousMatches: seq<Match>
    const store: Store

    /** The selected outcome; `None` is the empty "Select…" option. */
    var choice: Option<Outcome>
    var locked: bool
    var status: Status
    var resultInfo: Option<Verdict>

    function ViewOf(): View
      reads this
    {
      View(choice, locked, status, resultInfo)
    }

    /**
     * The box's invariant: a lock comes with a choice, and (where storage
     * exists) with a stored record for the fixture holding that choice; a
     * "locked" banner comes with the lock; a "resolved" one with a verdict.
     */
    ghost predicate Coherent()
      reads this, store
    {
      store.Valid() &&
      (locked ==> choice.Some? &&
                  (fixture.Some? && store.available ==>
                     var saved := Lookup(store.available, store.entries, fixture.value.id);
                     saved.Some? && saved.value.prediction == choice.value)) &&
      (status == LockedStatus ==> locked) &&
      (status == ResolvedStatus ==> resultInfo.Some?)
    }

    constructor (fixture: Option<Match>, previousMatches: seq<Match>, store: Store)
      requires store.Valid()
      ensures this.fixture == fixture && this.previousMatches == previousMatches && this.store == store
      ensures ViewOf() == View(None, false, NoStatus, None)
      ensures Coherent()
    {
      this.fixture := fixture;
      this.previousMatches := previousMatches;
      this.store := store;
      choice := None;
      locked := false;
      status := NoStatus;
      resultInfo := None;
    }

    /** The select's change handler; the select is disabled while locked. */
    method Select(c: Option<Outcome>)
      modifies this
      ensures ViewOf() == if old(locked) then old(ViewOf()) else old(ViewOf()).(choice := c)
      ensures old(Coherent()) ==> Coherent()
    {
      if !locked {
        choice := c;
      }
    }

    /** lockPrediction: store the choice and lock the box, unless there is no fixture or no choice. */
    method LockPrediction(now: int)
      modifies this, store`entries
      ensures fixture.None? || old(choice).None? ==> ViewOf() == old(ViewOf()) && store.entries == old(store.entries)
      ensures fixture.Some? && old(choice).Some? ==>
                store.entries == Saved(store.available, old(store.entries), fixture.value.id, old(choice).value, now) &&
                ViewOf() == old(ViewOf()).(locked := true, status := LockedStatus)
      ensures old(Coherent()) ==> Coherent()
    {
      if fixture.None? || choice.None? {
        return;
      }
      var _ := store.SavePrediction(fixture.value.id, choice.value, now);
      locked := true;
      status := LockedStatus;
    }

    /** The lock button: enabled only with a choice and while not locked, and then runs lockPrediction. */
    method ClickLock(now: int)
      modifies this, store`entries
      ensures old(locked) || old(choice).None? || fixture.None? ==>
                ViewOf() == old(ViewOf()) && store.entries == old(store.entries)
      ensures !old(locked) && old(choice).Some? && fixture.Some? ==>
                store.entries == Saved(store.available, old(store.entries), fixture.value.id, old(choice).value, now) &&
                ViewOf() == old(ViewOf()).(locked := true, status := LockedStatus)
      ensures old(Coherent()) ==> Coherent()
    {
      if choice.Some? && !locked {
        LockPrediction(now);
      }
    }

    /**
     * The first half of the box's effect: resolve every pending prediction
     * of the finished matches, announcing the box's own fixture if it is
     * among them.
     */
    method Reconcile(now: int)
      modifies this, store`entries
      ensures store.entries == ResolveAll(store.available, old(store.entries), previousMatches, now)
      ensures Banner(status, resultInfo) ==
              Announce(store.available, old(store.entries), previousMatches, fixture, now, Banner(old(status), old(resultInfo)))
      ensures choice == old(choice) && locked == old(locked)
      ensures old(Coherent()) ==> Coherent()
    {
      ghost var initial, start := Banner(status, resultInfo), store.entries;
      var i := 0;
      while i < |previousMatches|
        invariant 0 <= i <= |previousMatches|
        invariant store.entries == ResolveAll(store.available, start, previousMatches[..i], now)
        invariant Banner(status, resultInfo) == Announce(store.available, start, previousMatches[..i], fixture, now, initial)
        invariant choice == old(choice) && locked == old(locked)
        invariant old(store.Valid()) ==> store.Valid()
      {
        var m := previousMatches[i];
        ResolveStep(store.available, start, previousMatches, i, fixture, now, initial);
        var saved := store.LoadPrediction(m.id);
        if saved.Some? && saved.value.result.None? {
          var actual := MatchResult(m);
          var success := saved.value.prediction == actual;
          var _ := store.SaveResult(m.id, Some(actual), success, now);
          if fixture.Some? && fixture.value.id == m.id {
            status := ResolvedStatus;
            resultInfo := Some(Verdict(actual, success));
          }
        }
        i := i + 1;
      }
      assert previousMatches[..i] == previousMatches;
      if old(Coherent()) {
        ResolveAllKeepsLock(store.available, start, previousMatches, now);
      }
    }

    /** The second half of the box's effect: show the stored record of the box's own fixture, if any. */
    method ShowStored()
      modifies this
      ensures var existing := if fixture.Some? && fixture.value.id != 0
                              then Lookup(store.available, store.entries, fixture.value.id) else None;
              ViewOf() == if existing.Some? then ShowExisting(old(ViewOf()), existing.value) else old(ViewOf())
      ensures old(Coherent()) ==> Coherent()
    {
      // `if (fixtureId)`: a missing fixture and fixture id 0 both skip the load.
      if fixture.Some? && fixture.value.id != 0 {
        var existing := store.LoadPrediction(fixture.value.id);
        if existing.Some? {
          choice := Some(existing.value.prediction);
          locked := true;
          if existing.value.result.Some? {
            status := ResolvedStatus;
            resultInfo := Some(Verdict(existing.value.result.value, existing.value.success.GetOr(false)));
          } else {
            status := LockedStatus;
          }
        }
      }
    }

    /** The box's effect, run as one step. */
    method RunEffect(now: int)
      modifies this, store`entries
      ensures store.entries == ResolveAll(store.available, old(store.entries), previousMatches, now)
      ensures var b := Announce(store.available, old(store.entries), previousMatches, fixture, now,
                                Banner(old(status), old(resultInfo)));
              var shown := View(old(choice), old(locked), b.status, b.resultInfo);
              var existing := if fixture.Some? && fixture.value.id != 0
                              then Lookup(store.available, store.entries, fixture.value.id) else None;
              ViewOf() == if existing.Some? then ShowExisting(shown, existing.value) else shown
      ensures old(Coherent()) ==> Coherent()
    {
      Reconcile(now);
      ShowStored();
    }
  }
}
