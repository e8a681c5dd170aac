/**
 * The prediction store: one record per fixture, kept in the browser's
 * local key-value storage under the key "prediction_<fixtureId>".
 * Records are held decoded; their JSON encoding is not part of this model.
 */
module PredictionService {
  import opened Wrappers

  /** WIN, LOSE or DRAW, as a prediction or as a result. */
  datatype Outcome = Win | Lose | Draw

  /** The outcome seen from the other side. */
  function Mirror(o: Outcome): Outcome {
    match o
    case Win => Lose
    case Lose => Win
    case Draw => Draw
  }

  /** One stored record; `result`, `success` and `resolvedAt` are filled in on resolution. */
  datatype StoredPrediction = StoredPrediction(
    fixtureId: int,
    prediction: Outcome,
    lockedAt: int,
    result: Option<Outcome>,
    success: Option<bool>,
    resolvedAt: Option<int>)

  /**
   * The record shape every operation keeps: a verdict comes with its
   * timestamp, and a result never comes without a verdict.
   */
  ghost predicate WellFormed(r: StoredPrediction) {
    (r.success.Some? <==> r.resolvedAt.Some?) && (r.result.Some? ==> r.success.Some?)
  }

  // ---------------------------------------------------------------------
  // Storage keys
  // ---------------------------------------------------------------------

  const Prefix: string := "prediction_"

  function DigitChar(d: nat): char
    requires d < 10
  {
    ('0' as int + d) as char
  }

  /** The decimal rendering of a natural number, as the string conversion of an integer gives it. */
  function Decimal(n: nat): string {
    if n < 10 then [DigitChar(n)] else Decimal(n / 10) + [DigitChar(n % 10)]
  }

  /** The decimal rendering of an integer, with a leading minus sign when negative. */
  function IntToString(i: int): string {
    if i < 0 then "-" + Decimal(-i) else Decimal(i)
  }

  /** The storage key of a fixture's record. */
  function Key(fixtureId: int): string {
    Prefix + IntToString(fixtureId)
  }

  /** A rendering is a non-empty run of digits ending in the last digit; it is one digit long exactly below ten. */
  lemma {:induction false} DecimalShape(n: nat)
    ensures var s := Decimal(n);
            1 <= |s| && (|s| == 1 <==> n < 10) && s[|s| - 1] == DigitChar(n % 10) &&
            forall i :: 0 <= i < |s| ==> '0' <= s[i] <= '9'
    decreases n
  {
    if 10 <= n {
      DecimalShape(n / 10);
    }
  }

  lemma {:induction false} DecimalInjective(a: nat, b: nat)
    requires Decimal(a) == Decimal(b)
    ensures a == b
    decreases a
  {
    var s := Decimal(a);
    DecimalShape(a);
    DecimalShape(b);
    assert a % 10 == b % 10 by {
      assert DigitChar(a % 10) == s[|s| - 1] == DigitChar(b % 10);
    }
    if 10 <= a {
      assert 10 <= b;
      assert Decimal(a / 10) == s[..|s| - 1] == Decimal(b / 10);
      DecimalInjective(a / 10, b / 10);
    }
  }

  /** Different fixtures never share a storage key. */
  lemma KeyInjective(a: int, b: int)
    ensures Key(a) == Key(b) <==> a == b
  {
    if Key(a) == Key(b) {
      var sa, sb := IntToString(a), IntToString(b);
      assert sa == Key(a)[|Prefix|..] == Key(b)[|Prefix|..] == sb;
      DecimalShape(if a < 0 then -a else a);
      DecimalShape(if b < 0 then -b else b);
      assert sa[0] == '-' <==> a < 0;
      assert sb[0] == '-' <==> b < 0;
      if a < 0 {
        assert Decimal(-a) == sa[1..] == sb[1..] == Decimal(-b);
        DecimalInjective(-a, -b);
      } else {
        DecimalInjective(a, b);
      }
    }
  }

  // ---------------------------------------------------------------------
  // The operations, as functions of the storage they act on
  // ---------------------------------------------------------------------

  /**
   * What loadPrediction finds: nothing when there is no storage at all,
   * otherwise the record under the fixture's key, if any.
   */
  function Lookup(available: bool, entries: map<string, StoredPrediction>, fixtureId: int): (r: Option<StoredPrediction>)
    ensures !available ==> r.None?
    ensures available ==> (r.Some? <==> Key(fixtureId) in entries)
    ensures r.Some? ==> r.value == entries[Key(fixtureId)]
  {
    if available && Key(fixtureId) in entries then Some(entries[Key(fixtureId)]) else None
  }

  /** The fresh, unresolved record savePrediction builds. */
  function NewRecord(fixtureId: int, prediction: Outcome, now: int): StoredPrediction {
    StoredPrediction(fixtureId, prediction, now, None, None, None)
  }

  /** The storage after savePrediction. */
  function Saved(available: bool, entries: map<string, StoredPrediction>, fixtureId: int, prediction: Outcome, now: int)
    : (after: map<string, StoredPrediction>)
    ensures !available ==> after == entries
    ensures after - {Key(fixtureId)} == entries - {Key(fixtureId)}
    ensures Lookup(available, after, fixtureId) ==
            if available then Some(StoredPrediction(fixtureId, prediction, now, None, None, None)) else None
  {
    if available then entries[Key(fixtureId) := NewRecord(fixtureId, prediction, now)] else entries
  }

  /** The storage after saveResult. */
  function ResultSaved(available: bool, entries: map<string, StoredPrediction>, fixtureId: int,
                       result: Option<Outcome>, success: bool, now: int)
    : (after: map<string, StoredPrediction>)
    ensures Lookup(available, entries, fixtureId).None? ==> after == entries
    ensures after.Keys == entries.Keys
    ensures after - {Key(fixtureId)} == entries - {Key(fixtureId)}
    ensures Lookup(available, after, fixtureId).Some? == Lookup(available, entries, fixtureId).Some?
    ensures Lookup(available, entries, fixtureId).Some? ==>
              var before, now' := Lookup(available, entries, fixtureId).value, Lookup(available, after, fixtureId).value;
              now'.fixtureId == before.fixtureId && now'.prediction == before.prediction &&
              now'.lockedAt == before.lockedAt &&
              now'.result == result && now'.success == Some(success) && now'.resolvedAt == Some(now)
  {
    match Lookup(available, entries, fixtureId)
    case None => entries
    case Some(rec) =>
      entries[Key(fixtureId) := rec.(result := result, success := Some(success), resolvedAt := Some(now))]
  }

  /** Writing one fixture's record never changes what is found for another fixture. */
  lemma OtherFixtureUnaffected(available: bool, entries: map<string, StoredPrediction>, fixtureId: int,
                               prediction: Outcome, result: Option<Outcome>, success: bool, now: int, other: int)
    requires other != fixtureId
    ensures Lookup(available, Saved(available, entries, fixtureId, prediction, now), other) == Lookup(available, entries, other)
    ensures Lookup(available, ResultSaved(available, entries, fixtureId, result, success, now), other) == Lookup(available, entries, other)
  {
    KeyInjective(fixtureId, other);
    assert Key(other) !in {Key(fixtureId)};
  }

  // ---------------------------------------------------------------------
  // The service over the browser's storage
  // ---------------------------------------------------------------------

  class Store {
    /** Whether a browser window, and with it local storage, exists. */
    var available: bool
    /** The local storage table; entries under other keys belong to other code. */
    var entries: map<string, StoredPrediction>

    /** Every record sits under its own fixture's key and is well formed. */
    ghost predicate Valid()
      reads this
    {
      forall id :: Key(id) in entries ==> entries[Key(id)].fixtureId == id && WellFormed(entries[Key(id)])
    }

    /** Storage as a first visit finds it; a later visit starts from whatever an earlier one left. */
    constructor (available: bool)
      ensures this.available == available && entries == map[] && Valid()
    {
      this.available := available;
      entries := map[];
    }

    /** savePrediction: build a fresh record and write it, overwriting any earlier one. */
    method SavePrediction(fixtureId: int, prediction: Outcome, now: int) returns (record: StoredPrediction)
      modifies this`entries
      ensures record.fixtureId == fixtureId && record.prediction == prediction && record.lockedAt == now
      ensures record.result.None? && record.success.None? && record.resolvedAt.None?
      ensures entries == Saved(available, old(entries), fixtureId, prediction, now)
      ensures old(Valid()) ==> Valid()
    {
      record := NewRecord(fixtureId, prediction, now);
      if available {
        entries := entries[Key(fixtureId) := record];
      }
      if old(Valid()) {
        forall id | Key(id) in entries
          ensures entries[Key(id)].fixtureId == id && WellFormed(entries[Key(id)])
        {
          KeyInjective(id, fixtureId);
        }
      }
    }

    /** loadPrediction: the stored record, or nothing. */
    method LoadPrediction(fixtureId: int) returns (r: Option<StoredPrediction>)
      ensures r == Lookup(available, entries, fixtureId)
      ensures r.Some? && Valid() ==> r.value.fixtureId == fixtureId && WellFormed(r.value)
    {
      if !available {
        return None;
      }
      if Key(fixtureId) in entries {
        r := Some(entries[Key(fixtureId)]);
      } else {
        r := None;
      }
    }

    /** saveResult: read, fill in the verdict and write back, only when a record exists. */
    method SaveResult(fixtureId: int, result: Option<Outcome>, success: bool, now: int) returns (r: Option<StoredPrediction>)
      modifies this`entries
      ensures r.None? <==> Lookup(available, old(entries), fixtureId).None?
      ensures entries == ResultSaved(available, old(entries), fixtureId, result, success, now)
      ensures r.Some? ==> r == Lookup(available, entries, fixtureId)
      ensures old(Valid()) ==> Valid()
    {
      if !available {
        return None;
      }
      if Key(fixtureId) !in entries {
        return None;
      }
      var rec := entries[Key(fixtureId)];
      rec := rec.(result := result, success := Some(success), resolvedAt := Some(now));
      entries := entries[Key(fixtureId) := rec];
      r := Some(rec);
      if old(Valid()) {
        forall id | Key(id) in entries
          ensures entries[Key(id)].fixtureId == id && WellFormed(entries[Key(id)])
        {
          KeyInjective(id, fixtureId);
        }
      }
    }
  }
}
