# Match prediction core, modelled in Dafny

A Next.js page shows a football club's next fixture and recent results. It
lets the user lock a WIN/LOSE/DRAW prediction for the next fixture and later
reveals whether the prediction was right. This project models the part of it
that can be stated precisely:

- **The prediction store** (`PredictionService`, `prediction_service.dfy`).
  Browser local storage is modelled as a `map<string, StoredPrediction>` held
  in the class `Store`, together with a flag for whether a browser window
  exists at all. A record lives under the key `"prediction_" + id`, where the
  id is rendered in decimal (`Key`). `KeyInjective` proves that two fixtures
  never share a key, so each operation touches its own fixture's entry and
  nothing else. `savePrediction`, `loadPrediction` and `saveResult` are
  methods of `Store`. Each is tied to a function of the storage it acts on
  (`Saved`, `Lookup`, `ResultSaved`), and those functions state round trips,
  what stays the same and what happens with no record or no storage.
- **The prediction box** (`PredictionBox`, `prediction_box.dfy`). This holds
  the outcome rule `MatchResult`, which sees a match from the side of team 61.
  It also holds the pass that resolves pending predictions of finished
  matches, specified as the fold `ResolveAll` with its banner `Announce`. The
  box's state (`choice`, `locked`, `status`, `resultInfo`) is the class
  `Component`, whose methods are the select, the lock button,
  `lockPrediction` and the effect (resolve pass, then load of the existing
  record). The lemmas cover the pass: it is idempotent, it settles every
  pending record by the first match of its fixture, it touches only pending
  records, and it never changes a locked prediction.
- **The home page** (`HomePage`, `home_page.dfy`). This covers the
  goal-difference classification `GetResultClass`, proved to agree with
  `MatchResult`. It also covers how the page picks the next match and the
  recent matches from the two provider responses, or shows the error view.
- **The results list** (`LastResults`, `last_results.dfy`). This is the
  read-only projection of the matches onto rows, plus the badge each row
  shows. Its result is computed from the home side, not from team 61, as the
  code has it. `HomeResultVersusMatchResult` shows exactly where the two
  differ.

Timestamps (`Date.now()`) are parameters named `now`. The JSON encoding of
records is not modelled: records are stored as values.

Three behaviours one might expect of such a page differ from what the code
does. The model follows the code each time:

- One might expect an unreadable stored record to read as absent. The code
  calls `JSON.parse` without a guard (src/lib/predictionService.ts:31,40).
  Records are therefore modelled as always readable.
- One might expect every operation to return nothing when there is no
  storage. The code's `savePrediction` still returns the record it built
  (src/lib/predictionService.ts:22-25), and `Store.SavePrediction` does the
  same.
- One might expect the page to resolve pending predictions before it
  renders. The page in src/app/page.tsx neither resolves them nor renders
  the prediction box or the results list. `HomePage.Home` models only what
  that file computes.

## Model

| member | source | states |
|---|---|---|
| PredictionService.KeyInjective | src/lib/predictionService.ts:11-47 | `"prediction_" + id` keys of different fixture ids are different, so each operation's key belongs to one fixture only |
| PredictionService.DecimalInjective | src/lib/predictionService.ts:23 | the decimal rendering of a natural number determines the number |
| PredictionService.DecimalShape | src/lib/predictionService.ts:23 | a rendering is a non-empty run of digits ending in the last digit, one character long exactly below ten |
| PredictionService.Lookup | src/lib/predictionService.ts:28-32 | nothing without storage; otherwise a record exactly when the fixture's key has an entry, and then that entry |
| PredictionService.Saved | src/lib/predictionService.ts:14-26 | after savePrediction the key holds a fresh record with the given id and prediction, `lockedAt = now` and no result, verdict or resolution time; every other entry is unchanged; without storage nothing is written |
| PredictionService.ResultSaved | src/lib/predictionService.ts:34-47 | with no record (or no storage) saveResult leaves storage unchanged; otherwise the record keeps fixtureId, prediction and lockedAt and gets the given result, `success` and `resolvedAt = now`; no key is added and no other entry changes |
| PredictionService.OtherFixtureUnaffected | src/lib/predictionService.ts:23-45 | saving a prediction or a result for one fixture never changes what loadPrediction finds for another fixture |
| PredictionService.Store.constructor | src/lib/predictionService.ts:22 | storage as a first visit finds it: empty, present or absent, and satisfying the record invariant |
| PredictionService.Store.SavePrediction | src/lib/predictionService.ts:14-26 | returns the record it builds, even without storage; storage becomes `Saved(...)`, which overwrites any earlier record; the record invariant is kept |
| PredictionService.Store.LoadPrediction | src/lib/predictionService.ts:28-32 | returns the record under the fixture's key, or nothing when there is no storage or no entry; under the invariant the record carries the fixture's id and is well formed |
| PredictionService.Store.SaveResult | src/lib/predictionService.ts:34-47 | returns nothing exactly when there is no storage or no record, and then writes nothing; otherwise storage becomes `ResultSaved(...)` and the returned record is the stored one; the record invariant is kept |
| PredictionBox.MatchResult | src/app/prediction-box.tsx:39-50 | WIN exactly when team 61's goals exceed the opponent's, LOSE exactly when fewer, DRAW otherwise; team 61 is taken to be at home exactly when the home team's id is 61 |
| PredictionBox.MatchResultSymmetry | src/app/prediction-box.tsx:42-49 | exchanging sides and scores keeps the outcome when team 61 plays on exactly one side, and mirrors it otherwise |
| PredictionBox.ResolveAll | src/app/prediction-box.tsx:54-59 | the storage after the forEach over the finished matches in order; it keeps the set of keys and without storage changes nothing |
| PredictionBox.ResolveOne | src/app/prediction-box.tsx:55-59 | one iteration: a record with no result gets result `MatchResult(m)` and success `prediction == result`; an absent or resolved record, and every other key, is left alone; afterwards the fixture is no longer pending |
| PredictionBox.ResolveOneKeepsSettled | src/app/prediction-box.tsx:56 | an absent or resolved record is unchanged by any iteration |
| PredictionBox.PendingBefore | src/app/prediction-box.tsx:54-66 | a fixture still pending after the pass was pending before it, with the same record |
| PredictionBox.ResolveAllFrame | src/app/prediction-box.tsx:54-66 | the pass keeps the set of keys and changes no entry except the pending records of the listed matches |
| PredictionBox.ResolveAllElsewhere | src/app/prediction-box.tsx:54-66 | a fixture that none of the listed matches belongs to is untouched by the pass |
| PredictionBox.ResolveAllSettles | src/app/prediction-box.tsx:54-66 | a pending record of a listed fixture is resolved from the first match of that fixture in the list |
| PredictionBox.ResolveAllLeavesNonePending | src/app/prediction-box.tsx:56 | after the pass no listed fixture is pending |
| PredictionBox.ResolveAllQuiet | src/app/prediction-box.tsx:56 | a pass over matches none of which is pending changes nothing |
| PredictionBox.ResolveAllIdempotent | src/app/prediction-box.tsx:54-66 | running the pass twice, at any two times, leaves the same storage as running it once |
| PredictionBox.ResolveAllKeepsLock | src/app/prediction-box.tsx:54-66 | the pass keeps every record's fixtureId, prediction and lockedAt, and keeps records well formed |
| PredictionBox.ScenarioHomeWin | src/app/prediction-box.tsx:54-66 | fixture 100 with team 61 at home, WIN locked, score 2-1: the record becomes result WIN, success true |
| PredictionBox.ScenarioWrongDraw | src/app/prediction-box.tsx:54-66 | the same fixture with DRAW locked: result WIN, success false |
| PredictionBox.ScenarioNoRecord | src/app/prediction-box.tsx:55-56 | a finished fixture without a record still has none after the pass |
| PredictionBox.Announce | src/app/prediction-box.tsx:61-64 | the banner after the pass is either unchanged, or "resolved" with a verdict |
| PredictionBox.AnnounceQuiet | src/app/prediction-box.tsx:61-64 | without a pending record for the box's own fixture, the pass leaves the banner alone |
| PredictionBox.AnnounceUnlisted | src/app/prediction-box.tsx:54-64 | when no listed match is the box's own fixture, the banner stays as it was, pending record or not: the fixture id check never fires |
| PredictionBox.AnnounceSettles | src/app/prediction-box.tsx:55-64 | with a pending record for the box's own fixture, the banner becomes "resolved" with the result of the first listed match of that fixture and whether the stored prediction equals it |
| PredictionBox.ShowExisting | src/app/prediction-box.tsx:73-85 | an existing record sets the choice to its prediction and locks; a resolved record shows "resolved" with its result and `success ?? false`; otherwise "locked" |
| PredictionBox.Component.constructor | src/app/prediction-box.tsx:28-34 | the box starts with no choice, unlocked, with no banner and no verdict |
| PredictionBox.Component.Select | src/app/prediction-box.tsx:131-136 | the select sets the choice, except while locked, when it is disabled |
| PredictionBox.Component.LockPrediction | src/app/prediction-box.tsx:91-96 | does nothing without a fixture or a choice; otherwise saves the choice for the fixture, locks and shows "locked"; keeps the box invariant |
| PredictionBox.Component.ClickLock | src/app/prediction-box.tsx:144-148 | the lock button only acts with a choice while unlocked, so a locked prediction is never overwritten |
| PredictionBox.Component.Reconcile | src/app/prediction-box.tsx:54-66 | the loop leaves storage equal to `ResolveAll` over the finished matches and the banner equal to `Announce`; it keeps choice, lock and the box invariant |
| PredictionBox.Component.ShowStored | src/app/prediction-box.tsx:69-86 | with a fixture of non-zero id and a stored record, the box shows it as `ShowExisting`; otherwise nothing changes |
| PredictionBox.Component.RunEffect | src/app/prediction-box.tsx:52-88 | the whole effect: resolve pass, then load of the existing record; keeps the box invariant |
| HomePage.GetResultClass | src/app/page.tsx:49-61 | win exactly when team 61's goal difference is positive, loss exactly when negative, draw otherwise, with the difference taken from the side team 61 plays on |
| HomePage.ResultClassAgrees | src/app/page.tsx:49-61 | the class agrees with `MatchResult` for every match: win with WIN, loss with LOSE, draw with DRAW |
| HomePage.Home | src/app/page.tsx:36-44 | the error view exactly when either response failed; otherwise the next match is the first scheduled one or none, the recent matches are the finished list or empty, and each gets the class of its outcome |
| LastResults.HomeResult | src/app/last-results.tsx:31-36 | the listed result is WIN exactly when the home side scored more, LOSE exactly when fewer, whoever team 61 is |
| LastResults.HomeResultVersusMatchResult | src/app/last-results.tsx:31-36 | the listed result equals `MatchResult` when team 61 is at home and is its mirror image otherwise |
| LastResults.AwayWinListedAsLose | src/app/last-results.tsx:31-36 | team 61 winning 2-0 away is listed with result LOSE |
| LastResults.RowFor | src/app/last-results.tsx:29-43 | one row: the match itself; the prediction exactly when a record was found; the record's verdict, or none without a record; the home-relative result |
| LastResults.Results | src/app/last-results.tsx:28-44 | one row per match, same order; the prediction is absent exactly when no record is found; the verdict is absent exactly when no record is found or the record has none; the listed result is home-relative; storage is only read |
| LastResults.BadgeOf | src/app/last-results.tsx:82-92 | "No prediction" exactly when the row has none; otherwise the prediction with a tick exactly when the verdict is true, and a cross otherwise, including no verdict yet |
| LastResults.UnresolvedShowsCross | src/app/last-results.tsx:82-92 | a prediction not yet resolved is shown with a cross |

## Left out

- Fetching from the data provider, the API key, `Promise.all` and response caching in src/app/page.tsx:18-34 and :40-41 are network I/O. `HomePage.Home` takes the two responses as values: an `ok` flag and the body's `matches` field.
- JSX rendering, images, CSS modules and locale date formatting are presentation only. Only the decisions they show are modelled: result classes, badges and banner.
- The JSON encoding of records is not modelled. Records are stored as values, and a parse failure cannot occur in the model.
- `Date.now()` becomes the parameter `now`. `Component.Reconcile` uses one `now` for every `saveResult` of one pass, although the clock may advance between iterations.
- React scheduling is not modelled: the deferral of the load into a microtask (src/app/prediction-box.tsx:73). Each handler and the effect are one atomic method; a re-run of the effect with the same props is another call of `RunEffect`.
- PredictionBox.Component: the props `fixture` and `previousMatches` are fixed for the life of a component. A prop change that re-runs the effect while React keeps `choice`, `locked` and `status` (src/app/prediction-box.tsx:88) is not modelled. `Coherent` (a lock means the stored record of the box's fixture holds the choice) relies on that fixed fixture. With a new fixture that has no record, the effect returns at line 71 and the box would stay locked with the old choice.
- `localStorage` exceptions are not modelled: `setItem` failing on a full quota, and access refused while `window` exists (src/lib/predictionService.ts:23,30,37,45). The `available` flag models only whether a window exists, and every access with it set succeeds.
- `Key`: ids are whole numbers rendered in plain decimal. The exponent form that JavaScript uses for magnitudes of 10^21 and above, and non-integer ids, are not modelled.
- `PredictionService.WellFormed` is weaker than "result, success and resolution time are set together". saveResult accepts a null result, which would leave `success` and `resolvedAt` set without a result.
- The reconcile loop reads records with a truthiness check (`if (saved && …)`), and loadPrediction checks the raw string (`raw ?`). A stored record never serializes to an empty string, so "entry present" and "record found" coincide in the model.
- next.config.ts is framework configuration and is not part of this model.
