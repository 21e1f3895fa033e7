# HydraTrack state model in Dafny

HydraTrack is a browser hydration tracker. The user enters a body weight. The
app turns it into a daily goal of 33 ml per kg. The user then logs drinks of a
chosen cup size. The app keeps the day's intake and a drink log in browser
storage, resets the intake when the calendar day changes (`script.js` also
clears the log, `local-storage.js` keeps it), and shows progress.

The repository has two versions of this state machine, and both are modelled:

- `local-storage.js` (module `StorageManager`, file `storage_manager.dfy`):
  page-level variables `currentWater`, `dailyGoal`, `cupSize` and `history`.
  Each one is stored under its own `hydratrack_*` key, and a lifetime total is
  kept beside them. The log is capped at the newest 50 drinks. The goal is
  celebrated on every drink at or above the goal.
- `script.js` (module `AppLogic`, file `app_logic.dfy`): one `appState`
  record, stored as one JSON blob and merged over the defaults on load.
  It has a `goalReachedToday` latch that stops the celebration from firing on
  every redraw. Saving a weight can re-arm the latch, so the celebration can
  fire again on the same day. The log has no cap.
- `hydration.dfy` (module `Hydration`) holds the arithmetic both share:
  `Math.round`, the goal formula, the rounded and capped percentage, the
  remaining amount, and newest-first ordering.

In each version, every operation is a pure function on a record value
(`Session` with its `Storage`, or `AppState` with its stored blob). A class
(`Page`, `App`) holds the same variables as fields. Its methods update those
fields in place, and their `ensures` clauses tie the new state to the
function. The lemmas state the properties of the functions.

Notable behaviours of the code that the model keeps and proves:

- `local-storage.js` undo has no floor at zero. A new day resets the intake but
  keeps the stored log, so an undo right after a day change can make the
  intake negative (`NewDayUndoGoesNegative`).
- `local-storage.js` `saveData` adds the whole current intake to the lifetime
  total on every save, so two saves with nothing in between count the day
  twice (`SavingTwiceCountsTwice`).
- `local-storage.js` never reads back the goal key. After a reload the goal
  comes from the stored weight, or is 2000 when the weight field was empty
  (`GoalLostWithoutWeight`).
- `script.js` rounds the percentage before the latch tests for 100. So the
  celebration fires from 99.5% of the goal, e.g. at 2300 ml of a 2310 ml goal
  (`CelebratesBeforeGoal`, `CelebrationThreshold`).
- `script.js` re-arms the latch on save-weight whenever the new goal is above
  the intake. The latch test uses the rounded percentage, so at 2300 ml of a
  2310 ml goal the latch is on. Saving the same 70 kg again then re-arms it,
  and the celebration fires a second time with the goal unchanged
  (`SameWeightCelebratesAgain`).
- `script.js` accepts any weight above 0, so a weight below 1/66 kg gives a
  goal of 0 (`TinyWeightGivesNoGoal`). Only `local-storage.js` checks the
  30-200 kg range.
- `local-storage.js` checks the range only in `setGoal`. Every save stores
  whatever the weight field holds, and the reload sets the goal from it with
  no check. A refused 250 kg becomes a goal of 8250 ml after a drink and a
  reload (`RefusedWeightBecomesGoal`, `RefusedWeightExample`).
- `local-storage.js` celebrates on every drink at or above the goal, not only
  on the drink that reaches it.
- The two files use different caps. `local-storage.js` caps the log at 50,
  and `script.js` has no cap.

## Model

| member | source | states |
|---|---|---|
| `Hydration.Round` | local-storage.js:161 | `Math.round`: the result is within half of x, and halves round up |
| `Hydration.GoalFor` | script.js:104-106 | the goal is the integer nearest to 33 × weight, with ties rounded up |
| `Hydration.GoalMonotone` | script.js:104-106 | a heavier weight never gives a smaller goal |
| `Hydration.GoalInValidRange` | local-storage.js:146-161 | every weight that passes the 30-200 kg check gives a goal between 990 and 6600 ml |
| `Hydration.Remaining` | script.js:122 | the remaining amount is ≥ 0; it is 0 exactly when the intake reaches the goal; otherwise intake + remaining = goal |
| `Hydration.RoundedPercent` | script.js:126-129 | 0 without a goal; never above 100; non-negative for non-negative intake; below 100 it is the nearest integer to 100·intake/goal (as integer bounds); it is 100 exactly when 200·intake ≥ 199·goal |
| `Hydration.Reverse` | local-storage.js:325 | the result has the same length, and element i is element n-1-i of the input |
| `StorageManager.Saved` | local-storage.js:105-119 | a save writes the weight field as it stands, the goal, the intake, today's date, the cup size and the log, and adds the whole current intake to the lifetime total |
| `StorageManager.SavingTwiceCountsTwice` | local-storage.js:116-119 | two saves with no change in between add twice the intake to the lifetime total |
| `StorageManager.WeightAccepted` | local-storage.js:146 | a weight is accepted exactly when it is a number within 30-200 kg (the zero test is subsumed by the range); every accepted weight gives a goal within 990..6600 |
| `StorageManager.GoalSet` | local-storage.js:142-161 | the weight field keeps the input; an accepted weight (not NaN or 0, within 30-200) sets the goal to `GoalFor(weight)`, which lies in 990..6600; a refused one leaves the goal unchanged; nothing else changes |
| `StorageManager.Newest` | local-storage.js:203-206 | the result is the suffix of the log with length min(length, n) |
| `StorageManager.WithDrink` | local-storage.js:190-206 | the intake rises by exactly one cup; the log has length min(old+1, 50); its last entry records the cup, the new total and the date; the kept older entries are the newest ones of the old log, in order; nothing else changes |
| `StorageManager.Celebrates` | local-storage.js:214-215 | the celebration runs exactly when a goal is set and the remaining amount shown is 0 |
| `StorageManager.CelebratesOnEveryDrinkAtGoal` | local-storage.js:214-217 | once the intake is at or above a positive goal, each further drink celebrates again |
| `StorageManager.WithoutLastDrink` | local-storage.js:223-235 | on a non-empty log, undo removes the last entry and subtracts its amount, with no floor; on an empty log nothing changes |
| `StorageManager.UndoAfterDrink` | local-storage.js:190-235 | a drink followed by an undo restores the whole state, provided the log held fewer than 50 entries |
| `StorageManager.UndoAfterDrinkAtCap` | local-storage.js:203-235 | with a full log, a drink followed by an undo restores the intake, but the log loses its oldest entry |
| `StorageManager.DayReset` | local-storage.js:361-366 | reset-day sets the intake to 0 and empties the log; goal, cup, date and weight field are kept |
| `StorageManager.Cleared` | local-storage.js:373-383 | clear-all gives the page-load defaults: water 0, goal 2000, cup 350, empty log, empty weight field |
| `StorageManager.LoadedHistory` | local-storage.js:72-81 | a stored log is loaded; unparseable text gives []; a missing key keeps the current log |
| `StorageManager.Loaded` | local-storage.js:32-81 | a stored weight sets the field and the goal, with no range check; a stored cup is taken; the stored intake is kept only when it was saved today, otherwise the intake is 0 and storage is stamped with today and water 0; the log is loaded in both cases |
| `StorageManager.LoadIdempotent` | local-storage.js:56-81 | loading again from what a load left behind changes nothing |
| `StorageManager.SaveThenReload` | local-storage.js:36-81 | a save, then a reload on the same day, gives back every variable, provided the goal matches the weight field |
| `StorageManager.GoalLostWithoutWeight` | local-storage.js:36-40 | with an empty weight field, the goal after a reload is 2000 |
| `StorageManager.NewDayUndoGoesNegative` | local-storage.js:60-81 | on a new day the intake is 0 and the old log is kept, so an undo makes the intake negative |
| `StorageManager.RefusedWeightBecomesGoal` | local-storage.js:36-40 | a weight refused by `setGoal` leaves the goal unchanged, yet after a drink's save and a reload the goal is `GoalFor` of that weight, with no range check |
| `StorageManager.TypedWeightBecomesGoal` | local-storage.js:105-110 | a weight typed without pressing the goal button is stored by the next drink's save, and the reload takes the goal from it |
| `StorageManager.RefusedWeightExample` | local-storage.js:146-150 | 250 kg is refused, yet after a drink and a reload the goal is 8250 ml, outside 990..6600 |
| `StorageManager.Percent` | local-storage.js:243 | 0 without a goal; 100 when the intake reaches the goal; otherwise exactly 100·water/goal; within [0, 100] for non-negative water |
| `StorageManager.ShownPercent` | local-storage.js:247-252 | the percentage shown as text, `Math.round(percent)`, equals the shared rounded percentage |
| `StorageManager.TipBand` | local-storage.js:261-275 | the tip index is 0..4, and index t covers percentages in [25t, 25t+25) |
| `StorageManager.TipBandMonotone` | local-storage.js:261-275 | more progress never shows an earlier tip |
| `StorageManager.Recent` | local-storage.js:324-325 | at most 10 entries, the newest first: element i is the i-th from the end of the log |
| `StorageManager.Page.constructor` | local-storage.js:5-10 | a page opened today starts with water 0, goal 2000, cup 350, an empty log and the storage as it was |
| `StorageManager.Page.LoadSavedData` | local-storage.js:32-81 | the fields and the storage become `Loaded` of the old ones |
| `StorageManager.Page.SaveData` | local-storage.js:105-120 | the storage becomes `Saved` of the fields; the fields do not change |
| `StorageManager.Page.TypeWeight` | local-storage.js:109 | typing in the weight field changes only the field; nothing is saved |
| `StorageManager.Page.SetGoal` | local-storage.js:142-161 | `ok` exactly when the weight is accepted; the fields become `GoalSet`; storage is saved only when the weight is accepted |
| `StorageManager.Page.SelectCup` | local-storage.js:171-188 | the cup size and its storage key take the new size; nothing else changes |
| `StorageManager.Page.AddWater` | local-storage.js:190-221 | the fields become `WithDrink`, then they are saved; `celebrate` is set when the intake is at or above a positive goal |
| `StorageManager.Page.UndoDrink` | local-storage.js:223-235 | `undone` exactly when the log was non-empty; the fields become `WithoutLastDrink`; storage is saved only on an undo |
| `StorageManager.Page.UpdateDisplay` | local-storage.js:241-259 | fill = `Percent`, the shown text is the rounded percentage, remaining = `Remaining`, tip = `TipBand` of the fill |
| `StorageManager.Page.ViewHistory` | local-storage.js:297-343 | one row per recent drink, at most 10, newest first; each row has its capped rounded percentage of the goal |
| `StorageManager.Page.ResetDay` | local-storage.js:361-371 | when confirmed, `DayReset` and a save; otherwise nothing changes |
| `StorageManager.Page.ClearAllData` | local-storage.js:373-383 | when confirmed, `Cleared` and empty storage, with no save after it; otherwise nothing changes |
| `StorageManager.DrinkThenUndo` | local-storage.js:190-235 | on a freshly loaded page, a drink then an undo leaves the state as loaded when the log had fewer than 50 entries |
| `AppLogic.Defaults` | script.js:26-34 | weight 0, goal 0, intake 0, cup 350, empty log, today's date, latch off |
| `AppLogic.Encode` | script.js:80-83 | every field is written, so merging the blob over any record gives back the encoded record |
| `AppLogic.Merge` | script.js:68-69 | each field present in the blob overrides; each absent field keeps its value |
| `AppLogic.Loaded` | script.js:63-75 | a missing key or unparseable text leaves the record unchanged; parsed JSON is merged over it |
| `AppLogic.SaveThenLoad` | script.js:63-83 | loading a saved record gives back exactly that record, whatever the record was before |
| `AppLogic.MergeIdempotent` | script.js:69 | merging the same blob twice is the same as merging it once |
| `AppLogic.RolledOver` | script.js:88-98 | on a different day: intake 0, empty log, latch off, date = today; on the same day: unchanged; weight, goal and cup are always kept |
| `AppLogic.RolloverIdempotent` | script.js:88-98 | a second date check on the same day changes nothing |
| `AppLogic.WeightAccepted` | script.js:204-208 | an accepted weight is a number whose goal is ≥ 0; below 1/66 kg that goal is 0 |
| `AppLogic.TinyWeightGivesNoGoal` | script.js:203-211 | 0.01 kg is accepted and gives a goal of 0, so the add-water handler still asks for a weight |
| `AppLogic.WeightSet` | script.js:210-216 | weight and goal are set, with goal = `GoalFor(weight)`; the latch stays on only if it was on and the new goal ≤ the intake; nothing else changes |
| `AppLogic.Percentage` | script.js:126-129 | 0 without a goal; ≤ 100; 100 exactly when 200·intake ≥ 199·goal |
| `AppLogic.Celebrates` | script.js:150 | when the celebration fires, a goal is set, the latch is off, 200·intake ≥ 199·goal, and the last tip band is shown |
| `AppLogic.SameWeightCelebratesAgain` | script.js:210-216 | at 2300 ml of a 2310 ml goal with the latch on, nothing fires; saving the same 70 kg keeps the goal, re-arms the latch, and the celebration fires again |
| `AppLogic.Latched` | script.js:149-154 | when the celebration fires, the latch is set and nothing else changes; otherwise nothing changes; afterwards it cannot fire again |
| `AppLogic.CelebratesBeforeGoal` | script.js:126-154 | with a goal of 2310 ml, an intake of 2300 ml (below the goal) already celebrates |
| `AppLogic.CelebrationThreshold` | script.js:126-154 | with a goal set and the latch off, the celebration fires exactly when 200·intake ≥ 199·goal |
| `AppLogic.TipIndex` | script.js:157-163 | tip 0 exactly at 0%; tip 4 exactly from 90%; tip 1 below 30%, tip 2 in [30, 60), tip 3 in [60, 90) |
| `AppLogic.WaterAdded` | script.js:239-245 | the intake rises by the selected cup, and exactly one entry with that amount is appended, with no cap; nothing else changes |
| `AppLogic.Press` | script.js:232-249 | without a goal a press changes nothing; otherwise water is added and the latch runs; a press never celebrates once the latch is on |
| `AppLogic.CelebratesAtMostOnce` | script.js:149-154 | over any number of presses the celebration fires at most once, and never while the latch is on |
| `AppLogic.PressesAppend` | script.js:232-249 | presses over a + b are the presses over a followed by those over b |
| `AppLogic.QuietPresses` | script.js:232-249 | presses that keep the intake below 99.5% of the goal add one cup each and never celebrate |
| `AppLogic.SeventhCupCelebrates` | script.js:202-249 | 70 kg gives a 2310 ml goal; six 350 ml presses reach 2100 ml without celebrating; the seventh celebrates |
| `AppLogic.TodayReset` | script.js:252-260 | reset-today sets the intake to 0, empties the log and turns the latch off; weight, goal, cup and date are kept |
| `AppLogic.NoCelebrationAtZero` | script.js:149-154 | with zero intake the celebration does not fire |
| `AppLogic.App.constructor` | script.js:26-34 | the record starts as `Defaults(today)`, with storage as it was |
| `AppLogic.App.SetState` | script.js:267-275 | reassigns the whole record; storage is unchanged |
| `AppLogic.App.SaveData` | script.js:80-83 | the storage holds the encoded record |
| `AppLogic.App.LoadData` | script.js:63-75 | the record becomes `Loaded` of the old record and storage; storage is unchanged |
| `AppLogic.App.CheckDateReset` | script.js:88-98 | the record becomes `RolledOver`; it is saved only when the day changed |
| `AppLogic.App.UpdateUI` | script.js:111-155 | shows `Percentage`, `Remaining` and `TipIndex`; fires exactly when `Celebrates`; the record becomes `Latched`; saves only when it fires |
| `AppLogic.App.Start` | script.js:47-51 | start-up runs load, then the date check, then the latch; it celebrates exactly when the loaded, rolled-over record `Celebrates`; the stored record is rewritten exactly when the day changed or it celebrated |
| `AppLogic.App.SaveWeight` | script.js:202-220 | NaN or a weight ≤ 0 is refused with no change and no celebration; otherwise the record becomes `Latched(WeightSet(..))` and is saved, and it celebrates exactly when `WeightSet(..)` `Celebrates` |
| `AppLogic.App.SelectCup` | script.js:222-229 | the cup size is set, the record is saved, and the latch runs; it celebrates exactly when the record with the new cup `Celebrates` |
| `AppLogic.App.AddWater` | script.js:232-249 | the record and the celebration are `Press`; `added` exactly when a goal is set; saved only then |
| `AppLogic.App.ResetToday` | script.js:252-260 | when confirmed, `TodayReset` and a save; otherwise nothing changes |
| `AppLogic.App.ClearAll` | script.js:263-278 | when confirmed, the storage key is removed and the record is `Defaults(today)`; otherwise nothing changes |

## Left out

- DOM reads and writes, message toasts, alerts, confetti, audio, the
  celebration modal, and rendering the `script.js` history list are left out.
  These are presentation only. Alerts become `ok`/`added`/`undone` results,
  and `confirm()` becomes a `confirmed` parameter.
- Notifications (`enableReminders`, `startReminders`), the 30-second auto-save
  timer and the `beforeunload` save are left out. They are timers and browser
  APIs. A save is an explicit `SaveData` call that a caller may repeat.
- `localStorage`, `JSON.stringify`/`JSON.parse`, `parseInt` and `parseFloat`
  are foreign calls. Storage is a record of optional values. A parse is "a
  value or absent/NaN".
- Stored JSON of the wrong shape is not modelled, for example a non-array
  history or a blob field of the wrong type. Unknown extra blob fields are not
  modelled either. Neither file validates these.
- Non-numeric text in the `local-storage.js` weight field is not modelled. It
  would be saved and would give a NaN goal on reload. The field is modelled as
  a number or empty.
- `toDateString`, `toLocaleTimeString`, `formatDate` and `formatTime` are
  opaque strings passed in as parameters.
- The lifetime total that `loadSavedData` reads and `viewHistory` prints is
  display only. The stored total is modelled in `Saved`.
- `updateStorageUsed`, `showWelcomeMessage` and `showSaveConfirmation` are
  presentation.
- `newTip` is left out, because it uses `Math.random`.
- AppLogic.TipIndex: does not model the random override to tip 5 in
  `script.js` `updateTip`, because it depends on `Math.random`. Only the
  deterministic banding is stated.
- A `localStorage.setItem` that throws (quota exceeded) is not modelled:
  every save succeeds. In the code the exception escapes the handler after
  the in-memory update, so the steps after the save (the celebration check
  in `local-storage.js` `addWater`, `updateUI` and its latch in `script.js`)
  do not run.
- IEEE-754 doubles are left out. Weight and the percentage quotient are exact
  reals, so the model idealises `weight * 33` and `intake / goal * 100` as
  computed in JavaScript.
