/**
 * The single-record variant of HydraTrack (script.js): one `appState` record
 * holding weight, goal, today's intake, the selected cup, a drink log, the day
 * it belongs to and a latch that keeps the goal celebration from firing on
 * every redraw (it can fire again after the latch is re-armed). The
 * record is stored as one JSON blob and merged over the defaults on load.
 *
 * Each handler is a pure function on an `AppState` value; the `App` class
 * holds the record's fields and its methods update them in place, each
 * proved to agree with its function.
 */
module AppLogic {
  import opened Hydration

  const DefaultCup: int := 350

  /** One logged drink: clock time and amount (no running total in this variant). */
  datatype Drink = Drink(time: string, amount: int)

  datatype AppState = AppState(
    weight: real,
    dailyGoal: int,
    currentIntake: int,
    selectedCupSize: int,
    history: seq<Drink>,
    lastDate: string,
    goalReachedToday: bool)

  /** A parsed stored blob: each field of the record present or absent. */
  datatype Blob = Blob(
    weight: Option<real>,
    dailyGoal: Option<int>,
    currentIntake: Option<int>,
    selectedCupSize: Option<int>,
    history: Option<seq<Drink>>,
    lastDate: Option<string>,
    goalReachedToday: Option<bool>)

  /** The text under the storage key: JSON that parses to a blob, or text that does not parse. */
  datatype Stored = Unparseable | Json(blob: Blob)

  /** The record the page starts from, and returns to on clear-all, on day `today`. */
  function Defaults(today: string): (s: AppState)
    ensures s.weight == 0.0 && s.dailyGoal == 0 && s.currentIntake == 0
    ensures s.selectedCupSize == 350 && s.history == [] && !s.goalReachedToday
    ensures s.lastDate == today
  {
    AppState(0.0, 0, 0, DefaultCup, [], today, false)
  }

  // ---------------------------------------------------------------------------
  // Saving and loading

  /** `JSON.stringify(appState)`: every field is written, so it overrides any record it is merged over. */
  function Encode(s: AppState): (b: Blob)
    ensures forall t :: Merge(t, b) == s
  {
    Blob(Some(s.weight), Some(s.dailyGoal), Some(s.currentIntake), Some(s.selectedCupSize),
         Some(s.history), Some(s.lastDate), Some(s.goalReachedToday))
  }

  function Pick<T>(stored: Option<T>, current: T): (v: T)
    ensures stored.Some? ==> v == stored.value
    ensures stored.None? ==> v == current
  {
    if stored.Some? then stored.value else current
  }

  /** `{ ...appState, ...parsed }`: a field present in the blob overrides, an absent one keeps its value. */
  function Merge(s: AppState, b: Blob): (r: AppState)
    ensures b.weight.Some? ==> r.weight == b.weight.value
    ensures b.weight.None? ==> r.weight == s.weight
    ensures b.dailyGoal.Some? ==> r.dailyGoal == b.dailyGoal.value
    ensures b.dailyGoal.None? ==> r.dailyGoal == s.dailyGoal
    ensures b.currentIntake.Some? ==> r.currentIntake == b.currentIntake.value
    ensures b.currentIntake.None? ==> r.currentIntake == s.currentIntake
    ensures b.selectedCupSize.Some? ==> r.selectedCupSize == b.selectedCupSize.value
    ensures b.selectedCupSize.None? ==> r.selectedCupSize == s.selectedCupSize
    ensures b.history.Some? ==> r.history == b.history.value
    ensures b.history.None? ==> r.history == s.history
    ensures b.lastDate.Some? ==> r.lastDate == b.lastDate.value
    ensures b.lastDate.None? ==> r.lastDate == s.lastDate
    ensures b.goalReachedToday.Some? ==> r.goalReachedToday == b.goalReachedToday.value
    ensures b.goalReachedToday.None? ==> r.goalReachedToday == s.goalReachedToday
  {
    AppState(Pick(b.weight, s.weight), Pick(b.dailyGoal, s.dailyGoal),
             Pick(b.currentIntake, s.currentIntake), Pick(b.selectedCupSize, s.selectedCupSize),
             Pick(b.history, s.history), Pick(b.lastDate, s.lastDate),
             Pick(b.goalReachedToday, s.goalReachedToday))
  }

  /** `loadData`: no stored text, or text that does not parse, leaves the record as it is. */
  function Loaded(s: AppState, stored: Option<Stored>): (r: AppState)
    ensures stored.None? || stored == Some(Unparseable) ==> r == s
    ensures stored.Some? && stored.value.Json? ==> r == Merge(s, stored.value.blob)
  {
    match stored
    case Some(Json(b)) => Merge(s, b)
    case _ => s
  }

  /** Whatever the record was, loading a saved record gives back exactly the saved one. */
  lemma SaveThenLoad(s: AppState, current: AppState)
    ensures Loaded(current, Some(Json(Encode(s)))) == s
  {
  }

  /** Loading the same blob a second time changes nothing more. */
  lemma MergeIdempotent(s: AppState, b: Blob)
    ensures Merge(Merge(s, b), b) == Merge(s, b)
  {
  }

  // ---------------------------------------------------------------------------
  // Day rollover

  /**
   * `checkDateReset`: on a day other than the record's, today's intake, log
   * and latch are cleared and the record is stamped with today; weight, goal
   * and cup are kept. On the record's own day nothing changes.
   */
  function RolledOver(s: AppState, today: string): (r: AppState)
    ensures s.lastDate == today ==> r == s
    ensures s.lastDate != today ==>
      r.currentIntake == 0 && r.history == [] && !r.goalReachedToday
    ensures r.lastDate == today
    ensures r.weight == s.weight && r.dailyGoal == s.dailyGoal && r.selectedCupSize == s.selectedCupSize
  {
    if s.lastDate != today then
      s.(currentIntake := 0, history := [], goalReachedToday := false, lastDate := today)
    else
      s
  }

  /** A second date check on the same day is a no-op. */
  lemma RolloverIdempotent(s: AppState, today: string)
    ensures RolledOver(RolledOver(s, today), today) == RolledOver(s, today)
  {
  }

  // ---------------------------------------------------------------------------
  // Goal

  /** Save-weight's check on `parseFloat` of the weight field: a number above zero. */
  predicate WeightAccepted(input: Option<real>): (ok: bool)
    ensures ok ==> input.Some? && GoalFor(input.value) >= 0
    ensures ok && input.Some? && input.value < 1.0 / 66.0 ==> GoalFor(input.value) == 0
  {
    input.Some? && input.value > 0.0
  }

  /**
   * The save-weight handler's update for an accepted weight: weight and goal
   * are set, and the latch is re-armed exactly when the new goal is above the
   * intake, so that a raised goal can be celebrated again.
   */
  function WeightSet(s: AppState, weight: real): (r: AppState)
    ensures r.weight == weight && r.dailyGoal == GoalFor(weight)
    ensures r.goalReachedToday == (s.goalReachedToday && GoalFor(weight) <= s.currentIntake)
    ensures r.(weight := s.weight, dailyGoal := s.dailyGoal, goalReachedToday := s.goalReachedToday) == s
  {
    var goal := GoalFor(weight);
    var latch := if goal > s.currentIntake then false else s.goalReachedToday;
    s.(weight := weight, dailyGoal := goal, goalReachedToday := latch)
  }

  // ---------------------------------------------------------------------------
  // Progress and the celebration latch

  /** `updateUI`'s percentage: the rounded, capped share of the goal, 0 without a goal. */
  function Percentage(s: AppState): (p: int)
    ensures s.dailyGoal <= 0 ==> p == 0
    ensures p <= 100 && (s.currentIntake >= 0 ==> p >= 0)
    ensures s.dailyGoal > 0 ==> (p == 100 <==> 200 * s.currentIntake >= 199 * s.dailyGoal)
  {
    RoundedPercent(s.currentIntake, s.dailyGoal)
  }

  /** Whether `updateUI` shows the celebration: at 100% with a goal, and not yet today. */
  predicate Celebrates(s: AppState): (b: bool)
    ensures b ==> s.dailyGoal > 0 && !s.goalReachedToday && 200 * s.currentIntake >= 199 * s.dailyGoal
    ensures b ==> TipIndex(Percentage(s)) == 4
  {
    Percentage(s) >= 100 && !s.goalReachedToday && s.dailyGoal > 0
  }

  /** The record after `updateUI`'s latch step. */
  function Latched(s: AppState): (r: AppState)
    ensures Celebrates(s) ==> r == s.(goalReachedToday := true)
    ensures !Celebrates(s) ==> r == s
    ensures !Celebrates(r)
  {
    if Celebrates(s) then s.(goalReachedToday := true) else s
  }

  /**
   * Because the percentage is rounded, the celebration fires from 99.5% of
   * the goal upwards: with goal 2310 ml it fires at 2300 ml, before the goal.
   */
  lemma CelebratesBeforeGoal()
    ensures var s := AppState(70.0, 2310, 2300, DefaultCup, [], "d", false);
      s.currentIntake < s.dailyGoal && Celebrates(s)
  {
  }

  /**
   * The re-arm test compares the goal with the intake, while the celebration
   * tests the rounded percentage. At 2300 ml of a 2310 ml goal the latch is
   * on, yet saving the same weight again re-arms it and the celebration
   * fires a second time, with the goal unchanged.
   */
  lemma SameWeightCelebratesAgain(d: string)
    ensures var s := AppState(70.0, 2310, 2300, DefaultCup, [], d, true);
      !Celebrates(s) && WeightSet(s, 70.0).dailyGoal == s.dailyGoal && Celebrates(WeightSet(s, 70.0))
  {
    RoundOfInt(2310);
  }

  /**
   * A weight too small for a goal (below 1/66 kg) is accepted but gives a
   * goal of 0, so the add-water handler still asks for a weight.
   */
  lemma TinyWeightGivesNoGoal(s: AppState)
    ensures WeightAccepted(Some(0.01)) && WeightSet(s, 0.01).dailyGoal == 0
  {
  }

  /** Exactly when the celebration fires, for a goal-setter who has not celebrated yet. */
  lemma CelebrationThreshold(s: AppState)
    requires s.dailyGoal > 0 && !s.goalReachedToday
    ensures Celebrates(s) <==> 200 * s.currentIntake >= 199 * s.dailyGoal
  {
  }

  /** `updateTip` without its random override: a tip per band of the percentage. */
  function TipIndex(percentage: int): (t: int)
    ensures 0 <= t <= 4
    ensures t == 0 <==> percentage == 0
    ensures t == 4 <==> percentage >= 90
    ensures t == 1 ==> percentage < 30
    ensures t == 2 ==> 30 <= percentage < 60
    ensures t == 3 ==> 60 <= percentage < 90
  {
    if percentage == 0 then 0
    else if percentage < 30 then 1
    else if percentage < 60 then 2
    else if percentage < 90 then 3
    else 4
  }

  /** What `updateUI` shows: percentage, remaining amount and tip. */
  datatype View = View(percentage: int, remaining: int, tip: int)

  // ---------------------------------------------------------------------------
  // Drinks and resets

  /** The add-water handler's update once a goal is set: one cup is added and logged, with no cap. */
  function WaterAdded(s: AppState, now: string): (r: AppState)
    ensures r.currentIntake == s.currentIntake + s.selectedCupSize
    ensures r.history == s.history + [Drink(now, s.selectedCupSize)]
    ensures |r.history| == |s.history| + 1
    ensures r.(currentIntake := s.currentIntake, history := s.history) == s
  {
    s.(currentIntake := s.currentIntake + s.selectedCupSize,
       history := s.history + [Drink(now, s.selectedCupSize)])
  }

  /**
   * One press of the add-water button followed by `updateUI`: the new record
   * and whether the celebration fired. Without a goal the press is refused.
   */
  function Press(s: AppState, now: string): (r: (AppState, bool))
    ensures s.dailyGoal == 0 ==> r == (s, false)
    ensures s.dailyGoal != 0 ==> r == (Latched(WaterAdded(s, now)), Celebrates(WaterAdded(s, now)))
    ensures s.goalReachedToday ==> r.0.goalReachedToday && !r.1
  {
    if s.dailyGoal == 0 then (s, false)
    else
      var added := WaterAdded(s, now);
      (Latched(added), Celebrates(added))
  }

  /** Presses at the clock times `times`, in order: the final record and the number of celebrations. */
  function Presses(s: AppState, times: seq<string>): (AppState, nat)
    decreases |times|
  {
    if times == [] then (s, 0)
    else
      var (next, fired) := Press(s, times[0]);
      var (last, count) := Presses(next, times[1..]);
      (last, count + if fired then 1 else 0)
  }

  /**
   * However many cups are added, the celebration fires at most once, and
   * never once the latch is set (until a reset, a new day or a raised goal).
   */
  lemma {:induction false} CelebratesAtMostOnce(s: AppState, times: seq<string>)
    ensures Presses(s, times).1 <= (if s.goalReachedToday then 0 else 1)
    ensures s.goalReachedToday ==> Presses(s, times).0.goalReachedToday
    decreases |times|
  {
    if times != [] {
      var (next, fired) := Press(s, times[0]);
      CelebratesAtMostOnce(next, times[1..]);
      if fired {
        assert next.goalReachedToday;
      }
    }
  }

  /** Pressing through `a` and then through `b` is pressing through `a + b`. */
  lemma {:induction false} PressesAppend(s: AppState, a: seq<string>, b: seq<string>)
    ensures Presses(s, a + b) ==
      (Presses(Presses(s, a).0, b).0, Presses(s, a).1 + Presses(Presses(s, a).0, b).1)
    decreases |a|
  {
    if a != [] {
      assert (a + b)[1..] == a[1..] + b;
      PressesAppend(Press(s, a[0]).0, a[1..], b);
    } else {
      assert a + b == b;
    }
  }

  /**
   * Presses that keep the intake below 99.5% of the goal add one cup each and
   * never celebrate.
   */
  lemma {:induction false} QuietPresses(s: AppState, times: seq<string>)
    requires s.dailyGoal > 0 && s.selectedCupSize >= 0
    requires 200 * (s.currentIntake + |times| * s.selectedCupSize) < 199 * s.dailyGoal
    ensures Presses(s, times).1 == 0
    ensures Presses(s, times).0.currentIntake == s.currentIntake + |times| * s.selectedCupSize
    ensures Presses(s, times).0.dailyGoal == s.dailyGoal
    ensures Presses(s, times).0.selectedCupSize == s.selectedCupSize
    ensures Presses(s, times).0.goalReachedToday == s.goalReachedToday
    decreases |times|
  {
    if times != [] {
      var next := WaterAdded(s, times[0]);
      assert (|times| - 1) * s.selectedCupSize + s.selectedCupSize == |times| * s.selectedCupSize;
      assert !Celebrates(next) by {
        assert 200 * next.currentIntake < 199 * s.dailyGoal;
      }
      QuietPresses(next, times[1..]);
    }
  }

  /**
   * The worked example: 70 kg gives a 2310 ml goal; with 350 ml cups six
   * presses (2100 ml) do not celebrate and the seventh (2450 ml) does.
   */
  lemma {:induction false} SeventhCupCelebrates(today: string, six: seq<string>, now: string)
    requires |six| == 6
    ensures WeightSet(Defaults(today), 70.0).dailyGoal == 2310
    ensures Presses(WeightSet(Defaults(today), 70.0), six).1 == 0
    ensures Presses(WeightSet(Defaults(today), 70.0), six).0.currentIntake == 2100
    ensures Presses(WeightSet(Defaults(today), 70.0), six + [now]).1 == 1
  {
    var s := WeightSet(Defaults(today), 70.0);
    RoundOfInt(2310);
    assert s.dailyGoal == 2310;
    QuietPresses(s, six);
    var (t, _) := Presses(s, six);
    PressesAppend(s, six, [now]);
    assert Celebrates(WaterAdded(t, now)) by {
      assert 200 * 2450 >= 199 * 2310;
    }
    assert Presses(t, [now]).1 == 1;
  }

  /** Reset-today's update: intake, log and latch cleared; weight, goal, cup and date kept. */
  function TodayReset(s: AppState): (r: AppState)
    ensures r.currentIntake == 0 && r.history == [] && !r.goalReachedToday
    ensures r.(currentIntake := s.currentIntake, history := s.history, goalReachedToday := s.goalReachedToday) == s
  {
    s.(currentIntake := 0, history := [], goalReachedToday := false)
  }

  /** After a reset or a new day with no intake, `updateUI` does not celebrate. */
  lemma NoCelebrationAtZero(s: AppState)
    requires s.currentIntake == 0
    ensures !Celebrates(s)
  {
  }

  // ---------------------------------------------------------------------------
  // The page

  class App {
    var weight: real
    var dailyGoal: int
    var currentIntake: int
    var selectedCupSize: int
    var history: seq<Drink>
    var lastDate: string
    var goalReachedToday: bool
    /** The text under the storage key, if any. */
    var stored: Option<Stored>

    function State(): AppState
      reads this
    {
      AppState(weight, dailyGoal, currentIntake, selectedCupSize, history, lastDate, goalReachedToday)
    }

    /** The record the script starts with on `today`, with `stored` left by earlier visits. */
    constructor (today: string, stored: Option<Stored>)
      ensures State() == Defaults(today) && this.stored == stored
    {
      weight, dailyGoal, currentIntake, selectedCupSize := 0.0, 0, 0, DefaultCup;
      history, lastDate, goalReachedToday := [], today, false;
      this.stored := stored;
    }

    method SetState(s: AppState)
      modifies this
      ensures State() == s && stored == old(stored)
    {
      weight, dailyGoal, currentIntake, selectedCupSize := s.weight, s.dailyGoal, s.currentIntake, s.selectedCupSize;
      history, lastDate, goalReachedToday := s.history, s.lastDate, s.goalReachedToday;
    }

    method SaveData()
      modifies this`stored
      ensures stored == Some(Json(Encode(State())))
    {
      stored := Some(Json(Encode(State())));
    }

    method LoadData()
      modifies this
      ensures State() == Loaded(old(State()), old(stored)) && stored == old(stored)
    {
      match stored {
        case Some(Json(parsed)) => SetState(Merge(State(), parsed));
        case _ =>
      }
    }

    method CheckDateReset(today: string)
      modifies this
      ensures State() == RolledOver(old(State()), today)
      ensures stored == if old(lastDate) != today then Some(Json(Encode(State()))) else old(stored)
    {
      if lastDate != today {
        currentIntake := 0;
        history := [];
        goalReachedToday := false;
        lastDate := today;
        SaveData();
      }
    }

    /** `updateUI`: what is shown, and whether the celebration fired (which sets the latch and saves). */
    method UpdateUI() returns (view: View, celebrated: bool)
      modifies this
      ensures view == View(Percentage(old(State())), Remaining(old(dailyGoal), old(currentIntake)),
                           TipIndex(Percentage(old(State()))))
      ensures celebrated == Celebrates(old(State()))
      ensures State() == Latched(old(State()))
      ensures stored == if celebrated then Some(Json(Encode(State()))) else old(stored)
    {
      var remaining := Max(0, dailyGoal - currentIntake);
      var percentage := 0;
      if dailyGoal > 0 {
        percentage := Min(100, Round(currentIntake as real / dailyGoal as real * 100.0));
      }
      view := View(percentage, remaining, TipIndex(percentage));
      celebrated := false;
      if percentage >= 100 && !goalReachedToday && dailyGoal > 0 {
        goalReachedToday := true;
        SaveData();
        celebrated := true;
      }
    }

    /** Page start-up: load, check the date, draw. */
    method Start(today: string) returns (celebrated: bool)
      modifies this
      ensures State() == Latched(RolledOver(Loaded(old(State()), old(stored)), today))
      ensures celebrated == Celebrates(RolledOver(Loaded(old(State()), old(stored)), today))
      ensures stored == if celebrated || Loaded(old(State()), old(stored)).lastDate != today
                        then Some(Json(Encode(State()))) else old(stored)
    {
      LoadData();
      CheckDateReset(today);
      var _, c := UpdateUI();
      celebrated := c;
    }

    /** The save-weight handler with `input` = `parseFloat` of the field; `ok` is false where it alerts. */
    method SaveWeight(input: Option<real>) returns (ok: bool, celebrated: bool)
      modifies this
      ensures ok == WeightAccepted(input)
      ensures !ok ==> State() == old(State()) && stored == old(stored) && !celebrated
      ensures ok ==> State() == Latched(WeightSet(old(State()), input.value))
      ensures ok ==> stored == Some(Json(Encode(State())))
      ensures ok ==> celebrated == Celebrates(WeightSet(old(State()), input.value))
    {
      if input.None? || input.value <= 0.0 {
        return false, false;
      }
      weight := input.value;
      dailyGoal := GoalFor(input.value);
      if dailyGoal > currentIntake {
        goalReachedToday := false;
      }
      SaveData();
      var _, c := UpdateUI();
      ok, celebrated := true, c;
    }

    /** A cup button: the size is taken, saved, and the page redrawn. */
    method SelectCup(size: int) returns (celebrated: bool)
      modifies this
      ensures State() == Latched(old(State()).(selectedCupSize := size))
      ensures stored == Some(Json(Encode(State())))
      ensures celebrated == Celebrates(old(State()).(selectedCupSize := size))
    {
      selectedCupSize := size;
      SaveData();
      var _, c := UpdateUI();
      celebrated := c;
    }

    /** The add-water handler at clock time `now`; `added` is false where it asks for a weight first. */
    method AddWater(now: string) returns (added: bool, celebrated: bool)
      modifies this
      ensures (State(), celebrated) == Press(old(State()), now)
      ensures added == (old(dailyGoal) != 0)
      ensures stored == if added then Some(Json(Encode(State()))) else old(stored)
    {
      if dailyGoal == 0 {
        return false, false;
      }
      var amount := selectedCupSize;
      currentIntake := currentIntake + amount;
      history := history + [Drink(now, amount)];
      SaveData();
      var _, c := UpdateUI();
      added, celebrated := true, c;
    }

    /** Reset today, when confirmed; the redraw that follows never celebrates. */
    method ResetToday(confirmed: bool)
      modifies this
      ensures State() == if confirmed then TodayReset(old(State())) else old(State())
      ensures stored == if confirmed then Some(Json(Encode(State()))) else old(stored)
    {
      if confirmed {
        currentIntake := 0;
        history := [];
        goalReachedToday := false;
        SaveData();
        NoCelebrationAtZero(State());
        var _, _ := UpdateUI();
      }
    }

    /** Clear all, when confirmed: the key is removed and the record is the defaults for `today`. */
    method ClearAll(confirmed: bool, today: string)
      modifies this
      ensures State() == if confirmed then Defaults(today) else old(State())
      ensures stored == if confirmed then None else old(stored)
    {
      if confirmed {
        stored := None;
        SetState(Defaults(today));
        NoCelebrationAtZero(State());
        var _, _ := UpdateUI();
      }
    }
  }
}
