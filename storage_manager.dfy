/**
 * The storage-manager variant of HydraTrack (local-storage.js): page-level
 * variables for today's intake, the goal, the cup size and a drink log,
 * kept in the browser's key-value storage under one key per field.
 *
 * Each operation is a pure function on a `Session` value (the page's
 * variables) and a `Storage` value (the stored keys); the `Page` class holds
 * the same variables as fields and its methods update them in place, each
 * proved to agree with its function.
 */
module StorageManager {
  import opened Hydration

  /** The log keeps only this many newest drinks. */
  const HistoryCap: nat := 50
  /** The history view shows this many newest drinks. */
  const RecentCount: nat := 10
  const DefaultGoal: int := 2000
  const DefaultCup: int := 350
  /** Validation bounds for the weight field, in kg. */
  const MinWeight: real := 30.0
  const MaxWeight: real := 200.0

  /** One logged drink: clock time, amount, running total after it, and its day. */
  datatype Entry = Entry(time: string, amount: int, total: int, date: string)

  /**
   * The page's variables. `weightBox` is the number in the weight field
   * (None when it is empty or not a number); `currentDate` is the day the
   * page was opened on.
   */
  datatype Session = Session(
    currentWater: int,
    dailyGoal: int,
    currentDate: string,
    cupSize: int,
    history: seq<Entry>,
    weightBox: Option<real>)

  /** The stored history text: a JSON array of entries, or text that does not parse. */
  datatype HistoryText = Json(entries: seq<Entry>) | Corrupt

  /**
   * The `hydratrack_*` storage keys, each absent (None) or holding a value.
   * An empty stored weight counts as absent, as the loader treats it.
   */
  datatype Storage = Storage(
    weight: Option<real>,
    goal: Option<int>,
    water: Option<int>,
    lastDate: Option<string>,
    cupSize: Option<int>,
    history: Option<HistoryText>,
    lifetime: Option<int>)

  const Empty: Storage := Storage(None, None, None, None, None, None, None)

  /** The variables as a page opened on `today` starts with, before anything is loaded. */
  function Fresh(today: string): Session
  {
    Session(0, DefaultGoal, today, DefaultCup, [], None)
  }

  /** The lifetime total as the saver reads it back: a missing key counts as 0. */
  function Lifetime(st: Storage): int
  {
    if st.lifetime.Some? then st.lifetime.value else 0
  }

  /**
   * `saveData`: writes every variable to its key and adds the WHOLE current
   * intake to the lifetime total, however often it is called.
   */
  function Saved(s: Session, st: Storage): (r: Storage)
    ensures Lifetime(r) == Lifetime(st) + s.currentWater
    ensures r.weight == s.weightBox && r.goal == Some(s.dailyGoal)
    ensures r.water == Some(s.currentWater) && r.lastDate == Some(s.currentDate)
    ensures r.history == Some(Json(s.history)) && r.cupSize == Some(s.cupSize)
  {
    Storage(s.weightBox, Some(s.dailyGoal), Some(s.currentWater), Some(s.currentDate),
            Some(s.cupSize), Some(Json(s.history)), Some(Lifetime(st) + s.currentWater))
  }

  /** Saving twice without any change in between counts today's intake twice. */
  lemma SavingTwiceCountsTwice(s: Session, st: Storage)
    ensures Lifetime(Saved(s, Saved(s, st))) == Lifetime(st) + 2 * s.currentWater
  {
  }

  // ---------------------------------------------------------------------------
  // Goal

  /**
   * `setGoal`'s check on `parseFloat` of the weight field: it refuses NaN,
   * zero and anything outside 30-200 kg.
   */
  predicate WeightAccepted(input: Option<real>): (ok: bool)
    ensures ok <==> input.Some? && 30.0 <= input.value <= 200.0
    ensures ok ==> 990 <= GoalFor(input.value) <= 6600
  {
    input.Some? && input.value != 0.0 && MinWeight <= input.value <= MaxWeight
  }

  /**
   * The variables after `setGoal` with `input` typed in the weight field:
   * the field keeps what was typed; the goal changes only when it is accepted.
   */
  function GoalSet(s: Session, input: Option<real>): (r: Session)
    ensures r.weightBox == input
    ensures WeightAccepted(input) ==> r.dailyGoal == GoalFor(input.value) && 990 <= r.dailyGoal <= 6600
    ensures !WeightAccepted(input) ==> r.dailyGoal == s.dailyGoal
    ensures r.(weightBox := s.weightBox, dailyGoal := s.dailyGoal) == s
  {
    if WeightAccepted(input) then
      GoalInValidRange(input.value);
      s.(weightBox := input, dailyGoal := GoalFor(input.value))
    else
      s.(weightBox := input)
  }

  // ---------------------------------------------------------------------------
  // Drinks

  /** `history.slice(-n)` when the log is longer than `n`: its newest `n` entries. */
  function Newest(h: seq<Entry>, n: nat): (r: seq<Entry>)
    ensures |r| == Min(|h|, n)
    ensures r == h[|h| - |r|..]
  {
    if |h| > n then h[|h| - n..] else h
  }

  /**
   * `addWater`: the intake grows by one cup, one entry recording that cup and
   * the new total is appended, and the log is cut to its newest 50 entries.
   */
  function WithDrink(s: Session, now: string): (r: Session)
    ensures r.currentWater == s.currentWater + s.cupSize
    ensures |r.history| == Min(|s.history| + 1, HistoryCap)
    ensures r.history[|r.history| - 1] == Entry(now, s.cupSize, r.currentWater, s.currentDate)
    ensures r.history[..|r.history| - 1] == s.history[|s.history| + 1 - |r.history|..]
    ensures r.(currentWater := s.currentWater, history := s.history) == s
  {
    var total := s.currentWater + s.cupSize;
    var h := s.history + [Entry(now, s.cupSize, total, s.currentDate)];
    var kept := Newest(h, HistoryCap);
    assert kept[..|kept| - 1] == s.history[|s.history| + 1 - |kept|..];
    s.(currentWater := total, history := kept)
  }

  /**
   * The check after each `addWater`: the goal is celebrated whenever the
   * intake is at or above a positive goal, on every drink and not only once.
   */
  predicate Celebrates(s: Session): (b: bool)
    ensures b <==> s.dailyGoal > 0 && Remaining(s.dailyGoal, s.currentWater) == 0
  {
    s.currentWater >= s.dailyGoal && s.dailyGoal > 0
  }

  /** Once at the goal, every further cup of non-negative size celebrates again. */
  lemma CelebratesOnEveryDrinkAtGoal(s: Session, now1: string, now2: string)
    requires Celebrates(s) && s.cupSize >= 0
    ensures Celebrates(WithDrink(s, now1))
    ensures Celebrates(WithDrink(WithDrink(s, now1), now2))
  {
  }

  /**
   * `undoDrink`: pops the newest entry and subtracts its amount, with no floor
   * at zero; on an empty log nothing changes.
   */
  function WithoutLastDrink(s: Session): (r: Session)
    ensures s.history == [] ==> r == s
    ensures s.history != [] ==>
      r.history + [s.history[|s.history| - 1]] == s.history &&
      r.currentWater == s.currentWater - s.history[|s.history| - 1].amount
    ensures r.(currentWater := s.currentWater, history := s.history) == s
  {
    if |s.history| > 0 then
      var last := s.history[|s.history| - 1];
      s.(currentWater := s.currentWater - last.amount, history := s.history[..|s.history| - 1])
    else
      s
  }

  /** Undo right after a drink restores the intake and the log, while the log held fewer than 50. */
  lemma UndoAfterDrink(s: Session, now: string)
    requires |s.history| < HistoryCap
    ensures WithoutLastDrink(WithDrink(s, now)) == s
  {
  }

  /**
   * With a full log the drink pushed the oldest entry out, so undo restores
   * the intake but leaves the log one entry shorter, without that oldest entry.
   */
  lemma UndoAfterDrinkAtCap(s: Session, now: string)
    requires |s.history| >= HistoryCap
    ensures WithoutLastDrink(WithDrink(s, now)).currentWater == s.currentWater
    ensures WithoutLastDrink(WithDrink(s, now)).history == s.history[|s.history| + 1 - HistoryCap..]
  {
  }

  /** `resetDay` (when confirmed): today's intake and log are cleared, settings kept. */
  function DayReset(s: Session): (r: Session)
    ensures r.currentWater == 0 && r.history == []
    ensures r.(currentWater := s.currentWater, history := s.history) == s
  {
    s.(currentWater := 0, history := [])
  }

  /** `clearAllData` (when confirmed): the variables go back to what a page opened today starts with. */
  function Cleared(s: Session): (r: Session)
    ensures r == Fresh(s.currentDate)
    ensures r.currentWater == 0 && r.history == [] && r.dailyGoal == 2000 && r.cupSize == 350
  {
    s.(currentWater := 0, dailyGoal := DefaultGoal, cupSize := DefaultCup, history := [], weightBox := None)
  }

  // ---------------------------------------------------------------------------
  // Loading

  /** The stored log as the loader reads it: unparseable text gives an empty log. */
  function LoadedHistory(current: seq<Entry>, stored: Option<HistoryText>): (h: seq<Entry>)
    ensures stored == None ==> h == current
    ensures stored == Some(Corrupt) ==> h == []
    ensures stored.Some? && stored.value.Json? ==> h == stored.value.entries
  {
    match stored
    case None => current
    case Some(Corrupt) => []
    case Some(Json(entries)) => entries
  }

  /** Whether the stored intake belongs to the page's day and can be continued. */
  predicate SameDay(s: Session, st: Storage)
  {
    st.lastDate == Some(s.currentDate) && st.water.Some?
  }

  /**
   * `loadSavedData`: a stored weight fills the weight field and sets the goal
   * from it (with no range check); a stored cup size is taken; the stored
   * intake is continued only when it was saved today, otherwise the intake is
   * 0 and the storage is stamped with today; the stored log is loaded in
   * both cases.
   */
  function Loaded(s: Session, st: Storage): (r: (Session, Storage))
    ensures st.weight.Some? ==> r.0.weightBox == st.weight && r.0.dailyGoal == GoalFor(st.weight.value)
    ensures st.weight.None? ==> r.0.weightBox == s.weightBox && r.0.dailyGoal == s.dailyGoal
    ensures r.0.cupSize == if st.cupSize.Some? then st.cupSize.value else s.cupSize
    ensures SameDay(s, st) ==> r.0.currentWater == st.water.value && r.1 == st
    ensures !SameDay(s, st) ==> r.0.currentWater == 0 && r.1 == st.(lastDate := Some(s.currentDate), water := Some(0))
    ensures r.0.history == LoadedHistory(s.history, st.history)
    ensures r.0.currentDate == s.currentDate
    ensures r.1.lastDate == Some(s.currentDate)
  {
    var withWeight := if st.weight.Some? then s.(weightBox := st.weight, dailyGoal := GoalFor(st.weight.value)) else s;
    var withCup := if st.cupSize.Some? then withWeight.(cupSize := st.cupSize.value) else withWeight;
    var (today, st') :=
      if SameDay(s, st) then (withCup.(currentWater := st.water.value), st)
      else (withCup.(currentWater := 0), st.(lastDate := Some(s.currentDate), water := Some(0)));
    (today.(history := LoadedHistory(s.history, st.history)), st')
  }

  /** Loading again from what a load left behind changes nothing. */
  lemma LoadIdempotent(s: Session, st: Storage)
    ensures Loaded(Loaded(s, st).0, Loaded(s, st).1) == Loaded(s, st)
  {
  }

  /**
   * A save followed by a reload on the same day gives back every variable,
   * provided the goal is the one the weight field gives (the goal key itself
   * is written but never read back).
   */
  lemma SaveThenReload(s: Session, st: Storage)
    requires s.weightBox.Some? && s.dailyGoal == GoalFor(s.weightBox.value)
    ensures Loaded(Fresh(s.currentDate), Saved(s, st)).0 == s
  {
  }

  /** With an empty weight field the goal does not survive a reload: it is back to 2000. */
  lemma GoalLostWithoutWeight(s: Session, st: Storage)
    requires s.weightBox.None?
    ensures Loaded(Fresh(s.currentDate), Saved(s, st)).0.dailyGoal == DefaultGoal
  {
  }

  /**
   * On a new day the intake restarts at 0 while yesterday's stored log is
   * kept, so an undo can drive the intake below zero.
   */
  lemma NewDayUndoGoesNegative(today: string, st: Storage)
    requires st.lastDate != Some(today)
    requires st.history.Some? && st.history.value.Json? && st.history.value.entries != []
    requires st.history.value.entries[|st.history.value.entries| - 1].amount > 0
    ensures Loaded(Fresh(today), st).0.currentWater == 0
    ensures Loaded(Fresh(today), st).0.history == st.history.value.entries
    ensures WithoutLastDrink(Loaded(Fresh(today), st).0).currentWater < 0
  {
  }

  /**
   * What is typed in the weight field is stored by the next save of any kind,
   * and the reload sets the goal from it with no range check: a weight that
   * `setGoal` refused still becomes the goal after a drink and a reload.
   */
  lemma RefusedWeightBecomesGoal(s: Session, w: real, now: string, st: Storage)
    requires !WeightAccepted(Some(w))
    ensures GoalSet(s, Some(w)).dailyGoal == s.dailyGoal
    ensures Loaded(Fresh(s.currentDate), Saved(WithDrink(GoalSet(s, Some(w)), now), st)).0.dailyGoal == GoalFor(w)
  {
  }

  /**
   * A weight typed without pressing the goal button is stored by the save
   * after the next drink, and the reload takes its goal from it.
   */
  lemma TypedWeightBecomesGoal(s: Session, w: real, now: string, st: Storage)
    ensures Loaded(Fresh(s.currentDate), Saved(WithDrink(s.(weightBox := Some(w)), now), st)).0.dailyGoal == GoalFor(w)
  {
  }

  /** For instance 250 kg is refused, yet after a drink and a reload the goal is 8250 ml, above 6600. */
  lemma RefusedWeightExample(s: Session, now: string, st: Storage)
    ensures !WeightAccepted(Some(250.0))
    ensures Loaded(Fresh(s.currentDate), Saved(WithDrink(GoalSet(s, Some(250.0)), now), st)).0.dailyGoal == 8250
  {
    RefusedWeightBecomesGoal(s, 250.0, now, st);
    RoundOfInt(8250);
  }

  // ---------------------------------------------------------------------------
  // Display

  /** `updateDisplay`'s fill percentage: `min(100, water / goal * 100)`, or 0 without a goal. */
  function Percent(water: int, goal: int): (p: real)
    ensures goal <= 0 ==> p == 0.0
    ensures p <= 100.0
    ensures water >= 0 ==> p >= 0.0
    ensures goal > 0 && water >= goal ==> p == 100.0
    ensures goal > 0 && water < goal ==> p * goal as real == 100.0 * water as real
  {
    if goal > 0 then
      var q := water as real / goal as real * 100.0;
      if q < 100.0 then q else 100.0
    else
      0.0
  }

  /** The percentage shown as text, `Math.round(percent)`, is the shared rounded percentage. */
  lemma ShownPercent(water: int, goal: int)
    ensures Round(Percent(water, goal)) == RoundedPercent(water, goal)
  {
  }

  /** `updateTip`: one tip per quarter of the way to the goal, index 0 to 4. */
  function TipBand(percent: real): (t: int)
    ensures 0 <= t <= 4
    ensures t > 0 ==> 25.0 * t as real <= percent
    ensures t < 4 ==> percent < 25.0 * (t + 1) as real
  {
    if percent < 25.0 then 0
    else if percent < 50.0 then 1
    else if percent < 75.0 then 2
    else if percent < 100.0 then 3
    else 4
  }

  /** A larger percentage never shows an earlier tip. */
  lemma TipBandMonotone(p: real, q: real)
    requires p <= q
    ensures TipBand(p) <= TipBand(q)
  {
  }

  /** What the page shows: fill, rounded percentage, intake, remaining and tip. */
  datatype Display = Display(fill: real, shown: int, current: int, remaining: int, tip: int)

  /** `viewHistory`'s selection: `[...history].reverse().slice(0, 10)`, newest first. */
  function Recent(h: seq<Entry>): (r: seq<Entry>)
    ensures |r| == Min(|h|, RecentCount)
    ensures forall i :: 0 <= i < |r| ==> r[i] == h[|h| - 1 - i]
  {
    var rev := Reverse(h);
    if |rev| > RecentCount then rev[..RecentCount] else rev
  }

  /** One row of the history table: the entry and its progress percentage. */
  datatype Row = Row(entry: Entry, percent: int)

  // ---------------------------------------------------------------------------
  // The page

  class Page {
    var currentWater: int
    var dailyGoal: int
    var currentDate: string
    var cupSize: int
    var history: seq<Entry>
    var weightBox: Option<real>
    /** The browser's storage for this page. */
    var storage: Storage

    function State(): Session
      reads this
    {
      Session(currentWater, dailyGoal, currentDate, cupSize, history, weightBox)
    }

    /** The page opened on `today`, with `storage` as left by earlier visits. */
    constructor (today: string, storage: Storage)
      ensures State() == Fresh(today) && this.storage == storage
    {
      currentWater, dailyGoal, currentDate, cupSize, history, weightBox := 0, DefaultGoal, today, DefaultCup, [], None;
      this.storage := storage;
    }

    method LoadSavedData()
      modifies this
      ensures (State(), storage) == Loaded(old(State()), old(storage))
    {
      if storage.weight.Some? {
        weightBox := storage.weight;
        dailyGoal := GoalFor(storage.weight.value);
      }
      if storage.cupSize.Some? {
        cupSize := storage.cupSize.value;
      }
      if storage.lastDate == Some(currentDate) && storage.water.Some? {
        currentWater := storage.water.value;
      } else {
        currentWater := 0;
        storage := storage.(lastDate := Some(currentDate), water := Some(0));
      }
      match storage.history {
        case None =>
        case Some(Corrupt) => history := [];
        case Some(Json(entries)) => history := entries;
      }
    }

    method SaveData()
      modifies this`storage
      ensures storage == Saved(State(), old(storage))
    {
      var lifetime := Lifetime(storage) + currentWater;
      storage := Storage(weightBox, Some(dailyGoal), Some(currentWater), Some(currentDate),
                         Some(cupSize), Some(Json(history)), Some(lifetime));
    }

    /**
     * Typing in the weight field without pressing the goal button: only the
     * field changes, and nothing is saved until the next save of any kind.
     */
    method TypeWeight(input: Option<real>)
      modifies this`weightBox
      ensures State() == old(State()).(weightBox := input)
    {
      weightBox := input;
    }

    /** `setGoal` after `input` was typed in the weight field; `ok` is false where the page alerts. */
    method SetGoal(input: Option<real>) returns (ok: bool)
      modifies this
      ensures ok == WeightAccepted(input)
      ensures State() == GoalSet(old(State()), input)
      ensures storage == if ok then Saved(State(), old(storage)) else old(storage)
    {
      weightBox := input;
      if input.None? || input.value == 0.0 || input.value < MinWeight || input.value > MaxWeight {
        return false;
      }
      dailyGoal := GoalFor(input.value);
      SaveData();
      ok := true;
    }

    /** `selectCup`: the size is taken and its key alone is written. */
    method SelectCup(size: int)
      modifies this
      ensures State() == old(State()).(cupSize := size)
      ensures storage == old(storage).(cupSize := Some(size))
    {
      cupSize := size;
      storage := storage.(cupSize := Some(size));
    }

    /** `addWater` at clock time `now`; `celebrate` says whether the goal celebration runs. */
    method AddWater(now: string) returns (celebrate: bool)
      modifies this
      ensures State() == WithDrink(old(State()), now)
      ensures storage == Saved(State(), old(storage))
      ensures celebrate == Celebrates(State())
    {
      var total := currentWater + cupSize;
      var log := history + [Entry(now, cupSize, total, currentDate)];
      if |log| > HistoryCap {
        log := log[|log| - HistoryCap..];
      }
      assert old(State()).(currentWater := total, history := log) == WithDrink(old(State()), now);
      currentWater, history := total, log;
      SaveData();
      celebrate := currentWater >= dailyGoal && dailyGoal > 0;
    }

    /** `undoDrink`; `undone` is false where the page says there is nothing to undo. */
    method UndoDrink() returns (undone: bool)
      modifies this
      ensures undone == (old(history) != [])
      ensures State() == WithoutLastDrink(old(State()))
      ensures storage == if undone then Saved(State(), old(storage)) else old(storage)
    {
      if |history| > 0 {
        var lastDrink := history[|history| - 1];
        history := history[..|history| - 1];
        currentWater := currentWater - lastDrink.amount;
        SaveData();
        undone := true;
      } else {
        undone := false;
      }
    }

    /** `updateDisplay`: the numbers the page shows for the current variables. */
    method UpdateDisplay() returns (d: Display)
      ensures d.fill == Percent(currentWater, dailyGoal)
      ensures d.shown == RoundedPercent(currentWater, dailyGoal)
      ensures d.current == currentWater && d.remaining == Remaining(dailyGoal, currentWater)
      ensures d.tip == TipBand(d.fill)
    {
      var percent := if dailyGoal > 0 then
        (var q := currentWater as real / dailyGoal as real * 100.0; if q < 100.0 then q else 100.0)
        else 0.0;
      ShownPercent(currentWater, dailyGoal);
      d := Display(percent, Round(percent), currentWater, Max(0, dailyGoal - currentWater), TipBand(percent));
    }

    /** `viewHistory`: one row per recent drink, newest first, each with its capped percentage. */
    method ViewHistory() returns (rows: seq<Row>)
      ensures |rows| == Min(|history|, RecentCount)
      ensures forall i :: 0 <= i < |rows| ==>
        rows[i].entry == history[|history| - 1 - i] &&
        rows[i].percent == RoundedPercent(rows[i].entry.total, dailyGoal)
    {
      var recentHistory := Recent(history);
      rows := [];
      var i := 0;
      while i < |recentHistory|
        invariant 0 <= i <= |recentHistory|
        invariant |rows| == i
        invariant forall k :: 0 <= k < i ==>
          rows[k] == Row(recentHistory[k], RoundedPercent(recentHistory[k].total, dailyGoal))
      {
        var entry := recentHistory[i];
        var entryPercent := if dailyGoal > 0 then Round(entry.total as real / dailyGoal as real * 100.0) else 0;
        rows := rows + [Row(entry, Min(100, entryPercent))];
        i := i + 1;
      }
    }

    /** `resetDay`; nothing happens unless the user confirms. */
    method ResetDay(confirmed: bool)
      modifies this
      ensures State() == if confirmed then DayReset(old(State())) else old(State())
      ensures storage == if confirmed then Saved(State(), old(storage)) else old(storage)
    {
      if confirmed {
        currentWater := 0;
        history := [];
        SaveData();
      }
    }

    /** `clearAllData`; on confirmation the storage is emptied and not written again. */
    method ClearAllData(confirmed: bool)
      modifies this
      ensures State() == if confirmed then Cleared(old(State())) else old(State())
      ensures storage == if confirmed then Empty else old(storage)
    {
      if confirmed {
        storage := Empty;
        currentWater := 0;
        dailyGoal := DefaultGoal;
        cupSize := DefaultCup;
        history := [];
        weightBox := None;
      }
    }
  }

  /** A page opened today: load, drink once, undo; intake and log are as loaded. */
  method DrinkThenUndo(today: string, storage: Storage, now: string) returns (page: Page)
    ensures fresh(page)
    ensures |Loaded(Fresh(today), storage).0.history| < HistoryCap ==>
      page.State() == Loaded(Fresh(today), storage).0
  {
    page := new Page(today, storage);
    page.LoadSavedData();
    ghost var loaded := page.State();
    var _ := page.AddWater(now);
    var _ := page.UndoDrink();
    if |loaded.history| < HistoryCap {
      UndoAfterDrink(loaded, now);
    }
  }
}
