/**
 The days the desktop app counts its usage in: a window of days, and of what went before only the
 first date, the latest week and the latest month.
 */
module UsageDays {
  import opened Options

  const DAY_MS: int := 86_400_000

  const KEPT_DAYS: nat := 8

  /** A date is the number of its UTC day. */
  function DateOf(now: int): int {
    now / DAY_MS
  }

  datatype Record = Record(date: int, version: string, signedIn: bool,
                           firstThisWeek: bool, firstThisMonth: bool, counts: map<string, nat>)

  /** The version that runs, and the ISO 8601 week and the month of a date, numbered in order. */
  datatype App = App(version: string, week: int -> int, month: int -> int)

  ghost predicate InOrder(app: App) {
    forall one, other :: one <= other ==> app.week(one) <= app.week(other) && app.month(one) <= app.month(other)
  }

  datatype State = State(firstDate: Option<int>, lastWeek: Option<int>, lastMonth: Option<int>, days: seq<Record>)

  const EMPTY_STATE := State(None, None, None, [])

  datatype Action =
    | Check
    | Count(counter: string)
    | NoteSignedIn(signedIn: bool)
    | Forget(dates: set<int>)

  /** An action, when it came and whether the switch was on then. */
  datatype Timed = Timed(at: int, enabled: bool, action: Action)

  // ---------------------------------------------------------------------------------------------
  // The window

  /** The first day of a date, or the number of days when there is none. */
  function IndexOf(days: seq<Record>, date: int): (i: nat)
    ensures i <= |days| && (i < |days| ==> days[i].date == date)
    ensures forall j :: 0 <= j < i ==> days[j].date != date
  {
    if days == [] then 0
    else if days[0].date == date then 0
    else 1 + IndexOf(days[1..], date)
  }

  lemma IndexIs(days: seq<Record>, date: int, n: nat)
    requires n <= |days| && (n < |days| ==> days[n].date == date)
    requires forall j :: 0 <= j < n ==> days[j].date != date
    ensures IndexOf(days, date) == n
  {
    if n > 0 {
      IndexIs(days[1..], date, n - 1);
    }
  }

  /** The days from `oldest` until before `date`. */
  function Between(days: seq<Record>, oldest: int, date: int): (kept: seq<Record>)
    ensures |kept| <= |days|
  {
    if days == [] then []
    else
      var last := days[|days| - 1];
      var before := Between(days[..|days| - 1], oldest, date);
      if oldest <= last.date < date then before + [last] else before
  }

  function Without(days: seq<Record>, dates: set<int>): (kept: seq<Record>)
    ensures |kept| <= |days|
  {
    if days == [] then []
    else
      var last := days[|days| - 1];
      var before := Without(days[..|days| - 1], dates);
      if last.date in dates then before else before + [last]
  }

  function Newest(days: seq<Record>): seq<Record> {
    if |days| > KEPT_DAYS then days[|days| - KEPT_DAYS..] else days
  }

  function NewDay(app: App, s: State, date: int): Record {
    Record(date, app.version, false, s.lastWeek != Some(app.week(date)), s.lastMonth != Some(app.month(date)), map[])
  }

  /** The state with a day for `date`, which is the one kept when there is one. */
  function Open(app: App, s: State, date: int): (after: State)
    ensures IndexOf(after.days, date) < |after.days|
  {
    if IndexOf(s.days, date) < |s.days| then s
    else
      var days := Newest(Between(s.days, date - (KEPT_DAYS - 1), date) + [NewDay(app, s, date)]);
      assert days[|days| - 1].date == date;
      State(if s.firstDate == None then Some(date) else s.firstDate, Some(app.week(date)), Some(app.month(date)), days)
  }

  function Bumped(day: Record, counter: string): Record {
    day.(counts := day.counts[counter := (if counter in day.counts then day.counts[counter] else 0) + 1])
  }

  function Counted(app: App, s: State, date: int, counter: string): State {
    var after := Open(app, s, date);
    var i := IndexOf(after.days, date);
    after.(days := after.days[i := Bumped(after.days[i], counter)])
  }

  function Signed(app: App, s: State, date: int): State {
    var after := Open(app, s, date);
    var i := IndexOf(after.days, date);
    after.(days := after.days[i := after.days[i].(signedIn := true)])
  }

  function Forgotten(s: State, dates: set<int>): State {
    s.(days := Without(s.days, dates))
  }

  function Discarded(s: State): State {
    State(s.firstDate, None, None, [])
  }

  function Step(app: App, s: State, e: Timed): State {
    if e.action.Forget? then Forgotten(s, e.action.dates)
    else if !e.enabled then Discarded(s)
    else
      match e.action
      case Count(counter) => Counted(app, s, DateOf(e.at), counter)
      case NoteSignedIn(signedIn) => if signedIn then Signed(app, s, DateOf(e.at)) else s
      case _ => s
  }

  function After(app: App, run: seq<Timed>): State {
    if run == [] then EMPTY_STATE else Step(app, After(app, run[..|run| - 1]), run[|run| - 1])
  }

  // ---------------------------------------------------------------------------------------------
  // The counter itself

  class DesktopUsage {
    const app: App
    var firstDate: Option<int>
    var lastWeek: Option<int>
    var lastMonth: Option<int>
    var days: seq<Record>
    // Whether a write is scheduled, what the file holds, and whether the last write failed.
    var pending: bool
    var stored: State
    ghost var lost: bool

    function Model(): State
      reads this
    {
      State(firstDate, lastWeek, lastMonth, days)
    }

    /** What is counted is in the file or will be written, unless the last write failed. */
    ghost predicate Saved()
      reads this
    {
      stored == Model() || pending || lost
    }

    constructor (app: App)
      ensures Saved() && this.app == app && Model() == EMPTY_STATE
    {
      this.app := app;
      firstDate, lastWeek, lastMonth, days := None, None, None, [];
      pending, stored, lost := false, EMPTY_STATE, false;
    }

    method Count(counter: string, now: int, enabled: bool, writes: bool)
      requires Saved()
      modifies this
      ensures Saved() && Model() == Step(app, old(Model()), Timed(now, enabled, Action.Count(counter)))
    {
      var counts := Counting(enabled, writes);
      if !counts {
        return;
      }
      var i := Today(now);
      var day := days[i];
      var count := if counter in day.counts then day.counts[counter] else 0;
      days := days[i := day.(counts := day.counts[counter := count + 1])];
      pending := true;
    }

    method NoteSignedIn(signedIn: bool, now: int, enabled: bool, writes: bool)
      requires Saved()
      modifies this
      ensures Saved() && Model() == Step(app, old(Model()), Timed(now, enabled, Action.NoteSignedIn(signedIn)))
    {
      var counts := Counting(enabled, writes);
      if !counts || !signedIn {
        return;
      }
      var i := Today(now);
      if !days[i].signedIn {
        days := days[i := days[i].(signedIn := true)];
        pending := true;
      } else {
        assert days[i := days[i].(signedIn := true)] == days;
      }
    }

    method Forget(dates: set<int>)
      requires Saved()
      modifies this
      ensures Saved() && Model() == Forgotten(old(Model()), dates)
    {
      days := Without(days, dates);
      pending := true;
    }

    method Counting(enabled: bool, writes: bool) returns (counts: bool)
      requires Saved()
      modifies this
      ensures Saved() && counts == enabled
      ensures Model() == Step(app, old(Model()), Timed(0, enabled, Check))
    {
      if enabled {
        return true;
      }
      Discard(writes);
      return false;
    }

    method Discard(writes: bool)
      requires Saved()
      modifies this
      ensures Saved() && Model() == Discarded(old(Model()))
    {
      if |days| == 0 && lastWeek == None && lastMonth == None {
        return;
      }
      days, lastWeek, lastMonth := [], None, None;
      Persist(writes);
    }

    /** Also what the scheduled write does when its minute is over. */
    method Persist(writes: bool)
      modifies this`pending, this`stored, this`lost
      ensures Saved() && !pending && lost == !writes && (writes ==> stored == Model())
    {
      pending, lost := false, !writes;
      if writes {
        stored := Model();
      }
    }

    method Today(now: int) returns (i: nat)
      modifies this`firstDate, this`lastWeek, this`lastMonth, this`days
      ensures Model() == Open(app, old(Model()), DateOf(now))
      ensures i == IndexOf(days, DateOf(now)) < |days|
      ensures Model() == old(Model()) || !days[i].signedIn
    {
      hide Newest, Between, IndexOf;
      var date := DateOf(now);
      i := IndexOf(days, date);
      if i < |days| {
        return;
      }
      var day := NewDay(app, Model(), date);
      if firstDate == None {
        firstDate := Some(date);
      }
      lastWeek, lastMonth := Some(app.week(date)), Some(app.month(date));
      var oldest := DateOf(now - (KEPT_DAYS - 1) * DAY_MS);
      OldestDate(now);
      NewestEndsWith(days, oldest, day);
      days := Newest(Between(days, oldest, date) + [day]);
      i := |days| - 1;
    }
  }

  lemma OldestDate(now: int)
    ensures DateOf(now - (KEPT_DAYS - 1) * DAY_MS) == DateOf(now) - (KEPT_DAYS - 1)
  {
  }

  /** A new day comes last and is the only one of its date. */
  lemma NewestEndsWith(days: seq<Record>, oldest: int, day: Record)
    ensures var kept := Newest(Between(days, oldest, day.date) + [day]);
            |kept| > 0 && kept[|kept| - 1] == day && IndexOf(kept, day.date) == |kept| - 1
  {
    BetweenIsBetween(days, oldest, day.date);
    var kept := Newest(Between(days, oldest, day.date) + [day]);
    assert forall j :: 0 <= j < |kept| - 1 ==> kept[j].date < day.date;
    assert kept[|kept| - 1] == day;
  }

  lemma {:induction false} BetweenIsBetween(days: seq<Record>, oldest: int, date: int)
    ensures forall j :: 0 <= j < |Between(days, oldest, date)| ==> oldest <= Between(days, oldest, date)[j].date < date
  {
    if days != [] {
      BetweenIsBetween(days[..|days| - 1], oldest, date);
    }
  }
}
